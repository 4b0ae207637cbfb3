/** The enemy rules (src/enemy.rs): a half-second repeating spawn timer that
    launches one enemy from a random point of the screen path toward the
    inside, and the movement rule that moves every enemy along its direction
    and removes the ones that leave the keep range. */
module EnemyPlugin {
  import opened Common
  import opened Geometry
  import opened Timers
  import opened Paths
  import opened LoadingPlugin
  import opened World

  /** `Timer::from_seconds(0.5, true)` in nanoseconds (src/enemy.rs:25-28). */
  const SpawnInterval: nat := 500_000_000

  /** The range `gen_range(100.0..300.0)` draws the speed from (src/enemy.rs:61). */
  const MinSpeed: real := 100.0
  const MaxSpeed: real := 300.0

  /** The `EnemyTimer` resource. */
  class EnemyTimer {
    var timer: RepeatingTimer

    constructor ()
      ensures timer == FromNanos(SpawnInterval)
    {
      timer := FromNanos(SpawnInterval);
    }
  }

  /** The random draws one spawn takes: the edge index of `random_segment`,
      the unit vector `Vec2::from_angle(angle)` of the launch angle, the
      speed, the fraction of `random_point` and the byte of
      `EnemyTextureAtlas::random`. */
  datatype SpawnDraws = SpawnDraws(segment: nat, turn: Vec2, speed: real, along: real, skin: Byte)

  /** `turn` is a unit vector at an angle in [-3π/4, -π/4): below the x axis
      and no further than 45° from straight down, the end -π/4 excluded. */
  predicate InLaunchCone(turn: Vec2)
  {
    Dot2(turn, turn) == 1.0 && turn.y <= turn.x < -turn.y
  }

  /** What the random number generator can return (src/enemy.rs:57-61, 65, 69). */
  predicate ValidDraws(d: SpawnDraws)
  {
    InLaunchCone(d.turn) && MinSpeed <= d.speed < MaxSpeed && 0.0 <= d.along < 1.0
  }

  /** The path and edge length the spawn needs: a nonempty path and the
      exact positive length of the edge the draw picks. */
  predicate SpawnableEdge(path: Path, edgeLength: real, draws: SpawnDraws)
  {
    |path.vertices| > 0 && edgeLength > 0.0 && IsLengthOf(EdgeVector(path, StartIndex(path, draws.segment)), edgeLength)
  }

  /** The enemy `spawn_enemy` creates (src/enemy.rs:57-74). It starts the
      drawn fraction of the way along the drawn edge, its speed is in
      [100, 300), its skin is the one the byte picks, and its direction is a
      unit vector whose component along the edge's right-hand normal is
      positive and at least as large as its component along the edge in
      either sense: it heads to the right of the edge, within 45° of the
      normal. */
  function SpawnedEnemy(id: nat, path: Path, edgeLength: real, assets: EnemyTextureAtlas, draws: SpawnDraws): (e: Entity)
    requires SpawnableEdge(path, edgeLength, draws) && ValidDraws(draws)
    ensures IsEnemy(e) && e.id == id
    ensures MinSpeed <= e.kind.enemy.speed < MaxSpeed
    ensures e.atlas == Random(assets, draws.skin)
    ensures var i := StartIndex(path, draws.segment);
      e.translation == Extend(Add2(path.vertices[i], Scale2(EdgeVector(path, i), draws.along)))
    ensures var edge := RandomSegment(path, draws.segment, edgeLength).rotation;
      var dir := e.kind.enemy.direction;
      && Dot2(dir, dir) == 1.0
      && Dot2(dir, RightNormal(edge)) > 0.0
      && -Dot2(dir, RightNormal(edge)) <= Dot2(dir, edge) < Dot2(dir, RightNormal(edge))
  {
    var seg := RandomSegment(path, draws.segment, edgeLength);
    RandomPointOnEdge(path, draws.segment, edgeLength, draws.along);
    RotateKeepsUnit(seg.rotation, draws.turn);
    RotateAlongRightNormal(seg.rotation, draws.turn);
    RotateAlongAxis(seg.rotation, draws.turn);
    var direction := Rotate(seg.rotation, draws.turn);
    Entity(id, Extend(RandomPoint(seg, draws.along)), Random(assets, draws.skin),
           EnemyKind(Enemy(direction, draws.speed)))
  }

  /** `spawn_enemy` (src/enemy.rs:46-79): tick the timer and, on a tick where
      it just finished, spawn exactly one enemy; otherwise spawn nothing. */
  method SpawnEnemy(timer: EnemyTimer, world: Registry<Entity>, delta: nat, path: Path, edgeLength: real,
                    assets: EnemyTextureAtlas, draws: SpawnDraws)
    requires timer.timer.Valid()
    requires SpawnableEdge(path, edgeLength, draws) && ValidDraws(draws)
    modifies timer, world
    ensures timer.timer == Tick(old(timer.timer), delta).timer
    ensures Tick(old(timer.timer), delta).JustFinished() ==>
      && world.entities == old(world.entities) + [SpawnedEnemy(old(world.spawned), path, edgeLength, assets, draws)]
      && world.spawned == old(world.spawned) + 1
    ensures !Tick(old(timer.timer), delta).JustFinished() ==>
      world.entities == old(world.entities) && world.spawned == old(world.spawned)
  {
    var ticked := Tick(timer.timer, delta);
    timer.timer := ticked.timer;
    if !ticked.JustFinished() {
      return;
    }
    var enemy := SpawnedEnemy(world.spawned, path, edgeLength, assets, draws);
    world.Spawn(enemy);
  }

  /** Ten ticks of 100 ms from a fresh spawn timer finish on two of them, the
      fifth and the tenth, so two enemies are spawned. */
  lemma TenTenthsSpawnTwice()
    ensures Run(FromNanos(SpawnInterval), seq(10, _ => 100_000_000)).finishedTicks == 2
  {
    var d := 100_000_000;
    var five := [d, d, d, d, d];
    var t := FromNanos(SpawnInterval);
    assert Run(RepeatingTimer(SpawnInterval, 4 * d), five[4..]) == Trace(t, 1, 1);
    assert Run(RepeatingTimer(SpawnInterval, 3 * d), five[3..]) == Trace(t, 1, 1);
    assert Run(RepeatingTimer(SpawnInterval, 2 * d), five[2..]) == Trace(t, 1, 1);
    assert Run(RepeatingTimer(SpawnInterval, d), five[1..]) == Trace(t, 1, 1);
    assert Run(t, five) == Trace(t, 1, 1);
    assert seq(10, _ => 100_000_000) == five + five;
    RunAppend(t, five, five);
  }

  /** `(-250.0..250.).contains(x) && (-400.0..400.).contains(y)`: half-open
      ranges (src/enemy.rs:89-90). */
  predicate InKeepRange(p: Vec3)
    // the upper edges are culled, the lower edges kept
    ensures InKeepRange(p) ==> p.x != 250.0 && p.y != 400.0
    ensures p.x == -250.0 && -400.0 <= p.y < 400.0 ==> InKeepRange(p)
    ensures p.y == -400.0 && -250.0 <= p.x < 250.0 ==> InKeepRange(p)
  {
    -250.0 <= p.x < 250.0 && -400.0 <= p.y < 400.0
  }

  /** `translation += speed * delta_seconds * direction.extend(0.)`
      (src/enemy.rs:87-88). */
  function Integrate(translation: Vec3, enemy: Enemy, dt: real): (r: Vec3)
    ensures r.z == translation.z
  {
    Add3(translation, Extend(Scale2(enemy.direction, enemy.speed * dt)))
  }

  /** Moving for `a` and then for `b` is moving for `a + b`. */
  lemma IntegrateAdditive(p: Vec3, enemy: Enemy, a: real, b: real)
    ensures Integrate(Integrate(p, enemy, a), enemy, b) == Integrate(p, enemy, a + b)
  {
  }

  /** An enemy with no speed, or a tick with no time, does not move. */
  lemma IntegrateStill(p: Vec3, enemy: Enemy, dt: real)
    requires enemy.speed == 0.0 || dt == 0.0
    ensures Integrate(p, enemy, dt) == p
  {
  }

  /** The query loop of `move_enemy` moves enemies only. */
  function StepEntity(e: Entity, dt: real): (r: Entity)
    ensures r.id == e.id && r.kind == e.kind && r.atlas == e.atlas
    ensures !IsEnemy(e) ==> r == e
  {
    if IsEnemy(e) then e.(translation := Integrate(e.translation, e.kind.enemy, dt)) else e
  }

  /** An enemy that is outside the keep range after moving is despawned. */
  predicate Culled(e: Entity)
    ensures !IsEnemy(e) ==> !Culled(e)
    ensures IsEnemy(e) && (e.translation.x == 250.0 || e.translation.y == 400.0) ==> Culled(e)
    ensures IsEnemy(e) && e.translation.x == -250.0 && e.translation.y == -400.0 ==> !Culled(e)
  {
    IsEnemy(e) && !InKeepRange(e.translation)
  }

  function Advance(s: seq<Entity>, dt: real): (r: seq<Entity>)
    ensures |r| == |s|
    ensures forall i :: 0 <= i < |s| && !IsEnemy(s[i]) ==> r[i] == s[i]
  {
    seq(|s|, i requires 0 <= i < |s| => StepEntity(s[i], dt))
  }

  /** One more entity of the old world moved and, unless culled, kept. */
  lemma AdvanceStep(s: seq<Entity>, dt: real, i: nat)
    requires i < |s|
    ensures var moved := StepEntity(s[i], dt);
      Without(Advance(s[..i + 1], dt), Culled) == Without(Advance(s[..i], dt), Culled) + (if Culled(moved) then [] else [moved])
  {
    var moved := StepEntity(s[i], dt);
    assert s[..i + 1][i] == s[i];
    assert Advance(s[..i + 1], dt) == Advance(s[..i], dt) + [moved];
    WithoutSnoc(Advance(s[..i], dt), moved, Culled);
  }

  /** `move_enemy` (src/enemy.rs:81-95) over the whole world: every enemy is
      moved, and those that end outside the keep range are despawned. The
      order of the registry is the model's own: the despawns are deferred
      commands, and Bevy does not promise an order of its query results. */
  method MoveEnemy(world: Registry<Entity>, dt: real)
    modifies world`entities
    ensures world.entities == Without(Advance(old(world.entities), dt), Culled)
  {
    var s := world.entities;
    var kept: seq<Entity> := [];
    var i := 0;
    while i < |s|
      invariant 0 <= i <= |s|
      invariant kept == Without(Advance(s[..i], dt), Culled)
    {
      var moved := StepEntity(s[i], dt);
      AdvanceStep(s, dt, i);
      if !Culled(moved) {
        kept := kept + [moved];
      }
      i := i + 1;
    }
    assert s[..|s|] == s;
    world.entities := kept;
  }

  /** After `move_enemy` every remaining enemy is inside the keep range, and
      an enemy of the old world survives exactly when its moved translation is
      inside it. */
  lemma MoveEnemyKeepsRange(s: seq<Entity>, dt: real, i: nat)
    requires i < |s| && IsEnemy(s[i])
    ensures forall e :: e in Without(Advance(s, dt), Culled) && IsEnemy(e) ==> InKeepRange(e.translation)
    ensures StepEntity(s[i], dt) in Without(Advance(s, dt), Culled) <==>
              InKeepRange(Integrate(s[i].translation, s[i].kind.enemy, dt))
  {
    WithoutMembers(Advance(s, dt), Culled);
    assert Advance(s, dt)[i] == StepEntity(s[i], dt);
  }

  /** `move_enemy` leaves every entity that is not an enemy where it was, in
      the same order. */
  lemma {:induction false} MoveEnemyKeepsOthers(s: seq<Entity>, dt: real)
    ensures Without(Without(Advance(s, dt), Culled), IsEnemy) == Without(s, IsEnemy)
  {
    if s != [] {
      var init, last := s[..|s| - 1], s[|s| - 1];
      var moved := StepEntity(last, dt);
      var advanced := Advance(init, dt);
      var kept := Without(advanced, Culled);
      assert s == init + [last];
      assert Advance(s, dt) == advanced + [moved];
      WithoutSnoc(advanced, moved, Culled);
      WithoutSnoc(init, last, IsEnemy);
      MoveEnemyKeepsOthers(init, dt);
      if Culled(moved) {
        assert Without(Advance(s, dt), Culled) == kept;
        assert Without(s, IsEnemy) == Without(init, IsEnemy);
      } else {
        assert Without(Advance(s, dt), Culled) == kept + [moved];
        WithoutSnoc(kept, moved, IsEnemy);
        if IsEnemy(last) {
          assert Without(kept + [moved], IsEnemy) == Without(kept, IsEnemy);
          assert Without(s, IsEnemy) == Without(init, IsEnemy);
        } else {
          assert moved == last;
          assert Without(kept + [moved], IsEnemy) == Without(kept, IsEnemy) + [last];
          assert Without(s, IsEnemy) == Without(init, IsEnemy) + [last];
        }
      }
    }
  }
}
