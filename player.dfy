/** The player rules (src/player.rs): spawning, the arrow-key movement rule
    with its choice of atlas and flips and its clamp to the screen box, and
    the collision bridge that ends a round. */
module PlayerPlugin {
  import opened Common
  import opened Geometry
  import opened AnimationPlugin
  import opened LoadingPlugin
  import opened World

  /** `Player { speed: 400. }` (src/player.rs:46). */
  const PlayerSpeed: real := 400.0

  /** Where the player appears (src/player.rs:37). */
  const SpawnTranslation: Vec3 := Vec3(0.0, 0.0, 1.0)

  /** The corners of the box the player is clamped to (src/player.rs:99). */
  const ClampMin: Vec3 := Vec3(-200.0, -360.0, 0.0)
  const ClampMax: Vec3 := Vec3(200.0, 360.0, 0.0)

  /** The entity `spawn_player` creates (src/player.rs:33-51): the player
      component with speed 400 at the spawn point, showing the `up` atlas. */
  function SpawnedPlayer(id: nat, assets: PlayerTextureAtlas): (e: Entity)
    ensures IsPlayer(e) && e.id == id
    // it starts at z = 1, a point the clamp of a move never produces
    ensures !InClampBox(e.translation)
  {
    Entity(id, SpawnTranslation, assets.up, PlayerKind(Player(PlayerSpeed)))
  }

  method SpawnPlayer(world: Registry<Entity>, assets: PlayerTextureAtlas)
    modifies world
    ensures world.entities == old(world.entities) + [SpawnedPlayer(old(world.spawned), assets)]
    ensures world.spawned == old(world.spawned) + 1
  {
    world.Spawn(SpawnedPlayer(world.spawned, assets));
  }

  /** Which arrow keys are held this tick. */
  datatype Keys = Keys(up: bool, down: bool, left: bool, right: bool)

  /** One axis of the movement vector: +1 for the positive key, -1 for the
      negative one, so holding both cancels. */
  function Axis(positive: bool, negative: bool): (a: real)
    ensures a == 1.0 || a == 0.0 || a == -1.0
    ensures a == 1.0 <==> positive && !negative
    ensures a == -1.0 <==> negative && !positive
    ensures a == 0.0 <==> positive == negative
  {
    (if positive then 1.0 else 0.0) - (if negative then 1.0 else 0.0)
  }

  /** The movement vector before scaling (src/player.rs:68-80). */
  function Direction(keys: Keys): (d: Vec2)
    ensures d == Zero2 <==> keys.up == keys.down && keys.left == keys.right
    ensures d.x < 0.0 <==> keys.left && !keys.right
    ensures d.y < 0.0 <==> keys.down && !keys.up
  {
    Vec2(Axis(keys.right, keys.left), Axis(keys.up, keys.down))
  }

  /** The movement of one tick: the direction scaled by speed times delta
      (src/player.rs:81). */
  function Movement(keys: Keys, speed: real, deltaSeconds: real): (m: Vec2)
    ensures m.x == 0.0 || m.x == speed * deltaSeconds || m.x == -(speed * deltaSeconds)
    ensures m.y == 0.0 || m.y == speed * deltaSeconds || m.y == -(speed * deltaSeconds)
    ensures speed * deltaSeconds == 0.0 ==> m == Zero2
  {
    Scale2(Direction(keys), speed * deltaSeconds)
  }

  predicate InClampBox(p: Vec3)
  {
    ClampMin.x <= p.x <= ClampMax.x && ClampMin.y <= p.y <= ClampMax.y && p.z == 0.0
  }

  /** The clamp of src/player.rs:98-99: the result is in the box, and a point
      whose x and y are already in the box keeps them, only z becoming 0. */
  function ClampToScreen(p: Vec3): (r: Vec3)
    ensures InClampBox(r)
    ensures ClampMin.x <= p.x <= ClampMax.x && ClampMin.y <= p.y <= ClampMax.y ==> r == Vec3(p.x, p.y, 0.0)
    ensures p.x < ClampMin.x ==> r.x == ClampMin.x
    ensures p.x > ClampMax.x ==> r.x == ClampMax.x
    ensures p.y < ClampMin.y ==> r.y == ClampMin.y
    ensures p.y > ClampMax.y ==> r.y == ClampMax.y
  {
    Clamp3(p, ClampMin, ClampMax)
  }

  /** With a positive speed and delta, the keys alone decide the movement:
      it is zero exactly when both axes cancel, it has no x part exactly when
      left and right cancel, and it points left (down) exactly when only left
      (only down) is held. */
  lemma MovementFollowsKeys(keys: Keys, speed: real, deltaSeconds: real)
    requires speed > 0.0 && deltaSeconds > 0.0
    ensures var m := Movement(keys, speed, deltaSeconds);
      && (m == Zero2 <==> keys.up == keys.down && keys.left == keys.right)
      && (m.x == 0.0 <==> keys.left == keys.right)
      && (m.x < 0.0 <==> keys.left && !keys.right)
      && (m.y < 0.0 <==> keys.down && !keys.up)
  {
    var k := speed * deltaSeconds;
    assert k > 0.0;
    var d := Direction(keys);
    assert k * d.x == 0.0 <==> d.x == 0.0;
    assert k * d.y == 0.0 <==> d.y == 0.0;
    assert k * d.x < 0.0 <==> d.x < 0.0;
    assert k * d.y < 0.0 <==> d.y < 0.0;
  }

  /** A move that stays inside the box is not clamped: x and y change by
      exactly the direction times 400 times delta, and z becomes 0 (the
      player spawns at z = 1). */
  lemma ExactStepInsideBox(keys: Keys, deltaSeconds: real, translation: Vec3)
    requires var m := Movement(keys, PlayerSpeed, deltaSeconds);
      ClampMin.x <= translation.x + m.x <= ClampMax.x && ClampMin.y <= translation.y + m.y <= ClampMax.y
    ensures var m := Movement(keys, PlayerSpeed, deltaSeconds);
      && m == Scale2(Direction(keys), 400.0 * deltaSeconds)
      && ClampToScreen(Add3(translation, Extend(m))) == Vec3(translation.x + m.x, translation.y + m.y, 0.0)
  {
    var m := Movement(keys, PlayerSpeed, deltaSeconds);
    var p := Add3(translation, Extend(m));
    assert p.x == translation.x + m.x && p.y == translation.y + m.y;
  }

  /** The movement vector built key by key, each held key adding or taking
      one from its axis (src/player.rs:68-80). */
  method ReadKeys(keys: Keys) returns (movement: Vec2)
    ensures movement == Direction(keys)
  {
    movement := Zero2;
    if keys.up {
      movement := movement.(y := movement.y + 1.0);
    }
    if keys.down {
      movement := movement.(y := movement.y - 1.0);
    }
    if keys.right {
      movement := movement.(x := movement.x + 1.0);
    }
    if keys.left {
      movement := movement.(x := movement.x - 1.0);
    }
  }

  /** The per-entity body of `keyboard_move_player` (src/player.rs:65-101),
      returning the new translation. */
  method KeyboardMovePlayer(keys: Keys, deltaSeconds: real, assets: PlayerTextureAtlas, player: Player,
                            translation: Vec3, animation: Animation, sprite: Sprite) returns (moved: Vec3)
    modifies animation`play, sprite`flipX, sprite`flipY, sprite`atlas
    ensures var m := Movement(keys, player.speed, deltaSeconds);
      && (m == Zero2 ==> !animation.play && moved == translation && unchanged(sprite))
      && (m != Zero2 ==> animation.play && moved == ClampToScreen(Add3(translation, Extend(m))))
      && (m != Zero2 && m.x == 0.0 ==>
            sprite.atlas == assets.up && sprite.flipY == (m.y < 0.0) && sprite.flipX == old(sprite.flipX))
      && (m.x != 0.0 ==>
            sprite.atlas == assets.walk && !sprite.flipY && sprite.flipX == (m.x < 0.0))
  {
    var movement := ReadKeys(keys);
    movement := Scale2(movement, player.speed * deltaSeconds);
    assert movement == Movement(keys, player.speed, deltaSeconds);
    if movement == Zero2 {
      animation.Stop();
      moved := translation;
    } else {
      animation.Play();
      if movement.x == 0.0 {
        if sprite.atlas != assets.up {
          sprite.atlas := assets.up;
        }
        sprite.flipY := movement.y < 0.0;
      } else {
        if sprite.atlas != assets.walk {
          sprite.atlas := assets.walk;
        }
        sprite.flipY := false;
        sprite.flipX := movement.x < 0.0;
      }
      moved := ClampToScreen(Add3(translation, Extend(movement)));
    }
  }

  /** A physics collision notification; the ids are the two bodies. */
  datatype CollisionEvent = Started(a: nat, b: nat) | Stopped(a: nat, b: nat)

  predicate IsStopped(e: CollisionEvent)
  {
    e.Stopped?
  }

  /** `Iterator::last`. */
  function Last<T>(s: seq<T>): Option<T>
  {
    if s == [] then None else Some(s[|s| - 1])
  }

  /** The source's test: the last `Started` event of the batch exists
      exactly when some event of the batch is `Started`. */
  lemma LastStartedExists(events: seq<CollisionEvent>)
    ensures Last(Without(events, IsStopped)).Some? <==> exists i :: 0 <= i < |events| && events[i].Started?
  {
    var started := Without(events, IsStopped);
    WithoutMembers(events, IsStopped);
    if started != [] {
      var e := started[0];
      assert e in events && e.Started?;
      var i :| 0 <= i < |events| && events[i] == e;
      assert events[i].Started?;
    }
    if exists i :: 0 <= i < |events| && events[i].Started? {
      var i :| 0 <= i < |events| && events[i].Started?;
      assert events[i] in started;
    }
  }

  datatype GameOverEvent = GameOverEvent

  /** `EventWriter<GameOverEvent>`: the events sent so far. */
  class EventWriter {
    var sent: seq<GameOverEvent>

    constructor ()
      ensures sent == []
    {
      sent := [];
    }

    method Send(e: GameOverEvent)
      modifies this
      ensures sent == old(sent) + [e]
    {
      sent := sent + [e];
    }
  }

  /** `collision_event` (src/player.rs:104-118), which runs only while
      Playing: a batch with any `Started` event sends one game-over event and
      switches to Menu, however many such events it holds. */
  method CollisionEventSystem(events: seq<CollisionEvent>, gameOver: EventWriter, state: State)
    requires state.current == Playing
    modifies gameOver, state
    ensures (exists i :: 0 <= i < |events| && events[i].Started?) ==>
              gameOver.sent == old(gameOver.sent) + [GameOverEvent] && state.current == Menu
    ensures (exists i :: 0 <= i < |events| && events[i].Started?) ==> state.current == Next(old(state.current), PlayerHit)
    ensures !(exists i :: 0 <= i < |events| && events[i].Started?) ==>
              gameOver.sent == old(gameOver.sent) && state.current == Playing
  {
    LastStartedExists(events);
    if Last(Without(events, IsStopped)).Some? {
      gameOver.Send(GameOverEvent);
      state.Set(Menu);
    }
  }
}
