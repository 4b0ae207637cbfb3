/** The game plugin (src/lib.rs): the screen path resource, the initial
    state, what entering Playing does to the world, and the facts that tie the screen path to the player's
    clamp box and to the enemies' keep range. */
module GamePlugin {
  import opened Common
  import opened Geometry
  import opened Paths
  import opened LoadingPlugin
  import opened World
  import opened PlayerPlugin
  import opened EnemyPlugin

  /** `ScreenPath::default()` (src/lib.rs:25-36): the corners of the screen,
      listed clockwise from the top left. */
  const ScreenPath: Path := Path([Vec2(-200.0, 360.0), Vec2(200.0, 360.0), Vec2(200.0, -360.0), Vec2(-200.0, -360.0)])

  /** `app.add_state(GameState::Loading)` (src/lib.rs:41). */
  const InitialState: GameState := Loading

  method NewState() returns (state: State)
    ensures fresh(state) && state.current == InitialState
  {
    state := new State(InitialState);
  }

  /** The exact length of each screen edge: the path is axis-aligned, so the
      square root of `length()` is exact. */
  function ScreenEdgeLength(i: nat): (len: real)
    requires i < 4
    ensures len > 0.0 && IsLengthOf(EdgeVector(ScreenPath, i), len)
  {
    if i % 2 == 0 then 400.0 else 720.0
  }

  /** The screen path has four vertices, no repeated neighbours, horizontal
      even edges and vertical odd edges. */
  lemma ScreenPathShape()
    ensures |ScreenPath.vertices| == 4 && NonDegenerate(ScreenPath)
    ensures forall i :: 0 <= i < 4 ==> (EdgeVector(ScreenPath, i).y == 0.0 <==> i % 2 == 0)
    ensures forall i :: 0 <= i < 4 ==> (EdgeVector(ScreenPath, i).x == 0.0 <==> i % 2 == 1)
  {
  }

  /** Twice the signed area the path encloses (the shoelace sum). */
  function SignedArea2(p: Path): real
  {
    AreaFrom(p, 0)
  }

  function AreaFrom(p: Path, i: nat): real
    requires i <= |p.vertices|
    decreases |p.vertices| - i
  {
    if i == |p.vertices| then 0.0
    else
      var a, b := p.vertices[i], p.vertices[EndIndex(p, i)];
      a.x * b.y - b.x * a.y + AreaFrom(p, i + 1)
  }

  /** The path runs clockwise around a 400 by 720 rectangle: its signed area
      is negative. */
  lemma ScreenPathIsClockwise()
    ensures SignedArea2(ScreenPath) == -2.0 * 400.0 * 720.0
  {
    assert AreaFrom(ScreenPath, 3) == -144000.0;
    assert AreaFrom(ScreenPath, 2) == -288000.0;
    assert AreaFrom(ScreenPath, 1) == -432000.0;
  }

  /** Because the path is convex and clockwise, the right-hand normal of
      each edge points to the inside: every vertex lies on that side or on
      the edge, and the centre strictly on that side. */
  lemma ScreenNormalsPointInward(i: nat, j: nat)
    requires i < 4 && j < 4
    ensures Dot2(Sub2(ScreenPath.vertices[j], ScreenPath.vertices[i]), RightNormal(EdgeVector(ScreenPath, i))) >= 0.0
    ensures Dot2(Sub2(Zero2, ScreenPath.vertices[i]), RightNormal(EdgeVector(ScreenPath, i))) > 0.0
  {
  }

  /** The path's corners are the corners of the box the player is clamped
      to, so enemies spawn on the boundary of the player's area. */
  lemma ScreenPathIsClampBox()
    ensures forall i :: 0 <= i < 4 ==>
      var v := ScreenPath.vertices[i];
      (v.x == ClampMin.x || v.x == ClampMax.x) && (v.y == ClampMin.y || v.y == ClampMax.y)
    ensures forall x, y :: (x == ClampMin.x || x == ClampMax.x) && (y == ClampMin.y || y == ClampMax.y) ==>
      Vec2(x, y) in ScreenPath.vertices
  {
  }

  /** Every point of the screen path is inside the player's clamp box and
      inside the enemies' keep range. */
  lemma ScreenEdgePointInRanges(i: nat, along: real)
    requires i < 4 && 0.0 <= along <= 1.0
    ensures var p := Extend(Add2(ScreenPath.vertices[i], Scale2(EdgeVector(ScreenPath, i), along)));
      InClampBox(p) && InKeepRange(p)
  {
  }

  /** Scaling an edge by a positive factor keeps the side its normal faces. */
  lemma NormalOfScaled(c: Vec2, v: Vec2, k: real)
    requires k > 0.0 && Dot2(c, RightNormal(v)) > 0.0
    ensures Dot2(c, RightNormal(Scale2(v, k))) > 0.0
  {
    assert Dot2(c, RightNormal(Scale2(v, k))) == k * Dot2(c, RightNormal(v));
  }

  /** The direction of a sampled screen edge is the edge scaled down by its
      length, so its right-hand normal points to the centre too. */
  lemma ScreenSegmentNormalInward(draw: nat)
    ensures var i := StartIndex(ScreenPath, draw);
      var normal := RightNormal(RandomSegment(ScreenPath, draw, ScreenEdgeLength(i)).rotation);
      Dot2(Sub2(Zero2, ScreenPath.vertices[i]), normal) > 0.0
  {
    var i := StartIndex(ScreenPath, draw);
    var len := ScreenEdgeLength(i);
    var v := EdgeVector(ScreenPath, i);
    ScreenNormalsPointInward(i, 0);
    assert RandomSegment(ScreenPath, draw, len).rotation == Scale2(v, 1.0 / len);
    NormalOfScaled(Sub2(Zero2, ScreenPath.vertices[i]), v, 1.0 / len);
  }

  /** An enemy spawned on the screen path starts inside the keep range and
      heads to the side of its edge where the centre of the screen lies. */
  lemma SpawnedEnemyEntersScreen(id: nat, assets: EnemyTextureAtlas, draws: SpawnDraws)
    requires ValidDraws(draws)
    ensures var i := StartIndex(ScreenPath, draws.segment);
      var len := ScreenEdgeLength(i);
      var e := SpawnedEnemy(id, ScreenPath, len, assets, draws);
      var normal := RightNormal(RandomSegment(ScreenPath, draws.segment, len).rotation);
      && InKeepRange(e.translation)
      && Dot2(e.kind.enemy.direction, normal) > 0.0
      && Dot2(Sub2(Zero2, ScreenPath.vertices[i]), normal) > 0.0
  {
    var i := StartIndex(ScreenPath, draws.segment);
    ScreenEdgePointInRanges(i, draws.along);
    ScreenSegmentNormalInward(draws.segment);
  }

  /** Clearing the players and then the enemies removes exactly the actors. */
  lemma {:induction false} ClearBothIsClearActors(s: seq<Entity>)
    ensures Without(Without(s, IsPlayer), IsEnemy) == Without(s, IsActor)
  {
    if s != [] {
      var init, last := s[..|s| - 1], s[|s| - 1];
      ClearBothIsClearActors(init);
      var tail := if IsPlayer(last) then [] else [last];
      WithoutAppend(Without(init, IsPlayer), tail, IsEnemy);
      assert Without(tail, IsEnemy) == if IsActor(last) then [] else [last] by {
        if tail != [] {
          assert tail[..0] == [];
        }
      }
    }
  }

  predicate IsScenery(e: Entity)
  {
    e.kind.Scenery?
  }

  /** What entering Playing does (src/player.rs:20-24, src/enemy.rs:34-37):
      the players and the enemies are despawned before the new player is
      spawned. */
  method EnterPlaying(world: Registry<Entity>, assets: PlayerTextureAtlas)
    modifies world
    ensures world.entities == Without(old(world.entities), IsActor) + [SpawnedPlayer(old(world.spawned), assets)]
    ensures world.spawned == old(world.spawned) + 1
  {
    ClearBothIsClearActors(world.entities);
    world.ClearEntities(IsPlayer);
    world.ClearEntities(IsEnemy);
    SpawnPlayer(world, assets);
  }

  /** After entering Playing the only actor is the new player, and the
      scenery is what it was, in the same order. */
  lemma EnterPlayingLeavesOnePlayer(s: seq<Entity>, id: nat, assets: PlayerTextureAtlas)
    ensures var r := Without(s, IsActor) + [SpawnedPlayer(id, assets)];
      && Without(r, IsScenery) == [SpawnedPlayer(id, assets)]
      && Without(r, IsActor) == Without(s, IsActor)
  {
    var kept := Without(s, IsActor);
    var player := SpawnedPlayer(id, assets);
    assert [player][..0] == [];
    WithoutAppend(kept, [player], IsScenery);
    WithoutMembers(s, IsActor);
    WithoutAllTagged(kept, IsScenery);
    WithoutAppend(kept, [player], IsActor);
    WithoutIdempotent(s, IsActor);
  }

  /** From the initial state the game reaches Playing only by way of Menu:
      the first state other than Loading is Menu. */
  lemma LoadingLeadsToMenu(t: Trigger)
    ensures Next(InitialState, t) == Loading || Next(InitialState, t) == Menu
  {
  }
}
