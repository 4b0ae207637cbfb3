# Dodge the Creeps (Bevy) — game rules in Dafny

This project models the game rules underneath the Bevy port of "Dodge the
Creeps". The player moves with the arrow keys inside a 400 by 720 box.
Enemies spawn every half second on the rectangle at the screen's edge and
fly inward. An enemy that leaves the keep range is despawned. A collision
ends the round and returns to the menu.

The engine is abstracted away:

- positions are exact `real`s;
- texture-atlas handles are ids;
- the world is a flat registry of entity records;
- every random draw, every frame delta, every square root and every angle is a parameter of the operation that uses it.

Modules, following the source tree:

- `Common` (`src/common/mod.rs`): the game states and the transitions between them, Bevy's `State<GameState>`, the entity registry and `clear_entities`.
- `Timers`: Bevy's repeating `Timer`, reduced to its arithmetic in integer nanoseconds.
- `Geometry`: `Vec2`/`Vec3` arithmetic, clamping, and rotation as complex multiplication.
- `AnimationPlugin` (`src/common/animation.rs`): the `Animation` component as a class with its setters, the sprite, and the per-entity step of `update_animation`.
- `Paths` (`src/common/path.rs`): `random_segment` and `random_point`.
- `LoadingPlugin` (`src/loading.rs`): the atlas records, `EnemyTextureAtlas::random`, and the loader's transition.
- `World`: the entity record holding the `Player` and `Enemy` components.
- `PlayerPlugin` (`src/player.rs`): spawning, `keyboard_move_player` and `collision_event`.
- `EnemyPlugin` (`src/enemy.rs`): the spawn timer, `spawn_enemy` and `move_enemy`.
- `GamePlugin` (`src/lib.rs`): the screen path, the initial state, the on-enter sequence of Playing, and the facts linking the screen path to the player's box and the enemies' keep range.

Two behaviours of the code are worth stating up front:

- The loader continues to Menu, not to Playing (`src/loading.rs:31`).
- `update_animation` advances one frame on a tick where the timer finished, however many periods that tick spanned; it has no catch-up loop (`src/common/animation.rs:96-99`). `AnimationPlugin.FrameAfterRunCountsFinishedTicks` and `Timers.CatchUpIsLost` state what follows from that.

## Model

| member | source | states |
|---|---|---|
| Common.State.Set | src/player.rs:116 | `state.set(..).unwrap()`: the new state is the one asked for; setting the current state is an error the callers must avoid |
| Common.Without | src/common/mod.rs:22-25 | clearing T never adds entities to the registry |
| Common.WithoutMembers | src/common/mod.rs:22-25 | the entities that stay after clearing T are exactly those of the old world not tagged T; none tagged T remains |
| Common.WithoutCounts | src/common/mod.rs:22-25 | every untagged entity stays as many times as it was there, and no tagged one stays |
| Common.WithoutAppend | src/common/mod.rs:22-25 | clearing commutes with concatenation, so in the model's registry the kept entities keep their relative order |
| Common.WithoutNoneTagged | src/common/mod.rs:22-25 | a world with no tagged entity is left unchanged |
| Common.WithoutAllTagged | src/common/mod.rs:22-25 | a world made only of tagged entities is left empty |
| Common.WithoutIdempotent | src/common/mod.rs:22-25 | clearing twice is clearing once: the second call removes nothing |
| Common.Registry.ClearEntities | src/common/mod.rs:22-25 | the loop over the registry leaves exactly the untagged entities, in the model's registry order, and touches nothing but the entity list |
| Common.Registry.Spawn | src/player.rs:34-35 | `commands.spawn_bundle(..)`: the new entity is appended to the store and the spawn count grows by one |
| Common.Next | src/loading.rs:31 | the only transitions are Loading to Menu on load, Playing to Menu on a hit, and Menu to Playing on start |
| Common.NeverBackToLoading | src/common/mod.rs:13-20 | once the game has left Loading it never returns there |
| Timers.Tick | src/common/animation.rs:96-97 | a tick keeps the timer valid, loses no time (whole periods plus remainder), and reports just-finished exactly when the elapsed time reached the duration |
| Timers.FromNanos | src/enemy.rs:27 | `Timer::from_seconds(.., true)`: a valid repeating timer of the given duration with nothing elapsed |
| Timers.Run | src/enemy.rs:53-56 | ticking through any run of deltas keeps the timer valid and its duration unchanged |
| Timers.RunKeepsTime | src/enemy.rs:53-54 | over any run of ticks the start offset plus the total delta equals the periods that ended times the duration plus what is left |
| Timers.FinishedTicksBounded | src/enemy.rs:53-56 | ticks that report just-finished never outnumber the ticks or the periods |
| Timers.RunAppend | src/enemy.rs:53-54 | a run split in two is the second part run from where the first left the timer, with the counts added |
| Timers.CatchUpIsLost | src/common/animation.rs:96-99 | one tick spanning two periods finishes once, while two ticks of one period finish twice |
| Geometry.Clamp3 | src/player.rs:98-99 | each component of the result is within its bounds, and a point inside the box is unchanged |
| Geometry.Clamp | src/player.rs:99 | one component of the clamp lies within its bounds, is kept when already inside, and goes to the bound it passed otherwise |
| Geometry.RotateKeepsUnit | src/enemy.rs:60 | rotating a unit vector by a unit vector gives a unit vector |
| Geometry.RotateAlongRightNormal | src/enemy.rs:60 | the component of the rotated vector along the right-hand normal is minus the turn's y part |
| Geometry.RotateAlongAxis | src/enemy.rs:60 | the component of the rotated vector along the original direction is the turn's x part |
| AnimationPlugin.Animation.constructor | src/common/animation.rs:49-57 | a new animation plays, has both flips off, stores the given atlas, and has a fresh repeating timer |
| AnimationPlugin.Animation.UpdateTextureAtlas | src/common/animation.rs:59-63 | the stored atlas becomes the given one; when they already match nothing changes, so a second call is a no-op |
| AnimationPlugin.Animation.Play | src/common/animation.rs:65-67 | sets the play flag and changes no other field |
| AnimationPlugin.Animation.FlipX | src/common/animation.rs:69-71 | sets flip_x to the argument and changes no other field |
| AnimationPlugin.Animation.FlipY | src/common/animation.rs:73-75 | sets flip_y to the argument and changes no other field |
| AnimationPlugin.Animation.Stop | src/common/animation.rs:77-79 | clears the play flag and changes no other field |
| AnimationPlugin.Sprite.Build | src/common/animation.rs:27-36 | the built sprite shows the animation's atlas, at frame 0, unflipped |
| AnimationPlugin.StepIndex | src/common/animation.rs:97-99 | on a finished tick the index moves one on and wraps at the frame count, so it stays below the count; otherwise it is unchanged |
| AnimationPlugin.UpdateAnimation | src/common/animation.rs:91-103 | a stopped animation changes neither it nor the sprite; a playing one ticks its timer and displays its atlas and flips, and its frame index follows StepIndex |
| AnimationPlugin.FrameAfterRunCountsFinishedTicks | src/common/animation.rs:96-99 | over any run the frame advances by the number of finished ticks modulo the frame count, not by the number of ended periods |
| Paths.StartIndex | src/common/path.rs:18 | the chosen edge index is the draw's remainder modulo N, and it is in [0, N) |
| Paths.EndIndex | src/common/path.rs:20 | the end vertex is the next one, and the last edge wraps to vertex 0 |
| Paths.NormalizeFacts | src/common/path.rs:21-25 | the normalised difference has length 1 and, scaled by the length, gives back the difference |
| Paths.RandomSegment | src/common/path.rs:17-27 | the segment begins at the chosen vertex, its length is the edge's non-negative Euclidean length, its direction is a unit vector, and begin plus direction times length is the end vertex |
| Paths.RandomPoint | src/common/path.rs:31-33 | a draw of 0 gives the segment's start, and along a unit direction the point lies the drawn fraction of the length away from the start |
| Paths.RandomPointOnEdge | src/common/path.rs:31-33 | a draw u in [0, 1) gives begin + u·(end − begin), which is never the end vertex |
| LoadingPlugin.Random | src/loading.rs:96-105 | the skin is always one of fly, swim and walk |
| LoadingPlugin.RandomByResidue | src/loading.rs:97-104 | with distinct atlases, residue 0 gives fly, 1 swim and 2 walk, and only those |
| LoadingPlugin.ChoiceCounts | src/loading.rs:97 | among the bytes below n, fly is chosen ⌈n/3⌉ times, swim ⌊(n+1)/3⌋ times and walk ⌊n/3⌋ times |
| LoadingPlugin.RandomIsSkewed | src/loading.rs:97 | over all 256 bytes fly is chosen 86 times and swim and walk 85 times each |
| LoadingPlugin.FinishLoading | src/loading.rs:25-31 | the loader leaves Loading for Menu, not for Playing, which is the `Common.Next` transition on loading |
| PlayerPlugin.SpawnPlayer | src/player.rs:33-51 | one player entity is added, with speed 400, at (0, 0, 1), showing the `up` atlas |
| PlayerPlugin.SpawnedPlayer | src/player.rs:33-51 | the spawned entity is a player with the given id, at z = 1, a point outside the box a move clamps to |
| PlayerPlugin.Axis | src/player.rs:68-80 | each movement component is −1, 0 or 1, and holding both opposite keys cancels to 0 |
| PlayerPlugin.ReadKeys | src/player.rs:68-80 | the vector built key by key, each held key adding or taking one from its axis, is the movement direction the keys select |
| PlayerPlugin.Direction | src/player.rs:68-80 | the movement vector is zero exactly when both key pairs cancel, and points left (down) exactly when only left (down) is held |
| PlayerPlugin.Movement | src/player.rs:81 | each component of the scaled movement is 0 or ±speed·dt, and all of it is zero when speed·dt is |
| PlayerPlugin.ClampToScreen | src/player.rs:98-99 | the result is in x ∈ [−200, 200], y ∈ [−360, 360], z = 0; x and y already inside are kept, and those outside go to the nearer bound |
| PlayerPlugin.MovementFollowsKeys | src/player.rs:68-81 | with positive speed and delta the movement is zero exactly when both axes cancel, has no x part exactly when left and right cancel, and points left (down) exactly when only left (down) is held |
| PlayerPlugin.ExactStepInsideBox | src/player.rs:81-99 | inside the box the position moves by exactly direction·400·dt, with z becoming 0 |
| PlayerPlugin.KeyboardMovePlayer | src/player.rs:65-101 | zero movement stops the animation and leaves the position and the sprite alone; otherwise it plays, purely vertical motion shows `up` with flip_y set exactly when moving down and flip_x kept, any horizontal motion shows `walk` with flip_y off and flip_x set exactly when moving left, and the position is clamped to the box |
| PlayerPlugin.LastStartedExists | src/player.rs:109-113 | the last `Started` event exists exactly when the batch holds some `Started` event |
| PlayerPlugin.CollisionEventSystem | src/player.rs:104-118 | a batch with any `Started` event sends exactly one game-over event and switches to Menu, the `Common.Next` transition on a hit; any other batch changes nothing |
| PlayerPlugin.EventWriter.Send | src/player.rs:115 | `game_over.send(..)`: the event is appended to the events sent |
| EnemyPlugin.EnemyTimer.constructor | src/enemy.rs:25-28 | the spawn timer repeats every 0.5 s and starts at zero |
| EnemyPlugin.SpawnedEnemy | src/enemy.rs:57-74 | the enemy starts at the drawn point of the drawn edge, with a speed in [100, 300) and the skin the byte picks; its direction is a unit vector heading to the right of the edge, within 45° of the edge's normal |
| EnemyPlugin.SpawnEnemy | src/enemy.rs:46-79 | the timer is ticked; exactly one enemy is spawned on a tick where it just finished and none otherwise |
| EnemyPlugin.TenTenthsSpawnTwice | src/enemy.rs:53-56 | the timer finishes on exactly two of ten ticks of 100 ms from a fresh timer |
| EnemyPlugin.InKeepRange | src/enemy.rs:89-90 | the keep range is half-open: the edges x = 250 and y = 400 are outside it, the edges x = −250 and y = −400 inside |
| EnemyPlugin.Culled | src/enemy.rs:89-93 | only enemies are despawned; an enemy on the edge x = 250 or y = 400 is despawned, and one at (−250, −400) is kept |
| EnemyPlugin.Integrate | src/enemy.rs:87-88 | moving an enemy leaves its z unchanged |
| EnemyPlugin.IntegrateAdditive | src/enemy.rs:87-88 | moving for a and then for b is moving for a + b |
| EnemyPlugin.IntegrateStill | src/enemy.rs:87-88 | with speed 0 or delta 0 the enemy does not move |
| EnemyPlugin.Advance | src/enemy.rs:86-88 | the query loop touches every entity once, and leaves every entity that is not an enemy as it was |
| EnemyPlugin.StepEntity | src/enemy.rs:84-88 | only enemies are moved; the id, the components and the atlas stay |
| EnemyPlugin.MoveEnemy | src/enemy.rs:81-95 | every enemy is moved and then despawned exactly when it left the keep range; the remaining entities keep the model registry's order |
| EnemyPlugin.MoveEnemyKeepsRange | src/enemy.rs:89-93 | every remaining enemy is inside the keep range, and an enemy survives exactly when its moved position is inside it |
| EnemyPlugin.MoveEnemyKeepsOthers | src/enemy.rs:86-94 | the entities that are not enemies are all kept, unchanged and in the model registry's order |
| GamePlugin.NewState | src/lib.rs:41 | the game starts in Loading |
| GamePlugin.ScreenEdgeLength | src/lib.rs:30-33 | the screen edges have lengths 400, 720, 400 and 720, all positive |
| GamePlugin.ScreenPathShape | src/lib.rs:26-34 | the screen path has four vertices and no repeated neighbours; even edges are horizontal and odd edges vertical |
| GamePlugin.ScreenPathIsClockwise | src/lib.rs:30-33 | the path's signed area is −400·720: it runs clockwise |
| GamePlugin.ScreenNormalsPointInward | src/lib.rs:30-33 | the right-hand normal of every screen edge faces every vertex and, strictly, the centre |
| GamePlugin.ScreenPathIsClampBox | src/lib.rs:30-33 | the vertices are exactly the corners of the player's clamp box |
| GamePlugin.ScreenEdgePointInRanges | src/lib.rs:30-33 | every point of the screen path is inside the player's clamp box and the enemies' keep range |
| GamePlugin.ScreenSegmentNormalInward | src/lib.rs:30-33 | the normal of a sampled screen edge's direction faces the centre |
| GamePlugin.SpawnedEnemyEntersScreen | src/enemy.rs:57-65 | an enemy spawned on the screen path starts in the keep range and heads toward the centre's side of its edge |
| GamePlugin.ClearBothIsClearActors | src/enemy.rs:34-37 | clearing the players and then the enemies removes exactly the actors |
| GamePlugin.EnterPlaying | src/player.rs:20-24 | entering Playing clears the players and enemies before one new player is spawned |
| GamePlugin.EnterPlayingLeavesOnePlayer | src/player.rs:20-24 | afterwards the new player is the only actor, and the scenery is unchanged and in the model registry's order |
| GamePlugin.LoadingLeadsToMenu | src/loading.rs:31 | from the initial state the first other state is Menu |

## Left out

- Floating point: positions, speeds and deltas are exact reals. The f32 rounding of movement, clamping and normalisation is not modelled.
- Bevy's `Timer` internals: durations and deltas are whole nanoseconds, and a repeating timer's duration is assumed positive.
- Square root and trigonometry: the edge length behind `length()` and `normalize()` is a parameter whose square is the edge's squared length. The launch vector `Vec2::from_angle(θ)` is a parameter required to be a unit vector in the cone θ ∈ [−3π/4, −π/4).
- The enemy's `Quat::from_rotation_z(..)` rotation, the 0.5 scale and the physics components (rigid body, collider, collision groups, locked axes) are not modelled. Rapier's collision detection is not modelled either: collision events arrive as an input list.
- AnimationPlugin.UpdateAnimation: on a tick where a playing animation's timer finishes, the displayed atlas must be loaded and have a positive frame count. The source panics otherwise, in `texture_atlases.get(..).unwrap()` (`src/common/animation.rs:98`) or in `% texture_atlas.textures.len()` (`src/common/animation.rs:99`), and the model does not cover those panics.
- Randomness: every draw (edge index, angle, speed, fraction, skin byte) is a parameter constrained to the generator's range.
- Paths.RandomSegment: requires the drawn edge to have a positive length. The source would produce a NaN direction on a repeated vertex. The screen path has none (`GamePlugin.ScreenPathShape`).
- The `usize` index draw is an unbounded `nat`. Its wrap-around cannot change `r % N`'s range.
- Query loops over many entities: `update_animation` and `keyboard_move_player` are modelled per entity. `move_enemy` and `clear_entities` are modelled over the whole registry.
- The benimator animation (`Animation::from_indices`, `AnimationState`, `animate`) that player.rs and enemy.rs attach is not part of this model. The `Animation` type of `src/common/animation.rs` stands in its place.
- Asset loading, atlas building, `general_texture_atlas_handle`, the asset collections, audio, the score UI, `setup` (camera and gravity) and the menu are not modelled. The menu's start button is a trigger of `Common.Next` only.
- Common.State.Set: Bevy's queue of scheduled state transitions and its on-enter/on-exit scheduling are not modelled. The on-enter systems are a fixed call sequence (`GamePlugin.EnterPlaying`).
- `despawn_recursive`'s removal of child entities: entities have no children here.
- Deferred commands: despawns and spawns take effect at once, in the order the system issues them, which gives the same final set of entities.
- Registry order: the registry is a sequence whose order is the model's own. Bevy does not specify the order in which a query visits entities, and a despawn swap-removes an entity from its table, which can reorder the survivors. Statements about order ("in order", "keep their order") speak of the model's sequence only.
- `DirectedLineSegment::rotation()` (`src/common/path.rs:35-37`) is the field `rotation` of the segment record.
- The enemy spawn timer is not reset on entering Playing; as in the source, it keeps its remainder.
