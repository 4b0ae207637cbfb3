/** The per-entity animation clock (src/common/animation.rs): a play flag,
    flip flags and the atlas the animation wants shown, a repeating frame
    timer, and the per-tick step that copies these onto the entity's sprite
    and advances its frame index. */
module AnimationPlugin {
  import opened Timers

  /** A `Handle<TextureAtlas>`; handles are compared by id and a clone keeps
      the id, so the id stands for the handle. */
  type AtlasId = nat

  /** The `Animation` component (src/common/animation.rs:39-46). */
  class Animation {
    var play: bool
    var timer: RepeatingTimer
    var flipX: bool
    var flipY: bool
    var textureAtlas: AtlasId

    ghost predicate Valid()
      reads this`timer
    {
      timer.Valid()
    }

    /** `Animation::new(seconds, texture_atlas)`, the frame period given in
        nanoseconds (src/common/animation.rs:49-57). */
    constructor (period: nat, textureAtlas: AtlasId)
      requires period > 0
      ensures Valid()
      ensures play && !flipX && !flipY
      ensures this.textureAtlas == textureAtlas
      ensures timer == FromNanos(period)
    {
      play := true;
      flipX, flipY := false, false;
      timer := FromNanos(period);
      this.textureAtlas := textureAtlas;
    }

    /** Replaces the wanted atlas, and only when its id differs
        (src/common/animation.rs:59-63). */
    method UpdateTextureAtlas(atlas: AtlasId)
      modifies this`textureAtlas
      ensures textureAtlas == atlas
      ensures old(textureAtlas) == atlas ==> unchanged(this)
    {
      if textureAtlas != atlas {
        textureAtlas := atlas;
      }
    }

    method Play()
      modifies this`play
      ensures play
    {
      play := true;
    }

    method FlipX(b: bool)
      modifies this`flipX
      ensures flipX == b
    {
      flipX := b;
    }

    method FlipY(b: bool)
      modifies this`flipY
      ensures flipY == b
    {
      flipY := b;
    }

    method Stop()
      modifies this`play
      ensures !play
    {
      play := false;
    }
  }

  /** The entity's `TextureAtlasSprite` (frame index and flips) together with
      its `Handle<TextureAtlas>` component, the atlas actually displayed. */
  class Sprite {
    var index: nat
    var flipX: bool
    var flipY: bool
    var atlas: AtlasId

    /** `AnimationSpriteBundleBuilder::build`: a default sprite showing the
        animation's atlas (src/common/animation.rs:27-36). */
    constructor Build(animation: Animation)
      ensures index == 0 && !flipX && !flipY
      ensures atlas == animation.textureAtlas
    {
      index := 0;
      flipX, flipY := false, false;
      atlas := animation.textureAtlas;
    }
  }

  /** The frame index after one tick: one frame on, wrapping at the frame
      count, when the timer just finished, and the same frame otherwise. */
  function StepIndex(index: nat, justFinished: bool, frameCount: nat): (r: nat)
    requires justFinished ==> frameCount > 0
    ensures justFinished ==> r < frameCount
    ensures !justFinished ==> r == index
    ensures justFinished && index + 1 < frameCount ==> r == index + 1
    ensures justFinished && index + 1 == frameCount ==> r == 0
  {
    if justFinished then (index + 1) % frameCount else index
  }

  /** The body of `update_animation` for one entity (src/common/animation.rs:91-103).
      `frameCounts` gives the number of frames of each loaded atlas; the source
      unwraps the lookup and divides by the count, so both must succeed on a
      tick where the timer finishes. */
  method UpdateAnimation(animation: Animation, sprite: Sprite, delta: nat, frameCounts: map<AtlasId, nat>)
    requires animation.Valid()
    requires animation.play && Tick(animation.timer, delta).JustFinished() ==>
               animation.textureAtlas in frameCounts && frameCounts[animation.textureAtlas] > 0
    modifies animation`timer, sprite
    ensures animation.Valid()
    ensures !old(animation.play) ==> unchanged(animation) && unchanged(sprite)
    ensures old(animation.play) ==>
      var ticked := Tick(old(animation.timer), delta);
      && animation.timer == ticked.timer
      && sprite.atlas == animation.textureAtlas
      && sprite.flipX == animation.flipX && sprite.flipY == animation.flipY
      && sprite.index == StepIndex(old(sprite.index), ticked.JustFinished(),
                                   if ticked.JustFinished() then frameCounts[animation.textureAtlas] else 0)
  {
    if animation.play {
      if sprite.atlas != animation.textureAtlas {
        sprite.atlas := animation.textureAtlas;
      }
      var ticked := Tick(animation.timer, delta);
      animation.timer := ticked.timer;
      if ticked.JustFinished() {
        sprite.index := (sprite.index + 1) % frameCounts[sprite.atlas];
      }
      sprite.flipX := animation.flipX;
      sprite.flipY := animation.flipY;
    }
  }

  /** The frame index after `UpdateAnimation` has run on each delta in turn,
      with a playing animation whose atlas has `frameCount` frames. */
  function FrameAfterRun(index: nat, frameCount: nat, t: RepeatingTimer, deltas: seq<nat>): nat
    requires frameCount > 0 && t.Valid()
    decreases |deltas|
  {
    if deltas == [] then index
    else
      var ticked := Tick(t, deltas[0]);
      FrameAfterRun(StepIndex(index, ticked.JustFinished(), frameCount), frameCount, ticked.timer, deltas[1..])
  }

  lemma MulAtLeast(a: int, c: nat)
    requires a >= 1
    ensures a * c >= c
  {
    assert a * c == (a - 1) * c + c;
  }

  /** Euclidean division has one quotient and one remainder. */
  lemma ModUnique(n: nat, c: nat, q: int, r: int)
    requires c > 0 && 0 <= r < c && n == q * c + r
    ensures n % c == r
  {
    var q', r' := n / c, n % c;
    assert n == q' * c + r';
    assert (q - q') * c == r' - r;
    if q > q' {
      MulAtLeast(q - q', c);
    } else if q < q' {
      MulAtLeast(q' - q, c);
    }
  }

  lemma ModShift(c: nat, k: nat)
    requires c > 0
    ensures (c + k) % c == k % c
  {
    var q, r := k / c, k % c;
    assert k == q * c + r;
    assert c + k == (q + 1) * c + r;
    ModUnique(c + k, c, q + 1, r);
  }

  /** Over any run of ticks the frame index moves on by the number of ticks
      on which the timer finished, not by the number of periods that ended:
      a tick that spans several periods still advances one frame. */
  lemma {:induction false} FrameAfterRunCountsFinishedTicks(index: nat, frameCount: nat, t: RepeatingTimer, deltas: seq<nat>)
    requires frameCount > 0 && t.Valid() && index < frameCount
    ensures FrameAfterRun(index, frameCount, t, deltas) == (index + Run(t, deltas).finishedTicks) % frameCount
    decreases |deltas|
  {
    if deltas != [] {
      var ticked := Tick(t, deltas[0]);
      var next := StepIndex(index, ticked.JustFinished(), frameCount);
      var k := Run(ticked.timer, deltas[1..]).finishedTicks;
      FrameAfterRunCountsFinishedTicks(next, frameCount, ticked.timer, deltas[1..]);
      if ticked.JustFinished() && index + 1 == frameCount {
        ModShift(frameCount, k);
        assert (next + k) % frameCount == (index + 1 + k) % frameCount;
      }
    }
  }
}
