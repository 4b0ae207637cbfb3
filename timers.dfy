/** Bevy's repeating `Timer`, reduced to the integer nanosecond arithmetic of
    its `tick`: the elapsed time grows by the delta and, once it reaches the
    duration, the number of whole periods is counted and only the remainder is
    kept. `just_finished()` holds when at least one period ended in the tick. */
module Timers {

  datatype RepeatingTimer = RepeatingTimer(duration: nat, elapsed: nat) {
    predicate Valid() {
      duration > 0 && elapsed < duration
    }
  }

  /** `Timer::from_seconds(seconds, true)`, with the duration in nanoseconds. */
  function FromNanos(duration: nat): (t: RepeatingTimer)
    requires duration > 0
    ensures t.Valid() && t.duration == duration && t.elapsed == 0
  {
    RepeatingTimer(duration, 0)
  }

  /** The timer after a tick and how many periods ended during it. */
  datatype Ticked = Ticked(timer: RepeatingTimer, timesFinished: nat) {
    predicate JustFinished() {
      timesFinished > 0
    }
  }

  function Tick(t: RepeatingTimer, delta: nat): (r: Ticked)
    requires t.Valid()
    ensures r.timer.Valid() && r.timer.duration == t.duration
    // no time is lost: what elapsed is split into whole periods and a remainder
    ensures t.elapsed + delta == r.timesFinished * t.duration + r.timer.elapsed
    ensures r.JustFinished() <==> t.elapsed + delta >= t.duration
  {
    var e := t.elapsed + delta;
    if e >= t.duration then Ticked(RepeatingTimer(t.duration, e % t.duration), e / t.duration)
    else Ticked(RepeatingTimer(t.duration, e), 0)
  }

  /** What a run of ticks leaves: the timer, the number of ticks on which
      `just_finished()` held, and the total number of periods that ended. */
  datatype Trace = Trace(timer: RepeatingTimer, finishedTicks: nat, periods: nat)

  function Run(t: RepeatingTimer, deltas: seq<nat>): (r: Trace)
    requires t.Valid()
    ensures r.timer.Valid() && r.timer.duration == t.duration
    decreases |deltas|
  {
    if deltas == [] then Trace(t, 0, 0)
    else
      var step := Tick(t, deltas[0]);
      var rest := Run(step.timer, deltas[1..]);
      Trace(rest.timer, rest.finishedTicks + (if step.JustFinished() then 1 else 0),
            rest.periods + step.timesFinished)
  }

  function Sum(deltas: seq<nat>): nat
  {
    if deltas == [] then 0 else deltas[0] + Sum(deltas[1..])
  }

  /** The timer keeps exact time over any run: the start offset plus the total
      delta is the number of ended periods times the duration plus what is
      left, however the delta was split into ticks. */
  lemma {:induction false} RunKeepsTime(t: RepeatingTimer, deltas: seq<nat>)
    requires t.Valid()
    ensures t.elapsed + Sum(deltas) == Run(t, deltas).periods * t.duration + Run(t, deltas).timer.elapsed
    decreases |deltas|
  {
    if deltas != [] {
      var step := Tick(t, deltas[0]);
      RunKeepsTime(step.timer, deltas[1..]);
      var rest := Run(step.timer, deltas[1..]);
      calc {
        t.elapsed + Sum(deltas);
        step.timesFinished * t.duration + step.timer.elapsed + Sum(deltas[1..]);
        step.timesFinished * t.duration + rest.periods * t.duration + rest.timer.elapsed;
        { assert step.timesFinished * t.duration + rest.periods * t.duration
              == (rest.periods + step.timesFinished) * t.duration; }
        (rest.periods + step.timesFinished) * t.duration + rest.timer.elapsed;
      }
    }
  }

  /** A tick reports `just_finished()` once even when several periods ended in
      it, so the finished ticks never outnumber the ticks or the periods. */
  lemma {:induction false} FinishedTicksBounded(t: RepeatingTimer, deltas: seq<nat>)
    requires t.Valid()
    ensures Run(t, deltas).finishedTicks <= |deltas|
    ensures Run(t, deltas).finishedTicks <= Run(t, deltas).periods
    decreases |deltas|
  {
    if deltas != [] {
      FinishedTicksBounded(Tick(t, deltas[0]).timer, deltas[1..]);
    }
  }

  /** A run split in two is the second part run from where the first left
      the timer, with the counts of both parts added up. */
  lemma {:induction false} RunAppend(t: RepeatingTimer, a: seq<nat>, b: seq<nat>)
    requires t.Valid()
    ensures var first := Run(t, a);
      var second := Run(first.timer, b);
      Run(t, a + b) == Trace(second.timer, first.finishedTicks + second.finishedTicks, first.periods + second.periods)
    decreases |a|
  {
    if a == [] {
      assert a + b == b;
    } else {
      assert (a + b)[0] == a[0];
      assert (a + b)[1..] == a[1..] + b;
      RunAppend(Tick(t, a[0]).timer, a[1..], b);
    }
  }

  /** One tick of two periods finishes once; the same time given as two ticks
      of one period finishes twice. */
  lemma CatchUpIsLost(d: nat)
    requires d > 0
    ensures Run(FromNanos(d), [2 * d]).finishedTicks == 1
    ensures Run(FromNanos(d), [d, d]).finishedTicks == 2
  {
    var t := FromNanos(d);
    assert Run(Tick(t, 2 * d).timer, []).finishedTicks == 0;
    var first := Tick(t, d);
    assert first.timer.elapsed == 0 by {
      assert first.timesFinished * d + first.timer.elapsed == d;
      assert first.timesFinished >= 1;
    }
    assert Tick(first.timer, d).JustFinished();
    assert Run(first.timer, [d]).finishedTicks == 1 by {
      assert [d][1..] == [];
    }
    assert [d, d][1..] == [d];
  }
}
