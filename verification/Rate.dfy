/** The rolling inference rate both readers report (ai_engine/camera.py,
    ai_engine/gpu_camera.py). */
module Rate {
  import opened Common
  import opened Window

  const FPS_WINDOW_SECONDS := 5.0

  /** The deque of completion times and the start of the measurement. */
  datatype Meter = Meter(times: seq<real>, startedAt: Option<real>)

  datatype RateOp = Start(t: real) | Record(t: real) | Query(t: real) | Clear

  function Pruned(times: seq<real>, t: real): seq<real> {
    DropBefore(times, t - FPS_WINDOW_SECONDS)
  }

  predicate Established(m: Meter, t: real) {
    m.startedAt.Some? && t - m.startedAt.value >= FPS_WINDOW_SECONDS
  }

  function ApplyRate(m: Meter, op: RateOp): Meter {
    match op
    case Start(t) => Meter([], Some(t))
    case Clear => Meter([], None)
    case Record(t) =>
      Meter(Pruned(m.times + [t], t), if m.startedAt.None? then Some(t) else m.startedAt)
    case Query(t) => if Established(m, t) then m.(times := Pruned(m.times, t)) else m
  }

  /** The rate a query at `t` returns. */
  function Answer(m: Meter, t: real): Option<real> {
    if Established(m, t) then Some(|Pruned(m.times, t)| as real / FPS_WINDOW_SECONDS) else None
  }

  function MeterAfter(ops: seq<RateOp>, n: nat): Meter
    requires n <= |ops|
  {
    if n == 0 then Meter([], None) else ApplyRate(MeterAfter(ops, n - 1), ops[n - 1])
  }

  // -- the full history --------------------------------------------------------

  /** Every completion recorded since the measurement last started or stopped. */
  function Recorded(ops: seq<RateOp>, n: nat): seq<real>
    requires n <= |ops|
  {
    if n == 0 then []
    else
      match ops[n - 1]
      case Record(t) => Recorded(ops, n - 1) + [t]
      case Query(_) => Recorded(ops, n - 1)
      case Start(_) => []
      case Clear => []
  }

  predicate ClockAscends(ops: seq<RateOp>) {
    forall i, j :: 0 <= i < j < |ops| && !ops[i].Clear? && !ops[j].Clear? ==> ops[i].t <= ops[j].t
  }

  lemma {:induction false} RecordedAscending(ops: seq<RateOp>, n: nat)
    requires ClockAscends(ops) && n <= |ops|
    ensures Ascending(Recorded(ops, n))
    ensures forall k :: n <= k < |ops| && !ops[k].Clear? ==> AtMost(Recorded(ops, n), ops[k].t)
  {
    if n > 0 {
      RecordedAscending(ops, n - 1);
      if ops[n - 1].Record? {
        AppendAscends(Recorded(ops, n - 1), ops[n - 1].t);
      }
    }
  }

  lemma NothingSince(cutoff: real)
    ensures Since([], cutoff) == []
  {
  }

  lemma PrunedAscends(times: seq<real>, t: real, most: real)
    requires Ascending(times) && AtMost(times, most)
    ensures Ascending(Pruned(times, t)) && AtMost(Pruned(times, t), most)
  {
    DropIsSince(times, t - FPS_WINDOW_SECONDS);
    SinceAscending(times, t - FPS_WINDOW_SECONDS, most);
  }

  lemma PrunedAgain(times: seq<real>, early: real, late: real)
    requires Ascending(times) && early <= late
    ensures Ascending(Pruned(times, early))
    ensures Pruned(Pruned(times, early), late) == Pruned(times, late)
  {
    var a, b := early - FPS_WINDOW_SECONDS, late - FPS_WINDOW_SECONDS;
    DropIsSince(times, a);
    PrunedAscends(times, early, if times == [] then 0.0 else times[|times| - 1]);
    DropIsSince(Since(times, a), b);
    SinceTwice(times, a, b);
    DropIsSince(times, b);
  }

  lemma {:induction false} DequeBound(ops: seq<RateOp>, n: nat)
    requires ClockAscends(ops) && n <= |ops|
    ensures Ascending(MeterAfter(ops, n).times)
    ensures forall k :: n <= k < |ops| && !ops[k].Clear? ==> AtMost(MeterAfter(ops, n).times, ops[k].t)
  {
    hide DropBefore;
    if n > 0 {
      DequeBound(ops, n - 1);
      var times := MeterAfter(ops, n - 1).times;
      if ops[n - 1].Record? {
        AppendAscends(times, ops[n - 1].t);
        PrunedAgain(times + [ops[n - 1].t], ops[n - 1].t, ops[n - 1].t);
      } else if ops[n - 1].Query? {
        PrunedAgain(times, ops[n - 1].t, ops[n - 1].t);
      }
      forall k | n <= k < |ops| && !ops[k].Clear?
        ensures AtMost(MeterAfter(ops, n).times, ops[k].t)
      {
        if ops[n - 1].Record? {
          PrunedAscends(times + [ops[n - 1].t], ops[n - 1].t, ops[k].t);
        } else if ops[n - 1].Query? {
          PrunedAscends(times, ops[n - 1].t, ops[k].t);
        }
      }
    }
  }

  /** The deque is the full history cut off somewhere at or before every later
      query's window. */
  lemma {:induction false} DequeIsRecorded(ops: seq<RateOp>, n: nat, t: real)
    requires ClockAscends(ops) && n <= |ops|
    requires forall k :: 0 <= k < n && !ops[k].Clear? ==> ops[k].t <= t
    ensures Ascending(MeterAfter(ops, n).times)
    ensures Pruned(MeterAfter(ops, n).times, t) == Since(Recorded(ops, n), t - FPS_WINDOW_SECONDS)
  {
    hide DropBefore, Since;
    var cutoff := t - FPS_WINDOW_SECONDS;
    if n > 0 {
      var before := MeterAfter(ops, n - 1);
      RecordedAscending(ops, n - 1);
      DequeIsRecorded(ops, n - 1, t);
      DropIsSince(before.times, cutoff);
      match ops[n - 1]
      case Start(_) => DropIsSince([], cutoff); NothingSince(cutoff);
      case Clear => DropIsSince([], cutoff); NothingSince(cutoff);
      case Query(now) => PrunedAgain(before.times, now, t);
      case Record(now) =>
        DequeBound(ops, n - 1);
        var times := before.times + [now];
        AppendAscends(before.times, now);
        PrunedAgain(times, now, t);
        DropIsSince(times, cutoff);
        SinceAppend(before.times, now, cutoff);
        SinceAppend(Recorded(ops, n - 1), now, cutoff);
    } else {
      DropIsSince([], cutoff);
      NothingSince(cutoff);
    }
  }

  /** Once five seconds of measurement have passed, the rate is the number of
      completions in the last five seconds of the full history, over five. */
  lemma RateIsWindowCount(ops: seq<RateOp>, n: nat)
    requires ClockAscends(ops) && n < |ops| && ops[n].Query?
    ensures var t, m := ops[n].t, MeterAfter(ops, n);
            Answer(m, t) == if Established(m, t)
                            then Some(|Since(Recorded(ops, n), t - FPS_WINDOW_SECONDS)| as real / FPS_WINDOW_SECONDS)
                            else None
  {
    DequeIsRecorded(ops, n, ops[n].t);
  }

  // -- the decoded rate ----------------------------------------------------------

  /** The decode times of the last five seconds, one more included. */
  function Decoded(times: seq<real>, now: real): seq<real> {
    DropBefore(times + [now], now - FPS_WINDOW_SECONDS)
  }

  /** Intervals over the time they span; as before while there is no interval. */
  function DecodedFps(times: seq<real>, before: Option<real>): Option<real> {
    if |times| < 2 then before
    else
      var span := times[|times| - 1] - times[0];
      Some(if span > 0.0 then (|times| - 1) as real / span else 0.0)
  }

  predicate Steady(times: seq<real>, period: real) {
    forall i :: 0 <= i < |times| ==> times[i] == times[0] + i as real * period
  }

  lemma SameRate(n: real, period: real)
    requires n > 0.0 && period > 0.0
    ensures n * period > 0.0 && n / (n * period) == 1.0 / period
  {
    var rate := 1.0 / period;
    assert rate * period == 1.0;
    assert rate * (n * period) == n * (rate * period);
  }

  lemma SteadyDeque(times: seq<real>, before: Option<real>, period: real)
    requires |times| >= 2 && period > 0.0 && Steady(times, period)
    ensures DecodedFps(times, before) == Some(1.0 / period)
  {
    var n := (|times| - 1) as real;
    assert times[|times| - 1] == times[0] + n * period;
    SameRate(n, period);
  }

  /** The deque after a whole history of decoded frames, and the rate then shown. */
  function DecodeTimesAfter(times: seq<real>): seq<real> {
    if times == [] then [] else Decoded(DecodeTimesAfter(times[..|times| - 1]), times[|times| - 1])
  }

  function DecodeRateAfter(times: seq<real>): Option<real> {
    if times == [] then None else DecodedFps(DecodeTimesAfter(times), DecodeRateAfter(times[..|times| - 1]))
  }

  /** On a clock that never runs back the deque holds exactly the frames of the last
      five seconds of the whole history. */
  lemma {:induction false} DecodedIsWindow(times: seq<real>)
    requires times != [] && Ascending(times)
    ensures DecodeTimesAfter(times) == Since(times, times[|times| - 1] - FPS_WINDOW_SECONDS)
  {
    hide Since, DropBefore;
    var front, now := times[..|times| - 1], times[|times| - 1];
    var cutoff := now - FPS_WINDOW_SECONDS;
    assert times == front + [now];
    SinceAppend(front, now, cutoff);
    if front == [] {
      DropIsSince([now], cutoff);
      SinceAppend([], now, cutoff);
      assert [] + [now] == [now];
    } else {
      var last := front[|front| - 1];
      DecodedIsWindow(front);
      var deque := DecodeTimesAfter(front);
      SinceAscending(front, last - FPS_WINDOW_SECONDS, now);
      AppendAscends(deque, now);
      DropIsSince(deque + [now], cutoff);
      SinceAppend(deque, now, cutoff);
      SinceTwice(front, last - FPS_WINDOW_SECONDS, cutoff);
    }
  }

  /** Whatever came before: once the frames of the last five seconds are at a steady
      period, and there are two, its rate is shown exactly. */
  lemma DecodeRateIsSteady(times: seq<real>, period: real)
    requires times != [] && Ascending(times) && period > 0.0
    requires var window := Since(times, times[|times| - 1] - FPS_WINDOW_SECONDS);
             |window| >= 2 && Steady(window, period)
    ensures DecodeRateAfter(times) == Some(1.0 / period)
  {
    hide Steady;
    DecodedIsWindow(times);
    SteadyDeque(DecodeTimesAfter(times), DecodeRateAfter(times[..|times| - 1]), period);
  }

  lemma Times(a: int, b: int, period: real)
    ensures (a + b) as real * period == a as real * period + b as real * period
  {
    assert (a + b) as real == a as real + b as real;
  }

  lemma SteadyApart(times: seq<real>, period: real, i: nat, j: nat)
    requires i <= j < |times| && period > 0.0 && Steady(times, period)
    ensures times[j] == times[i] + (j - i) as real * period
    ensures times[i] <= times[j]
  {
    Times(i, j - i, period);
    var steps := (j - i) as real;
    assert steps >= 0.0;
    assert steps * period >= 0.0;
  }

  lemma SteadyAscends(times: seq<real>, period: real)
    requires period > 0.0 && Steady(times, period)
    ensures Ascending(times)
  {
    forall i, j | 0 <= i < j < |times|
      ensures times[i] <= times[j]
    {
      SteadyApart(times, period, i, j);
    }
  }

  lemma SteadySuffix(times: seq<real>, period: real, k: nat)
    requires k <= |times| && period > 0.0 && Steady(times, period)
    ensures Steady(times[k..], period)
  {
    forall i | 0 <= i < |times| - k
      ensures times[k..][i] == times[k..][0] + i as real * period
    {
      SteadyApart(times, period, k, k + i);
    }
  }

  lemma LastTwo(times: seq<real>, period: real)
    requires |times| >= 2 && period > 0.0 && Steady(times, period)
    ensures times[|times| - 1] == times[|times| - 2] + period
  {
    SteadyApart(times, period, |times| - 2, |times| - 1);
  }

  /** The last two of steady frames are in the window exactly when the period fits
      it. */
  lemma SteadyWindow(times: seq<real>, period: real)
    requires |times| >= 2 && period > 0.0 && Steady(times, period)
    ensures var window := DecodeTimesAfter(times);
            Steady(window, period) && (if period <= FPS_WINDOW_SECONDS then |window| >= 2 else |window| < 2)
  {
    hide Steady, DecodeTimesAfter, Since;
    var n := |times|;
    var cutoff := times[n - 1] - FPS_WINDOW_SECONDS;
    SteadyAscends(times, period);
    DecodedIsWindow(times);
    DropIsSince(times, cutoff);
    var k := DropIsSuffix(times, cutoff);
    LastTwo(times, period);
    SteadySuffix(times, period, k);
  }

  lemma SteadyFront(times: seq<real>, period: real)
    requires times != [] && Steady(times, period)
    ensures Steady(times[..|times| - 1], period)
  {
  }

  lemma FirstFrame(times: seq<real>)
    requires |times| == 1
    ensures DecodeRateAfter(times) == None
  {
    DecodedIsWindow(times);
    assert times[..0] == [];
  }

  /** So a stream whose frames are at a steady period from the start shows exactly
      its rate from the second frame on if the period is at most five seconds, and
      never shows a rate otherwise. */
  lemma {:induction false} SteadyDecodeRate(times: seq<real>, period: real)
    requires |times| >= 2 && period > 0.0 && Steady(times, period)
    ensures DecodeRateAfter(times) == if period <= FPS_WINDOW_SECONDS then Some(1.0 / period) else None
  {
    hide Steady, DecodeTimesAfter;
    SteadyWindow(times, period);
    var front := times[..|times| - 1];
    if period <= FPS_WINDOW_SECONDS {
      SteadyDeque(DecodeTimesAfter(times), DecodeRateAfter(front), period);
    } else if |times| > 2 {
      SteadyFront(times, period);
      SteadyDecodeRate(front, period);
    } else {
      FirstFrame(front);
    }
  }
}
