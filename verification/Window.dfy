/** Timestamps in a sliding window: pruning a deque from the front agrees with
    filtering the whole history. Shared by the inference-rate measurement of the
    readers and by the login limiter. */
module Window {
  predicate Ascending(times: seq<real>) {
    forall i, j :: 0 <= i < j < |times| ==> times[i] <= times[j]
  }

  predicate AtMost(times: seq<real>, t: real) {
    forall i :: 0 <= i < |times| ==> times[i] <= t
  }

  lemma AppendAscends(times: seq<real>, t: real)
    requires Ascending(times) && AtMost(times, t)
    ensures Ascending(times + [t]) && AtMost(times + [t], t)
  {
  }

  /** Pop from the front while the oldest timestamp is before the cutoff. */
  function DropBefore(times: seq<real>, cutoff: real): seq<real> {
    if times != [] && times[0] < cutoff then DropBefore(times[1..], cutoff) else times
  }

  /** What is left is a suffix; everything popped is before the cutoff. */
  lemma {:induction false} DropIsSuffix(times: seq<real>, cutoff: real) returns (k: nat)
    ensures k <= |times| && DropBefore(times, cutoff) == times[k..]
    ensures forall i :: 0 <= i < k ==> times[i] < cutoff
    ensures k < |times| ==> times[k] >= cutoff
    decreases |times|
  {
    k := 0;
    if times != [] && times[0] < cutoff {
      var rest := DropIsSuffix(times[1..], cutoff);
      k := rest + 1;
      assert times[k..] == times[1..][rest..];
    }
  }

  /** All timestamps at or after the cutoff. */
  function Since(times: seq<real>, cutoff: real): seq<real> {
    if times == [] then []
    else
      var last := times[|times| - 1];
      Since(times[..|times| - 1], cutoff) + (if last >= cutoff then [last] else [])
  }

  lemma {:induction false} SinceAll(times: seq<real>, cutoff: real)
    requires forall i :: 0 <= i < |times| ==> times[i] >= cutoff
    ensures Since(times, cutoff) == times
  {
    if times != [] {
      SinceAll(times[..|times| - 1], cutoff);
    }
  }

  lemma {:induction false} SinceSkipsFirst(times: seq<real>, cutoff: real)
    requires times != [] && times[0] < cutoff
    ensures Since(times, cutoff) == Since(times[1..], cutoff)
  {
    if |times| > 1 {
      var front := times[..|times| - 1];
      SinceSkipsFirst(front, cutoff);
      assert front[1..] == times[1..][..|times| - 2];
    }
  }

  /** On an ascending deque, popping from the front is filtering. */
  lemma {:induction false} DropIsSince(times: seq<real>, cutoff: real)
    requires Ascending(times)
    ensures DropBefore(times, cutoff) == Since(times, cutoff)
    decreases |times|
  {
    if times != [] && times[0] < cutoff {
      SinceSkipsFirst(times, cutoff);
      DropIsSince(times[1..], cutoff);
    } else {
      SinceAll(times, cutoff);
    }
  }

  lemma SinceAppend(times: seq<real>, t: real, cutoff: real)
    ensures Since(times + [t], cutoff) == Since(times, cutoff) + (if t >= cutoff then [t] else [])
  {
    assert (times + [t])[..|times|] == times;
  }

  /** Pruning at an earlier cutoff first loses nothing. */
  lemma {:induction false} SinceTwice(times: seq<real>, early: real, late: real)
    requires early <= late
    ensures Since(Since(times, early), late) == Since(times, late)
  {
    if times != [] {
      var front, last := times[..|times| - 1], times[|times| - 1];
      SinceTwice(front, early, late);
      if last >= early {
        SinceAppend(Since(front, early), last, late);
      } else {
        assert Since(times, early) == Since(front, early);
        assert Since(times, late) == Since(front, late);
      }
    }
  }

  lemma {:induction false} SinceAscending(times: seq<real>, cutoff: real, most: real)
    requires Ascending(times) && AtMost(times, most)
    ensures Ascending(Since(times, cutoff)) && AtMost(Since(times, cutoff), most)
  {
    if times != [] {
      var front, last := times[..|times| - 1], times[|times| - 1];
      SinceAscending(front, cutoff, last);
      AppendAscends(Since(front, cutoff), last);
    }
  }

  lemma {:induction false} SinceAtLeast(times: seq<real>, cutoff: real)
    ensures forall i :: 0 <= i < |Since(times, cutoff)| ==> Since(times, cutoff)[i] >= cutoff
  {
    if times != [] {
      SinceAtLeast(times[..|times| - 1], cutoff);
    }
  }

  lemma CountAppend(times: seq<real>, last: real, t: real)
    ensures multiset(times + [last])[t] == multiset(times)[t] + if last == t then 1 else 0
  {
    assert multiset(times + [last]) == multiset(times) + multiset{last};
  }

  /** Of every timestamp, as many as there were if it is not before the cutoff, and
      none otherwise. */
  lemma {:induction false} SinceAre(times: seq<real>, cutoff: real, t: real)
    ensures multiset(Since(times, cutoff))[t] == if t >= cutoff then multiset(times)[t] else 0
  {
    if times != [] {
      var front, last := times[..|times| - 1], times[|times| - 1];
      SinceAre(front, cutoff, t);
      assert times == front + [last];
      CountAppend(front, last, t);
      CountAppend(Since(front, cutoff), last, t);
      assert Since(times, cutoff) == if last >= cutoff then Since(front, cutoff) + [last] else Since(front, cutoff);
    }
  }

  /** The loop that prunes a deque in place. */
  method Prune(times: seq<real>, cutoff: real) returns (kept: seq<real>)
    ensures kept == DropBefore(times, cutoff)
  {
    kept := times;
    while kept != [] && kept[0] < cutoff
      invariant DropBefore(kept, cutoff) == DropBefore(times, cutoff)
      decreases |kept|
    {
      kept := kept[1..];
    }
  }
}
