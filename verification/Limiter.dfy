/** The sliding-window login limiter (backend/app/core/rate_limit.py). */
module Limiter {
  import opened Window

  /** What `check` returns. With no attempts allowed at all and no failure held,
      the source indexes an empty deque. */
  datatype Verdict = Verdict(allowed: bool, retryAfter: int) | IndexError

  datatype Call = Check(key: string, now: real) | Fail(key: string, now: real) | Reset(key: string)

  type Failures = map<string, seq<real>>

  function Held(failures: Failures, key: string): seq<real> {
    if key in failures then failures[key] else []
  }

  /** Keep a key only while it holds timestamps. */
  function Store(failures: Failures, key: string, times: seq<real>): Failures {
    if times == [] then failures - {key} else failures[key := times]
  }

  function Pruned(failures: Failures, key: string, window: int, now: real): seq<real> {
    DropBefore(Held(failures, key), now - window as real)
  }

  function Apply(failures: Failures, window: int, call: Call): Failures {
    match call
    case Check(key, now) => Store(failures, key, Pruned(failures, key, window, now))
    case Fail(key, now) =>
      Store(failures, key, DropBefore(Held(failures, key) + [now], now - window as real))
    case Reset(key) => failures - {key}
  }

  function Truncated(x: real): int {
    if x >= 0.0 then x.Floor else -((-x).Floor)
  }

  function RetryAfter(window: int, now: real, oldest: real): int {
    var wait := Truncated(window as real - (now - oldest)) + 1;
    if wait >= 1 then wait else 1
  }

  function Decide(times: seq<real>, maxAttempts: int, window: int, now: real): Verdict {
    if |times| < maxAttempts then Verdict(true, 0)
    else if times == [] then IndexError
    else Verdict(false, RetryAfter(window, now, times[0]))
  }

  // -- the class ---------------------------------------------------------------

  class SlidingWindowLimiter {
    const maxAttempts: int
    const windowSeconds: int
    var failures: Failures

    constructor (maxAttempts: int, windowSeconds: int)
      ensures this.maxAttempts == maxAttempts && this.windowSeconds == windowSeconds
      ensures failures == map[]
    {
      this.maxAttempts, this.windowSeconds, failures := maxAttempts, windowSeconds, map[];
    }

    method PruneLocked(key: string, now: real) returns (times: seq<real>)
      modifies this
      ensures times == Pruned(old(failures), key, windowSeconds, now)
      ensures failures == if key in old(failures) then Store(old(failures), key, times) else old(failures)
    {
      if key !in failures {
        return [];
      }
      times := Window.Prune(failures[key], now - windowSeconds as real);
      failures := failures[key := times];
      if times == [] {
        failures := failures - {key};
      }
    }

    method CheckKey(key: string, now: real) returns (verdict: Verdict)
      modifies this
      ensures failures == Apply(old(failures), windowSeconds, Check(key, now))
      ensures verdict == Decide(Pruned(old(failures), key, windowSeconds, now), maxAttempts, windowSeconds, now)
    {
      var times := PruneLocked(key, now);
      assert key !in old(failures) ==> old(failures) - {key} == old(failures);
      if |times| < maxAttempts {
        return Verdict(true, 0);
      }
      if times == [] {
        return IndexError;
      }
      return Verdict(false, RetryAfter(windowSeconds, now, times[0]));
    }

    method RecordFailure(key: string, now: real)
      modifies this
      ensures failures == Apply(old(failures), windowSeconds, Fail(key, now))
    {
      failures := failures[key := (if key in failures then failures[key] else []) + [now]];
      var times := PruneLocked(key, now);
    }

    method ResetKey(key: string)
      modifies this
      ensures failures == Apply(old(failures), windowSeconds, Reset(key))
    {
      failures := failures - {key};
    }
  }

  // -- whole histories -----------------------------------------------------------

  function After(window: int, calls: seq<Call>, n: nat): Failures
    requires n <= |calls|
  {
    if n == 0 then map[] else Apply(After(window, calls, n - 1), window, calls[n - 1])
  }

  /** Every failure of the key since it was last reset. */
  function History(calls: seq<Call>, n: nat, key: string): seq<real>
    requires n <= |calls|
  {
    if n == 0 then []
    else
      var before := History(calls, n - 1, key);
      match calls[n - 1]
      case Check(_, _) => before
      case Fail(k, now) => if k == key then before + [now] else before
      case Reset(k) => if k == key then [] else before
  }

  predicate ClockAscends(calls: seq<Call>) {
    forall i, j :: 0 <= i < j < |calls| && !calls[i].Reset? && !calls[j].Reset? ==> calls[i].now <= calls[j].now
  }

  /** No key maps to an empty deque. */
  predicate NoEmptyKey(failures: Failures) {
    forall key :: key in failures ==> failures[key] != []
  }

  lemma {:induction false} KeysNeverEmpty(window: int, calls: seq<Call>, n: nat)
    requires n <= |calls|
    ensures NoEmptyKey(After(window, calls, n))
  {
    if n > 0 {
      KeysNeverEmpty(window, calls, n - 1);
    }
  }

  lemma {:induction false} HistoryAscending(calls: seq<Call>, n: nat, key: string)
    requires ClockAscends(calls) && n <= |calls|
    ensures Ascending(History(calls, n, key))
    ensures forall k :: n <= k < |calls| && !calls[k].Reset? ==> AtMost(History(calls, n, key), calls[k].now)
  {
    if n > 0 {
      HistoryAscending(calls, n - 1, key);
      if calls[n - 1].Fail? && calls[n - 1].key == key {
        AppendAscends(History(calls, n - 1, key), calls[n - 1].now);
      }
    }
  }

  /** What is held for a key is its full history cut off somewhere at or before
      the window of every later call. */
  predicate Agrees(window: int, calls: seq<Call>, n: nat, key: string, now: real)
    requires n <= |calls|
  {
    var held := Held(After(window, calls, n), key);
    && Ascending(held) && AtMost(held, now)
    && Since(held, now - window as real) == Since(History(calls, n, key), now - window as real)
  }

  lemma DroppedAgrees(times: seq<real>, history: seq<real>, early: real, late: real, most: real)
    requires Ascending(times) && AtMost(times, most) && early <= late
    requires Since(times, late) == Since(history, late)
    ensures var kept := DropBefore(times, early);
            Ascending(kept) && AtMost(kept, most) && Since(kept, late) == Since(history, late)
  {
    DropIsSince(times, early);
    SinceAscending(times, early, most);
    SinceTwice(times, early, late);
  }

  /** What one call does to the timestamps of one key. */
  function HeldNext(held: seq<real>, window: int, call: Call, key: string): seq<real> {
    if call.key != key then held
    else
      match call
      case Check(_, now) => DropBefore(held, now - window as real)
      case Fail(_, now) => DropBefore(held + [now], now - window as real)
      case Reset(_) => []
  }

  lemma HeldApply(failures: Failures, window: int, call: Call, key: string)
    ensures Held(Apply(failures, window, call), key) == HeldNext(Held(failures, key), window, call, key)
  {
    hide DropBefore;
  }

  lemma HeldAfter(window: int, calls: seq<Call>, n: nat, key: string)
    requires n < |calls|
    ensures Held(After(window, calls, n + 1), key)
         == HeldNext(Held(After(window, calls, n), key), window, calls[n], key)
  {
    HeldApply(After(window, calls, n), window, calls[n], key);
    hide Apply, HeldNext, Held;
  }

  lemma NothingHeld(window: int, calls: seq<Call>, key: string)
    ensures Held(After(window, calls, 0), key) == []
  {
  }

  lemma EmptyAgrees(now: real)
    ensures Ascending([]) && AtMost([], now)
  {
  }

  lemma LaterAtMost(times: seq<real>, t: real, now: real)
    requires AtMost(times, t) && t <= now
    ensures AtMost(times, now)
  {
  }

  lemma {:induction false} HeldAgrees(window: int, calls: seq<Call>, n: nat, key: string, now: real)
    requires ClockAscends(calls) && n <= |calls|
    requires forall k :: 0 <= k < n && !calls[k].Reset? ==> calls[k].now <= now
    ensures Agrees(window, calls, n, key, now)
  {
    hide DropBefore, Since, Ascending, AtMost, Apply, Held, After;
    if n > 0 {
      HeldAfter(window, calls, n - 1, key);
      HeldAgrees(window, calls, n - 1, key, now);
      var held, history := Held(After(window, calls, n - 1), key), History(calls, n - 1, key);
      var late := now - window as real;
      match calls[n - 1]
      case Reset(k) => EmptyAgrees(now);
      case Check(k, t) =>
        DroppedAgrees(held, history, t - window as real, late, now);
      case Fail(k, t) =>
        HeldAgrees(window, calls, n - 1, key, t);
        AppendAscends(held, t);
        LaterAtMost(held + [t], t, now);
        SinceAppend(held, t, late);
        SinceAppend(history, t, late);
        DroppedAgrees(held + [t], history + [t], t - window as real, late, now);
    } else {
      EmptyAgrees(now);
      NothingHeld(window, calls, key);
    }
  }

  /** The failures of the key since its last reset that are inside the window. */
  function Recent(window: int, calls: seq<Call>, n: nat, key: string, now: real): seq<real>
    requires n <= |calls|
  {
    Since(History(calls, n, key), now - window as real)
  }

  /** The pruned deque agrees with the full history: after any calls on a clock
      that never runs back, `check` answers from exactly the failures of that
      key since its last reset that are inside the window, and allows if and
      only if they are fewer than the limit. */
  lemma CheckSeesWindow(maxAttempts: int, window: int, calls: seq<Call>, n: nat)
    requires ClockAscends(calls) && n < |calls| && calls[n].Check?
    ensures var key, now := calls[n].key, calls[n].now;
            var times := Pruned(After(window, calls, n), key, window, now);
            && times == Recent(window, calls, n, key, now)
            && (Decide(times, maxAttempts, window, now) == Verdict(true, 0)
                <==> |Recent(window, calls, n, key, now)| < maxAttempts)
            && Ascending(times) && AtMost(times, now)
            && forall i :: 0 <= i < |times| ==> times[i] >= now - window as real
  {
    var key, now := calls[n].key, calls[n].now;
    HeldAgrees(window, calls, n, key, now);
    var held := Held(After(window, calls, n), key);
    DropIsSince(held, now - window as real);
    SinceAscending(held, now - window as real, now);
    SinceAtLeast(held, now - window as real);
  }

  // -- how tight retry_after is ----------------------------------------------------

  /** Would a check `wait` seconds later, with nothing in between, be allowed? */
  predicate AllowedAfter(times: seq<real>, maxAttempts: int, window: int, now: real, wait: int) {
    |DropBefore(times, now + wait as real - window as real)| < maxAttempts
  }

  lemma {:induction false} DropShorter(times: seq<real>, cutoff: real)
    ensures |DropBefore(times, cutoff)| <= |times|
    decreases |times|
  {
    if times != [] && times[0] < cutoff {
      DropShorter(times[1..], cutoff);
    }
  }

  /** When exactly one failure must expire: the m-th newest. */
  lemma {:induction false} AllowedIff(times: seq<real>, maxAttempts: int, cutoff: real)
    requires Ascending(times) && 0 < maxAttempts <= |times|
    ensures |DropBefore(times, cutoff)| < maxAttempts <==> times[|times| - maxAttempts] < cutoff
    decreases |times|
  {
    if times[0] < cutoff {
      if |times| > maxAttempts {
        AllowedIff(times[1..], maxAttempts, cutoff);
      } else {
        DropShorter(times[1..], cutoff);
      }
    }
  }

  /** Whole seconds until a failure has left the window. */
  function Wait(window: int, now: real, failure: real): int {
    (window as real - (now - failure)).Floor
  }

  /** A rejected check is told the least whole number of seconds after which one
      would be allowed if and only if the oldest failure held and the one that
      must expire give the same whole wait; with exactly `maxAttempts` held they
      are the same failure. It is never told to wait longer than it must. */
  lemma RetryAfterIsLeast(times: seq<real>, maxAttempts: int, window: int, now: real)
    requires Ascending(times) && AtMost(times, now) && 0 < maxAttempts <= |times|
    requires forall i :: 0 <= i < |times| ==> times[i] >= now - window as real
    ensures Decide(times, maxAttempts, window, now).Verdict? && !Decide(times, maxAttempts, window, now).allowed
    ensures var retry := Decide(times, maxAttempts, window, now).retryAfter;
            && 1 <= retry
            && (forall wait :: 0 <= wait < retry ==> !AllowedAfter(times, maxAttempts, window, now, wait))
            && (AllowedAfter(times, maxAttempts, window, now, retry)
                <==> Wait(window, now, times[0]) == Wait(window, now, times[|times| - maxAttempts]))
            && (|times| == maxAttempts ==> AllowedAfter(times, maxAttempts, window, now, retry))
  {
    var retry := Decide(times, maxAttempts, window, now).retryAfter;
    var oldest, last := times[0], times[|times| - maxAttempts];
    assert oldest <= last;
    AllowedIff(times, maxAttempts, now + retry as real - window as real);
    forall wait | 0 <= wait < retry
      ensures !AllowedAfter(times, maxAttempts, window, now, wait)
    {
      AllowedIff(times, maxAttempts, now + wait as real - window as real);
    }
  }

  lemma NothingDropped(times: seq<real>, cutoff: real)
    requires times != [] ==> times[0] >= cutoff
    ensures DropBefore(times, cutoff) == times
  {
  }

  /** For instance: one attempt allowed in 100 seconds, failures at 0 and 90, a
      check at 95. It says 6 seconds, and 6 seconds later it still refuses, until
      96 seconds have passed. */
  lemma RetryAfterTooShort()
    ensures var calls := [Fail("k", 0.0), Fail("k", 90.0), Check("k", 95.0)];
            var times := Pruned(After(100, calls, 2), "k", 100, 95.0);
            && ClockAscends(calls) && Decide(times, 1, 100, 95.0) == Verdict(false, 6)
            && !AllowedAfter(times, 1, 100, 95.0, 6) && !AllowedAfter(times, 1, 100, 95.0, 95)
            && AllowedAfter(times, 1, 100, 95.0, 96)
  {
    hide DropBefore, After;
    var calls := [Fail("k", 0.0), Fail("k", 90.0), Check("k", 95.0)];
    HeldAfter(100, calls, 0, "k");
    HeldAfter(100, calls, 1, "k");
    NothingHeld(100, calls, "k");
    assert [] + [0.0] == [0.0] && [0.0] + [90.0] == [0.0, 90.0];
    NothingDropped([0.0], -100.0);
    NothingDropped([0.0, 90.0], -10.0);
    NothingDropped([0.0, 90.0], -5.0);
    var times := [0.0, 90.0];
    assert Held(After(100, calls, 2), "k") == times;
    assert (100.0 - (95.0 - 0.0)).Floor == 5;
    AllowedIff(times, 1, 95.0 + 6.0 - 100.0);
    AllowedIff(times, 1, 95.0 + 95.0 - 100.0);
    AllowedIff(times, 1, 95.0 + 96.0 - 100.0);
  }

  /** Exactly when a check raises: no attempt is allowed at all and no failure of
      the key is in the window. */
  lemma RaisesIff(maxAttempts: int, window: int, calls: seq<Call>, n: nat)
    requires ClockAscends(calls) && n < |calls| && calls[n].Check?
    ensures var key, now := calls[n].key, calls[n].now;
            Decide(Pruned(After(window, calls, n), key, window, now), maxAttempts, window, now) == IndexError
            <==> maxAttempts <= 0 && Recent(window, calls, n, key, now) == []
  {
    hide Pruned, After, Recent;
    CheckSeesWindow(maxAttempts, window, calls, n);
  }

  /** For instance the first check of a limiter that allows nothing. */
  lemma FirstCheckRaises(key: string, now: real)
    ensures var calls := [Check(key, now)];
            Decide(Pruned(After(60, calls, 0), key, 60, now), 0, 60, now) == IndexError
  {
    RaisesIff(0, 60, [Check(key, now)], 0);
  }
}
