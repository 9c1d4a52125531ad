/** Error triage and adaptive waiting: `_classify_and_handle_error` and the
    inter-tool delay. Seconds and scale factors are reals. */
module Backoff {
  import opened Strings

  const MAX_RETRIES := 5
  const MIN_TOKENS := 2048
  const DELAY_MIN := 0.1
  const DELAY_MAX := 3.0

  /** What the triage reads off an exception; the flags may overlap. */
  datatype Failure = Failure(auth: bool, throttling: bool, readTimeout: bool, transient: bool)

  datatype Throttle = Throttle(
    retryCount: nat,
    cacheWorking: Option<bool>,
    tokenOverride: Option<int>,
    delay: real
  )

  const FRESH := Throttle(0, None, None, DELAY_MIN)

  /** Errors that leave the throttle state alone and end the run. */
  predicate Untracked(f: Failure) {
    f.auth || !(f.throttling || f.readTimeout || f.transient)
  }

  function Pow2(n: nat): nat {
    if n == 0 then 1 else 2 * Pow2(n - 1)
  }

  function Min(a: real, b: real): real {
    if a < b then a else b
  }

  function Max(a: real, b: real): real {
    if a < b then b else a
  }

  /** Seconds waited before the retry numbered `n`. */
  function Wait(f: Failure, n: nat): real
    requires n > 0
  {
    if f.readTimeout then Min(2.0 * Pow2(n - 1) as real, 15.0)
    else Min(2.0 * Pow2(n) as real, 30.0)
  }

  function Reduction(f: Failure, cacheWorking: Option<bool>, n: nat): real {
    if f.readTimeout then 1.0
    else if cacheWorking == Some(false) then 0.5
    else if n > 2 then 0.6
    else 0.75
  }

  function ReducedTokens(current: int, reduction: real): int {
    var r := (current as real * reduction).Floor;
    if r < MIN_TOKENS then MIN_TOKENS else r
  }

  function Grow(d: real): real {
    Min(DELAY_MAX, d * 2.5)
  }

  function Decay(d: real): real {
    Max(DELAY_MIN, d * 0.6)
  }

  predicate Retries(f: Failure, retryCount: nat) {
    !Untracked(f) && (f.readTimeout || f.transient) && retryCount + 1 <= MAX_RETRIES
  }

  /** The limit is this share of `current`, rounded down, but not below 2048. */
  predicate IsReduced(limit: int, current: int, share: real) {
    if current as real * share < 2048.0 then limit == 2048
    else limit as real <= current as real * share < limit as real + 1.0
  }

  /** The throttle state after a tracked error. */
  function Tracked(t: Throttle, f: Failure, cacheHealth: Option<bool>, current: int): Throttle {
    var n := t.retryCount + 1;
    var cache := if cacheHealth.Some? then cacheHealth else t.cacheWorking;
    Throttle(n, cache, Some(ReducedTokens(current, Reduction(f, cache, n))), Grow(t.delay))
  }

  class ErrorHandler {
    var retryCount: nat
    var cacheWorking: Option<bool>
    var tokenOverride: Option<int>
    var delay: real

    function State(): Throttle
      reads this
    {
      Throttle(retryCount, cacheWorking, tokenOverride, delay)
    }

    constructor ()
      ensures State() == FRESH
    {
      retryCount, cacheWorking, tokenOverride, delay := 0, None, None, DELAY_MIN;
    }

    /** One exception; `cacheHealth` is what the last usage record says about
        the prompt cache, `current` the token limit of the failed request. */
    method Classify(f: Failure, cacheHealth: Option<bool>, current: int) returns (retry: bool, wait: real)
      modifies this
      ensures f.auth || !(f.throttling || f.readTimeout || f.transient) ==>
                State() == old(State()) && !retry && wait == 0.0
      ensures !f.auth && (f.throttling || f.readTimeout || f.transient) ==>
                && retryCount == old(retryCount) + 1
                && cacheWorking == (if cacheHealth.Some? then cacheHealth else old(cacheWorking))
                && tokenOverride.Some? && IsReduced(tokenOverride.value, current,
                                                    if f.readTimeout then 1.0
                                                    else if cacheWorking == Some(false) then 0.5
                                                    else if retryCount > 2 then 0.6
                                                    else 0.75)
                && delay == (if old(delay) * 2.5 > 3.0 then 3.0 else old(delay) * 2.5)
                && wait == Wait(f, retryCount)
      ensures retry <==> !f.auth && (f.readTimeout || f.transient) && old(retryCount) < 5
      ensures Untracked(f) ==> State() == old(State())
      ensures !Untracked(f) ==> State() == Tracked(old(State()), f, cacheHealth, current) && wait == Wait(f, retryCount)
      ensures retry == Retries(f, old(retryCount))
    {
      if Untracked(f) {
        return false, 0.0;
      }
      delay := Min(DELAY_MAX, delay * 2.5);
      if cacheHealth.Some? {
        cacheWorking := cacheHealth;
      }
      retryCount := retryCount + 1;
      wait := Wait(f, retryCount);
      tokenOverride := Some(ReducedTokens(current, Reduction(f, cacheWorking, retryCount)));
      retry := (f.readTimeout || f.transient) && retryCount <= MAX_RETRIES;
    }

    /** A tool call went through. */
    method ToolSucceeded()
      modifies this`delay
      ensures delay == if old(delay) * 0.6 < 0.1 then 0.1 else old(delay) * 0.6
      ensures delay == Decay(old(delay))
    {
      delay := Max(DELAY_MIN, delay * 0.6);
    }
  }

  /** The retried errors of a run with `count` errors behind it: the run ends
      at the first error that is not retried. */
  function Retried(count: nat, failures: seq<Failure>): seq<Failure>
    decreases |failures|
  {
    if failures == [] || !Retries(failures[0], count) then []
    else [failures[0]] + Retried(count + 1, failures[1..])
  }

  function TotalWait(count: nat, retried: seq<Failure>): real
    decreases |retried|
  {
    if retried == [] then 0.0
    else Wait(retried[0], count + 1) + TotalWait(count + 1, retried[1..])
  }

  /** The most that can still be waited, by errors like `f`. */
  function MostWait(f: Failure, count: nat): real
    decreases MAX_RETRIES - count
  {
    if count >= MAX_RETRIES then 0.0 else Wait(f, count + 1) + MostWait(f, count + 1)
  }

  const TIMEOUT := Failure(false, false, true, false)
  const TRANSIENT := Failure(false, false, false, true)

  lemma {:induction false} WaitBelowMost(f: Failure, count: nat, failures: seq<Failure>)
    requires !f.readTimeout || forall x :: x in failures ==> x.readTimeout
    ensures |Retried(count, failures)| + count <= MAX_RETRIES || Retried(count, failures) == []
    ensures TotalWait(count, Retried(count, failures)) <= MostWait(f, count)
    decreases |failures|
  {
    if failures != [] && Retries(failures[0], count) {
      WaitBelowMost(f, count + 1, failures[1..]);
      assert Retried(count, failures)[1..] == Retried(count + 1, failures[1..]);
      Pow2Step(count);
    } else {
      MostWaitPositive(f, count);
    }
  }

  lemma Pow2Step(n: nat)
    ensures Pow2(n + 1) == 2 * Pow2(n) && Pow2(n) >= 1
  {
    if n > 0 {
      Pow2Step(n - 1);
    }
  }

  lemma {:induction false} MostWaitPositive(f: Failure, count: nat)
    ensures MostWait(f, count) >= 0.0
    decreases MAX_RETRIES - count
  {
    if count < MAX_RETRIES {
      MostWaitPositive(f, count + 1);
      Pow2Step(count);
    }
  }

  lemma MostWaitValues()
    ensures MostWait(TIMEOUT, 0) == 44.0 && MostWait(TRANSIENT, 0) == 88.0
  {
    assert Pow2(0) == 1 && Pow2(1) == 2 && Pow2(2) == 4 && Pow2(3) == 8 && Pow2(4) == 16 && Pow2(5) == 32;
    forall f | f == TIMEOUT || f == TRANSIENT
      ensures MostWait(f, 0) == Wait(f, 1) + (Wait(f, 2) + (Wait(f, 3) + (Wait(f, 4) + Wait(f, 5))))
    {
      assert MostWait(f, 4) == Wait(f, 5);
      assert MostWait(f, 3) == Wait(f, 4) + MostWait(f, 4);
      assert MostWait(f, 2) == Wait(f, 3) + MostWait(f, 3);
      assert MostWait(f, 1) == Wait(f, 2) + MostWait(f, 2);
    }
  }

  /** In one run at most five errors are retried, with at most 88 seconds of
      waiting in all, or 44 if every one is a read timeout. */
  lemma RunWaitsAtMost(failures: seq<Failure>)
    ensures |Retried(0, failures)| <= 5
    ensures TotalWait(0, Retried(0, failures)) <= 88.0
    ensures (forall x :: x in failures ==> x.readTimeout) ==> TotalWait(0, Retried(0, failures)) <= 44.0
  {
    MostWaitValues();
    WaitBelowMost(TRANSIENT, 0, failures);
    if forall x :: x in failures ==> x.readTimeout {
      WaitBelowMost(TIMEOUT, 0, failures);
    }
  }

  /** The token limit of a retry never falls below 2048, and does not exceed
      the failed request's limit exactly when that was at least 2048. */
  lemma TokenLimitRisesIff(f: Failure, cache: Option<bool>, n: nat, current: int)
    requires current >= 0
    ensures var next := ReducedTokens(current, Reduction(f, cache, n));
            next >= MIN_TOKENS && (next <= current <==> current >= MIN_TOKENS)
  {
    var r := Reduction(f, cache, n);
    assert current as real * r <= current as real;
    assert (current as real * r).Floor <= current;
  }

  /** One exception of a run, with what the last usage record says about the cache. */
  datatype Hit = Hit(failure: Failure, cacheHealth: Option<bool>)

  /** The token limit after the exceptions `hits`, when every request uses the
      limit the last exception left; `count` exceptions were tracked before. */
  function LimitAfter(count: nat, cache: Option<bool>, limit: int, hits: seq<Hit>): int
    decreases |hits|
  {
    if hits == [] then limit
    else if Untracked(hits[0].failure) then LimitAfter(count, cache, limit, hits[1..])
    else
      var cache' := if hits[0].cacheHealth.Some? then hits[0].cacheHealth else cache;
      LimitAfter(count + 1, cache', ReducedTokens(limit, Reduction(hits[0].failure, cache', count + 1)), hits[1..])
  }

  /** That is what the handler does, exception after exception. */
  method HandleAll(limit: int, hits: seq<Hit>) returns (last: int)
    ensures last == LimitAfter(0, None, limit, hits)
  {
    var handler := new ErrorHandler();
    last := limit;
    for i := 0 to |hits|
      invariant fresh(handler)
      invariant LimitAfter(0, None, limit, hits)
                == LimitAfter(handler.retryCount, handler.cacheWorking, last, hits[i..])
    {
      assert hits[i..][1..] == hits[i + 1..];
      ghost var before := handler.State();
      var retry, wait := handler.Classify(hits[i].failure, hits[i].cacheHealth, last);
      if !Untracked(hits[i].failure) {
        last := handler.tokenOverride.value;
      }
    }
  }

  lemma {:induction false} LimitFalls(count: nat, cache: Option<bool>, limit: int, hits: seq<Hit>)
    requires limit >= MIN_TOKENS
    ensures MIN_TOKENS <= LimitAfter(count, cache, limit, hits) <= limit
    decreases |hits|
  {
    if hits != [] {
      if Untracked(hits[0].failure) {
        LimitFalls(count, cache, limit, hits[1..]);
      } else {
        var cache' := if hits[0].cacheHealth.Some? then hits[0].cacheHealth else cache;
        TokenLimitRisesIff(hits[0].failure, cache', count + 1, limit);
        LimitFalls(count + 1, cache', ReducedTokens(limit, Reduction(hits[0].failure, cache', count + 1)), hits[1..]);
      }
    }
  }

  /** Over any run: from a limit of at least 2048, further exceptions never raise
      the limit and never bring it below 2048. */
  lemma {:induction false} LimitNeverRises(count: nat, cache: Option<bool>, limit: int, hits: seq<Hit>, more: seq<Hit>)
    requires limit >= MIN_TOKENS
    ensures MIN_TOKENS <= LimitAfter(count, cache, limit, hits + more) <= LimitAfter(count, cache, limit, hits) <= limit
    decreases |hits|
  {
    LimitFalls(count, cache, limit, hits);
    if hits == [] {
      Nil(more);
      LimitFalls(count, cache, limit, more);
    } else {
      assert (hits + more)[0] == hits[0] && (hits + more)[1..] == hits[1..] + more;
      if Untracked(hits[0].failure) {
        LimitNeverRises(count, cache, limit, hits[1..], more);
      } else {
        var cache' := if hits[0].cacheHealth.Some? then hits[0].cacheHealth else cache;
        TokenLimitRisesIff(hits[0].failure, cache', count + 1, limit);
        LimitNeverRises(count + 1, cache', ReducedTokens(limit, Reduction(hits[0].failure, cache', count + 1)),
                        hits[1..], more);
      }
    }
  }

  datatype DelayEvent = Throttled | Succeeded

  function Delays(d: real, events: seq<DelayEvent>): real {
    if events == [] then d
    else
      var before := Delays(d, events[..|events| - 1]);
      if events[|events| - 1].Throttled? then Grow(before) else Decay(before)
  }

  /** How many events in a row, up to the last, are `e`. */
  function Streak(events: seq<DelayEvent>, e: DelayEvent): nat {
    if events == [] || events[|events| - 1] != e then 0 else 1 + Streak(events[..|events| - 1], e)
  }

  /** The last `n` events are `e`. */
  predicate EndsIn(events: seq<DelayEvent>, e: DelayEvent, n: nat) {
    n <= |events| && forall i :: |events| - n <= i < |events| ==> events[i] == e
  }

  lemma {:induction false} StreakIs(events: seq<DelayEvent>, e: DelayEvent, n: nat)
    ensures EndsIn(events, e, n) ==> Streak(events, e) >= n
    decreases n
  {
    if n > 0 && EndsIn(events, e, n) {
      StreakIs(events[..|events| - 1], e, n - 1);
    }
  }

  /** The delay stays within its floor and ceiling, seven successes in a row
      bring it to the floor and four throttlings in a row to the ceiling. */
  lemma DelayRange(d: real, events: seq<DelayEvent>)
    requires DELAY_MIN <= d <= DELAY_MAX
    ensures DELAY_MIN <= Delays(d, events) <= DELAY_MAX
    ensures EndsIn(events, Succeeded, 7) ==> Delays(d, events) == 0.1
    ensures EndsIn(events, Throttled, 4) ==> Delays(d, events) == 3.0
  {
    BoundValues();
    StreakIs(events, Succeeded, 7);
    StreakIs(events, Throttled, 4);
    DelayAfter(d, events, 7);
    DelayAfter(d, events, 4);
  }

  /** The most the delay can be after `n` successes in a row. */
  function MostAfter(n: nat): real {
    if n == 0 then DELAY_MAX else Decay(MostAfter(n - 1))
  }

  /** The least the delay can be after `n` throttlings in a row. */
  function LeastAfter(n: nat): real {
    if n == 0 then DELAY_MIN else Grow(LeastAfter(n - 1))
  }

  lemma {:induction false} DelayAfter(d: real, events: seq<DelayEvent>, n: nat)
    requires DELAY_MIN <= d <= DELAY_MAX
    ensures DELAY_MIN <= Delays(d, events) <= DELAY_MAX
    ensures Streak(events, Succeeded) >= n ==> Delays(d, events) <= MostAfter(n)
    ensures Streak(events, Throttled) >= n ==> Delays(d, events) >= LeastAfter(n)
    decreases |events|
  {
    if events != [] {
      DelayAfter(d, events[..|events| - 1], if n == 0 then 0 else n - 1);
    }
  }

  lemma BoundValues()
    ensures MostAfter(7) == DELAY_MIN && MostAfter(6) > DELAY_MIN
    ensures LeastAfter(4) == DELAY_MAX && LeastAfter(3) < DELAY_MAX
  {
    assert MostAfter(0) == 3.0;
    assert MostAfter(1) == 1.8;
    assert MostAfter(2) == 1.08;
    assert MostAfter(3) == 0.648;
    assert MostAfter(4) == 0.3888;
    assert MostAfter(5) == 0.23328;
    assert MostAfter(6) == 0.139968;
    assert LeastAfter(0) == 0.1;
    assert LeastAfter(1) == 0.25;
    assert LeastAfter(2) == 0.625;
    assert LeastAfter(3) == 1.5625;
  }


  /** Five read timeouts or unavailable services in a row are all retried, after
      these waits, and a sixth ends the run. */
  lemma FiveAreRetried(f: Failure)
    requires !f.auth && (f.readTimeout || f.transient)
    ensures forall n: nat :: Retries(f, n) <==> n < 5
    ensures f.readTimeout ==> Wait(f, 1) == 2.0 && Wait(f, 2) == 4.0 && Wait(f, 3) == 8.0
                              && Wait(f, 4) == 15.0 && Wait(f, 5) == 15.0
    ensures !f.readTimeout ==> Wait(f, 1) == 4.0 && Wait(f, 2) == 8.0 && Wait(f, 3) == 16.0
                               && Wait(f, 4) == 30.0 && Wait(f, 5) == 30.0
  {
    assert Pow2(0) == 1 && Pow2(1) == 2 && Pow2(2) == 4 && Pow2(3) == 8 && Pow2(4) == 16 && Pow2(5) == 32;
  }

  predicate Retryable(f: Failure) {
    !f.auth && (f.readTimeout || f.transient)
  }

  /** `n` are the first errors of `fs` that are retried, with `count` before them. */
  predicate FirstRetryable(count: nat, fs: seq<Failure>, n: nat) {
    && n <= |fs| && (forall i :: 0 <= i < n ==> Retryable(fs[i]) && count + i < 5)
    && (n < |fs| ==> !Retryable(fs[n]) || count + n >= 5)
  }

  lemma OneMoreRetryable(count: nat, fs: seq<Failure>, n: nat)
    requires fs != [] && Retryable(fs[0]) && count < 5 && FirstRetryable(count + 1, fs[1..], n)
    ensures FirstRetryable(count, fs, n + 1)
  {
    forall i | 0 <= i < n + 1
      ensures Retryable(fs[i]) && count + i < 5
    {
      if i > 0 {
        assert fs[i] == fs[1..][i - 1];
      }
    }
    assert n + 1 < |fs| ==> fs[n + 1] == fs[1..][n];
  }

  /** Retried are the errors up to the first that is not of the kind, or is the sixth. */
  lemma {:induction false} RetriedIs(count: nat, fs: seq<Failure>) returns (n: nat)
    ensures FirstRetryable(count, fs, n) && Retried(count, fs) == fs[..n]
    decreases |fs|
  {
    n := 0;
    if fs != [] && Retryable(fs[0]) && count < 5 {
      n := RetriedIs(count + 1, fs[1..]);
      OneMoreRetryable(count, fs, n);
      assert fs[..n + 1] == [fs[0]] + fs[1..][..n];
      n := n + 1;
    }
  }
}
