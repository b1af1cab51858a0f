/** libs/shared.ts: the configuration constants, port allocation, session ids and the retry helper. */
module Shared {
  import opened Wrappers
  import opened Text

  const DefaultTimeout := 300000
  const PortRangeStart := 9222
  const PortRangeEnd := 9322
  const BrowserImage := "browserless/chrome:latest"
  const NoPortsMessage := "No available ports in the configured range"

  datatype Viewport = Viewport(width: int, height: int)

  const DefaultViewport := Viewport(1920, 1080)

  // ---------------------------------------------------------------- ports

  predicate InPortRange(p: int) { PortRangeStart <= p <= PortRangeEnd }

  /** Every port of the range is taken. */
  ghost predicate AllPortsUsed(used: set<int>) {
    forall p :: InPortRange(p) ==> p in used
  }

  /** `p` is the smallest port of the range that is not taken. */
  ghost predicate IsLowestFreePort(used: set<int>, p: int) {
    InPortRange(p) && p !in used && forall q :: PortRangeStart <= q < p ==> q in used
  }

  /** findAvailablePort: scan the range upwards and return the first free port, or throw. */
  method FindAvailablePort(used: set<int>) returns (r: Result<int, string>)
    ensures r.Ok? ==> IsLowestFreePort(used, r.value)
    ensures r.Err? <==> AllPortsUsed(used)
    ensures r.Err? ==> r.error == NoPortsMessage
  {
    var port := PortRangeStart;
    while port <= PortRangeEnd
      invariant PortRangeStart <= port <= PortRangeEnd + 1
      invariant forall q :: PortRangeStart <= q < port ==> q in used
    {
      if port !in used {
        return Ok(port);
      }
      port := port + 1;
    }
    return Err(NoPortsMessage);
  }

  /** The lowest free port is unique: two scans of the same set agree. */
  lemma LowestFreePortUnique(used: set<int>, p: int, q: int)
    requires IsLowestFreePort(used, p) && IsLowestFreePort(used, q)
    ensures p == q
  {
  }

  /** The integers lo..hi, inclusive. */
  function Interval(lo: int, hi: int): (s: set<int>)
    ensures forall p :: p in s <==> lo <= p <= hi
    decreases hi - lo
  {
    if lo > hi then {} else Interval(lo, hi - 1) + {hi}
  }

  lemma {:induction false} IntervalSize(lo: int, hi: int)
    requires lo <= hi + 1
    ensures |Interval(lo, hi)| == hi - lo + 1
    decreases hi - lo
  {
    if lo <= hi {
      IntervalSize(lo, hi - 1);
      assert hi !in Interval(lo, hi - 1);
    }
  }

  /** Allocation can only fail once all 101 ports of the range are in use. */
  lemma AllocationFailsOnlyWhenFull(used: set<int>)
    requires AllPortsUsed(used)
    ensures |used| >= PortRangeEnd - PortRangeStart + 1
  {
    var range := Interval(PortRangeStart, PortRangeEnd);
    IntervalSize(PortRangeStart, PortRangeEnd);
    assert range <= used;
    assert used == range + (used - range);
  }

  // ---------------------------------------------------------------- session ids

  const SessionPrefix := "session_"

  /** isValidSessionId: the regex `^session_\d+_[a-z0-9]{9}$`, checked position by position.
      The digits and the suffix cannot contain `_`, so the suffix is the last nine characters
      and the separator the tenth from the end. */
  predicate IsValidSessionId(s: string)
    ensures IsValidSessionId(s) ==> |s| > 0 && s[0] == 's'
  {
    && |s| >= |SessionPrefix| + 1 + 1 + 9
    && s[..|SessionPrefix|] == SessionPrefix
    && AllDigits(s[|SessionPrefix|..|s| - 10])
    && s[|s| - 10] == '_'
    && AllLowerAlnum(s[|s| - 9..])
  }

  function SessionIdOf(digits: string, suffix: string): string {
    SessionPrefix + digits + "_" + suffix
  }

  /** The regex read as a grammar: "session_", one or more digits, "_", nine of [a-z0-9]. */
  ghost predicate MatchesSessionIdPattern(s: string) {
    exists digits, suffix ::
      && |digits| > 0 && AllDigits(digits)
      && |suffix| == 9 && AllLowerAlnum(suffix)
      && s == SessionIdOf(digits, suffix)
  }

  /** The positional check accepts exactly the strings of the grammar. */
  lemma ValidSessionIdIffPattern(s: string)
    ensures IsValidSessionId(s) <==> MatchesSessionIdPattern(s)
  {
    if IsValidSessionId(s) {
      var digits, suffix := s[|SessionPrefix|..|s| - 10], s[|s| - 9..];
      assert s == SessionIdOf(digits, suffix);
    }
    if MatchesSessionIdPattern(s) {
      var digits, suffix :| && |digits| > 0 && AllDigits(digits)
                             && |suffix| == 9 && AllLowerAlnum(suffix)
                             && s == SessionIdOf(digits, suffix);
      assert s[..|SessionPrefix|] == SessionPrefix;
      assert s[|SessionPrefix|..|s| - 10] == digits;
      assert s[|s| - 9..] == suffix;
    }
  }

  /** `str.substring(from, to)` for 0 <= from <= to: both indices are clamped to the length. */
  function Substring(s: string, from: nat, to: nat): (r: string)
    requires from <= to
    ensures |r| <= to - from
  {
    var hi := if to < |s| then to else |s|;
    var lo := if from < hi then from else hi;
    s[lo..hi]
  }

  /** generateSessionId with `Date.now()` as `nowMs` and `Math.random().toString(36)` as `random36`:
      the decimal timestamp and characters 2..8 of the random string. */
  function GenerateSessionId(nowMs: int, random36: string): (id: string)
    ensures |id| > |SessionPrefix| && id[..|SessionPrefix|] == SessionPrefix
  {
    SessionPrefix + IntToString(nowMs) + "_" + Substring(random36, 2, 9)
  }

  /** Whatever the clock and the random string, a generated id is refused by isValidSessionId:
      the random part has at most seven characters, so the separator `_` always falls inside
      the last nine characters, which the regex requires to be [a-z0-9]. */
  lemma GeneratedIdIsRejected(nowMs: int, random36: string)
    ensures !IsValidSessionId(GenerateSessionId(nowMs, random36))
  {
    var id := GenerateSessionId(nowMs, random36);
    var tail := Substring(random36, 2, 9);
    var sep := |id| - 1 - |tail|;
    assert id[sep] == '_';
    if |id| >= 19 {
      assert id[|id| - 9..][sep - (|id| - 9)] == '_';
    }
  }

  /** The id generator with the evidently intended suffix length: characters 2..10, nine in all. */
  function GenerateSessionIdFixed(nowMs: int, random36: string): (id: string)
  {
    SessionPrefix + IntToString(nowMs) + "_" + Substring(random36, 2, 11)
  }

  /** With a non-negative clock and a random string of at least eleven characters, written as
      `Math.random().toString(36)` writes them ("0." then base-36 digits), the fixed generator's
      ids pass the validator. */
  lemma GeneratedFixedIdIsValid(nowMs: int, random36: string)
    requires nowMs >= 0
    requires |random36| >= 11 && AllLowerAlnum(random36[2..])
    ensures IsValidSessionId(GenerateSessionIdFixed(nowMs, random36))
  {
    var digits, suffix := IntToString(nowMs), Substring(random36, 2, 11);
    assert suffix == random36[2..][..9];
    assert GenerateSessionIdFixed(nowMs, random36) == SessionIdOf(digits, suffix);
    ValidSessionIdIffPattern(GenerateSessionIdFixed(nowMs, random36));
  }

  // ---------------------------------------------------------------- retry

  datatype RetryOptions = RetryOptions(maxAttempts: Option<int>, baseDelay: Option<int>, maxDelay: Option<int>)

  /** Destructuring defaults: 3 attempts, 1000 ms base delay, 10000 ms cap. */
  function MaxAttempts(o: RetryOptions): int { o.maxAttempts.GetOr(3) }
  function BaseDelay(o: RetryOptions): int { o.baseDelay.GetOr(1000) }
  function MaxDelay(o: RetryOptions): int { o.maxDelay.GetOr(10000) }

  /** What `retry` throws: the last attempt's error, or `undefined` when no attempt ran. */
  datatype Thrown<+E> = Raised(error: E) | RaisedUndefined

  function Pow2(k: nat): nat { if k == 0 then 1 else 2 * Pow2(k - 1) }

  function Min(a: int, b: int): int { if a <= b then a else b }

  /** The sleep after failed attempt `attempt` (1-based). */
  function BackoffDelay(baseDelay: int, maxDelay: int, attempt: nat): int
    requires attempt >= 1
  {
    Min(baseDelay * Pow2(attempt - 1), maxDelay)
  }

  /** The sleeps after the first `n` attempts, in order. */
  function BackoffSchedule(baseDelay: int, maxDelay: int, n: nat): (delays: seq<int>) {
    seq(n, k requires 0 <= k < n => BackoffDelay(baseDelay, maxDelay, k + 1))
  }

  /** retry: attempt `fn` (outcome of attempt k is `fn(k)`) until it succeeds or `maxAttempts`
      attempts failed. Returns the result, the number of calls and the sleeps taken. */
  method Retry<T, E>(fn: nat -> Result<T, E>, options: RetryOptions)
    returns (r: Result<T, Thrown<E>>, calls: nat, delays: seq<int>)
    ensures calls <= (if MaxAttempts(options) < 0 then 0 else MaxAttempts(options))
    ensures forall k :: 1 <= k < calls ==> fn(k).Err?
    ensures r.Ok? ==> calls >= 1 && fn(calls).Ok? && r.value == fn(calls).value
    ensures r.Err? && MaxAttempts(options) >= 1 ==>
              calls == MaxAttempts(options) && fn(calls).Err? && r.error == Raised(fn(calls).error)
    ensures MaxAttempts(options) < 1 ==> calls == 0 && r == Err(RaisedUndefined)
    ensures delays == BackoffSchedule(BaseDelay(options), MaxDelay(options), if calls == 0 then 0 else calls - 1)
  {
    var maxAttempts, baseDelay, maxDelay := MaxAttempts(options), BaseDelay(options), MaxDelay(options);
    delays := [];
    calls := 0;
    var attempt := 1;
    while attempt <= maxAttempts
      invariant 1 <= attempt && (maxAttempts >= 1 ==> attempt <= maxAttempts)
      invariant maxAttempts < 1 ==> attempt == 1
      invariant calls == attempt - 1
      invariant forall k :: 1 <= k < attempt ==> fn(k).Err?
      invariant delays == BackoffSchedule(baseDelay, maxDelay, attempt - 1)
    {
      calls := calls + 1;
      var outcome := fn(attempt);
      if outcome.Ok? {
        assert delays == BackoffSchedule(baseDelay, maxDelay, calls - 1);
        return Ok(outcome.value), calls, delays;
      }
      if attempt == maxAttempts {
        return Err(Raised(outcome.error)), calls, delays;
      }
      delays := delays + [BackoffDelay(baseDelay, maxDelay, attempt)];
      attempt := attempt + 1;
    }
    return Err(RaisedUndefined), calls, delays;
  }

  lemma {:induction false} Pow2Monotone(j: nat, k: nat)
    requires j <= k
    ensures Pow2(j) <= Pow2(k)
    decreases k
  {
    if j < k { Pow2Monotone(j, k - 1); }
  }

  /** The sleeps never exceed the cap and, for a non-negative base, never shrink. */
  lemma BackoffBoundedAndMonotone(baseDelay: int, maxDelay: int, n: nat)
    requires baseDelay >= 0
    ensures forall k :: 0 <= k < n ==> BackoffSchedule(baseDelay, maxDelay, n)[k] <= maxDelay
    ensures forall j, k :: 0 <= j <= k < n ==>
              BackoffSchedule(baseDelay, maxDelay, n)[j] <= BackoffSchedule(baseDelay, maxDelay, n)[k]
  {
    forall j, k | 0 <= j <= k < n
      ensures BackoffSchedule(baseDelay, maxDelay, n)[j] <= BackoffSchedule(baseDelay, maxDelay, n)[k]
    {
      Pow2Monotone(j, k);
      assert baseDelay * Pow2(j) <= baseDelay * Pow2(k) by {
        MulMonotone(baseDelay, Pow2(j), Pow2(k));
      }
    }
  }

  lemma MulMonotone(a: nat, x: nat, y: nat)
    requires x <= y
    ensures a * x <= a * y
  {
  }

  /** With the default options a failing `fn` is called three times, with sleeps of 1 s and 2 s. */
  lemma DefaultSchedule()
    ensures BackoffSchedule(1000, 10000, MaxAttempts(RetryOptions(None, None, None)) - 1) == [1000, 2000]
  {
    assert Pow2(1) == 2;
  }
}
