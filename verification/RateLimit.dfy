/**
 The two rate limiters, and a bound for each over every run of calls on one
 key with non-decreasing times and a fixed limit and window.
 */
module RateLimit {

  import opened Options

  datatype Decision =
    | Allowed(remaining: int, resetAt: int)
    | Denied(retryAfterSeconds: int, resetAt: int)

  function Max(a: int, b: int): int {
    if a < b then b else a
  }

  /** Math.ceil(ms / 1000). */
  function CeilSeconds(ms: int): int {
    -((-ms) / 1000)
  }

  function RetryAfter(resetAt: int, now: int): int {
    Max(1, CeilSeconds(resetAt - now))
  }

  /** Waiting out the announced seconds reaches the reset time. */
  lemma {:induction false} RetryReachesReset(resetAt: int, now: int)
    ensures resetAt <= now + RetryAfter(resetAt, now) * 1000
  {
  }

  /** Number of times in (a, b]. */
  function Count(times: seq<int>, a: int, b: int): nat {
    if times == [] then 0
    else Count(times[..|times| - 1], a, b) + (if a < times[|times| - 1] <= b then 1 else 0)
  }

  predicate NonDecreasing(times: seq<int>) {
    forall i, j :: 0 <= i < j < |times| ==> times[i] <= times[j]
  }

  // ---- Sliding window -----------------------------------------------------

  function Recent(attempts: seq<int>, windowStart: int): seq<int> {
    if attempts == [] then []
    else
      var last := attempts[|attempts| - 1];
      Recent(attempts[..|attempts| - 1], windowStart) + (if last > windowStart then [last] else [])
  }

  predicate SlidingAllows(attempts: seq<int>, limit: int, windowMs: int, now: int) {
    |Recent(attempts, now - windowMs)| < limit
  }

  /** What a check leaves stored. */
  function SlidingStored(attempts: seq<int>, limit: int, windowMs: int, now: int): seq<int> {
    var recent := Recent(attempts, now - windowMs);
    if SlidingAllows(attempts, limit, windowMs, now) then recent + [now] else recent
  }

  function SlidingDecision(attempts: seq<int>, limit: int, windowMs: int, now: int): Decision {
    var stored := SlidingStored(attempts, limit, windowMs, now);
    var resetAt := (if stored == [] then now else stored[0]) + windowMs;
    if SlidingAllows(attempts, limit, windowMs, now) then Allowed(Max(0, limit - |stored|), resetAt)
    else Denied(RetryAfter(resetAt, now), resetAt)
  }

  class InMemorySlidingWindowRateLimiter {
    var attempts: map<string, seq<int>>

    constructor ()
      ensures attempts == map[]
    {
      attempts := map[];
    }

    function Of(key: string): seq<int>
      reads this
    {
      if key in attempts then attempts[key] else []
    }

    /** A check changes the checked key's attempts only. */
    method Check(key: string, limit: int, windowMs: int, now: int) returns (decision: Decision)
      modifies this
      ensures decision == SlidingDecision(old(Of(key)), limit, windowMs, now)
      ensures Of(key) == SlidingStored(old(Of(key)), limit, windowMs, now)
      ensures attempts == old(attempts)[key := Of(key)]
    {
      var windowStart := now - windowMs;
      var recentAttempts := Recent(if key in attempts then attempts[key] else [], windowStart);
      if |recentAttempts| >= limit {
        attempts := attempts[key := recentAttempts];
        var oldestAttempt := if |recentAttempts| > 0 then recentAttempts[0] else now;
        var resetAt := oldestAttempt + windowMs;
        return Denied(RetryAfter(resetAt, now), resetAt);
      }
      recentAttempts := recentAttempts + [now];
      attempts := attempts[key := recentAttempts];
      return Allowed(Max(0, limit - |recentAttempts|), recentAttempts[0] + windowMs);
    }

    method Clear()
      modifies this
      ensures attempts == map[]
    {
      attempts := map[];
    }
  }

  /** One key after a run of calls: what the limiter stores, and the times of the allowed calls. */
  datatype SlidingState = SlidingState(stored: seq<int>, allowed: seq<int>)

  function SlidingAfter(s: SlidingState, limit: int, windowMs: int, now: int): SlidingState {
    SlidingState(SlidingStored(s.stored, limit, windowMs, now),
                 if SlidingAllows(s.stored, limit, windowMs, now) then s.allowed + [now] else s.allowed)
  }

  function SlidingRun(calls: seq<int>, limit: int, windowMs: int): SlidingState {
    if calls == [] then SlidingState([], [])
    else
      var now := calls[|calls| - 1];
      var before := SlidingRun(calls[..|calls| - 1], limit, windowMs);
      SlidingAfter(before, limit, windowMs, now)
  }

  lemma {:induction false} RecentOfRecent(times: seq<int>, a: int, b: int)
    requires a <= b
    ensures Recent(Recent(times, a), b) == Recent(times, b)
  {
    if times != [] {
      var n := |times| - 1;
      RecentOfRecent(times[..n], a, b);
      if times[n] > a {
        RecentSnoc(Recent(times[..n], a), times[n], b);
      } else {
        assert Recent(times, a) == Recent(times[..n], a);
        assert Recent(times, b) == Recent(times[..n], b);
      }
    }
  }

  lemma {:induction false} RecentSnoc(times: seq<int>, t: int, a: int)
    ensures Recent(times + [t], a) == Recent(times, a) + (if t > a then [t] else [])
  {
    assert (times + [t])[..|times|] == times;
  }

  lemma {:induction false} CountSnoc(times: seq<int>, t: int, a: int, b: int)
    ensures Count(times + [t], a, b) == Count(times, a, b) + (if a < t <= b then 1 else 0)
  {
    assert (times + [t])[..|times|] == times;
  }

  /** No interval starting at or after `a` holds more than what is recent from `a` on. */
  lemma {:induction false} CountWithinRecent(times: seq<int>, a: int, from: int, to: int)
    requires a <= from
    ensures Count(times, from, to) <= |Recent(times, a)|
  {
    if times != [] {
      CountWithinRecent(times[..|times| - 1], a, from, to);
    }
  }

  lemma {:induction false} CountBelow(times: seq<int>, a: int, b: int)
    requires a >= b
    ensures Count(times, a, b) == 0
  {
    if times != [] {
      CountBelow(times[..|times| - 1], a, b);
    }
  }

  predicate WithinLimit(allowed: seq<int>, limit: int, windowMs: int, t: int) {
    Count(allowed, t - windowMs, t) <= Max(limit, 0)
  }

  /** What is stored is what is recent, and no window holds too much. */
  ghost predicate SlidingOk(s: SlidingState, limit: int, windowMs: int, last: int) {
    && s.stored == Recent(s.allowed, last - windowMs)
    && (forall i :: 0 <= i < |s.allowed| ==> s.allowed[i] <= last)
    && (forall t :: WithinLimit(s.allowed, limit, windowMs, t))
  }

  /** Allowing a call when fewer than `limit` are recent keeps every window within the limit. */
  lemma {:induction false} AllowingFits(allowed: seq<int>, limit: int, windowMs: int, now: int)
    requires |Recent(allowed, now - windowMs)| < limit && forall t :: WithinLimit(allowed, limit, windowMs, t)
    ensures forall t :: WithinLimit(allowed + [now], limit, windowMs, t)
  {
    forall t
      ensures WithinLimit(allowed + [now], limit, windowMs, t)
    {
      assert WithinLimit(allowed, limit, windowMs, t);
      CountSnoc(allowed, now, t - windowMs, t);
      if now <= t {
        CountWithinRecent(allowed, now - windowMs, t - windowMs, t);
      }
    }
  }

  lemma {:induction false} StoredIsRecent(s: SlidingState, limit: int, windowMs: int, last: int, now: int)
    requires 0 < windowMs && last <= now && s.stored == Recent(s.allowed, last - windowMs)
    ensures var after := SlidingAfter(s, limit, windowMs, now);
            after.stored == Recent(after.allowed, now - windowMs)
    ensures Recent(s.stored, now - windowMs) == Recent(s.allowed, now - windowMs)
  {
    assert Recent(s.stored, now - windowMs) == Recent(s.allowed, now - windowMs) by {
      RecentOfRecent(s.allowed, last - windowMs, now - windowMs);
    }
    if SlidingAllows(s.stored, limit, windowMs, now) {
      RecentSnoc(s.allowed, now, now - windowMs);
    }
  }

  lemma {:induction false} SlidingStep(s: SlidingState, limit: int, windowMs: int, last: int, now: int)
    requires 0 < windowMs && last <= now && SlidingOk(s, limit, windowMs, last)
    ensures SlidingOk(SlidingAfter(s, limit, windowMs, now), limit, windowMs, now)
  {
    StoredIsRecent(s, limit, windowMs, last, now);
    if SlidingAllows(s.stored, limit, windowMs, now) {
      AllowingFits(s.allowed, limit, windowMs, now);
    }
  }

  lemma {:induction false} SlidingInvariant(calls: seq<int>, limit: int, windowMs: int)
    requires NonDecreasing(calls) && 0 < windowMs
    ensures calls == [] ==> SlidingRun(calls, limit, windowMs) == SlidingState([], [])
    ensures calls != [] ==> SlidingOk(SlidingRun(calls, limit, windowMs), limit, windowMs, calls[|calls| - 1])
  {
    if calls != [] {
      var n, now := |calls| - 1, calls[|calls| - 1];
      SlidingInvariant(calls[..n], limit, windowMs);
      SlidingStep(SlidingRun(calls[..n], limit, windowMs), limit, windowMs, if n > 0 then calls[n - 1] else now, now);
    }
  }

  /** In every run, any window-long interval (t - W, t] holds at most `limit` allowed calls. */
  lemma {:induction false} SlidingBound(calls: seq<int>, limit: int, windowMs: int, t: int)
    requires NonDecreasing(calls)
    ensures Count(SlidingRun(calls, limit, windowMs).allowed, t - windowMs, t) <= Max(limit, 0)
  {
    var s := SlidingRun(calls, limit, windowMs);
    if windowMs <= 0 {
      CountBelow(s.allowed, t - windowMs, t);
    } else if calls != [] {
      SlidingInvariant(calls, limit, windowMs);
      assert WithinLimit(s.allowed, limit, windowMs, t);
    }
  }

  /** A call is allowed exactly when fewer than `limit` allowed calls lie in the window that ends with it. */
  lemma {:induction false} SlidingExact(calls: seq<int>, limit: int, windowMs: int, now: int)
    requires NonDecreasing(calls + [now]) && 0 < windowMs
    ensures var s := SlidingRun(calls, limit, windowMs);
            SlidingDecision(s.stored, limit, windowMs, now).Allowed? <==> Count(s.allowed, now - windowMs, now) < limit
  {
    RecentFits(calls, limit, windowMs, now);
  }

  /**
   After a denial, a call made exactly `retryAfterSeconds` later with none in between is allowed, for every
   positive limit; with a limit of zero or less no call ever is.
   */
  lemma {:induction false} SlidingRetryAfter(calls: seq<int>, limit: int, windowMs: int, now: int)
    requires NonDecreasing(calls + [now]) && 0 < windowMs
    requires SlidingDecision(SlidingRun(calls, limit, windowMs).stored, limit, windowMs, now).Denied?
    ensures var attempts := SlidingRun(calls, limit, windowMs).stored;
            var later := now + SlidingDecision(attempts, limit, windowMs, now).retryAfterSeconds * 1000;
            SlidingDecision(SlidingStored(attempts, limit, windowMs, now), limit, windowMs, later).Allowed? <==>
              1 <= limit
  {
    var attempts := SlidingRun(calls, limit, windowMs).stored;
    assert |Recent(attempts, now - windowMs)| <= Max(limit, 0) by {
      RecentFits(calls, limit, windowMs, now);
    }
    DeniedThenAllowed(attempts, limit, windowMs, now);
  }

  /**
   What an allowed call is told is true: how many more the window can take, and when the oldest call it counts leaves
   the window.
   */
  predicate ToldTrue(s: SlidingState, limit: int, windowMs: int, now: int) {
    var decision, after := SlidingDecision(s.stored, limit, windowMs, now), SlidingAfter(s, limit, windowMs, now);
    && decision.Allowed?
    && decision.remaining == limit - Count(after.allowed, now - windowMs, now)
    && decision.resetAt - windowMs in after.stored && now < decision.resetAt
    && forall i :: 0 <= i < |after.stored| ==> decision.resetAt <= after.stored[i] + windowMs
  }

  lemma {:induction false} SlidingAllowance(calls: seq<int>, limit: int, windowMs: int, now: int)
    requires NonDecreasing(calls + [now]) && 0 < windowMs
    requires SlidingAllows(SlidingRun(calls, limit, windowMs).stored, limit, windowMs, now)
    ensures ToldTrue(SlidingRun(calls, limit, windowMs), limit, windowMs, now)
  {
    WithoutLast(calls, now);
    StoredOrdered(calls, limit, windowMs, now);
    RecentFits(calls, limit, windowMs, now);
    AllowanceFor(SlidingRun(calls, limit, windowMs), limit, windowMs, now);
  }

  lemma {:induction false} AllowanceFor(s: SlidingState, limit: int, windowMs: int, now: int)
    requires OrderedUpTo(s.stored, now) && 0 < windowMs && SlidingAllows(s.stored, limit, windowMs, now)
    requires |Recent(s.stored, now - windowMs)| == Count(s.allowed, now - windowMs, now)
    ensures ToldTrue(s, limit, windowMs, now)
  {
    var recent := Recent(s.stored, now - windowMs);
    CountSnoc(s.allowed, now, now - windowMs, now);
    RecentOrdered(s.stored, now - windowMs, now);
    RecentAbove(s.stored, now - windowMs);
    assert (recent + [now])[0] in recent + [now];
  }

  lemma {:induction false} RecentAbove(times: seq<int>, a: int)
    ensures forall i :: 0 <= i < |Recent(times, a)| ==> a < Recent(times, a)[i]
  {
    if times != [] {
      RecentAbove(times[..|times| - 1], a);
    }
  }

  /** Before any call, the recent attempts are the allowed calls of the window, within the limit. */
  lemma {:induction false} RecentFits(calls: seq<int>, limit: int, windowMs: int, now: int)
    requires NonDecreasing(calls + [now]) && 0 < windowMs
    ensures var s := SlidingRun(calls, limit, windowMs);
            |Recent(s.stored, now - windowMs)| == Count(s.allowed, now - windowMs, now) <= Max(limit, 0)
  {
    if calls != [] {
      WithoutLast(calls, now);
      SlidingInvariant(calls, limit, windowMs);
      OkFits(SlidingRun(calls, limit, windowMs), limit, windowMs, calls[|calls| - 1], now);
    }
  }

  lemma {:induction false} WithoutLast(calls: seq<int>, now: int)
    requires NonDecreasing(calls + [now])
    ensures NonDecreasing(calls) && (calls != [] ==> calls[|calls| - 1] <= now)
  {
    assert forall i :: 0 <= i < |calls| ==> (calls + [now])[i] == calls[i];
    assert (calls + [now])[|calls|] == now;
  }

  lemma {:induction false} OkFits(s: SlidingState, limit: int, windowMs: int, last: int, now: int)
    requires 0 < windowMs && last <= now && SlidingOk(s, limit, windowMs, last)
    ensures |Recent(s.stored, now - windowMs)| == Count(s.allowed, now - windowMs, now) <= Max(limit, 0)
  {
    RecentOfRecent(s.allowed, last - windowMs, now - windowMs);
    RecentSize(s.allowed, now - windowMs, now);
    assert WithinLimit(s.allowed, limit, windowMs, now);
  }

  lemma {:induction false} DeniedThenAllowed(attempts: seq<int>, limit: int, windowMs: int, now: int)
    requires |Recent(attempts, now - windowMs)| <= Max(limit, 0)
    requires SlidingDecision(attempts, limit, windowMs, now).Denied?
    ensures var stored := SlidingStored(attempts, limit, windowMs, now);
            var later := now + SlidingDecision(attempts, limit, windowMs, now).retryAfterSeconds * 1000;
            SlidingDecision(stored, limit, windowMs, later).Allowed? <==> 1 <= limit
  {
    var stored := SlidingStored(attempts, limit, windowMs, now);
    if 1 <= limit {
      var resetAt := stored[0] + windowMs;
      RetryReachesReset(resetAt, now);
      DropsOldest(stored, now + RetryAfter(resetAt, now) * 1000 - windowMs);
    }
  }

  /** All times lie in order, and none after `last`. */
  predicate OrderedUpTo(times: seq<int>, last: int) {
    NonDecreasing(times) && forall i :: 0 <= i < |times| ==> times[i] <= last
  }

  lemma {:induction false} RecentOrdered(times: seq<int>, a: int, last: int)
    requires OrderedUpTo(times, last)
    ensures OrderedUpTo(Recent(times, a), last)
  {
    if times != [] {
      RecentOrdered(times[..|times| - 1], a, times[|times| - 1]);
    }
  }

  lemma {:induction false} StoredOrdered(calls: seq<int>, limit: int, windowMs: int, last: int)
    requires OrderedUpTo(calls, last)
    ensures OrderedUpTo(SlidingRun(calls, limit, windowMs).stored, last)
  {
    if calls != [] {
      var now := calls[|calls| - 1];
      StoredOrdered(calls[..|calls| - 1], limit, windowMs, now);
      RecentOrdered(SlidingRun(calls[..|calls| - 1], limit, windowMs).stored, now - windowMs, now);
    }
  }

  lemma {:induction false} NoneDropped(times: seq<int>, a: int)
    requires NonDecreasing(times) && (times != [] ==> a < times[0])
    ensures Recent(times, a) == times
  {
    if times != [] {
      NoneDropped(times[..|times| - 1], a);
    }
  }

  /**
   The announced wait is the least number of whole seconds: after a denial every later call is denied until the reset
   time, and so is a call one second short of the wait, when more than one second is announced.
   */
  lemma {:induction false} SlidingRetryIsLeast(calls: seq<int>, limit: int, windowMs: int, now: int, t: int)
    requires NonDecreasing(calls + [now]) && 0 < windowMs && now <= t
    requires SlidingDecision(SlidingRun(calls, limit, windowMs).stored, limit, windowMs, now).Denied?
    ensures var attempts := SlidingRun(calls, limit, windowMs).stored;
            var denial := SlidingDecision(attempts, limit, windowMs, now);
            var after := SlidingStored(attempts, limit, windowMs, now);
            && (t < denial.resetAt ==> SlidingDecision(after, limit, windowMs, t).Denied?)
            && 1 <= denial.retryAfterSeconds
            && (1 < denial.retryAfterSeconds ==>
                  SlidingDecision(after, limit, windowMs, now + (denial.retryAfterSeconds - 1) * 1000).Denied?)
  {
    WithoutLast(calls, now);
    StoredOrdered(calls, limit, windowMs, now);
    LeastFor(SlidingRun(calls, limit, windowMs).stored, limit, windowMs, now, t);
  }

  lemma {:induction false} LeastFor(attempts: seq<int>, limit: int, windowMs: int, now: int, t: int)
    requires OrderedUpTo(attempts, now) && SlidingDecision(attempts, limit, windowMs, now).Denied?
    ensures var denial := SlidingDecision(attempts, limit, windowMs, now);
            var after := SlidingStored(attempts, limit, windowMs, now);
            && (t < denial.resetAt ==> SlidingDecision(after, limit, windowMs, t).Denied?)
            && 1 <= denial.retryAfterSeconds
            && (1 < denial.retryAfterSeconds ==>
                  SlidingDecision(after, limit, windowMs, now + (denial.retryAfterSeconds - 1) * 1000).Denied?)
  {
    var denial := SlidingDecision(attempts, limit, windowMs, now);
    RecentOrdered(attempts, now - windowMs, now);
    DenialIs(attempts, limit, windowMs, now);
    OneSecondShort(denial.resetAt, now);
    DeniedUntil(SlidingStored(attempts, limit, windowMs, now), limit, windowMs, denial.resetAt, t);
    DeniedUntil(SlidingStored(attempts, limit, windowMs, now), limit, windowMs, denial.resetAt,
                now + (denial.retryAfterSeconds - 1) * 1000);
  }

  lemma {:induction false} DenialIs(attempts: seq<int>, limit: int, windowMs: int, now: int)
    requires SlidingDecision(attempts, limit, windowMs, now).Denied?
    ensures var recent, denial := Recent(attempts, now - windowMs), SlidingDecision(attempts, limit, windowMs, now);
            && limit <= |recent| && SlidingStored(attempts, limit, windowMs, now) == recent
            && (recent != [] ==> denial.resetAt == recent[0] + windowMs)
            && denial.retryAfterSeconds == RetryAfter(denial.resetAt, now)
  {
  }

  lemma {:induction false} OneSecondShort(resetAt: int, now: int)
    ensures 1 < RetryAfter(resetAt, now) ==> now + (RetryAfter(resetAt, now) - 1) * 1000 < resetAt
  {
  }

  lemma {:induction false} DeniedUntil(recent: seq<int>, limit: int, windowMs: int, resetAt: int, t: int)
    requires NonDecreasing(recent) && limit <= |recent| && (recent != [] ==> resetAt == recent[0] + windowMs)
    ensures t < resetAt ==> SlidingDecision(recent, limit, windowMs, t).Denied?
  {
    if t < resetAt {
      NoneDropped(recent, t - windowMs);
      TooManyIsDenied(recent, limit, windowMs, t);
    }
  }

  lemma {:induction false} TooManyIsDenied(attempts: seq<int>, limit: int, windowMs: int, now: int)
    requires limit <= |Recent(attempts, now - windowMs)|
    ensures SlidingDecision(attempts, limit, windowMs, now).Denied?
  {
  }

  /** Up to the last time, counting is the same as being recent. */
  lemma {:induction false} RecentSize(times: seq<int>, a: int, b: int)
    requires forall i :: 0 <= i < |times| ==> times[i] <= b
    ensures |Recent(times, a)| == Count(times, a, b)
  {
    if times != [] {
      RecentSize(times[..|times| - 1], a, b);
    }
  }

  lemma {:induction false} DropsOldest(times: seq<int>, a: int)
    requires times != [] && times[0] <= a
    ensures |Recent(times, a)| < |times|
  {
    if |times| == 1 {
      assert times[..0] == [];
    } else {
      DropsOldest(times[..|times| - 1], a);
    }
  }

  // ---- Fixed window -------------------------------------------------------

  datatype Bucket = Bucket(count: int, windowStart: int, expiresAt: int)

  /** The upsert: insert, or on conflict reset an expired window, or count. */
  function Upsert(row: Option<Bucket>, windowMs: int, now: int): Bucket {
    if row.None? || row.value.windowStart <= now - windowMs then Bucket(1, now, now + windowMs)
    else row.value.(count := row.value.count + 1)
  }

  function FixedDecision(row: Bucket, limit: int, now: int): Decision {
    if row.count > limit then Denied(RetryAfter(row.expiresAt, now), row.expiresAt)
    else Allowed(Max(0, limit - row.count), row.expiresAt)
  }

  class DatabaseFixedWindowRateLimiter {
    var buckets: map<string, Bucket>

    constructor ()
      ensures buckets == map[]
    {
      buckets := map[];
    }

    function Of(key: string): Option<Bucket>
      reads this
    {
      if key in buckets then Some(buckets[key]) else None
    }

    method Check(key: string, limit: int, windowMs: int, now: int) returns (decision: Decision)
      modifies this
      ensures Of(key) == Some(Upsert(old(Of(key)), windowMs, now))
      ensures decision == FixedDecision(Of(key).value, limit, now)
      ensures buckets == old(buckets)[key := Of(key).value]
    {
      var windowExpiredBefore := now - windowMs;
      var resetAt := now + windowMs;
      if key !in buckets {
        buckets := buckets[key := Bucket(1, now, resetAt)];
      } else {
        var row := buckets[key];
        var expired := row.windowStart <= windowExpiredBefore;
        buckets := buckets[key := Bucket(if expired then 1 else row.count + 1,
                                         if expired then now else row.windowStart,
                                         if expired then resetAt else row.expiresAt)];
      }
      var row := buckets[key];
      if row.count > limit {
        return Denied(RetryAfter(row.expiresAt, now), row.expiresAt);
      }
      return Allowed(Max(0, limit - row.count), row.expiresAt);
    }
  }

  /** An allowed call, with the start of the window that allowed it. */
  datatype Entry = Entry(time: int, start: int)

  datatype FixedState = FixedState(row: Option<Bucket>, allowed: seq<Entry>)

  function FixedAfter(s: FixedState, limit: int, windowMs: int, now: int): FixedState {
    var row := Upsert(s.row, windowMs, now);
    FixedState(Some(row), if row.count <= limit then s.allowed + [Entry(now, row.windowStart)] else s.allowed)
  }

  function FixedRun(calls: seq<int>, limit: int, windowMs: int): FixedState {
    if calls == [] then FixedState(None, [])
    else
      var now := calls[|calls| - 1];
      var before := FixedRun(calls[..|calls| - 1], limit, windowMs);
      FixedAfter(before, limit, windowMs, now)
  }

  function CountEntries(entries: seq<Entry>, a: int, b: int): nat {
    if entries == [] then 0
    else CountEntries(entries[..|entries| - 1], a, b) + (if a < entries[|entries| - 1].time <= b then 1 else 0)
  }

  function CountStarts(entries: seq<Entry>, start: int): nat {
    if entries == [] then 0
    else CountStarts(entries[..|entries| - 1], start) + (if entries[|entries| - 1].start == start then 1 else 0)
  }

  lemma {:induction false} CountStartsSnoc(entries: seq<Entry>, e: Entry, start: int)
    ensures CountStarts(entries + [e], start) == CountStarts(entries, start) + (if e.start == start then 1 else 0)
  {
    assert (entries + [e])[..|entries|] == entries;
  }

  lemma {:induction false} NoSuchStart(entries: seq<Entry>, start: int)
    requires forall i :: 0 <= i < |entries| ==> entries[i].start != start
    ensures CountStarts(entries, start) == 0
  {
    if entries != [] {
      NoSuchStart(entries[..|entries| - 1], start);
    }
  }

  predicate Apart(entries: seq<Entry>, i: int, j: int, windowMs: int) {
    0 <= i < |entries| && 0 <= j < |entries| ==>
      var a, b := entries[i].start, entries[j].start;
      a == b || a + windowMs <= b || b + windowMs <= a
  }

  predicate StartWithinLimit(entries: seq<Entry>, limit: int, start: int) {
    CountStarts(entries, start) <= Max(limit, 0)
  }

  /** The window of entry `i` was opened by an allowed call, when any call can be allowed. */
  predicate Opening(entries: seq<Entry>, i: int) {
    0 <= i < |entries| ==> Entry(entries[i].start, entries[i].start) in entries
  }

  /** Windows start a window apart at an allowed call, each holds its entries, and none holds more than the limit. */
  ghost predicate FixedOk(s: FixedState, limit: int, windowMs: int, last: int) {
    && (s.row.None? ==> s.allowed == [])
    && (s.row.Some? ==>
          && s.row.value.windowStart <= last && s.row.value.expiresAt == s.row.value.windowStart + windowMs
          && 1 <= s.row.value.count && CountStarts(s.allowed, s.row.value.windowStart)
             == Max(0, if s.row.value.count < limit then s.row.value.count else limit)
          && (forall i :: 0 <= i < |s.allowed| ==>
                s.allowed[i].start == s.row.value.windowStart
                  || s.allowed[i].start + windowMs <= s.row.value.windowStart))
    && (forall i :: 0 <= i < |s.allowed| ==> s.allowed[i].start <= s.allowed[i].time < s.allowed[i].start + windowMs)
    && (forall i, j :: Apart(s.allowed, i, j, windowMs))
    && (forall i :: Opening(s.allowed, i))
    && (s.row.Some? && 1 <= limit ==> Entry(s.row.value.windowStart, s.row.value.windowStart) in s.allowed)
    && (forall start :: StartWithinLimit(s.allowed, limit, start))
  }

  lemma {:induction false} FixedInvariant(calls: seq<int>, limit: int, windowMs: int)
    requires NonDecreasing(calls) && 0 < windowMs
    ensures calls == [] ==> FixedRun(calls, limit, windowMs) == FixedState(None, [])
    ensures calls != [] ==> FixedOk(FixedRun(calls, limit, windowMs), limit, windowMs, calls[|calls| - 1])
    ensures calls != [] ==> FixedRun(calls, limit, windowMs).row.Some?
  {
    if calls != [] {
      var n, now := |calls| - 1, calls[|calls| - 1];
      FixedInvariant(calls[..n], limit, windowMs);
      FixedStep(FixedRun(calls[..n], limit, windowMs), limit, windowMs, if n > 0 then calls[n - 1] else now, now);
    }
  }

  lemma {:induction false} FixedStep(s: FixedState, limit: int, windowMs: int, last: int, now: int)
    requires 0 < windowMs && last <= now && FixedOk(s, limit, windowMs, last)
    ensures FixedOk(FixedAfter(s, limit, windowMs, now), limit, windowMs, now)
  {
    var row := Upsert(s.row, windowMs, now);
    var reset := s.row.None? || s.row.value.windowStart <= now - windowMs;
    if reset {
      NoSuchStart(s.allowed, now);
    }
    if row.count <= limit {
      var e := Entry(now, row.windowStart);
      var entries := s.allowed + [e];
      CountStartsSnoc(s.allowed, e, row.windowStart);
      forall start
        ensures StartWithinLimit(entries, limit, start)
      {
        assert StartWithinLimit(s.allowed, limit, start);
        CountStartsSnoc(s.allowed, e, start);
      }
      forall i, j
        ensures Apart(entries, i, j, windowMs)
      {
        assert Apart(s.allowed, i, j, windowMs);
      }
      forall i
        ensures Opening(entries, i)
      {
        assert Opening(s.allowed, i);
      }
    }
  }

  /** A call is allowed exactly when fewer than `limit` calls were allowed in the window it falls in. */
  lemma {:induction false} FixedExact(calls: seq<int>, limit: int, windowMs: int, now: int)
    requires NonDecreasing(calls + [now]) && 0 < windowMs
    ensures var s := FixedRun(calls, limit, windowMs);
            var row := Upsert(s.row, windowMs, now);
            && row.windowStart <= now < row.windowStart + windowMs == row.expiresAt
            && (FixedDecision(row, limit, now).Allowed? <==> CountStarts(s.allowed, row.windowStart) < limit)
  {
    WithoutLast(calls, now);
    FixedInvariant(calls, limit, windowMs);
    var s := FixedRun(calls, limit, windowMs);
    if s.row.None? || s.row.value.windowStart <= now - windowMs {
      NoSuchStart(s.allowed, now);
    }
  }

  /** The entries in an interval come from the windows starting at `a` and `b` only. */
  lemma {:induction false} TwoWindows(entries: seq<Entry>, from: int, to: int, a: int, b: int)
    requires forall i :: 0 <= i < |entries| && from < entries[i].time <= to ==>
             entries[i].start == a || entries[i].start == b
    ensures CountEntries(entries, from, to) <= CountStarts(entries, a) + (if a == b then 0 else CountStarts(entries, b))
  {
    if entries != [] {
      TwoWindows(entries[..|entries| - 1], from, to, a, b);
    }
  }

  /** As above, less the call that opened the earlier window when it lies before the interval. */
  lemma {:induction false} TwoWindowsLessOne(entries: seq<Entry>, from: int, to: int, a: int, b: int)
    requires forall i :: 0 <= i < |entries| && from < entries[i].time <= to ==>
             entries[i].start == a || entries[i].start == b
    requires a != b && a <= from && Entry(a, a) in entries
    ensures CountEntries(entries, from, to) < CountStarts(entries, a) + CountStarts(entries, b)
  {
    var n := |entries| - 1;
    if entries[n] == Entry(a, a) {
      TwoWindows(entries[..n], from, to, a, b);
    } else {
      TwoWindowsLessOne(entries[..n], from, to, a, b);
    }
  }

  lemma {:induction false} NoneInEmptyInterval(entries: seq<Entry>, a: int, b: int)
    requires a >= b
    ensures CountEntries(entries, a, b) == 0
  {
    if entries != [] {
      NoneInEmptyInterval(entries[..|entries| - 1], a, b);
    }
  }

  /** The most calls that any window-long interval can hold. */
  function FixedMax(limit: int, windowMs: int): int {
    if limit <= 0 || windowMs <= 0 then 0 else if windowMs == 1 then limit else 2 * limit - 1
  }

  /**
   In every run, any window-long interval (t - W, t] holds at most FixedMax allowed calls: it can reach into two
   windows, but then misses the call that opened the first; and in a window of one millisecond all are at once.
   */
  lemma {:induction false} FixedBound(calls: seq<int>, limit: int, windowMs: int, t: int)
    requires NonDecreasing(calls)
    ensures CountEntries(FixedRun(calls, limit, windowMs).allowed, t - windowMs, t) <= FixedMax(limit, windowMs)
  {
    var entries := FixedRun(calls, limit, windowMs).allowed;
    if windowMs <= 0 {
      NoneInEmptyInterval(entries, t - windowMs, t);
    } else if calls != [] {
      FixedInvariant(calls, limit, windowMs);
      OkBound(FixedRun(calls, limit, windowMs), limit, windowMs, calls[|calls| - 1], t);
    }
  }

  lemma {:induction false} OkBound(s: FixedState, limit: int, windowMs: int, last: int, t: int)
    requires 0 < windowMs && FixedOk(s, limit, windowMs, last)
    ensures CountEntries(s.allowed, t - windowMs, t) <= FixedMax(limit, windowMs)
  {
    if windowMs == 1 {
      TwoWindows(s.allowed, t - 1, t, t, t);
      assert StartWithinLimit(s.allowed, limit, t);
    } else {
      var a, b := WindowsInside(s.allowed, windowMs, t);
      assert StartWithinLimit(s.allowed, limit, a) && StartWithinLimit(s.allowed, limit, b);
      if a == b {
        TwoWindows(s.allowed, t - windowMs, t, a, b);
      } else {
        TwoWindowsLessOne(s.allowed, t - windowMs, t, a, b);
      }
    }
  }

  /** Windows that start a window apart: at most two of them reach into (t - W, t], and the first starts before it. */
  lemma {:induction false} WindowsInside(entries: seq<Entry>, windowMs: int, t: int) returns (a: int, b: int)
    requires 0 < windowMs
    requires forall i :: 0 <= i < |entries| ==> entries[i].start <= entries[i].time < entries[i].start + windowMs
    requires forall i, j :: Apart(entries, i, j, windowMs)
    requires forall i :: Opening(entries, i)
    ensures forall i :: 0 <= i < |entries| && t - windowMs < entries[i].time <= t ==>
            entries[i].start == a || entries[i].start == b
    ensures a != b ==> a <= t - windowMs && Entry(a, a) in entries
  {
    a, b := 0, 0;
    if i :| 0 <= i < |entries| && t - windowMs < entries[i].time <= t {
      a, b := entries[i].start, entries[i].start;
      if j :| 0 <= j < |entries| && t - windowMs < entries[j].time <= t && entries[j].start != a {
        assert Apart(entries, i, j, windowMs) && Opening(entries, i) && Opening(entries, j);
        if entries[j].start < a {
          a := entries[j].start;
        } else {
          b := entries[j].start;
        }
        forall k | 0 <= k < |entries| && t - windowMs < entries[k].time <= t
          ensures entries[k].start == a || entries[k].start == b
        {
          assert Apart(entries, i, k, windowMs) && Apart(entries, j, k, windowMs);
        }
      }
    }
  }

  /** One call at 0, the rest of the limit at the end of that window, then the limit at the start of the next. */
  function BurstTime(limit: int, windowMs: int, i: nat): int {
    if i == 0 then 0 else if i < limit then windowMs - 1 else windowMs
  }

  function Burst(limit: int, windowMs: int, k: nat): (calls: seq<int>)
    ensures |calls| == k
  {
    seq(k, i requires 0 <= i => BurstTime(limit, windowMs, i))
  }

  lemma {:induction false} BurstNext(limit: int, windowMs: int, k: nat)
    ensures FixedRun(Burst(limit, windowMs, k + 1), limit, windowMs)
            == FixedAfter(FixedRun(Burst(limit, windowMs, k), limit, windowMs), limit, windowMs,
                          BurstTime(limit, windowMs, k))
  {
    assert Burst(limit, windowMs, k + 1)[..k] == Burst(limit, windowMs, k);
  }

  function BurstRow(limit: int, windowMs: int, k: nat): Bucket {
    if k <= limit then Bucket(k, 0, windowMs) else Bucket(k - limit, windowMs, 2 * windowMs)
  }

  /** How many of the first `k` calls lie in (a, b]. */
  function BurstCount(limit: int, windowMs: int, k: nat, a: int, b: int): int {
    (if a < 0 <= b then 1 else 0)
    + (if a < windowMs - 1 <= b then (if k <= limit then k else limit) - 1 else 0)
    + (if limit < k && a < windowMs <= b then k - limit else 0)
  }

  lemma {:induction false} BurstStep(s: FixedState, limit: int, windowMs: int, k: nat, a: int, b: int)
    requires 1 <= limit && 1 <= windowMs && 1 <= k < 2 * limit && s.row == Some(BurstRow(limit, windowMs, k))
    requires CountEntries(s.allowed, a, b) == BurstCount(limit, windowMs, k, a, b)
    ensures var next := FixedAfter(s, limit, windowMs, BurstTime(limit, windowMs, k));
            && next.row == Some(BurstRow(limit, windowMs, k + 1))
            && CountEntries(next.allowed, a, b) == BurstCount(limit, windowMs, k + 1, a, b)
  {
    var now := BurstTime(limit, windowMs, k);
    BurstRowNext(limit, windowMs, k);
    CountEntriesSnoc(s.allowed, Entry(now, BurstRow(limit, windowMs, k + 1).windowStart), a, b);
    BurstCountNext(limit, windowMs, k, a, b);
  }

  lemma {:induction false} BurstRowNext(limit: int, windowMs: int, k: nat)
    requires 1 <= limit && 1 <= windowMs && 1 <= k < 2 * limit
    ensures Upsert(Some(BurstRow(limit, windowMs, k)), windowMs, BurstTime(limit, windowMs, k))
            == BurstRow(limit, windowMs, k + 1)
    ensures BurstRow(limit, windowMs, k + 1).count <= limit
  {
  }

  lemma {:induction false} BurstCountNext(limit: int, windowMs: int, k: nat, a: int, b: int)
    requires 1 <= limit && 1 <= windowMs && 1 <= k < 2 * limit
    ensures BurstCount(limit, windowMs, k + 1, a, b)
            == BurstCount(limit, windowMs, k, a, b) + (if a < BurstTime(limit, windowMs, k) <= b then 1 else 0)
  {
  }

  lemma {:induction false} BurstIsAllowed(limit: int, windowMs: int, k: nat, a: int, b: int)
    requires 1 <= limit && 1 <= windowMs && 1 <= k <= 2 * limit
    ensures var s := FixedRun(Burst(limit, windowMs, k), limit, windowMs);
            && s.row == Some(BurstRow(limit, windowMs, k))
            && CountEntries(s.allowed, a, b) == BurstCount(limit, windowMs, k, a, b)
  {
    if k == 1 {
      BurstFirst(limit, windowMs, a, b);
    } else {
      BurstIsAllowed(limit, windowMs, k - 1, a, b);
      BurstNext(limit, windowMs, k - 1);
      BurstStep(FixedRun(Burst(limit, windowMs, k - 1), limit, windowMs), limit, windowMs, k - 1, a, b);
    }
  }

  lemma {:induction false} BurstFirst(limit: int, windowMs: int, a: int, b: int)
    requires 1 <= limit && 1 <= windowMs
    ensures var s := FixedRun(Burst(limit, windowMs, 1), limit, windowMs);
            && s.row == Some(BurstRow(limit, windowMs, 1))
            && CountEntries(s.allowed, a, b) == BurstCount(limit, windowMs, 1, a, b)
  {
    BurstNext(limit, windowMs, 0);
    CountEntriesSnoc([], Entry(0, 0), a, b);
    assert [] + [Entry(0, 0)] == [Entry(0, 0)];
  }

  lemma {:induction false} CountEntriesSnoc(entries: seq<Entry>, e: Entry, a: int, b: int)
    ensures CountEntries(entries + [e], a, b) == CountEntries(entries, a, b) + (if a < e.time <= b then 1 else 0)
  {
    assert (entries + [e])[..|entries|] == entries;
  }

  /** For every limit and window, some run reaches the bound. */
  lemma {:induction false} FixedBoundIsReached(limit: int, windowMs: int) returns (calls: seq<int>, t: int)
    ensures NonDecreasing(calls)
    ensures CountEntries(FixedRun(calls, limit, windowMs).allowed, t - windowMs, t) == FixedMax(limit, windowMs)
  {
    if limit <= 0 || windowMs <= 0 {
      calls, t := [], 0;
    } else if windowMs == 1 {
      calls, t := Burst(limit, windowMs, limit), 0;
      BurstIsAllowed(limit, windowMs, limit, t - windowMs, t);
    } else {
      calls, t := Burst(limit, windowMs, 2 * limit), windowMs;
      BurstIsAllowed(limit, windowMs, 2 * limit, t - windowMs, t);
    }
  }

  /** An allowed call is told how many more its window takes, and when that window ends. */
  lemma {:induction false} FixedAllowance(calls: seq<int>, limit: int, windowMs: int, now: int)
    requires NonDecreasing(calls + [now]) && 0 < windowMs
    requires FixedDecision(Upsert(FixedRun(calls, limit, windowMs).row, windowMs, now), limit, now).Allowed?
    ensures var after := FixedAfter(FixedRun(calls, limit, windowMs), limit, windowMs, now);
            var decision := FixedDecision(after.row.value, limit, now);
            && decision.remaining == limit - CountStarts(after.allowed, after.row.value.windowStart)
            && decision.resetAt == after.row.value.windowStart + windowMs
  {
    FixedExact(calls, limit, windowMs, now);
    assert (calls + [now])[..|calls|] == calls;
    FixedInvariant(calls + [now], limit, windowMs);
  }

  /** A call made `retryAfterSeconds` after a denial, with none in between, is allowed iff the limit is positive. */
  lemma {:induction false} FixedRetryAfter(calls: seq<int>, limit: int, windowMs: int, now: int)
    requires NonDecreasing(calls + [now]) && 0 < windowMs
    requires FixedDecision(Upsert(FixedRun(calls, limit, windowMs).row, windowMs, now), limit, now).Denied?
    ensures var row := Upsert(FixedRun(calls, limit, windowMs).row, windowMs, now);
            var later := now + FixedDecision(row, limit, now).retryAfterSeconds * 1000;
            FixedDecision(Upsert(Some(row), windowMs, later), limit, later).Allowed? <==> 1 <= limit
  {
    WithoutLast(calls, now);
    FixedInvariant(calls, limit, windowMs);
    var row := Upsert(FixedRun(calls, limit, windowMs).row, windowMs, now);
    assert row.expiresAt == row.windowStart + windowMs && 1 <= row.count;
    ExpiredThenAllowed(row, limit, windowMs, now);
  }

  /** The announced wait is the least here too: until the bucket expires every call is denied. */
  lemma {:induction false} FixedRetryIsLeast(calls: seq<int>, limit: int, windowMs: int, now: int, t: int)
    requires NonDecreasing(calls + [now]) && 0 < windowMs && now <= t
    requires FixedDecision(Upsert(FixedRun(calls, limit, windowMs).row, windowMs, now), limit, now).Denied?
    ensures var row := Upsert(FixedRun(calls, limit, windowMs).row, windowMs, now);
            var denial := FixedDecision(row, limit, now);
            && (t < denial.resetAt ==> FixedDecision(Upsert(Some(row), windowMs, t), limit, t).Denied?)
            && 1 <= denial.retryAfterSeconds
            && (1 < denial.retryAfterSeconds ==>
                  var short := now + (denial.retryAfterSeconds - 1) * 1000;
                  FixedDecision(Upsert(Some(row), windowMs, short), limit, short).Denied?)
  {
    WithoutLast(calls, now);
    FixedInvariant(calls, limit, windowMs);
    var row := Upsert(FixedRun(calls, limit, windowMs).row, windowMs, now);
    assert row.expiresAt == row.windowStart + windowMs;
    OneSecondShort(row.expiresAt, now);
  }

  /** Waiting out a bucket's window restarts its count at 1. */
  lemma {:induction false} ExpiredThenAllowed(row: Bucket, limit: int, windowMs: int, now: int)
    requires row.expiresAt == row.windowStart + windowMs && 1 <= row.count
    ensures var later := now + RetryAfter(row.expiresAt, now) * 1000;
            Upsert(Some(row), windowMs, later).count <= limit <==> 1 <= limit
  {
    RetryReachesReset(row.expiresAt, now);
  }
}
