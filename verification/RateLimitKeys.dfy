/**
 Calls on many keys: each limiter decides, key by key, as the run on that key
 alone, so the bounds of those runs hold for every key.
 */
module RateLimitKeys {

  import opened Options
  import opened RateLimit

  datatype Call = Call(key: string, now: int)

  /** The times of the calls on one key. */
  function TimesOf(calls: seq<Call>, key: string): seq<int> {
    if calls == [] then []
    else
      var last := calls[|calls| - 1];
      TimesOf(calls[..|calls| - 1], key) + (if last.key == key then [last.now] else [])
  }

  lemma {:induction false} TimesOfNext(calls: seq<Call>, i: nat, key: string)
    requires i < |calls|
    ensures TimesOf(calls[..i + 1], key)
            == if calls[i].key == key then TimesOf(calls[..i], key) + [calls[i].now] else TimesOf(calls[..i], key)
  {
    assert calls[..i + 1][..i] == calls[..i];
  }

  predicate InOrder(calls: seq<Call>) {
    forall i, j :: 0 <= i < j < |calls| ==> calls[i].now <= calls[j].now
  }

  /** A key's calls come in the order of all calls. */
  lemma {:induction false} TimesInOrder(calls: seq<Call>, key: string)
    requires InOrder(calls)
    ensures NonDecreasing(TimesOf(calls, key))
    ensures forall i :: 0 <= i < |TimesOf(calls, key)| ==> TimesOf(calls, key)[i] <= calls[|calls| - 1].now
  {
    if calls != [] {
      var n := |calls| - 1;
      TimesInOrder(calls[..n], key);
      assert n > 0 ==> calls[n - 1].now <= calls[n].now;
    }
  }

  // ---- Sliding window -----------------------------------------------------

  function SlidingAt(calls: seq<Call>, limit: int, windowMs: int, key: string): seq<int> {
    SlidingRun(TimesOf(calls, key), limit, windowMs).stored
  }

  lemma {:induction false} SlidingAtNext(calls: seq<Call>, i: nat, limit: int, windowMs: int, key: string)
    requires i < |calls|
    ensures SlidingAt(calls[..i + 1], limit, windowMs, key)
            == if calls[i].key != key then SlidingAt(calls[..i], limit, windowMs, key)
               else SlidingStored(SlidingAt(calls[..i], limit, windowMs, key), limit, windowMs, calls[i].now)
  {
    var times := TimesOf(calls[..i], key);
    TimesOfNext(calls, i, key);
    assert (times + [calls[i].now])[..|times|] == times;
  }

  function AttemptsOf(attempts: map<string, seq<int>>, key: string): seq<int> {
    if key in attempts then attempts[key] else []
  }

  ghost predicate SlidingTracks(attempts: map<string, seq<int>>, calls: seq<Call>, limit: int, windowMs: int) {
    forall key :: AttemptsOf(attempts, key) == SlidingAt(calls, limit, windowMs, key)
  }

  lemma {:induction false} SlidingTracksNext(before: map<string, seq<int>>, after: map<string, seq<int>>,
                                             calls: seq<Call>, i: nat,
                                             limit: int, windowMs: int)
    requires i < |calls| && SlidingTracks(before, calls[..i], limit, windowMs)
    requires after == before[calls[i].key :=
                             SlidingStored(AttemptsOf(before, calls[i].key), limit, windowMs, calls[i].now)]
    ensures SlidingTracks(after, calls[..i + 1], limit, windowMs)
  {
    forall key
      ensures AttemptsOf(after, key) == SlidingAt(calls[..i + 1], limit, windowMs, key)
    {
      SlidingAtNext(calls, i, limit, windowMs, key);
      assert AttemptsOf(before, key) == SlidingAt(calls[..i], limit, windowMs, key);
    }
  }

  /** The decision on a call after the calls `before`: the one of its key's run alone. */
  function SlidingDecisionAfter(before: seq<Call>, call: Call, limit: int, windowMs: int): Decision {
    SlidingDecision(SlidingAt(before, limit, windowMs, call.key), limit, windowMs, call.now)
  }

  function SlidingDecisions(calls: seq<Call>, limit: int, windowMs: int): seq<Decision> {
    if calls == [] then []
    else
      var n := |calls| - 1;
      SlidingDecisions(calls[..n], limit, windowMs) + [SlidingDecisionAfter(calls[..n], calls[n], limit, windowMs)]
  }

  lemma {:induction false} SlidingDecisionsNext(calls: seq<Call>, i: nat, limit: int, windowMs: int)
    requires i < |calls|
    ensures SlidingDecisions(calls[..i + 1], limit, windowMs)
            == SlidingDecisions(calls[..i], limit, windowMs) + [SlidingDecisionAfter(calls[..i], calls[i], limit,
                                                                                     windowMs)]
  {
    assert calls[..i + 1][..i] == calls[..i];
  }

  method CheckNextSliding(limiter: InMemorySlidingWindowRateLimiter, calls: seq<Call>, i: nat, limit: int,
                          windowMs: int)
    returns (decision: Decision)
    requires i < |calls| && SlidingTracks(limiter.attempts, calls[..i], limit, windowMs)
    modifies limiter
    ensures decision == SlidingDecisionAfter(calls[..i], calls[i], limit, windowMs)
    ensures SlidingTracks(limiter.attempts, calls[..i + 1], limit, windowMs)
  {
    ghost var before := limiter.attempts;
    assert AttemptsOf(before, calls[i].key) == SlidingAt(calls[..i], limit, windowMs, calls[i].key);
    decision := limiter.Check(calls[i].key, limit, windowMs, calls[i].now);
    SlidingTracksNext(before, limiter.attempts, calls, i, limit, windowMs);
  }

  /** Checks on many keys from an empty limiter: every decision is the one of its key's run alone. */
  method CheckAllSliding(limiter: InMemorySlidingWindowRateLimiter, calls: seq<Call>, limit: int, windowMs: int)
    returns (decisions: seq<Decision>)
    requires limiter.attempts == map[]
    modifies limiter
    ensures decisions == SlidingDecisions(calls, limit, windowMs)
    ensures SlidingTracks(limiter.attempts, calls, limit, windowMs)
  {
    decisions := [];
    for i := 0 to |calls|
      invariant decisions == SlidingDecisions(calls[..i], limit, windowMs)
      invariant SlidingTracks(limiter.attempts, calls[..i], limit, windowMs)
    {
      SlidingDecisionsNext(calls, i, limit, windowMs);
      var decision := CheckNextSliding(limiter, calls, i, limit, windowMs);
      decisions := decisions + [decision];
    }
    assert calls[..|calls|] == calls;
  }

  /** On every key, any window-long interval holds at most `limit` allowed calls. */
  lemma {:induction false} SlidingBoundOnEachKey(calls: seq<Call>, key: string, limit: int, windowMs: int, t: int)
    requires InOrder(calls)
    ensures Count(SlidingRun(TimesOf(calls, key), limit, windowMs).allowed, t - windowMs, t) <= Max(limit, 0)
  {
    TimesInOrder(calls, key);
    SlidingBound(TimesOf(calls, key), limit, windowMs, t);
  }

  // ---- Fixed window -------------------------------------------------------

  function FixedAt(calls: seq<Call>, limit: int, windowMs: int, key: string): Option<Bucket> {
    FixedRun(TimesOf(calls, key), limit, windowMs).row
  }

  lemma {:induction false} FixedAtNext(calls: seq<Call>, i: nat, limit: int, windowMs: int, key: string)
    requires i < |calls|
    ensures FixedAt(calls[..i + 1], limit, windowMs, key)
            == if calls[i].key != key then FixedAt(calls[..i], limit, windowMs, key)
               else Some(Upsert(FixedAt(calls[..i], limit, windowMs, key), windowMs, calls[i].now))
  {
    var times := TimesOf(calls[..i], key);
    TimesOfNext(calls, i, key);
    assert (times + [calls[i].now])[..|times|] == times;
  }

  function BucketOf(buckets: map<string, Bucket>, key: string): Option<Bucket> {
    if key in buckets then Some(buckets[key]) else None
  }

  ghost predicate FixedTracks(buckets: map<string, Bucket>, calls: seq<Call>, limit: int, windowMs: int) {
    forall key :: BucketOf(buckets, key) == FixedAt(calls, limit, windowMs, key)
  }

  lemma {:induction false} FixedTracksNext(before: map<string, Bucket>, after: map<string, Bucket>, calls: seq<Call>,
                                           i: nat,
                                           limit: int, windowMs: int)
    requires i < |calls| && FixedTracks(before, calls[..i], limit, windowMs)
    requires after == before[calls[i].key := Upsert(BucketOf(before, calls[i].key), windowMs, calls[i].now)]
    ensures FixedTracks(after, calls[..i + 1], limit, windowMs)
  {
    forall key
      ensures BucketOf(after, key) == FixedAt(calls[..i + 1], limit, windowMs, key)
    {
      FixedAtNext(calls, i, limit, windowMs, key);
      assert BucketOf(before, key) == FixedAt(calls[..i], limit, windowMs, key);
    }
  }

  /** The decision on a call after the calls `before`: the one of its key's run alone. */
  function FixedDecisionAfter(before: seq<Call>, call: Call, limit: int, windowMs: int): Decision {
    FixedDecision(Upsert(FixedAt(before, limit, windowMs, call.key), windowMs, call.now), limit, call.now)
  }

  function FixedDecisions(calls: seq<Call>, limit: int, windowMs: int): seq<Decision> {
    if calls == [] then []
    else
      var n := |calls| - 1;
      FixedDecisions(calls[..n], limit, windowMs) + [FixedDecisionAfter(calls[..n], calls[n], limit, windowMs)]
  }

  lemma {:induction false} FixedDecisionsNext(calls: seq<Call>, i: nat, limit: int, windowMs: int)
    requires i < |calls|
    ensures FixedDecisions(calls[..i + 1], limit, windowMs)
            == FixedDecisions(calls[..i], limit, windowMs) + [FixedDecisionAfter(calls[..i], calls[i], limit, windowMs)]
  {
    assert calls[..i + 1][..i] == calls[..i];
  }

  method CheckNextFixed(limiter: DatabaseFixedWindowRateLimiter, calls: seq<Call>, i: nat, limit: int, windowMs: int)
    returns (decision: Decision)
    requires i < |calls| && FixedTracks(limiter.buckets, calls[..i], limit, windowMs)
    modifies limiter
    ensures decision == FixedDecisionAfter(calls[..i], calls[i], limit, windowMs)
    ensures FixedTracks(limiter.buckets, calls[..i + 1], limit, windowMs)
  {
    ghost var before := limiter.buckets;
    assert BucketOf(before, calls[i].key) == FixedAt(calls[..i], limit, windowMs, calls[i].key);
    decision := limiter.Check(calls[i].key, limit, windowMs, calls[i].now);
    FixedTracksNext(before, limiter.buckets, calls, i, limit, windowMs);
  }

  method CheckAllFixed(limiter: DatabaseFixedWindowRateLimiter, calls: seq<Call>, limit: int, windowMs: int)
    returns (decisions: seq<Decision>)
    requires limiter.buckets == map[]
    modifies limiter
    ensures decisions == FixedDecisions(calls, limit, windowMs)
    ensures FixedTracks(limiter.buckets, calls, limit, windowMs)
  {
    decisions := [];
    for i := 0 to |calls|
      invariant decisions == FixedDecisions(calls[..i], limit, windowMs)
      invariant FixedTracks(limiter.buckets, calls[..i], limit, windowMs)
    {
      FixedDecisionsNext(calls, i, limit, windowMs);
      var decision := CheckNextFixed(limiter, calls, i, limit, windowMs);
      decisions := decisions + [decision];
    }
    assert calls[..|calls|] == calls;
  }

  /** On every key, any window-long interval holds at most FixedMax allowed calls. */
  lemma {:induction false} FixedBoundOnEachKey(calls: seq<Call>, key: string, limit: int, windowMs: int, t: int)
    requires InOrder(calls)
    ensures CountEntries(FixedRun(TimesOf(calls, key), limit, windowMs).allowed, t - windowMs, t) <= FixedMax(limit,
                                                                                                              windowMs)
  {
    TimesInOrder(calls, key);
    FixedBound(TimesOf(calls, key), limit, windowMs, t);
  }
}
