/**
 The program's own procedures over the tables and the queue, run in place.

 Between two awaited calls other processes run: `others(k)` is what they have
 made of the shared state by the time the k-th call takes effect, and
 `fate(k)` says whether that call throws. Every method is proved to be a path
 of the protocol's process automaton through those states, so the order of its
 effects is the order the protocol's theorems speak of.
 */
module ClaimSystem {
  import opened Options
  import opened ClaimModel
  import opened Protocol
  import opened Sequences
  import opened ProcessPaths
  import opened HandlerPaths

  class System {
    const cfg: Config

    var now: Time
    var claim: Claim
    var outbox: map<Token, OutboxRow>
    var transitions: seq<Transition>
    var extractions: seq<Extraction>
    var queue: map<Token, Body>
    var dlq: set<Copy>

    ghost var used: set<Token>
    ghost var history: seq<Attempt>
    ghost var sent: set<Message>
    ghost var deletions: seq<Deletion>
    ghost var recoveries: seq<Recovery>
    ghost var okSends: multiset<Token>

    ghost function Tables(): Db
      reads this
    {
      Db(claim, outbox, transitions, extractions)
    }

    ghost function Shared(): Sys
      reads this
    {
      Sys(now, Tables(), used, queue, dlq, history, sent, deletions, recoveries, okSends)
    }

    /** A new claim, nothing queued. */
    constructor (cfg: Config, now: Time)
      ensures Init(State(Shared(), map[])) && this.cfg == cfg && this.now == now
    {
      this.cfg := cfg;
      this.now := now;
      claim := Claim(NEW, 0, None, None, now, None);
      outbox, transitions, extractions := map[], [], [];
      queue, dlq := map[], {};
      used, history, sent, deletions, recoveries, okSends := {}, [], {}, [], [], multiset{};
    }

    method ReadTables(db: Db)
      modifies this`claim, this`outbox, this`transitions, this`extractions
      ensures Tables() == db
    {
      claim, outbox, transitions, extractions := db.claim, db.outbox, db.transitions, db.extractions;
    }

    /** What other processes have made of the shared state while this one waited. */
    method Meanwhile(others: Sys)
      modifies this
      ensures Shared() == others && Tables() == others.db && used == others.used
    {
      ReadTables(others.db);
      now, queue, dlq := others.now, others.queue, others.dlq;
      used, history, sent := others.used, others.history, others.sent;
      deletions, recoveries, okSends := others.deletions, others.recoveries, others.okSends;
    }

    // ---- Guarded writes ---------------------------------------------------

    method RecordClaimStatusTransition(from: Status, to: Status, source: Source)
      modifies this`transitions
      ensures transitions == old(transitions) + [Transition(from, to, source)]
    {
      transitions := transitions + [Transition(from, to, source)];
    }

    method CreateOutboxEntry(id: Token, attempt: nat, token: Token)
      modifies this`outbox
      ensures outbox == old(outbox)[id := NewRow(attempt, token)]
    {
      outbox := outbox[id := NewRow(attempt, token)];
    }

    method StartClaimProcessingAttemptIfCurrent(from: Status, expected: nat, token: Token, source: Source)
      returns (next: Option<nat>)
      modifies this`claim, this`transitions
      ensures next == if old(claim).status == from && old(claim).attempt == expected then Some(expected + 1) else None
      ensures next.None? ==> claim == old(claim) && transitions == old(transitions)
      ensures next.Some? ==>
                && claim == old(claim).(status := PROCESSING, attempt := expected + 1, token := Some(token),
                                        leaseClaimedAt := None, updatedAt := now)
                && transitions == old(transitions) + [Transition(from, PROCESSING, source)]
    {
      if claim.status != from || claim.attempt != expected {
        return None;
      }
      claim := claim.(status := PROCESSING, attempt := claim.attempt + 1, token := Some(token),
                      leaseClaimedAt := None, updatedAt := now);
      RecordClaimStatusTransition(from, PROCESSING, source);
      return Some(expected + 1);
    }

    method RecordProcessingRecoveryIfStale(expected: nat, staleBefore: Time, touchedAt: Time, token: Token,
                                           source: Source)
      returns (next: Option<nat>)
      modifies this`claim, this`transitions
      ensures next.Some? <==> old(claim).status == PROCESSING && old(claim).attempt == expected
                              && old(claim).updatedAt <= staleBefore
      ensures next.Some? ==> next.value == expected + 1
      ensures next.None? ==> claim == old(claim) && transitions == old(transitions)
      ensures next.Some? ==>
                && claim == old(claim).(attempt := expected + 1, token := Some(token),
                                        leaseClaimedAt := None, updatedAt := touchedAt)
                && transitions == old(transitions) + [Transition(PROCESSING, PROCESSING, source)]
    {
      if claim.status != PROCESSING || claim.attempt != expected || claim.updatedAt > staleBefore {
        return None;
      }
      claim := claim.(updatedAt := touchedAt, attempt := claim.attempt + 1, token := Some(token),
                      leaseClaimedAt := None);
      RecordClaimStatusTransition(PROCESSING, PROCESSING, source);
      return Some(expected + 1);
    }

    method ClaimProcessingLeaseClaimedByWorker(m: Message) returns (claimed: bool)
      modifies this`claim
      ensures claimed <==> old(claim).status == PROCESSING && old(claim).attempt == m.attempt
                           && old(claim).token == Some(m.token) && old(claim).leaseClaimedAt.None?
      ensures claim == if claimed then old(claim).(leaseClaimedAt := Some(now), updatedAt := now) else old(claim)
      ensures Tables() == ClaimLease(old(Tables()), m, now)
    {
      claimed := claim.status == PROCESSING && claim.attempt == m.attempt && claim.token == Some(m.token)
                 && claim.leaseClaimedAt.None?;
      if claimed {
        claim := claim.(leaseClaimedAt := Some(now), updatedAt := now);
      }
    }

    method ReleaseClaimProcessingLease(m: Message)
      modifies this`claim
      ensures claim == if old(claim).status == PROCESSING && old(claim).attempt == m.attempt
                          && old(claim).token == Some(m.token) && old(claim).leaseClaimedAt.Some?
                       then old(claim).(leaseClaimedAt := None, updatedAt := now) else old(claim)
      ensures Tables() == ReleaseLease(old(Tables()), m, now)
    {
      if claim.status == PROCESSING && claim.attempt == m.attempt && claim.token == Some(m.token)
         && !claim.leaseClaimedAt.None? {
        claim := claim.(leaseClaimedAt := None, updatedAt := now);
      }
    }

    method PersistClaimExtractionOutcome(m: Message, e: Extraction) returns (status: Status)
      modifies this`claim, this`transitions, this`extractions
      ensures status == claim.status
      ensures if old(claim).status == PROCESSING && old(claim).attempt == m.attempt && old(claim).token == Some(m.token)
              then
                && (status == READY <==> e.confidence >= cfg.readyConfidence && e.missingInfo == 0)
                && (status == READY || status == REVIEW_REQUIRED)
                && claim == old(claim).(status := status, token := None, leaseClaimedAt := None, updatedAt := now)
                && transitions == old(transitions) + [Transition(PROCESSING, status, WorkerExtraction)]
                && extractions == old(extractions) + [e]
              else claim == old(claim) && transitions == old(transitions) && extractions == old(extractions)
      ensures Tables() == PersistOutcome(old(Tables()), m, e, cfg.readyConfidence, now)
    {
      var next := if e.confidence >= cfg.readyConfidence && e.missingInfo == 0 then READY else REVIEW_REQUIRED;
      if claim.status != PROCESSING || claim.attempt != m.attempt || claim.token != Some(m.token) {
        return claim.status;
      }
      claim := claim.(status := next, token := None, leaseClaimedAt := None, updatedAt := now);
      extractions := extractions + [e];
      RecordClaimStatusTransition(PROCESSING, next, WorkerExtraction);
      return next;
    }

    method MarkClaimAsError(m: Message, failure: Failure)
      modifies this`claim, this`transitions
      ensures if old(claim).status == PROCESSING && old(claim).attempt == m.attempt && old(claim).token == Some(m.token)
              then
                && claim == old(claim).(status := ERROR, token := None, leaseClaimedAt := None, updatedAt := now,
                                        failure := Some(failure))
                && transitions == old(transitions) + [Transition(PROCESSING, ERROR, WorkerFailure)]
              else claim == old(claim) && transitions == old(transitions)
      ensures Tables() == MarkError(old(Tables()), m, failure, now)
    {
      if claim.status != PROCESSING || claim.attempt != m.attempt || claim.token != Some(m.token) {
        return;
      }
      claim := claim.(status := ERROR, token := None, leaseClaimedAt := None, updatedAt := now,
                      failure := Some(failure));
      RecordClaimStatusTransition(PROCESSING, ERROR, WorkerFailure);
    }

    method ClaimRowLease(id: Token, at: Time, token: Token) returns (leased: bool)
      modifies this`outbox
      ensures leased <==> id in old(outbox) && old(outbox)[id].dispatchedAt.None?
                          && (old(outbox)[id].leaseClaimedAt.Some? ==>
                                old(outbox)[id].leaseClaimedAt.value <= at - cfg.leaseTimeout)
      ensures outbox == if leased
                        then old(outbox)[id := old(outbox)[id].(leaseToken := Some(token), leaseClaimedAt := Some(at))]
                        else old(outbox)
      ensures Tables() == LeaseRow(old(Tables()), id, token, at, at - cfg.leaseTimeout)
    {
      leased := id in outbox && outbox[id].dispatchedAt.None?
                && (outbox[id].leaseClaimedAt.None? || outbox[id].leaseClaimedAt.value <= at - cfg.leaseTimeout);
      if leased {
        outbox := outbox[id := outbox[id].(leaseToken := Some(token), leaseClaimedAt := Some(at))];
      }
    }

    method MarkRowDispatched(id: Token, at: Time, token: Token) returns (persisted: bool)
      modifies this`outbox
      ensures persisted <==> id in old(outbox) && old(outbox)[id].dispatchedAt.None?
                             && old(outbox)[id].leaseToken == Some(token)
      ensures outbox == if persisted
                        then old(outbox)[id := old(outbox)[id].(dispatchedAt := Some(at), leaseToken := None,
                                                                leaseClaimedAt := None)]
                        else old(outbox)
      ensures Tables() == MarkDispatched(old(Tables()), id, token, at)
    {
      persisted := id in outbox && outbox[id].dispatchedAt.None? && outbox[id].leaseToken == Some(token);
      if persisted {
        outbox := outbox[id := outbox[id].(dispatchedAt := Some(at), leaseToken := None, leaseClaimedAt := None)];
      }
    }

    method ClearClaimIngestQueueOutboxDispatchLease(id: Token, token: Token)
      modifies this`outbox
      ensures outbox == if id in old(outbox) && old(outbox)[id].dispatchedAt.None?
                           && old(outbox)[id].leaseToken == Some(token)
                        then old(outbox)[id := old(outbox)[id].(leaseToken := None, leaseClaimedAt := None)]
                        else old(outbox)
      ensures Tables() == ClearRowLease(old(Tables()), id, token)
    {
      if id in outbox && outbox[id].dispatchedAt.None? && outbox[id].leaseToken == Some(token) {
        outbox := outbox[id := outbox[id].(leaseToken := None, leaseClaimedAt := None)];
      }
    }

    // ---- Opening an attempt -----------------------------------------------

    method StartAndEnqueue(from: Status, expected: nat, token: Token, id: Token) returns (started: bool)
      requires from == NEW || from == ERROR
      modifies this`claim, this`transitions, this`outbox
      ensures started <==> old(claim).status == from && old(claim).attempt == expected
      ensures started ==>
                && outbox == old(outbox)[id := OutboxRow(expected + 1, token, None, None, None)]
                && transitions
                   == old(transitions) + [Transition(from, PROCESSING, if from == NEW then WebhookEnqueue
                                                     else ManualRetry)]
      ensures Tables() == StartAttempt(old(Tables()), from, expected, StartSource(from), token, id, now)
    {
      var next := StartClaimProcessingAttemptIfCurrent(from, expected, token,
                                                       if from == NEW then WebhookEnqueue else ManualRetry);
      started := next.Some?;
      if started {
        CreateOutboxEntry(id, expected + 1, token);
      }
    }

    method RecoverAndEnqueue(at: Time, stale: nat, expected: nat, manual: bool, token: Token, id: Token)
      returns (recovered: bool)
      modifies this`claim, this`transitions, this`outbox
      ensures recovered <==> old(claim).status == PROCESSING && old(claim).attempt == expected
                             && old(claim).updatedAt <= at - stale
      ensures recovered ==>
                && outbox == old(outbox)[id := OutboxRow(expected + 1, token, None, None, None)]
                && transitions
                   == old(transitions) + [Transition(PROCESSING, PROCESSING, if manual then ManualRecovery
                                                     else WatchdogRecovery)]
      ensures Tables() == RecoverAttempt(old(Tables()), expected, at - stale, at, RecoverySource(manual), token, id)
    {
      var next := RecordProcessingRecoveryIfStale(expected, at - stale, at, token,
                                                  if manual then ManualRecovery else WatchdogRecovery);
      recovered := next.Some?;
      if recovered {
        CreateOutboxEntry(id, expected + 1, token);
      }
    }

    /** The start transaction of a webhook or a retry, after it read `from` and `expected`. */
    method StartAttemptTransaction(from: Status, expected: nat, token: Token, id: Token) returns (started: bool)
      requires from == NEW || from == ERROR
      modifies this
      ensures started <==> old(claim).status == from && old(claim).attempt == expected
      ensures history == old(history) + (if started then [Attempt(id, token)] else [])
      ensures Shared() == CommitNext(old(Shared()), Starting(from, expected), token, id)
    {
      started := StartAndEnqueue(from, expected, token, id);
      history := if started then history + [Attempt(id, token)] else history;
      used := used + {token, id};
    }

    /** The recovery transaction of the watchdog or an operator, after it read `expected`. */
    method RecoverAttemptTransaction(at: Time, stale: nat, expected: nat, manual: bool, token: Token, id: Token)
      returns (recovered: bool)
      modifies this
      ensures recovered <==> old(claim).status == PROCESSING && old(claim).attempt == expected
                             && old(claim).updatedAt <= at - stale
      ensures history == old(history) + (if recovered then [Attempt(id, token)] else [])
      ensures Shared() == CommitNext(old(Shared()), Recovering(at, stale, expected, manual), token, id)
    {
      recovered := RecoverAndEnqueue(at, stale, expected, manual, token, id);
      if recovered {
        history, recoveries := history + [Attempt(id, token)], recoveries + [Recovery(at, stale)];
      }
      used := used + {token, id};
    }

    // ---- Dispatching one outbox row ---------------------------------------

    /** The guarded lease of a row. */
    method TakeRowLease(id: Token, row: OutboxRow, at: Time, token: Token, others: nat -> Sys, n: nat)
      returns (leased: bool, ghost path: seq<Moment>)
      requires token !in others(n).used
      modifies this
      ensures leased == CanLeaseRow(others(n).db, id, at - cfg.leaseTimeout)
      ensures path == [Moment(others(n), TakeRow(token))]
      ensures Came(cfg, Some(Dispatching(at, id, row)), path, if leased then Some(Leased(at, id, row, token))
                   else None, Shared())
    {
      Meanwhile(others(n));
      Starts(cfg, Dispatching(at, id, row), others(n), TakeRow(token));
      path := [Moment(others(n), TakeRow(token))];
      used := used + {token};
      leased := ClaimRowLease(id, at, token);
    }

    method SendClaimIngestQueueMessage(id: Token, row: OutboxRow, at: Time, token: Token, mid: Token, sending: Sending,
                                       others: nat -> Sys, n: nat, ghost pr: Option<Proc>,
                                       ghost soFar: seq<Moment>)
      returns (ok: bool, ghost path: seq<Moment>)
      requires AtProc(cfg, pr, soFar, Leased(at, id, row, token)) && mid !in others(n).used
      modifies this
      ensures ok == (sending == Acknowledged)
      ensures sending != Refused ==>
                mid in queue && queue[mid] == Good(Message(row.attempt, row.token))
                  && Message(row.attempt, row.token) in sent
      ensures path == soFar + [Moment(others(n), Send(ok, sending != Refused, mid))]
      ensures Came(cfg, pr, path, Some(if ok then SentOk(at, id, row, token) else SendFailed(id, token)), Shared())
    {
      ok := sending == Acknowledged;
      Meanwhile(others(n));
      Goes(cfg, pr, soFar, others(n), Leased(at, id, row, token), Send(ok, sending != Refused, mid));
      path := soFar + [Moment(others(n), Send(ok, sending != Refused, mid))];
      used := used + {mid};
      if sending != Refused {
        queue, sent := queue[mid := Good(RowMessage(row))], sent + {RowMessage(row)};
      }
      okSends := if ok then okSends + multiset{id} else okSends;
    }

    method MarkRow(id: Token, row: OutboxRow, at: Time, token: Token, others: nat -> Sys, n: nat,
                   ghost pr: Option<Proc>, ghost soFar: seq<Moment>)
      returns (persisted: bool, ghost path: seq<Moment>)
      requires AtProc(cfg, pr, soFar, SentOk(at, id, row, token))
      modifies this
      ensures persisted == HoldsRow(others(n).db, id, token)
      ensures path == soFar + [Moment(others(n), Mark)]
      ensures Came(cfg, pr, path, None, Shared())
    {
      Meanwhile(others(n));
      Goes(cfg, pr, soFar, others(n), SentOk(at, id, row, token), Mark);
      path := soFar + [Moment(others(n), Mark)];
      persisted := MarkRowDispatched(id, at, token);
    }

    method ClearRow(id: Token, token: Token, others: nat -> Sys, n: nat,
                    ghost pr: Option<Proc>, ghost soFar: seq<Moment>)
      returns (ghost path: seq<Moment>)
      requires AtProc(cfg, pr, soFar, SendFailed(id, token))
      modifies this
      ensures path == soFar + [Moment(others(n), Clear)]
      ensures Came(cfg, pr, path, None, Shared())
    {
      Meanwhile(others(n));
      Goes(cfg, pr, soFar, others(n), SendFailed(id, token), Clear);
      path := soFar + [Moment(others(n), Clear)];
      ClearClaimIngestQueueOutboxDispatchLease(id, token);
    }

    /** Marks the row after a successful send, or gives its lease back. */
    method MarkOrClear(id: Token, row: OutboxRow, at: Time, token: Token, ok: bool, others: nat -> Sys, n: nat,
                       ghost pr: Option<Proc>, ghost soFar: seq<Moment>)
      returns (outcome: DispatchOutcome, ghost path: seq<Moment>)
      requires AtProc(cfg, pr, soFar, if ok then SentOk(at, id, row, token) else SendFailed(id, token))
      modifies this
      ensures outcome == if ok then Dispatched(HoldsRow(others(n).db, id, token)) else DispatchSendFailed
      ensures path == soFar + [Moment(others(n), if ok then Mark else Clear)]
      ensures Came(cfg, pr, path, None, Shared())
    {
      if ok {
        var persisted;
        persisted, path := MarkRow(id, row, at, token, others, n, pr, soFar);
        outcome := Dispatched(persisted);
      } else {
        path := ClearRow(id, token, others, n, pr, soFar);
        outcome := DispatchSendFailed;
      }
    }

    /**
     Sends in the next state others leave, and marks or clears the row in the one after; a write that throws is
     swallowed.
     */
    method SendAndMark(id: Token, row: OutboxRow, at: Time, token: Token, mid: Token, sending: Sending,
                       others: nat -> Sys, fate: nat -> Fate, n: nat, ghost pr: Option<Proc>, ghost soFar: seq<Moment>)
      returns (outcome: DispatchOutcome, ghost path: seq<Moment>)
      requires AtProc(cfg, pr, soFar, Leased(at, id, row, token)) && |soFar| == 1 && mid !in others(n).used
      modifies this
      ensures outcome.Dispatched? <==> sending == Acknowledged
      ensures outcome.DispatchSendFailed? <==> sending != Acknowledged
      ensures outcome == Dispatched(true) <==>
                && sending == Acknowledged && fate(n + 1).Returns? && id in others(n + 1).db.outbox
                && others(n + 1).db.outbox[id].dispatchedAt.None?
                   && others(n + 1).db.outbox[id].leaseToken == Some(token)
      ensures 2 <= |path| <= 3 && (|path| == 3 <==> fate(n + 1).Returns?) && path[0] == soFar[0]
      ensures path[1] == Moment(others(n), Send(sending == Acknowledged, sending != Refused, mid))
      ensures |path| == 3 ==> path[2] == Moment(others(n + 1), if sending == Acknowledged then Mark else Clear)
      ensures sending != Refused ==> LeftSent(PathEnd(cfg, pr, path[..2]), row)
      ensures Came(cfg, pr, path, AfterSend(id, row, at, token, sending, fate(n + 1)), Shared())
    {
      var ok;
      ok, path := SendClaimIngestQueueMessage(id, row, at, token, mid, sending, others, n, pr, soFar);
      ghost var sentPath := path;
      assert path[..2] == path;
      if fate(n + 1).Throws? {
        return if ok then Dispatched(false) else DispatchSendFailed, path;
      }
      outcome, path := MarkOrClear(id, row, at, token, ok, others, n + 1, pr, path);
      assert path[..2] == sentPath;
    }

    /** Leases the row in state `others(n)`, then sends and marks it. */
    method DispatchClaimIngestQueueOutboxRecord(id: Token, row: OutboxRow, at: Time, token: Token, mid: Token,
                                                sending: Sending,
                                                others: nat -> Sys, fate: nat -> Fate, n: nat)
      returns (outcome: DispatchOutcome, ghost path: seq<Moment>)
      requires token !in others(n).used && mid !in others(n + 1).used
      modifies this
      ensures fate(n).Throws? <==> outcome.DispatchThrew?
      ensures DispatchAnswer(outcome, id, token, mid, others, n, path)
      ensures outcome.Dispatched? ==> LeftSent(PathEnd(cfg, Some(Dispatching(at, id, row)), path[..2]), row)
      ensures path != [] ==> DispatchPath(cfg, at, id, row, token, mid, sending, others, fate, n, path, Shared())
    {
      path := [];
      if fate(n).Throws? {
        return DispatchThrew, path;
      }
      var leased;
      leased, path := TakeRowLease(id, row, at, token, others, n);
      if !leased {
        return LeaseUnavailable, path;
      }
      outcome, path := SendAndMark(id, row, at, token, mid, sending, others, fate, n + 1,
                                   Some(Dispatching(at, id, row)), path);
    }

    /** Reads the row in state `others(n)`; a row that is there undispatched is dispatched as it was read. */
    method DispatchClaimIngestQueueOutboxById(id: Token, at: Time, token: Token, mid: Token, sending: Sending,
                                              others: nat -> Sys, fate: nat -> Fate, n: nat)
      returns (outcome: DispatchOutcome, ghost path: seq<Moment>)
      requires token !in others(n + 1).used && mid !in others(n + 2).used
      modifies this
      ensures outcome.NotFound? <==> fate(n).Returns? && id !in others(n).db.outbox
      ensures outcome.AlreadyDispatched? <==>
                fate(n).Returns? && id in others(n).db.outbox && others(n).db.outbox[id].dispatchedAt.Some?
      ensures outcome.DispatchThrew? <==>
                || fate(n).Throws?
                || (id in others(n).db.outbox && others(n).db.outbox[id].dispatchedAt.None? && fate(n + 1).Throws?)
      ensures outcome.NotFound? || outcome.AlreadyDispatched? || outcome.DispatchThrew? <==> path == []
      ensures path != [] ==>
                && DispatchAnswer(outcome, id, token, mid, others, n + 1, path)
                && id in others(n).db.outbox
                && DispatchPath(cfg, at, id, others(n).db.outbox[id], token, mid, sending, others, fate, n + 1,
                                path, Shared())
      ensures outcome.Dispatched? ==>
                LeftSent(PathEnd(cfg, Some(Dispatching(at, id, others(n).db.outbox[id])), path[..2]),
                         others(n).db.outbox[id])
    {
      path := [];
      if fate(n).Throws? {
        return DispatchThrew, path;
      }
      Meanwhile(others(n));
      if id !in outbox {
        return NotFound, path;
      }
      if outbox[id].dispatchedAt.Some? {
        return AlreadyDispatched, path;
      }
      outcome, path := DispatchClaimIngestQueueOutboxRecord(id, outbox[id], at, token, mid, sending, others, fate,
                                                            n + 1);
    }

    // ---- The worker's job -------------------------------------------------

    /** A call that throws has no effect; the job ends, to be handled as a failure. */
    method FailCall(ghost p: Proc, retryable: bool, others: nat -> Sys, n: nat, ghost pr: Option<Proc>,
                    ghost soFar: seq<Moment>)
      returns (ghost path: seq<Moment>)
      requires AtProc(cfg, pr, soFar, p)
      requires p.Reading? || p.Claiming? || p.Extracting? || p.Finishing?
      modifies this
      ensures Came(cfg, pr, path, Some(Failing(p.mid, Good(p.msg), p.receiveCount, retryable)), Shared())
      ensures path == soFar + [Moment(others(n), Throw(retryable))]
    {
      Meanwhile(others(n));
      Goes(cfg, pr, soFar, others(n), p, Throw(retryable));
      path := soFar + [Moment(others(n), Throw(retryable))];
    }

    /** The guards over the row just read: the job's end, or `None` to go on and claim the lease. */
    method CheckGuards(m: Message) returns (stop: Option<Job>)
      ensures stop.None? <==> claim.status == PROCESSING && claim.attempt == m.attempt && claim.token == Some(m.token)
                              && claim.leaseClaimedAt.None?
      ensures stop == Some(Threw(false)) <==> ReadRaises(claim, m)
      ensures var g := IngestGuard(claim, m);
              stop == if GuardThrows(g) then Some(Threw(false)) else if g == MayClaim then None else Some(Done)
    {
      if claim.status == READY || claim.status == REVIEW_REQUIRED {
        return Some(Done);
      }
      if claim.attempt > m.attempt {
        return Some(Done);
      }
      if claim.status == NEW {
        return Some(Threw(false));
      }
      if claim.attempt < m.attempt {
        return Some(Threw(false));
      }
      if claim.status != PROCESSING {
        return Some(Done);
      }
      if claim.token != Some(m.token) {
        return Some(Done);
      }
      if claim.leaseClaimedAt.Some? {
        return Some(Done);
      }
      return None;
    }

    method ReadClaim(ghost mid: Token, m: Message, ghost receiveCount: int, others: nat -> Sys, n: nat,
                     ghost pr: Option<Proc>, ghost soFar: seq<Moment>)
      returns (stop: Option<Job>, ghost path: seq<Moment>)
      requires AtProc(cfg, pr, soFar, Reading(mid, m, receiveCount))
      modifies this
      ensures path == soFar + [Moment(others(n), Read)]
      ensures var g := IngestGuard(others(n).db.claim, m);
              stop == if GuardThrows(g) then Some(Threw(false)) else if g == MayClaim then None else Some(Done)
      ensures Came(cfg, pr, path, Some(if stop.Some? then AfterJob(mid, m, receiveCount, stop.value)
                                       else Claiming(mid, m, receiveCount)), Shared())
    {
      Meanwhile(others(n));
      Goes(cfg, pr, soFar, others(n), Reading(mid, m, receiveCount), Read);
      path := soFar + [Moment(others(n), Read)];
      stop := CheckGuards(m);
    }

    /** The lookup and the guards: the job's end, or `None` to go on and claim the lease. */
    method LookUpClaim(ghost mid: Token, m: Message, ghost receiveCount: int, lookup: Lookup,
                       others: nat -> Sys, fate: nat -> Fate, n: nat, ghost pr: Option<Proc>, ghost soFar: seq<Moment>)
      returns (stop: Option<Job>, ghost path: seq<Moment>)
      requires AtProc(cfg, pr, soFar, Reading(mid, m, receiveCount))
      modifies this
      ensures stop == LookupOutcome(m, lookup, others(n).db.claim, fate(n))
      ensures path == soFar + [if fate(n).Throws? || lookup != Found
                               then Moment(others(n), Throw(fate(n).Throws? && fate(n).retryable))
                               else Moment(others(n), Read)]
      ensures Came(cfg, pr, path, Some(if stop.Some? then AfterJob(mid, m, receiveCount, stop.value)
                                       else Claiming(mid, m, receiveCount)), Shared())
    {
      if fate(n).Throws? || lookup != Found {
        var retryable := fate(n).Throws? && fate(n).retryable;
        path := FailCall(Reading(mid, m, receiveCount), retryable, others, n, pr, soFar);
        return Some(Threw(retryable)), path;
      }
      stop, path := ReadClaim(mid, m, receiveCount, others, n, pr, soFar);
    }

    method TakeClaimLease(ghost mid: Token, m: Message, ghost receiveCount: int, others: nat -> Sys, n: nat,
                          ghost pr: Option<Proc>, ghost soFar: seq<Moment>)
      returns (claimed: bool, ghost path: seq<Moment>)
      requires AtProc(cfg, pr, soFar, Claiming(mid, m, receiveCount))
      modifies this
      ensures claimed == LeaseMatches(others(n).db.claim, m)
      ensures path == soFar + [Moment(others(n), TakeClaim)]
      ensures Came(cfg, pr, path, Some(if claimed then Extracting(mid, m, receiveCount)
                                       else Finishing(mid, m, receiveCount)), Shared())
    {
      Meanwhile(others(n));
      Goes(cfg, pr, soFar, others(n), Claiming(mid, m, receiveCount), TakeClaim);
      path := soFar + [Moment(others(n), TakeClaim)];
      claimed := ClaimProcessingLeaseClaimedByWorker(m);
    }

    method PersistExtraction(ghost mid: Token, m: Message, ghost receiveCount: int, e: Extraction, others: nat -> Sys,
                             n: nat,
                             ghost pr: Option<Proc>, ghost soFar: seq<Moment>)
      returns (ghost path: seq<Moment>)
      requires AtProc(cfg, pr, soFar, Extracting(mid, m, receiveCount))
      modifies this
      ensures Came(cfg, pr, path, Some(Finishing(mid, m, receiveCount)), Shared())
      ensures path == soFar + [Moment(others(n), Persist(e))]
    {
      Meanwhile(others(n));
      Goes(cfg, pr, soFar, others(n), Extracting(mid, m, receiveCount), Persist(e));
      path := soFar + [Moment(others(n), Persist(e))];
      var _ := PersistClaimExtractionOutcome(m, e);
    }

    /** After the lease is taken. */
    method ExtractAndPersist(ghost mid: Token, m: Message, ghost receiveCount: int, extracted: Extracted,
                             others: nat -> Sys, fate: nat -> Fate, n: nat, ghost pr: Option<Proc>,
                             ghost soFar: seq<Moment>)
      returns (job: Job, ghost path: seq<Moment>)
      requires AtProc(cfg, pr, soFar, Extracting(mid, m, receiveCount))
      modifies this
      ensures job == PersistOutcomeOf(extracted, fate(n))
      ensures Came(cfg, pr, path, Some(AfterJob(mid, m, receiveCount, job)), Shared())
      ensures path == soFar + [ExtractMoment(extracted, others, fate, n)]
    {
      job := PersistOutcomeOf(extracted, fate(n));
      if job.Threw? {
        path := FailCall(Extracting(mid, m, receiveCount), job.retryable, others, n, pr, soFar);
        return;
      }
      path := PersistExtraction(mid, m, receiveCount, extracted.extraction, others, n, pr, soFar);
    }

    /** After a read that may claim. */
    method ClaimAndPersist(ghost mid: Token, m: Message, ghost receiveCount: int, extracted: Extracted,
                           others: nat -> Sys, fate: nat -> Fate, n: nat, ghost pr: Option<Proc>,
                           ghost soFar: seq<Moment>)
      returns (job: Job, ghost path: seq<Moment>)
      requires AtProc(cfg, pr, soFar, Claiming(mid, m, receiveCount))
      modifies this
      ensures job == ClaimOutcome(m, extracted, others, fate, n)
      ensures path == soFar + ClaimPath(m, extracted, others, fate, n)
      ensures Came(cfg, pr, path, Some(AfterJob(mid, m, receiveCount, job)), Shared())
    {
      if fate(n).Throws? {
        path := FailCall(Claiming(mid, m, receiveCount), fate(n).retryable, others, n, pr, soFar);
        return Threw(fate(n).retryable), path;
      }
      var claimed;
      claimed, path := TakeClaimLease(mid, m, receiveCount, others, n, pr, soFar);
      if !claimed {
        return Done, path;
      }
      job, path := ExtractAndPersist(mid, m, receiveCount, extracted, others, fate, n + 1, pr, path);
      Assoc(soFar, [Moment(others(n), TakeClaim)], [ExtractMoment(extracted, others, fate, n + 1)]);
    }

    /**
     Reads the claim in state `others(n)`, goes down the guards, and then claims, extracts and persists; `ran` is its
     own part of the path, and `next` the state after it.
     */
    method ProcessClaimIngestJob(ghost mid: Token, m: Message, ghost receiveCount: int, lookup: Lookup,
                                 extracted: Extracted,
                                 others: nat -> Sys, fate: nat -> Fate, n: nat,
                                 ghost pr: Option<Proc>, ghost soFar: seq<Moment>)
      returns (job: Job, next: nat, ghost path: seq<Moment>, ghost ran: seq<Moment>)
      requires AtProc(cfg, pr, soFar, Reading(mid, m, receiveCount))
      modifies this
      ensures job == JobOutcome(m, lookup, extracted, others, fate, n)
      ensures ran == JobPath(m, lookup, extracted, others, fate, n) && next == n + |ran| && path == soFar + ran
      ensures Came(cfg, pr, path, Some(AfterJob(mid, m, receiveCount, job)), Shared())
    {
      var stop;
      stop, path := LookUpClaim(mid, m, receiveCount, lookup, others, fate, n, pr, soFar);
      if stop.Some? {
        ran := JobPath(m, lookup, extracted, others, fate, n);
        return stop.value, n + 1, path, ran;
      }
      job, path := ClaimAndPersist(mid, m, receiveCount, extracted, others, fate, n + 1, pr, path);
      Assoc(soFar, [Moment(others(n), Read)], ClaimPath(m, extracted, others, fate, n + 1));
      next, ran := n + 1 + |ClaimPath(m, extracted, others, fate, n + 1)|,
                   JobPath(m, lookup, extracted, others, fate, n);
    }

    // ---- Failure handling -------------------------------------------------

    method MoveMessageToDlq(mid: Token, body: Body, sending: Sending) returns (moved: bool)
      modifies this`dlq
      ensures moved ==> cfg.dlqConfigured && Copy(mid, body) in dlq
      ensures moved == (cfg.dlqConfigured && sending == Acknowledged)
      ensures dlq == if cfg.dlqConfigured && sending != Refused then old(dlq) + {Copy(mid, body)} else old(dlq)
    {
      if !cfg.dlqConfigured {
        return false;
      }
      if sending != Refused {
        dlq := dlq + {Copy(mid, body)};
      }
      moved := sending == Acknowledged;
    }

    /** Publishes to the dead-letter queue where that is wanted; answers why the message may leave the queue. */
    method DisposeOfFailure(mid: Token, body: Body, receiveCount: int, retryable: bool, publishing: Sending,
                            others: nat -> Sys, n: nat, ghost pr: Option<Proc>, ghost soFar: seq<Moment>)
      returns (cause: Option<Cause>, ghost path: seq<Moment>)
      requires AtProc(cfg, pr, soFar, Failing(mid, body, receiveCount, retryable))
      modifies this
      ensures cause == FinalCause(cfg, retryable, receiveCount, publishing)
      ensures path == soFar + [Moment(others(n), Dispose(publishing != Refused, publishing == Acknowledged))]
      ensures cause == Some(Moved) ==> Copy(mid, body) in dlq
      ensures Came(cfg, pr, path, if cause.Some? then Some(Condemned(mid, body, receiveCount, retryable, cause.value))
                   else if body.Good? then Some(Releasing(body.msg)) else None, Shared())
    {
      ghost var a := Dispose(publishing != Refused, publishing == Acknowledged);
      Meanwhile(others(n));
      Goes(cfg, pr, soFar, others(n), Failing(mid, body, receiveCount, retryable), a);
      path := soFar + [Moment(others(n), a)];
      if cfg.dlqConfigured && (!retryable || receiveCount >= cfg.maxReceiveCount) {
        var moved := MoveMessageToDlq(mid, body, publishing);
        if moved {
          return Some(Moved), path;
        }
      }
      cause := if !retryable && !cfg.dlqConfigured then Some(Dropped) else None;
    }

    /** A message that did not parse names no claim to mark. */
    method MarkFailedClaim(mid: Token, body: Body, receiveCount: int, retryable: bool, cause: Cause,
                           others: nat -> Sys, n: nat, ghost pr: Option<Proc>, ghost soFar: seq<Moment>)
      returns (ghost path: seq<Moment>)
      requires AtProc(cfg, pr, soFar, Condemned(mid, body, receiveCount, retryable, cause))
      modifies this
      ensures path == soFar + [Moment(others(n), MarkFailed)]
      ensures Came(cfg, pr, path, Some(Deleting(mid, body, retryable, cause)), Shared())
      ensures body.Good? && Under(others(n).db.claim, body.msg) ==>
                && claim.status == ERROR
                && claim.failure == Some(Failure(others(n).now, retryable, receiveCount,
                                                 if cause == Moved then MovedToDlq else DroppedNonRetryable))
      ensures body.Malformed? || !Under(others(n).db.claim, body.msg) ==> Tables() == others(n).db
    {
      Meanwhile(others(n));
      Goes(cfg, pr, soFar, others(n), Condemned(mid, body, receiveCount, retryable, cause), MarkFailed);
      path := soFar + [Moment(others(n), MarkFailed)];
      if body.Good? {
        MarkClaimAsError(body.msg, Failure(now, retryable, receiveCount, CauseDisposition(cause)));
      }
    }

    method DeleteMessageFromQueue(p: Proc, others: nat -> Sys, n: nat, ghost pr: Option<Proc>, ghost soFar: seq<Moment>)
      returns (ghost path: seq<Moment>)
      requires AtProc(cfg, pr, soFar, p) && (p.Finishing? || p.Deleting?)
      modifies this
      ensures path == soFar + [Moment(others(n), Delete)]
      ensures Came(cfg, pr, path, None, Shared())
      ensures queue == others(n).queue - {p.mid}
    {
      Meanwhile(others(n));
      Goes(cfg, pr, soFar, others(n), p, Delete);
      path := soFar + [Moment(others(n), Delete)];
      queue := queue - {p.mid};
      deletions := deletions + [if p.Finishing? then Deletion(p.mid, Good(p.msg), Processed, true)
                                else Deletion(p.mid, p.body, p.cause, p.retryable)];
    }

    method ReleaseAfterFailure(m: Message, others: nat -> Sys, n: nat, ghost pr: Option<Proc>, ghost soFar: seq<Moment>)
      returns (ghost path: seq<Moment>)
      requires AtProc(cfg, pr, soFar, Releasing(m))
      modifies this
      ensures path == soFar + [Moment(others(n), Release)]
      ensures Came(cfg, pr, path, None, Shared())
    {
      Meanwhile(others(n));
      Goes(cfg, pr, soFar, others(n), Releasing(m), Release);
      path := soFar + [Moment(others(n), Release)];
      ReleaseClaimProcessingLease(m);
    }

    /** Mark the claim, then delete the message: the tail both final dispositions share. */
    method CondemnMessage(mid: Token, body: Body, receiveCount: int, retryable: bool, cause: Cause,
                          others: nat -> Sys, fate: nat -> Fate, n: nat, ghost pr: Option<Proc>,
                          ghost soFar: seq<Moment>)
      returns (disposition: Option<FailureDisposition>, ghost path: seq<Moment>)
      requires AtProc(cfg, pr, soFar, Condemned(mid, body, receiveCount, retryable, cause))
      requires Came(cfg, pr, soFar, Some(Condemned(mid, body, receiveCount, retryable, cause)), Shared())
      modifies this
      ensures path == soFar + CondemnPath(body, others, fate, n)
      ensures path != soFar && path[|path| - 1].action == Delete ==> mid !in queue
      ensures disposition.Some? <==> |path| == |soFar| + 2
      ensures disposition == CondemnOutcome(body, cause, fate, n)
      ensures Came(cfg, pr, path, AfterCondemn(mid, body, receiveCount, retryable, cause, fate, n), Shared())
    {
      if body.Good? && fate(n).Throws? {
        assert soFar + [] == soFar;
        return None, soFar;
      }
      path := MarkFailedClaim(mid, body, receiveCount, retryable, cause, others, n, pr, soFar);
      if fate(n + 1).Throws? {
        return None, path;
      }
      path := DeleteMessageFromQueue(Deleting(mid, body, retryable, cause), others, n + 1, pr, path);
      Assoc(soFar, [Moment(others(n), MarkFailed)], [Moment(others(n + 1), Delete)]);
      disposition := Some(if cause == Moved then MovedToDlqDisposition else DroppedDisposition);
    }

    /** What follows the publish: the tail of a final disposition, or the release. */
    method CondemnOrRelease(mid: Token, body: Body, receiveCount: int, retryable: bool, cause: Option<Cause>,
                            others: nat -> Sys, fate: nat -> Fate, n: nat,
                            ghost pr: Option<Proc>, ghost soFar: seq<Moment>)
      returns (disposition: Option<FailureDisposition>, ghost path: seq<Moment>)
      requires Came(cfg, pr, soFar,
                    if cause.Some? then Some(Condemned(mid, body, receiveCount, retryable, cause.value))
                    else if body.Good? then Some(Releasing(body.msg)) else None, Shared())
      modifies this
      ensures path == soFar + AfterDispose(body, cause, others, fate, n)
      ensures disposition == CauseOutcome(body, cause, fate, n)
      ensures |path| > |soFar| && path[|path| - 1].action == Delete ==> mid !in queue
      ensures Came(cfg, pr, path, AfterCause(mid, body, receiveCount, retryable, cause, fate, n), Shared())
    {
      if cause.Some? {
        disposition, path := CondemnMessage(mid, body, receiveCount, retryable, cause.value, others, fate, n, pr,
                                            soFar);
        return;
      }
      disposition, path := Some(RetryingDisposition), soFar;
      assert soFar + [] == soFar;
      if body.Good? && fate(n).Returns? {
        path := ReleaseAfterFailure(body.msg, others, n, pr, path);
      }
    }

    /** Publish, mark, delete; or give the lease back and leave the message to be received again. */
    method HandleQueueProcessingFailure(mid: Token, body: Body, receiveCount: int, retryable: bool, publishing: Sending,
                                        others: nat -> Sys, fate: nat -> Fate, n: nat,
                                        ghost pr: Option<Proc>, ghost soFar: seq<Moment>)
      returns (disposition: Option<FailureDisposition>, ghost path: seq<Moment>)
      requires AtProc(cfg, pr, soFar, Failing(mid, body, receiveCount, retryable))
      modifies this
      ensures path == soFar + FailurePath(cfg, body, receiveCount, retryable, publishing, others, fate, n)
      ensures disposition == FailureOutcome(cfg, body, receiveCount, retryable, publishing, fate, n)
      ensures disposition == Some(RetryingDisposition) <==>
                && !(cfg.dlqConfigured && (!retryable || receiveCount >= cfg.maxReceiveCount)
                     && publishing == Acknowledged)
                && (retryable || cfg.dlqConfigured)
      ensures disposition == Some(MovedToDlqDisposition) ==> cfg.dlqConfigured && publishing == Acknowledged
      ensures disposition == Some(DroppedDisposition) ==> !retryable && !cfg.dlqConfigured
      ensures path != [] && path[|path| - 1].action == Delete ==> mid !in queue
      ensures Came(cfg, pr, path, AfterFailure(cfg, mid, body, receiveCount, retryable, publishing, fate, n), Shared())
    {
      var cause;
      ghost var disposed := Moment(others(n), Dispose(publishing != Refused, publishing == Acknowledged));
      cause, path := DisposeOfFailure(mid, body, receiveCount, retryable, publishing, others, n, pr, soFar);
      disposition, path := CondemnOrRelease(mid, body, receiveCount, retryable, cause, others, fate, n + 1, pr, path);
      Assoc(soFar, [disposed], AfterDispose(body, cause, others, fate, n + 1));
    }

    // ---- One received message, from receipt to delete ---------------------

    method ParseQueueMessage(mid: Token, body: Body, ghost receiveCount: int, others: nat -> Sys)
      returns (parsed: Option<Message>, ghost path: seq<Moment>)
      modifies this
      ensures parsed == if body.Good? then Some(body.msg) else None
      ensures path == [Moment(others(0), Parse)]
      ensures Came(cfg, Some(Received(mid, body, receiveCount)), path,
                   Some(if body.Good? then Reading(mid, body.msg, receiveCount)
                        else Failing(mid, body, receiveCount, false)), Shared())
    {
      ghost var pr := Some(Received(mid, body, receiveCount));
      Meanwhile(others(0));
      Starts(cfg, pr.value, others(0), Parse);
      path := [Moment(others(0), Parse)];
      parsed := if body.Good? then Some(body.msg) else None;
    }

    method DeleteProcessedMessage(mid: Token, m: Message, receiveCount: int, others: nat -> Sys, fate: nat -> Fate,
                                  n: nat,
                                  ghost pr: Option<Proc>, ghost soFar: seq<Moment>)
      returns (job: Job, ghost path: seq<Moment>)
      requires AtProc(cfg, pr, soFar, Finishing(mid, m, receiveCount))
      modifies this
      ensures job == if fate(n).Throws? then Threw(fate(n).retryable) else Done
      ensures path == soFar + [DeleteMoment(others, fate, n)]
      ensures job.Done? ==> mid !in queue
      ensures Came(cfg, pr, path, if job.Done? then None else Some(AfterJob(mid, m, receiveCount, job)), Shared())
    {
      if fate(n).Throws? {
        path := FailCall(Finishing(mid, m, receiveCount), fate(n).retryable, others, n, pr, soFar);
        return Threw(fate(n).retryable), path;
      }
      path := DeleteMessageFromQueue(Finishing(mid, m, receiveCount), others, n, pr, soFar);
      job := Done;
    }

    /** After the job, whose path was `ran`: deletes the message if the job is done. */
    method DeleteIfDone(mid: Token, m: Message, receiveCount: int, done: Job,
                        others: nat -> Sys, fate: nat -> Fate, n: nat, ghost pr: Option<Proc>,
                        ghost soFar: seq<Moment>, ghost ran: seq<Moment>)
      returns (job: Job, ghost path: seq<Moment>)
      requires Came(cfg, pr, soFar + ran, Some(AfterJob(mid, m, receiveCount, done)), Shared())
      modifies this
      ensures job == OnceDeleted(done, fate(n))
      ensures path == soFar + (ran + AfterJobPath(done, others, fate, n))
      ensures Came(cfg, pr, path, if job.Done? then None else Some(AfterJob(mid, m, receiveCount, job)), Shared())
      ensures job.Done? ==> mid !in queue
    {
      job, path := done, soFar + ran;
      if done.Done? {
        job, path := DeleteProcessedMessage(mid, m, receiveCount, others, fate, n, pr, path);
      }
      Assoc(soFar, ran, AfterJobPath(done, others, fate, n));
      assert soFar + ran + [] == soFar + ran;
    }

    /** Runs the job and deletes the message; a delete that throws makes the job a failed one. */
    method ProcessAndDelete(mid: Token, m: Message, receiveCount: int, lookup: Lookup, extracted: Extracted,
                            others: nat -> Sys, fate: nat -> Fate, n: nat, ghost pr: Option<Proc>,
                            ghost soFar: seq<Moment>)
      returns (job: Job, ghost path: seq<Moment>)
      requires AtProc(cfg, pr, soFar, Reading(mid, m, receiveCount))
      modifies this
      ensures job == HandledOutcome(m, lookup, extracted, others, fate, n)
      ensures path == soFar + HandledPath(m, lookup, extracted, others, fate, n)
      ensures Came(cfg, pr, path, if job.Done? then None else Some(AfterJob(mid, m, receiveCount, job)), Shared())
      ensures job.Done? ==> mid !in queue
    {
      var done, next;
      ghost var ran;
      done, next, path, ran := ProcessClaimIngestJob(mid, m, receiveCount, lookup, extracted, others, fate, n, pr,
                                                     soFar);
      HandledIs(m, lookup, extracted, others, fate, n, done, ran);
      job, path := DeleteIfDone(mid, m, receiveCount, done, others, fate, next, pr, soFar, ran);
    }

    /** A message with a receipt handle. */
    method HandleReceivedMessage(mid: Token, body: Body, receiveCount: int, lookup: Lookup, extracted: Extracted,
                                 publishing: Sending, others: nat -> Sys, fate: nat -> Fate)
      returns (ghost path: seq<Moment>)
      modifies this
      ensures path == HandlerPath(cfg, body, receiveCount, lookup, extracted, publishing, others, fate)
      ensures Came(cfg, Some(Received(mid, body, receiveCount)), path,
                   AfterHandling(cfg, mid, body, receiveCount, lookup, extracted, publishing, others, fate), Shared())
      ensures path != [] && path[|path| - 1].action == Delete ==> mid !in queue
    {
      ghost var pr := Some(Received(mid, body, receiveCount));
      var parsed;
      parsed, path := ParseQueueMessage(mid, body, receiveCount, others);
      if parsed.None? {
        var _, more := HandleQueueProcessingFailure(mid, body, receiveCount, false, publishing, others, fate, 1, pr,
                                                    path);
        return more;
      }
      path := HandleParsedMessage(mid, parsed.value, receiveCount, lookup, extracted, publishing, others, fate, pr,
                                  path);
    }

    /** After the job and its delete, whose path was `ran`: handles the failure if one of them failed. */
    method FailIfThrew(mid: Token, m: Message, receiveCount: int, job: Job, publishing: Sending,
                       others: nat -> Sys, fate: nat -> Fate, n: nat, ghost pr: Option<Proc>,
                       ghost soFar: seq<Moment>, ghost ran: seq<Moment>)
      returns (ghost path: seq<Moment>)
      requires Came(cfg, pr, soFar + ran, if job.Done? then None
                    else Some(AfterJob(mid, m, receiveCount, job)), Shared())
      requires job.Done? ==> mid !in queue
      modifies this
      ensures path == soFar + (ran + AfterHandled(cfg, m, receiveCount, job, publishing, others, fate, n))
      ensures Came(cfg, pr, path, AfterParsed(cfg, mid, m, receiveCount, job, publishing, fate, n), Shared())
      ensures path != [] && path[|path| - 1].action == Delete ==> mid !in queue
    {
      path := soFar + ran;
      if job.Threw? {
        var _, more := HandleQueueProcessingFailure(mid, Good(m), receiveCount, job.retryable, publishing, others, fate,
                                                    n, pr, path);
        path := more;
      }
      Assoc(soFar, ran, AfterHandled(cfg, m, receiveCount, job, publishing, others, fate, n));
      assert soFar + ran + [] == soFar + ran;
    }

    method HandleParsedMessage(mid: Token, m: Message, receiveCount: int, lookup: Lookup, extracted: Extracted,
                               publishing: Sending, others: nat -> Sys, fate: nat -> Fate,
                               ghost pr: Option<Proc>, ghost soFar: seq<Moment>)
      returns (ghost path: seq<Moment>)
      requires AtProc(cfg, pr, soFar, Reading(mid, m, receiveCount))
      modifies this
      ensures path == soFar + ParsedPath(cfg, m, receiveCount, lookup, extracted, publishing, others, fate)
      ensures Came(cfg, pr, path, AfterHandling(cfg, mid, Good(m), receiveCount, lookup, extracted, publishing, others,
                                                fate), Shared())
      ensures path != [] && path[|path| - 1].action == Delete ==> mid !in queue
    {
      var job;
      job, path := ProcessAndDelete(mid, m, receiveCount, lookup, extracted, others, fate, 1, pr, soFar);
      path := FailIfThrew(mid, m, receiveCount, job, publishing, others, fate,
                          1 + |HandledPath(m, lookup, extracted, others, fate, 1)|, pr, soFar,
                          HandledPath(m, lookup, extracted, others, fate, 1));
    }

    /**
     A message without a receipt handle cannot be deleted, and is left alone. Any other is failed exactly when its
     body does not parse, or a call of the job or the delete after it threw, or the job raised an error over the claim
     it read; and a healthy one is processed and deleted.
     */
    method HandleClaimQueueMessage(mid: Token, body: Body, receiptHandle: bool, receiveCount: int,
                                   lookup: Lookup, extracted: Extracted, publishing: Sending,
                                   others: nat -> Sys, fate: nat -> Fate)
      returns (ghost path: seq<Moment>)
      modifies this
      ensures !receiptHandle ==> path == [] && Shared() == old(Shared())
      ensures receiptHandle ==>
                && path == HandlerPath(cfg, body, receiveCount, lookup, extracted, publishing, others, fate)
                && Came(cfg, Some(Received(mid, body, receiveCount)), path,
                        AfterHandling(cfg, mid, body, receiveCount, lookup, extracted, publishing, others, fate),
                        Shared())
      ensures receiptHandle ==>
                && |path| > 1 && path[0].action == Parse
                && (Disposes(path) <==>
                      || body.Malformed?
                      || GivesUp(path)
                      || (path[1].action == Read && ReadRaises(others(1).db.claim, body.msg)))
                && (!Disposes(path) ==> path[|path| - 1].action == Delete)
                && (path[|path| - 1].action == Delete ==> mid !in queue)
                && AllAllowed(body, lookup, extracted, publishing, others, fate, 0, path)
      ensures receiptHandle && body.Good? && lookup == Found && extracted.Yields?
              && fate(1).Returns? && fate(2).Returns? && fate(3).Returns? && fate(4).Returns?
              && FreeFor(others(1).db.claim, body.msg) && FreeFor(others(2).db.claim, body.msg) ==>
                && path == [Moment(others(0), Parse), Moment(others(1), Read), Moment(others(2), TakeClaim),
                            Moment(others(3), Persist(extracted.extraction)), Moment(others(4), Delete)]
                && mid !in queue
    {
      path := [];
      if !receiptHandle {
        return;
      }
      path := HandleReceivedMessage(mid, body, receiveCount, lookup, extracted, publishing, others, fate);
      DisposesIff(cfg, body, receiveCount, lookup, extracted, publishing, others, fate);
      EveryCallCounts(cfg, body, receiveCount, lookup, extracted, publishing, others, fate);
      if body.Good? && lookup == Found && extracted.Yields?
         && fate(1).Returns? && fate(2).Returns? && fate(3).Returns? && fate(4).Returns?
         && FreeFor(others(1).db.claim, body.msg) && FreeFor(others(2).db.claim, body.msg) {
        HealthyMessageIsProcessed(cfg, body.msg, receiveCount, extracted.extraction, publishing, others, fate);
      }
    }
  }
}
