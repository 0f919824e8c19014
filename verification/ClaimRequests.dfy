/**
 The requests that start, retry, recover and reclassify a claim.

 Each reads the claim in state `others(0)`; by the time its transaction runs,
 in `others(1)`, the claim may be anything. The checks on the first read are
 the guards under which the protocol lets such a process begin, and what
 follows is the step of that process, and then the path of a dispatcher for
 the new row, which reads it in `others(2)`. A request that lost the race reads
 the claim again in `others(2)` instead.
 */
module ClaimRequests {
  import opened Options
  import opened ClaimModel
  import opened Protocol
  import opened ProtocolInvariant
  import opened ProtocolTheorems
  import opened ProcessPaths
  import opened HandlerPaths
  import opened ClaimSystem

  datatype RetryAnswer =
    ClaimNotFound | RetryNotAllowed | RetryUnavailable | QueueNotConfigured | Retried | RetryThrew

  datatype RecoveryAnswer =
    | ClaimNotFoundToRecover | RecoveryNotAllowed | RecoveryUnavailable | RecoveryQueueNotConfigured
    | Recovered | RecoveryThrew

  datatype ScheduleAnswer = NotScheduled | ScheduleQueueNotConfigured | Scheduled(deferred: bool) | ScheduleThrew

  datatype ClickAnswer = ClaimNotFoundToClick | StatusUnchanged | InvalidTransition | Updated | ClickThrew

  datatype WatchdogOutcome = WatchdogOutcome(recovered: nat, skipped: nat, failed: nat)

  /** The identifiers a request generates. */
  datatype Ids = Ids(token: Token, row: Token, lease: Token, message: Token)

  /** No identifier is in use when the request first writes it. */
  predicate Unused(ids: Ids, others: nat -> Sys) {
    && ids.token !in others(1).used && ids.row !in others(1).used && ids.token != ids.row
    && ids.lease !in others(3).used && ids.message !in others(4).used
  }

  /** What became of the transaction that opens an attempt, and of the dispatch after it. */
  datatype Opening = OpeningThrew | LostRace | Won(dispatch: DispatchOutcome)

  /**
   What became of the request, in terms of what it left: `committed` is the state its transaction left, and `path`
   the path of the dispatcher for the new row, which is read in `others(2)`.
   */
  predicate Opens(cfg: Config, pr: Proc, opening: Opening, ids: Ids, at: Time, sending: Sending, committed: Sys,
                  path: seq<Moment>, others: nat -> Sys, fate: nat -> Fate, left: Sys)
    requires pr.Starting? || pr.Recovering?
  {
    && (opening.OpeningThrew? <==> fate(1).Throws?)
    && (!opening.OpeningThrew? ==> committed == CommitNext(others(1), pr, ids.token, ids.row))
    && (opening.Won? ==> committed.history == others(1).history + [Attempt(ids.row, ids.token)])
    && (opening.LostRace? ==> committed.history == others(1).history)
    && (if opening.Won? then DispatchesNewRow(cfg, opening.dispatch, ids, at, sending, path, others, fate, left)
        else path == [])
  }

  predicate DispatchesNewRow(cfg: Config, dispatch: DispatchOutcome, ids: Ids, at: Time, sending: Sending,
                             path: seq<Moment>, others: nat -> Sys, fate: nat -> Fate, left: Sys)
  {
    var found := ids.row in others(2).db.outbox;
    && (dispatch.NotFound? <==> fate(2).Returns? && !found)
    && (dispatch.AlreadyDispatched? <==> fate(2).Returns? && found && others(2).db.outbox[ids.row].dispatchedAt.Some?)
    && (dispatch.DispatchThrew? <==>
          fate(2).Throws? || (found && others(2).db.outbox[ids.row].dispatchedAt.None? && fate(3).Throws?))
    && (dispatch.NotFound? || dispatch.AlreadyDispatched? || dispatch.DispatchThrew? <==> path == [])
    && (path != [] ==>
          && DispatchAnswer(dispatch, ids.row, ids.lease, ids.message, others, 3, path)
          && found
          && DispatchPath(cfg, at, ids.row, others(2).db.outbox[ids.row], ids.lease, ids.message, sending, others, fate,
                          3, path, left))
  }

  /** The transaction and the first dispatch of a start, shared by the webhook and the retry. */
  method StartAndDispatch(s: System, from: Status, expected: nat, ids: Ids, at: Time, sending: Sending,
                          others: nat -> Sys, fate: nat -> Fate)
    returns (opening: Opening, ghost committed: Sys, ghost path: seq<Moment>)
    requires (from == NEW || from == ERROR) && Unused(ids, others)
    modifies s
    ensures opening.Won? <==>
              fate(1).Returns? && others(1).db.claim.status == from && others(1).db.claim.attempt == expected
    ensures Opens(s.cfg, Starting(from, expected), opening, ids, at, sending, committed, path, others, fate, s.Shared())
    ensures opening.OpeningThrew? ==> s.Shared() == old(s.Shared())
    ensures opening.LostRace? ==> s.Shared() == committed
  {
    path, committed := [], s.Shared();
    if fate(1).Throws? {
      return OpeningThrew, committed, path;
    }
    s.Meanwhile(others(1));
    var started := s.StartAttemptTransaction(from, expected, ids.token, ids.row);
    committed := s.Shared();
    if !started {
      return LostRace, committed, path;
    }
    var dispatch;
    dispatch, path := s.DispatchClaimIngestQueueOutboxById(ids.row, at, ids.lease, ids.message, sending, others, fate,
                                                           2);
    opening := Won(dispatch);
  }

  /** The transaction and the first dispatch of a recovery, shared by the operator and the watchdog. */
  method RecoverAndDispatch(s: System, at: Time, stale: nat, expected: nat, manual: bool, ids: Ids, sending: Sending,
                            others: nat -> Sys, fate: nat -> Fate)
    returns (opening: Opening, ghost committed: Sys, ghost path: seq<Moment>)
    requires Unused(ids, others)
    modifies s
    ensures opening.Won? <==>
              && fate(1).Returns? && others(1).db.claim.status == PROCESSING && others(1).db.claim.attempt == expected
              && others(1).db.claim.updatedAt <= at - stale
    ensures Opens(s.cfg, Recovering(at, stale, expected, manual), opening, ids, at, sending, committed, path, others,
                  fate, s.Shared())
    ensures opening.OpeningThrew? ==> s.Shared() == old(s.Shared())
    ensures opening.LostRace? ==> s.Shared() == committed
  {
    path, committed := [], s.Shared();
    if fate(1).Throws? {
      return OpeningThrew, committed, path;
    }
    s.Meanwhile(others(1));
    var recovered := s.RecoverAttemptTransaction(at, stale, expected, manual, ids.token, ids.row);
    committed := s.Shared();
    if !recovered {
      return LostRace, committed, path;
    }
    var dispatch;
    dispatch, path := s.DispatchClaimIngestQueueOutboxById(ids.row, at, ids.lease, ids.message, sending, others, fate,
                                                           2);
    opening := Won(dispatch);
  }

  // ---- The requests -------------------------------------------------------

  /** Whether a request that lost the race finds, in `claim`, that another has opened the attempt it asked for. */
  predicate OpenedMeanwhile(claim: Claim, expected: nat) {
    claim.status == PROCESSING && claim.attempt >= expected + 1
  }

  method MaybeEnqueueClaimForProcessing(s: System, shouldEnqueue: bool, queueConfigured: bool, found: bool, ids: Ids,
                                        at: Time, sending: Sending, others: nat -> Sys, fate: nat -> Fate)
    returns (answer: ScheduleAnswer, ghost opening: Opening, ghost committed: Sys, ghost path: seq<Moment>)
    requires Unused(ids, others)
    modifies s
    ensures !shouldEnqueue ==> answer == NotScheduled && s.Shared() == old(s.Shared())
    ensures shouldEnqueue && !queueConfigured ==> answer == ScheduleQueueNotConfigured && s.Shared() == old(s.Shared())
    ensures shouldEnqueue && queueConfigured && fate(0).Throws? ==>
            answer == ScheduleThrew && s.Shared() == old(s.Shared())
    ensures var read := others(0).db.claim;
            shouldEnqueue && queueConfigured && fate(0).Returns? ==>
              if !found || read.status != NEW then answer == NotScheduled && s.Shared() == others(0)
              else
                && MayStart(s.cfg, read, NEW)
                && Opens(s.cfg, Starting(NEW, read.attempt), opening, ids, at, sending, committed, path, others, fate,
                         s.Shared())
                && (opening.Won? <==>
                      fate(1).Returns? && others(1).db.claim.status == NEW
                        && others(1).db.claim.attempt == read.attempt)
                && (answer == NotScheduled <==> opening.LostRace?)
                && (answer == Scheduled(false) <==> |path| > 1 && path[1].action == Send(true, true, ids.message))
                && (answer.Scheduled? <==>
                      opening.Won? && !opening.dispatch.NotFound? && !opening.dispatch.DispatchThrew?)
                && !answer.ScheduleQueueNotConfigured?
  {
    opening, committed, path := LostRace, s.Shared(), [];
    if !shouldEnqueue {
      return NotScheduled, opening, committed, path;
    }
    if !queueConfigured {
      return ScheduleQueueNotConfigured, opening, committed, path;
    }
    if fate(0).Throws? {
      return ScheduleThrew, opening, committed, path;
    }
    s.Meanwhile(others(0));
    if !found || s.claim.status != NEW {
      return NotScheduled, opening, committed, path;
    }
    var o;
    o, committed, path := StartAndDispatch(s, NEW, s.claim.attempt, ids, at, sending, others, fate);
    answer := match o {
      case OpeningThrew => ScheduleThrew
      case LostRace => NotScheduled
      case Won(dispatch) =>
        if dispatch.NotFound? || dispatch.DispatchThrew? then ScheduleThrew else Scheduled(!dispatch.Dispatched?)
    };
    opening := o;
  }

  /**
   A retry that loses the race still answers `Retried` when somebody else has opened the attempt it asked for:
   the answer always means that a later attempt than the one read was opened.
   */
  method RetryErroredClaim(s: System, queueConfigured: bool, found: bool, ids: Ids, at: Time, sending: Sending,
                           others: nat -> Sys, fate: nat -> Fate)
    returns (answer: RetryAnswer, ghost opening: Opening, ghost committed: Sys, ghost path: seq<Moment>)
    requires Unused(ids, others)
    modifies s
    ensures !queueConfigured ==> answer == QueueNotConfigured && s.Shared() == old(s.Shared())
    ensures queueConfigured && fate(0).Throws? ==> answer == RetryThrew && s.Shared() == old(s.Shared())
    ensures var read := others(0).db.claim;
            queueConfigured && fate(0).Returns? ==>
              if !found then answer == ClaimNotFound && s.Shared() == others(0)
              else if read.status != ERROR || read.failure.None? || !read.failure.value.retryable then
                answer == RetryNotAllowed && s.Shared() == others(0)
              else if !s.cfg.hasInbound then answer == RetryUnavailable && s.Shared() == others(0)
              else
                && MayStart(s.cfg, read, ERROR)
                && Opens(s.cfg, Starting(ERROR, read.attempt), opening, ids, at, sending, committed, path, others, fate,
                         s.Shared())
                && (opening.Won? <==>
                      && fate(1).Returns? && others(1).db.claim.status == ERROR
                      && others(1).db.claim.attempt == read.attempt)
                && (answer == Retried <==>
                      || (opening.Won? && !opening.dispatch.NotFound? && !opening.dispatch.DispatchThrew?)
                      || (opening.LostRace? && fate(2).Returns? && OpenedMeanwhile(others(2).db.claim, read.attempt)))
                && (answer == RetryNotAllowed <==>
                      opening.LostRace? && fate(2).Returns? && !OpenedMeanwhile(others(2).db.claim, read.attempt))
                && (answer == Retried || answer == RetryNotAllowed || answer == RetryThrew)
  {
    opening, committed, path := LostRace, s.Shared(), [];
    if !queueConfigured {
      return QueueNotConfigured, opening, committed, path;
    }
    if fate(0).Throws? {
      return RetryThrew, opening, committed, path;
    }
    s.Meanwhile(others(0));
    if !found {
      return ClaimNotFound, opening, committed, path;
    }
    var read := s.claim;
    if read.status != ERROR || read.failure.None? || !read.failure.value.retryable {
      return RetryNotAllowed, opening, committed, path;
    }
    if !s.cfg.hasInbound {
      return RetryUnavailable, opening, committed, path;
    }
    var o;
    o, committed, path := StartAndDispatch(s, ERROR, read.attempt, ids, at, sending, others, fate);
    opening := o;
    answer := AfterRace(s, o, read.attempt, others(2), fate(2), Retried, RetryNotAllowed, RetryThrew);
  }

  method RecoverStaleProcessingClaim(s: System, queueConfigured: bool, found: bool, ids: Ids, at: Time, stale: nat,
                                     sending: Sending, others: nat -> Sys, fate: nat -> Fate)
    returns (answer: RecoveryAnswer, ghost opening: Opening, ghost committed: Sys, ghost path: seq<Moment>)
    requires Unused(ids, others)
    modifies s
    ensures !queueConfigured ==> answer == RecoveryQueueNotConfigured && s.Shared() == old(s.Shared())
    ensures queueConfigured && fate(0).Throws? ==> answer == RecoveryThrew && s.Shared() == old(s.Shared())
    ensures var read, pr := others(0).db.claim, Recovering(at, stale, others(0).db.claim.attempt, true);
            queueConfigured && fate(0).Returns? ==>
              if !found then answer == ClaimNotFoundToRecover && s.Shared() == others(0)
              else if read.status != PROCESSING || read.updatedAt > at - stale then
                answer == RecoveryNotAllowed && s.Shared() == others(0)
              else if !s.cfg.hasInbound then answer == RecoveryUnavailable && s.Shared() == others(0)
              else
                && MayRecover(s.cfg, read, at - stale)
                && Opens(s.cfg, pr, opening, ids, at, sending, committed, path, others, fate, s.Shared())
                && (opening.Won? <==>
                      && fate(1).Returns? && others(1).db.claim.status == PROCESSING
                      && others(1).db.claim.attempt == read.attempt && others(1).db.claim.updatedAt <= at - stale)
                && (answer == Recovered <==>
                      || (opening.Won? && !opening.dispatch.NotFound? && !opening.dispatch.DispatchThrew?)
                      || (opening.LostRace? && fate(2).Returns? && OpenedMeanwhile(others(2).db.claim, read.attempt)))
                && (answer == RecoveryNotAllowed <==>
                      opening.LostRace? && fate(2).Returns? && !OpenedMeanwhile(others(2).db.claim, read.attempt))
                && (answer == Recovered || answer == RecoveryNotAllowed || answer == RecoveryThrew)
  {
    opening, committed, path := LostRace, s.Shared(), [];
    if !queueConfigured {
      return RecoveryQueueNotConfigured, opening, committed, path;
    }
    if fate(0).Throws? {
      return RecoveryThrew, opening, committed, path;
    }
    s.Meanwhile(others(0));
    if !found {
      return ClaimNotFoundToRecover, opening, committed, path;
    }
    var read := s.claim;
    if read.status != PROCESSING || read.updatedAt > at - stale {
      return RecoveryNotAllowed, opening, committed, path;
    }
    if !s.cfg.hasInbound {
      return RecoveryUnavailable, opening, committed, path;
    }
    var o;
    o, committed, path := RecoverAndDispatch(s, at, stale, read.attempt, true, ids, sending, others, fate);
    opening := o;
    answer := AfterRace(s, o, read.attempt, others(2), fate(2), Recovered, RecoveryNotAllowed, RecoveryThrew);
  }

  /** The answer of a retry or a manual recovery; the loser of the race reads the claim again, in state `next`. */
  method AfterRace<T>(s: System, opening: Opening, expected: nat, next: Sys, reread: Fate, done: T, refused: T,
                      threw: T)
    returns (answer: T)
    modifies s
    ensures opening.OpeningThrew? ==> answer == threw
    ensures opening.Won? ==>
              answer == if opening.dispatch.NotFound? || opening.dispatch.DispatchThrew? then threw else done
    ensures opening.LostRace? ==>
              answer == if reread.Throws? then threw
                        else if OpenedMeanwhile(next.db.claim, expected) then done else refused
    ensures !opening.LostRace? || reread.Throws? ==> s.Shared() == old(s.Shared())
  {
    if opening.OpeningThrew? {
      return threw;
    }
    if opening.Won? {
      return if opening.dispatch.NotFound? || opening.dispatch.DispatchThrew? then threw else done;
    }
    if reread.Throws? {
      return threw;
    }
    s.Meanwhile(next);
    answer := if s.claim.status == PROCESSING && s.claim.attempt >= expected + 1 then done else refused;
  }

  /** The watchdog counts each claim its scan selected once; the scan's row is the claim in state `others(0)`. */
  method RecoverSingleStaleProcessingClaim(s: System, ids: Ids, at: Time, stale: nat, sending: Sending,
                                           others: nat -> Sys, fate: nat -> Fate)
    returns (outcome: WatchdogOutcome, ghost opening: Opening, ghost committed: Sys, ghost path: seq<Moment>)
    requires Unused(ids, others)
    requires others(0).db.claim.status == PROCESSING && others(0).db.claim.updatedAt <= at - stale
    modifies s
    ensures outcome.recovered + outcome.skipped + outcome.failed == 1
    ensures !s.cfg.hasInbound ==> outcome.skipped == 1 && s.Shared() == others(0)
    ensures var pr := Recovering(at, stale, others(0).db.claim.attempt, false);
            s.cfg.hasInbound ==>
              && Opens(s.cfg, pr, opening, ids, at, sending, committed, path, others, fate, s.Shared())
              && (opening.Won? <==>
                    && fate(1).Returns? && others(1).db.claim.status == PROCESSING
                    && others(1).db.claim.attempt == pr.expected && others(1).db.claim.updatedAt <= at - stale)
              && (outcome.skipped == 1 <==> opening.LostRace?)
              && (outcome.recovered == 1 <==> opening.Won? && !opening.dispatch.DispatchThrew?)
  {
    opening, committed, path := LostRace, s.Shared(), [];
    s.Meanwhile(others(0));
    if !s.cfg.hasInbound {
      return WatchdogOutcome(0, 1, 0), opening, committed, path;
    }
    var o;
    o, committed, path := RecoverAndDispatch(s, at, stale, s.claim.attempt, false, ids, sending, others, fate);
    outcome := match o {
      case OpeningThrew => WatchdogOutcome(0, 0, 1)
      case LostRace => WatchdogOutcome(0, 1, 0)
      case Won(dispatch) => if dispatch.DispatchThrew? then WatchdogOutcome(0, 0, 1) else WatchdogOutcome(1, 0, 0)
    };
    opening := o;
  }

  method WriteDashboardStatus(s: System, read: Status, target: Status, others: nat -> Sys)
    returns (ghost path: seq<Moment>)
    modifies s
    ensures Came(s.cfg, Some(Clicking(read, target)), path, None, s.Shared())
    ensures path == [Moment(others(1), Write)]
    ensures s.claim == others(1).db.claim.(status := target, updatedAt := others(1).now)
    ensures s.transitions == others(1).db.transitions + [Transition(read, target, Dashboard)]
  {
    s.Meanwhile(others(1));
    Starts(s.cfg, Clicking(read, target), others(1), Write);
    path := [Moment(others(1), Write)];
    s.claim := s.claim.(status := target, updatedAt := s.now);
    s.RecordClaimStatusTransition(read, target, Dashboard);
  }

  /** The write has no status guard: it overwrites whatever the claim has become since it was read. */
  method TransitionDashboardClaimStatus(s: System, found: bool, target: Status, others: nat -> Sys, fate: nat -> Fate)
    returns (answer: ClickAnswer, ghost path: seq<Moment>)
    requires Decided(target)
    modifies s
    ensures var read := others(0).db.claim;
            answer == if fate(0).Throws? then ClickThrew
                      else if !found then ClaimNotFoundToClick
                      else if read.status != READY && read.status != REVIEW_REQUIRED then InvalidTransition
                      else if read.status == target then StatusUnchanged
                      else if fate(1).Throws? then ClickThrew else Updated
    ensures answer.Updated? ==>
              && path == [Moment(others(1), Write)]
              && s.claim == others(1).db.claim.(status := target, updatedAt := others(1).now)
              && MayClick(others(0).db.claim, target)
              && Came(s.cfg, Some(Clicking(others(0).db.claim.status, target)), path, None, s.Shared())
    ensures !answer.Updated? ==> path == [] && s.Shared() == if fate(0).Throws? then old(s.Shared()) else others(0)
  {
    path := [];
    if fate(0).Throws? {
      return ClickThrew, path;
    }
    s.Meanwhile(others(0));
    if !found {
      return ClaimNotFoundToClick, path;
    }
    var read := s.claim.status;
    if read != READY && read != REVIEW_REQUIRED {
      return InvalidTransition, path;
    }
    if read == target {
      return StatusUnchanged, path;
    }
    if fate(1).Throws? {
      return ClickThrew, path;
    }
    path := WriteDashboardStatus(s, read, target, others);
    return Updated, path;
  }

  // ---- What the answers mean in a run -------------------------------------

  /**
   A request may find its own new row gone and throw. By then the row's message has reached the queue: somebody
   else dispatched the row, and the cleanup took it.
   */
  lemma {:induction false} DisappearedRowWasSent(cfg: Config, s: State, pid: nat, ids: Ids, steps: seq<Step>, t: State)
    requires Reachable(cfg, s) && Enabled(cfg, s, Act(pid, Commit(ids.token, ids.row)))
    requires CommitMatches(s.sys, s.procs[pid])
    requires Run(cfg, Next(cfg, s, Act(pid, Commit(ids.token, ids.row))), steps, t)
    requires ids.row !in t.sys.db.outbox
    ensures Message(s.sys.db.claim.attempt + 1, ids.token) in t.sys.sent
  {
    var next := Next(cfg, s, Act(pid, Commit(ids.token, ids.row)));
    var k := s.sys.db.claim.attempt;
    ReachableInv(cfg, s);
    StepInv(cfg, s, Act(pid, Commit(ids.token, ids.row)));
    assert next.sys.history[k] == Attempt(ids.row, ids.token);
    RunInv(cfg, next, steps, t);
    assert NotDropped(t.sys.db.outbox, t.sys.history, t.sys.sent, k);
  }

  /**
   What a request that lost the race finds when it reads the claim again, still or again being processed: exactly that
   the attempt it asked for was opened, and then its own transaction cannot open it.
   */
  lemma {:induction false} LoserSeesTheWinner(cfg: Config, t: State, pr: Proc)
    requires Reachable(cfg, t) && (pr.Starting? || pr.Recovering?)
    ensures OpenedMeanwhile(t.sys.db.claim, pr.expected) <==>
              t.sys.db.claim.status == PROCESSING && pr.expected < |t.sys.history|
    ensures OpenedMeanwhile(t.sys.db.claim, pr.expected) ==>
              Opened(t.sys.db.transitions) >= pr.expected + 1 && !CommitMatches(t.sys, pr)
  {
    ReachableInv(cfg, t);
  }

  /** A claim is not processed under attempt `k` once it has left it, nor before it was opened. */
  predicate NotUnderAttempt(claim: Claim, k: nat) {
    k < claim.attempt || (claim.attempt == k && claim.status != PROCESSING)
  }

  lemma {:induction false} NotUnderStays(cfg: Config, s: State, steps: seq<Step>, t: State, k: nat)
    requires Inv(cfg, s) && NotUnderAttempt(s.sys.db.claim, k) && Run(cfg, s, steps, t)
    ensures NotUnderAttempt(t.sys.db.claim, k)
    decreases |steps|
  {
    if steps != [] {
      StepInv(cfg, s, steps[0]);
      NotUnderStep(cfg, s, steps[0], k);
      NotUnderStays(cfg, Next(cfg, s, steps[0]), steps[1..], t, k);
    }
  }

  lemma {:induction false} NotUnderStep(cfg: Config, s: State, step: Step, k: nat)
    requires Inv(cfg, s) && Enabled(cfg, s, step) && NotUnderAttempt(s.sys.db.claim, k)
    ensures NotUnderAttempt(Next(cfg, s, step).sys.db.claim, k)
  {
    if step.Act? {
      NotUnderAct(cfg, s.sys, s.procs[step.pid], step.action, k);
    }
  }

  lemma {:induction false} NotUnderAct(cfg: Config, sys: Sys, pr: Proc, a: Action, k: nat)
    requires ProcOk(cfg, sys, pr) && ActEnabled(sys, pr, a) && NotUnderAttempt(sys.db.claim, k)
    ensures NotUnderAttempt(ActNext(cfg, sys, pr, a).0.db.claim, k)
  {
  }

  /**
   Of any number of starts or retries that read one claim, every loser that reads it again while it is being
   processed answers success, whoever opened the attempt.
   */
  lemma {:induction false} EveryLoserSucceeds(cfg: Config, s: State, steps: seq<Step>, t: State)
    requires Reachable(cfg, s) && s.sys.db.claim.status != PROCESSING && Run(cfg, s, steps, t)
    ensures t.sys.db.claim.status == PROCESSING ==> OpenedMeanwhile(t.sys.db.claim, s.sys.db.claim.attempt)
  {
    ReachableInv(cfg, s);
    NotUnderStays(cfg, s, steps, t, s.sys.db.claim.attempt);
  }
}
