/**
 What the dispatch of a row and the handling of a message answer, and the path
 they take, as functions of the states that others leave and of which calls
 throw; and what those answers and paths mean.
 */
module HandlerPaths {
  import opened Options
  import opened ClaimModel
  import opened Protocol
  import opened ProcessPaths

  // ---- Outcomes -----------------------------------------------------------

  /** Whether an awaited call returns or throws, and then what the error says of retrying. */
  datatype Fate = Returns | Throws(retryable: bool)

  /** How an awaited job ended. */
  datatype Job = Done | Threw(retryable: bool)

  /** What the job's lookup of the inbound message and its claim found. */
  datatype Lookup = Found | InboundMissing | ClaimMissing | WrongClaim | WrongOrganization

  /** Outcome of the extraction calls between taking the lease and persisting. */
  datatype Extracted = Yields(extraction: Extraction) | Raises(retryable: bool)

  /** Outcome of a send: the receiver took the message or not, and the sender was told so or not. */
  datatype Sending = Acknowledged | LostReply | Refused

  datatype FailureDisposition = MovedToDlqDisposition | DroppedDisposition | RetryingDisposition

  datatype DispatchOutcome =
    | Dispatched(persisted: bool) | AlreadyDispatched | LeaseUnavailable | NotFound | DispatchSendFailed
    | DispatchThrew   // reading the row or taking its lease threw

  /** A dispatcher whose marking or clearing write throws ends there. */
  function AfterSend(id: Token, row: OutboxRow, at: Time, token: Token, sending: Sending, last: Fate): Option<Proc> {
    if last.Returns? then None
    else Some(if sending == Acknowledged then SentOk(at, id, row, token) else SendFailed(id, token))
  }

  /**
   What an answer means: the lease threw; the lease was all; the row's message was sent and acknowledged, and its mark
   found the row still held or not; or it was sent without acknowledgement.
   */
  predicate DispatchAnswer(outcome: DispatchOutcome, id: Token, token: Token, mid: Token,
                           others: nat -> Sys, n: nat, path: seq<Moment>) {
    && (outcome.DispatchThrew? <==> path == [])
    && (outcome.LeaseUnavailable? <==> |path| == 1)
    && (outcome.Dispatched? <==> |path| > 1 && path[1].action == Send(true, true, mid))
    && (outcome.DispatchSendFailed? <==> |path| > 1 && path[1].action != Send(true, true, mid))
    && (outcome == Dispatched(true) <==>
          && |path| == 3 && path[2].action == Mark
          && id in others(n + 2).db.outbox && others(n + 2).db.outbox[id].dispatchedAt.None?
          && others(n + 2).db.outbox[id].leaseToken == Some(token))
  }

  /** The row's message has reached the queue by then. */
  predicate LeftSent(e: End, row: OutboxRow) {
    e.left.Some? && Message(row.attempt, row.token) in e.left.value.sent
  }

  /**
   A dispatcher that read `row` tried to lease it in state `others(n)`; it sent if the row was there, undispatched
   and under no running lease, then marked or cleared it unless that write threw, and left `left` in the end.
   */
  predicate DispatchPath(cfg: Config, at: Time, id: Token, row: OutboxRow, token: Token, mid: Token, sending: Sending,
                         others: nat -> Sys, fate: nat -> Fate, n: nat, path: seq<Moment>, left: Sys) {
    var e := PathEnd(cfg, Some(Dispatching(at, id, row)), path);
    && 1 <= |path| <= 3 && path[0] == Moment(others(n), TakeRow(token))
    && (|path| > 1 <==>
          && id in others(n).db.outbox && others(n).db.outbox[id].dispatchedAt.None?
          && (others(n).db.outbox[id].leaseClaimedAt.Some? ==>
                others(n).db.outbox[id].leaseClaimedAt.value <= at - cfg.leaseTimeout))
    && (|path| > 1 ==> path[1] == Moment(others(n + 1), Send(sending == Acknowledged, sending != Refused, mid)))
    && (|path| > 2 ==> path[2] == Moment(others(n + 2), if sending == Acknowledged then Mark else Clear))
    && (|path| == 2 ==> fate(n + 2).Throws?)
    && e.ok && e.left == Some(left)
  }

  /** How the job ends after a lease claim in state `others(n)`. */
  function ClaimOutcome(m: Message, extracted: Extracted, others: nat -> Sys, fate: nat -> Fate, n: nat): Job {
    if fate(n).Throws? then Threw(fate(n).retryable)
    else if !LeaseMatches(others(n).db.claim, m) then Done
    else PersistOutcomeOf(extracted, fate(n + 1))
  }

  function PersistOutcomeOf(extracted: Extracted, persist: Fate): Job {
    if extracted.Raises? then Threw(extracted.retryable)
    else if persist.Throws? then Threw(persist.retryable) else Done
  }

  /** How the job ends, from the states its calls take effect in: the read in `others(n)`, then one after the other. */
  function JobOutcome(m: Message, lookup: Lookup, extracted: Extracted,
                      others: nat -> Sys, fate: nat -> Fate, n: nat): Job {
    var stop := LookupOutcome(m, lookup, others(n).db.claim, fate(n));
    if stop.Some? then stop.value else ClaimOutcome(m, extracted, others, fate, n + 1)
  }

  /** How the job ends at its lookup or at a guard, or `None` when it goes on. */
  function LookupOutcome(m: Message, lookup: Lookup, claim: Claim, read: Fate): Option<Job> {
    var g := IngestGuard(claim, m);
    if read.Throws? then Some(Threw(read.retryable))
    else if lookup != Found || GuardThrows(g) then Some(Threw(false))
    else if g != MayClaim then Some(Done)
    else None
  }

  function AfterJob(mid: Token, m: Message, receiveCount: int, job: Job): Proc {
    if job.Done? then Finishing(mid, m, receiveCount) else Failing(mid, Good(m), receiveCount, job.retryable)
  }

  /** Why a failed message leaves the queue, if it does. */
  function FinalCause(cfg: Config, retryable: bool, receiveCount: int, publishing: Sending): Option<Cause> {
    if WantsDlq(cfg, retryable, receiveCount) && publishing == Acknowledged then Some(Moved)
    else if !retryable && !cfg.dlqConfigured then Some(Dropped)
    else None
  }

  /** The handler's answer for a failed message; `None` when marking the claim or deleting the message threw. */
  function CondemnOutcome(body: Body, cause: Cause, fate: nat -> Fate, n: nat): Option<FailureDisposition> {
    if (body.Good? && fate(n).Throws?) || fate(n + 1).Throws? then None
    else Some(if cause == Moved then MovedToDlqDisposition else DroppedDisposition)
  }

  /** Where the handler of a condemned message stops. */
  function AfterCondemn(mid: Token, body: Body, receiveCount: int, retryable: bool, cause: Cause,
                        fate: nat -> Fate, n: nat): Option<Proc> {
    if body.Good? && fate(n).Throws? then Some(Condemned(mid, body, receiveCount, retryable, cause))
    else if fate(n + 1).Throws? then Some(Deleting(mid, body, retryable, cause))
    else None
  }

  function FailureOutcome(cfg: Config, body: Body, receiveCount: int, retryable: bool, publishing: Sending,
                          fate: nat -> Fate, n: nat): Option<FailureDisposition> {
    CauseOutcome(body, FinalCause(cfg, retryable, receiveCount, publishing), fate, n + 1)
  }

  function CauseOutcome(body: Body, cause: Option<Cause>, fate: nat -> Fate, n: nat): Option<FailureDisposition> {
    if cause.Some? then CondemnOutcome(body, cause.value, fate, n) else Some(RetryingDisposition)
  }

  /** Where the handler of a failed message stops. */
  function AfterFailure(cfg: Config, mid: Token, body: Body, receiveCount: int, retryable: bool, publishing: Sending,
                        fate: nat -> Fate, n: nat): Option<Proc> {
    AfterCause(mid, body, receiveCount, retryable, FinalCause(cfg, retryable, receiveCount, publishing), fate, n + 1)
  }

  function AfterCause(mid: Token, body: Body, receiveCount: int, retryable: bool, cause: Option<Cause>,
                      fate: nat -> Fate, n: nat): Option<Proc> {
    if cause.Some? then AfterCondemn(mid, body, receiveCount, retryable, cause.value, fate, n)
    else if body.Good? && fate(n).Throws? then Some(Releasing(body.msg))
    else None
  }

  /** The job and the delete after it, which both fail alike. */
  function HandledOutcome(m: Message, lookup: Lookup, extracted: Extracted,
                          others: nat -> Sys, fate: nat -> Fate, n: nat): Job {
    var job := JobOutcome(m, lookup, extracted, others, fate, n);
    OnceDeleted(job, fate(n + |JobPath(m, lookup, extracted, others, fate, n)|))
  }

  function OnceDeleted(job: Job, delete: Fate): Job {
    if job.Done? && delete.Throws? then Threw(delete.retryable) else job
  }

  /** Where the handling of one received message stops: `None` unless a call of the failure handling threw. */
  function AfterHandling(cfg: Config, mid: Token, body: Body, receiveCount: int, lookup: Lookup, extracted: Extracted,
                         publishing: Sending, others: nat -> Sys, fate: nat -> Fate): Option<Proc> {
    if body.Malformed? then AfterFailure(cfg, mid, body, receiveCount, false, publishing, fate, 1)
    else AfterParsed(cfg, mid, body.msg, receiveCount, HandledOutcome(body.msg, lookup, extracted, others, fate, 1),
                     publishing, fate, 1 + |HandledPath(body.msg, lookup, extracted, others, fate, 1)|)
  }

  function AfterParsed(cfg: Config, mid: Token, m: Message, receiveCount: int, job: Job, publishing: Sending,
                       fate: nat -> Fate, n: nat): Option<Proc> {
    if job.Done? then None
    else AfterFailure(cfg, mid, Good(m), receiveCount, job.retryable, publishing, fate, n)
  }

  // ---- The path of one received message -----------------------------------

  /** The job from its read in `others(n)` on. */
  function JobPath(m: Message, lookup: Lookup, extracted: Extracted,
                   others: nat -> Sys, fate: nat -> Fate, n: nat): seq<Moment> {
    if fate(n).Throws? || lookup != Found
    then [Moment(others(n), Throw(fate(n).Throws? && fate(n).retryable))]
    else
      [Moment(others(n), Read)]
      + (if IngestGuard(others(n).db.claim, m) == MayClaim
         then ClaimPath(m, extracted, others, fate, n + 1) else [])
  }

  function ClaimPath(m: Message, extracted: Extracted, others: nat -> Sys, fate: nat -> Fate, n: nat): seq<Moment> {
    if fate(n).Throws? then [Moment(others(n), Throw(fate(n).retryable))]
    else
      [Moment(others(n), TakeClaim)]
      + (if LeaseMatches(others(n).db.claim, m) then [ExtractMoment(extracted, others, fate, n + 1)] else [])
  }

  function ExtractMoment(extracted: Extracted, others: nat -> Sys, fate: nat -> Fate, n: nat): Moment {
    var job := PersistOutcomeOf(extracted, fate(n));
    Moment(others(n), if job.Threw? then Throw(job.retryable) else Persist(extracted.extraction))
  }

  /** The job, and after a job that is done the delete. */
  function HandledPath(m: Message, lookup: Lookup, extracted: Extracted,
                       others: nat -> Sys, fate: nat -> Fate, n: nat): seq<Moment> {
    var path := JobPath(m, lookup, extracted, others, fate, n);
    path + AfterJobPath(JobOutcome(m, lookup, extracted, others, fate, n), others, fate, n + |path|)
  }

  lemma {:induction false} HandledIs(m: Message, lookup: Lookup, extracted: Extracted, others: nat -> Sys,
                                     fate: nat -> Fate, n: nat, job: Job, path: seq<Moment>)
    requires job == JobOutcome(m, lookup, extracted, others, fate, n)
    requires path == JobPath(m, lookup, extracted, others, fate, n)
    ensures HandledPath(m, lookup, extracted, others, fate, n) == path + AfterJobPath(job, others, fate, n + |path|)
    ensures HandledOutcome(m, lookup, extracted, others, fate, n) == OnceDeleted(job, fate(n + |path|))
  {
  }

  function AfterJobPath(job: Job, others: nat -> Sys, fate: nat -> Fate, n: nat): seq<Moment> {
    if job.Done? then [DeleteMoment(others, fate, n)] else []
  }

  function DeleteMoment(others: nat -> Sys, fate: nat -> Fate, n: nat): Moment {
    Moment(others(n), if fate(n).Throws? then Throw(fate(n).retryable) else Delete)
  }

  /** The failure handling: publish, mark, delete; or publish where wanted, and release. */
  function FailurePath(cfg: Config, body: Body, receiveCount: int, retryable: bool, publishing: Sending,
                       others: nat -> Sys, fate: nat -> Fate, n: nat): seq<Moment> {
    [Moment(others(n), Dispose(publishing != Refused, publishing == Acknowledged))]
    + AfterDispose(body, FinalCause(cfg, retryable, receiveCount, publishing), others, fate, n + 1)
  }

  function AfterDispose(body: Body, cause: Option<Cause>, others: nat -> Sys, fate: nat -> Fate, n: nat): seq<Moment> {
    if cause.Some? then CondemnPath(body, others, fate, n)
    else if body.Good? && fate(n).Returns? then [Moment(others(n), Release)]
    else []
  }

  function CondemnPath(body: Body, others: nat -> Sys, fate: nat -> Fate, n: nat): seq<Moment> {
    if body.Good? && fate(n).Throws? then []
    else
      [Moment(others(n), MarkFailed)]
      + (if fate(n + 1).Throws? then [] else [Moment(others(n + 1), Delete)])
  }

  /** The job and the delete; and the failure handling where one of them failed. */
  function ParsedPath(cfg: Config, m: Message, receiveCount: int, lookup: Lookup, extracted: Extracted,
                      publishing: Sending, others: nat -> Sys, fate: nat -> Fate): seq<Moment> {
    var path := HandledPath(m, lookup, extracted, others, fate, 1);
    path + AfterHandled(cfg, m, receiveCount, HandledOutcome(m, lookup, extracted, others, fate, 1), publishing,
                        others, fate, 1 + |path|)
  }

  function AfterHandled(cfg: Config, m: Message, receiveCount: int, job: Job, publishing: Sending,
                        others: nat -> Sys, fate: nat -> Fate, n: nat): seq<Moment> {
    if job.Done? then []
    else FailurePath(cfg, Good(m), receiveCount, job.retryable, publishing, others, fate, n)
  }

  /** From parse on. */
  function HandlerPath(cfg: Config, body: Body, receiveCount: int, lookup: Lookup, extracted: Extracted,
                       publishing: Sending, others: nat -> Sys, fate: nat -> Fate): seq<Moment> {
    [Moment(others(0), Parse)]
    + (if body.Malformed? then FailurePath(cfg, body, receiveCount, false, publishing, others, fate, 1)
       else ParsedPath(cfg, body.msg, receiveCount, lookup, extracted, publishing, others, fate))
  }

  // ---- What the path means ------------------------------------------------

  /** What the `n`-th action may be, given what its call came to. */
  predicate Allowed(body: Body, lookup: Lookup, extracted: Extracted, publishing: Sending,
                    others: nat -> Sys, fate: nat -> Fate, n: nat, m: Moment) {
    && m.at == others(n)
    && match m.action
       case Parse => n == 0
       case Read => fate(n).Returns? && lookup == Found
       case TakeClaim => fate(n).Returns?
       case Persist(e) => fate(n).Returns? && extracted == Yields(e)
       case Throw(retryable) =>
         || fate(n) == Throws(retryable)
         || (n == 1 && lookup != Found && !retryable)
         || (n == 3 && extracted == Raises(retryable))
       case Dispose(accepted, published) =>
         accepted == (publishing != Refused) && published == (publishing == Acknowledged)
       case MarkFailed => fate(n).Returns? || body.Malformed?
       case Delete => fate(n).Returns?
       case Release => fate(n).Returns?
       case _ => false
  }

  predicate AllAllowed(body: Body, lookup: Lookup, extracted: Extracted, publishing: Sending,
                       others: nat -> Sys, fate: nat -> Fate, n: nat, path: seq<Moment>) {
    forall k :: 0 <= k < |path| ==> Allowed(body, lookup, extracted, publishing, others, fate, n + k, path[k])
  }

  lemma {:induction false} AllowedConcat(body: Body, lookup: Lookup, extracted: Extracted, publishing: Sending,
                                         others: nat -> Sys, fate: nat -> Fate, n: nat,
                                         xs: seq<Moment>, ys: seq<Moment>)
    requires AllAllowed(body, lookup, extracted, publishing, others, fate, n, xs)
    requires AllAllowed(body, lookup, extracted, publishing, others, fate, n + |xs|, ys)
    ensures AllAllowed(body, lookup, extracted, publishing, others, fate, n, xs + ys)
  {
    forall k | 0 <= k < |xs + ys|
      ensures Allowed(body, lookup, extracted, publishing, others, fate, n + k, (xs + ys)[k])
    {
      if k >= |xs| {
        assert Allowed(body, lookup, extracted, publishing, others, fate, n + |xs| + (k - |xs|), ys[k - |xs|]);
      }
    }
  }

  lemma {:induction false} ClaimAllowed(body: Body, m: Message, lookup: Lookup, extracted: Extracted,
                                        publishing: Sending, others: nat -> Sys, fate: nat -> Fate)
    ensures AllAllowed(body, lookup, extracted, publishing, others, fate, 2,
                       ClaimPath(m, extracted, others, fate, 2))
  {
  }

  lemma {:induction false} ReadAllowed(body: Body, lookup: Lookup, extracted: Extracted, publishing: Sending,
                                       others: nat -> Sys, fate: nat -> Fate, rest: seq<Moment>)
    requires fate(1).Returns? && lookup == Found
    requires AllAllowed(body, lookup, extracted, publishing, others, fate, 2, rest)
    ensures AllAllowed(body, lookup, extracted, publishing, others, fate, 1, [Moment(others(1), Read)] + rest)
  {
    AllowedConcat(body, lookup, extracted, publishing, others, fate, 1, [Moment(others(1), Read)], rest);
  }

  lemma {:induction false} JobAllowed(body: Body, m: Message, lookup: Lookup, extracted: Extracted,
                                      publishing: Sending, others: nat -> Sys, fate: nat -> Fate)
    ensures AllAllowed(body, lookup, extracted, publishing, others, fate, 1,
                       JobPath(m, lookup, extracted, others, fate, 1))
  {
    ClaimAllowed(body, m, lookup, extracted, publishing, others, fate);
    if fate(1).Returns? && lookup == Found {
      ReadAllowed(body, lookup, extracted, publishing, others, fate,
                  if IngestGuard(others(1).db.claim, m) == MayClaim then ClaimPath(m, extracted, others, fate, 2)
                    else []);
    }
  }

  lemma {:induction false} HandledAllowed(body: Body, m: Message, lookup: Lookup, extracted: Extracted,
                                          publishing: Sending, others: nat -> Sys, fate: nat -> Fate)
    ensures AllAllowed(body, lookup, extracted, publishing, others, fate, 1,
                       HandledPath(m, lookup, extracted, others, fate, 1))
  {
    var job := JobPath(m, lookup, extracted, others, fate, 1);
    var last := AfterJobPath(JobOutcome(m, lookup, extracted, others, fate, 1), others, fate, 1 + |job|);
    JobAllowed(body, m, lookup, extracted, publishing, others, fate);
    AllowedConcat(body, lookup, extracted, publishing, others, fate, 1, job, last);
  }

  lemma {:induction false} FailureAllowed(cfg: Config, body: Body, receiveCount: int, retryable: bool, lookup: Lookup,
                                          extracted: Extracted, publishing: Sending,
                                          others: nat -> Sys, fate: nat -> Fate, n: nat)
    ensures AllAllowed(body, lookup, extracted, publishing, others, fate, n,
                       FailurePath(cfg, body, receiveCount, retryable, publishing, others, fate, n))
  {
  }

  lemma {:induction false} AfterHandledAllowed(cfg: Config, m: Message, receiveCount: int, job: Job, lookup: Lookup,
                                               extracted: Extracted, publishing: Sending,
                                               others: nat -> Sys, fate: nat -> Fate, n: nat)
    ensures AllAllowed(Good(m), lookup, extracted, publishing, others, fate, n,
                       AfterHandled(cfg, m, receiveCount, job, publishing, others, fate, n))
  {
    if job.Threw? {
      FailureAllowed(cfg, Good(m), receiveCount, job.retryable, lookup, extracted, publishing, others, fate, n);
    }
  }

  lemma {:induction false} ParsedAllowed(cfg: Config, m: Message, receiveCount: int, lookup: Lookup,
                                         extracted: Extracted, publishing: Sending,
                                         others: nat -> Sys, fate: nat -> Fate)
    ensures AllAllowed(Good(m), lookup, extracted, publishing, others, fate, 1,
                       ParsedPath(cfg, m, receiveCount, lookup, extracted, publishing, others, fate))
  {
    var job := HandledOutcome(m, lookup, extracted, others, fate, 1);
    var path := HandledPath(m, lookup, extracted, others, fate, 1);
    HandledAllowed(Good(m), m, lookup, extracted, publishing, others, fate);
    AfterHandledAllowed(cfg, m, receiveCount, job, lookup, extracted, publishing, others, fate, 1 + |path|);
    AllowedConcat(Good(m), lookup, extracted, publishing, others, fate, 1, path,
                  AfterHandled(cfg, m, receiveCount, job, publishing, others, fate, 1 + |path|));
  }

  /**
   No call's outcome is ignored: an effect needs a call that returned, and the handler gives up on the job only
   where a call threw, the lookup failed, or the extraction did.
   */
  lemma {:induction false} EveryCallCounts(cfg: Config, body: Body, receiveCount: int, lookup: Lookup,
                                           extracted: Extracted, publishing: Sending,
                                           others: nat -> Sys, fate: nat -> Fate)
    ensures AllAllowed(body, lookup, extracted, publishing, others, fate, 0,
                       HandlerPath(cfg, body, receiveCount, lookup, extracted, publishing, others, fate))
  {
    if body.Malformed? {
      FailureAllowed(cfg, body, receiveCount, false, lookup, extracted, publishing, others, fate, 1);
    } else {
      ParsedAllowed(cfg, body.msg, receiveCount, lookup, extracted, publishing, others, fate);
    }
    var rest := if body.Malformed? then FailurePath(cfg, body, receiveCount, false, publishing, others, fate, 1)
                else ParsedPath(cfg, body.msg, receiveCount, lookup, extracted, publishing, others, fate);
    AllowedConcat(body, lookup, extracted, publishing, others, fate, 0, [Moment(others(0), Parse)], rest);
  }

  /** The handler stops before its end only where a call of the failure handling throws. */
  lemma {:induction false} StopsOnlyWhenThrown(cfg: Config, mid: Token, body: Body, receiveCount: int, lookup: Lookup,
                                               extracted: Extracted, publishing: Sending,
                                               others: nat -> Sys, fate: nat -> Fate)
    requires AfterHandling(cfg, mid, body, receiveCount, lookup, extracted, publishing, others, fate).Some?
    ensures fate(|HandlerPath(cfg, body, receiveCount, lookup, extracted, publishing, others, fate)|).Throws?
  {
  }

  predicate Disposes(path: seq<Moment>) {
    exists k :: 0 <= k < |path| && path[k].action.Dispose?
  }

  predicate GivesUp(path: seq<Moment>) {
    exists k :: 0 <= k < |path| && path[k].action.Throw?
  }

  lemma {:induction false} DisposesConcat(xs: seq<Moment>, ys: seq<Moment>)
    ensures Disposes(xs + ys) <==> Disposes(xs) || Disposes(ys)
    ensures GivesUp(xs + ys) <==> GivesUp(xs) || GivesUp(ys)
  {
    if k :| 0 <= k < |xs| && xs[k].action.Dispose? {
      assert (xs + ys)[k].action.Dispose?;
    }
    if k :| 0 <= k < |ys| && ys[k].action.Dispose? {
      assert (xs + ys)[|xs| + k].action.Dispose?;
    }
    if k :| 0 <= k < |xs| && xs[k].action.Throw? {
      assert (xs + ys)[k].action.Throw?;
    }
    if k :| 0 <= k < |ys| && ys[k].action.Throw? {
      assert (xs + ys)[|xs| + k].action.Throw?;
    }
  }

  /** The job raises an error over the claim it has read: it is NEW, or behind the message. */
  predicate ReadRaises(claim: Claim, m: Message) {
    && claim.status != READY && claim.status != REVIEW_REQUIRED && claim.attempt <= m.attempt
    && (claim.status == NEW || claim.attempt < m.attempt)
  }

  lemma {:induction false} JobFailsIff(m: Message, lookup: Lookup, extracted: Extracted,
                                       others: nat -> Sys, fate: nat -> Fate, n: nat)
    ensures var path := JobPath(m, lookup, extracted, others, fate, n);
            && !Disposes(path) && path != [] && (path[0].action == Read || GivesUp(path))
            && (JobOutcome(m, lookup, extracted, others, fate, n).Threw? <==>
                  GivesUp(path) || (path[0].action == Read && ReadRaises(others(n).db.claim, m)))
  {
    var path := JobPath(m, lookup, extracted, others, fate, n);
    if path[0].action != Read {
      assert path[0].action.Throw?;
    } else if |path| == 2 && path[1].action.Throw? {
      assert GivesUp(path);
    } else if |path| == 3 && path[2].action.Throw? {
      assert GivesUp(path);
    }
  }

  lemma {:induction false} HandledFailsIff(m: Message, lookup: Lookup, extracted: Extracted,
                                           others: nat -> Sys, fate: nat -> Fate, n: nat)
    ensures var path := HandledPath(m, lookup, extracted, others, fate, n);
            && !Disposes(path) && path != []
            && (HandledOutcome(m, lookup, extracted, others, fate, n).Threw? <==>
                  GivesUp(path) || (path[0].action == Read && ReadRaises(others(n).db.claim, m)))
            && (HandledOutcome(m, lookup, extracted, others, fate, n).Done? ==> path[|path| - 1].action == Delete)
  {
    var job := JobPath(m, lookup, extracted, others, fate, n);
    JobFailsIff(m, lookup, extracted, others, fate, n);
    var last := [DeleteMoment(others, fate, n + |job|)];
    if JobOutcome(m, lookup, extracted, others, fate, n).Done? {
      DisposesConcat(job, last);
      assert GivesUp(last) <==> last[0].action.Throw?;
    } else {
      assert HandledPath(m, lookup, extracted, others, fate, n) == job + [];
      assert job + [] == job;
    }
  }

  lemma {:induction false} FailureDisposes(cfg: Config, body: Body, receiveCount: int, retryable: bool,
                                           publishing: Sending, others: nat -> Sys, fate: nat -> Fate, n: nat)
    ensures var path := FailurePath(cfg, body, receiveCount, retryable, publishing, others, fate, n);
            path != [] && path[0].action.Dispose? && Disposes(path) && !GivesUp(path)
  {
  }

  /** The path of a parsed message, whose read raises or not: it disposes exactly after a failure, or deletes. */
  predicate DisposesOnFailure(path: seq<Moment>, raises: bool) {
    && path != []
    && (Disposes(path) <==> GivesUp(path) || (path[0].action == Read && raises))
    && (!Disposes(path) ==> path[|path| - 1].action == Delete)
  }

  lemma {:induction false} DisposesAfter(cfg: Config, m: Message, receiveCount: int, job: Job, publishing: Sending,
                                         others: nat -> Sys, fate: nat -> Fate, n: nat,
                                         path: seq<Moment>, raises: bool)
    requires path != [] && !Disposes(path) && (job.Threw? <==> GivesUp(path) || (path[0].action == Read && raises))
    requires job.Done? ==> path[|path| - 1].action == Delete
    ensures DisposesOnFailure(path + AfterHandled(cfg, m, receiveCount, job, publishing, others, fate, n), raises)
  {
    if job.Threw? {
      FailureDisposes(cfg, Good(m), receiveCount, job.retryable, publishing, others, fate, n);
    }
    DisposesConcat(path, AfterHandled(cfg, m, receiveCount, job, publishing, others, fate, n));
  }

  lemma {:induction false} ParsedDisposesIff(cfg: Config, m: Message, receiveCount: int, lookup: Lookup,
                                             extracted: Extracted, publishing: Sending,
                                             others: nat -> Sys, fate: nat -> Fate)
    ensures DisposesOnFailure(ParsedPath(cfg, m, receiveCount, lookup, extracted, publishing, others, fate),
                              ReadRaises(others(1).db.claim, m))
  {
    var path := HandledPath(m, lookup, extracted, others, fate, 1);
    HandledFailsIff(m, lookup, extracted, others, fate, 1);
    DisposesAfter(cfg, m, receiveCount, HandledOutcome(m, lookup, extracted, others, fate, 1), publishing,
                  others, fate, 1 + |path|, path, ReadRaises(others(1).db.claim, m));
  }

  /**
   The failure handling runs exactly for a body that does not parse, a job that threw or raised, and a delete after
   the job that threw; every other message is deleted in the last step.
   */
  lemma {:induction false} DisposesIff(cfg: Config, body: Body, receiveCount: int, lookup: Lookup, extracted: Extracted,
                                       publishing: Sending, others: nat -> Sys, fate: nat -> Fate)
    ensures var path := HandlerPath(cfg, body, receiveCount, lookup, extracted, publishing, others, fate);
            && |path| > 1 && path[0].action == Parse
            && (Disposes(path) <==>
                  || body.Malformed?
                  || GivesUp(path)
                  || (path[1].action == Read && ReadRaises(others(1).db.claim, body.msg)))
            && (!Disposes(path) ==> path[|path| - 1].action == Delete)
  {
    var first := [Moment(others(0), Parse)];
    assert !Disposes(first) && !GivesUp(first);
    if body.Malformed? {
      FailureDisposes(cfg, body, receiveCount, false, publishing, others, fate, 1);
      DisposesConcat(first, FailurePath(cfg, body, receiveCount, false, publishing, others, fate, 1));
    } else {
      ParsedDisposesIff(cfg, body.msg, receiveCount, lookup, extracted, publishing, others, fate);
      DisposesConcat(first, ParsedPath(cfg, body.msg, receiveCount, lookup, extracted, publishing, others, fate));
    }
  }

  /** The claim is being processed under the message, and no worker has its lease. */
  predicate FreeFor(claim: Claim, m: Message) {
    && claim.status == PROCESSING && claim.attempt == m.attempt && claim.token == Some(m.token)
    && claim.leaseClaimedAt.None?
  }

  /**
   A healthy message: its claim is free for it when read and when leased, the extraction is `e`, and nothing
   throws.
   */
  lemma {:induction false} HealthyMessageIsProcessed(cfg: Config, m: Message, receiveCount: int, e: Extraction,
                                                     publishing: Sending, others: nat -> Sys, fate: nat -> Fate)
    requires fate(1).Returns? && fate(2).Returns? && fate(3).Returns? && fate(4).Returns?
    requires FreeFor(others(1).db.claim, m) && FreeFor(others(2).db.claim, m)
    ensures HandlerPath(cfg, Good(m), receiveCount, Found, Yields(e), publishing, others, fate)
            == [Moment(others(0), Parse), Moment(others(1), Read), Moment(others(2), TakeClaim),
                Moment(others(3), Persist(e)), Moment(others(4), Delete)]
  {
  }
}
