/**
 What a claim's status says of how it came about: a decision of the extraction
 behind it, an error of the failure behind it, a worker's lease of the worker
 that took it.
 */
module ProtocolOutcomes {
  import opened Options
  import opened ClaimModel
  import opened Protocol
  import opened ProtocolInvariant
  import opened ProtocolTheorems

  // ---- Decisions ----------------------------------------------------------

  /** The `i`-th event is the first that enters READY or REVIEW_REQUIRED. */
  predicate FirstDecision(transitions: seq<Transition>, i: int) {
    && 0 <= i < |transitions| && Decided(transitions[i].to)
    && (i > 0 ==> !Decided(transitions[i - 1].to))
  }

  ghost predicate DecisionOk(cfg: Config, db: Db) {
    forall i :: FirstDecision(db.transitions, i) ==>
      && |db.extractions| > 0
      && db.transitions[i].from == PROCESSING && db.transitions[i].source == WorkerExtraction
      && (db.transitions[i].to == READY <==>
            db.extractions[0].confidence >= cfg.readyConfidence && db.extractions[0].missingInfo == 0)
  }

  // ---- Errors -------------------------------------------------------------

  /** A failure is final when retrying is pointless, or has been tried often enough. */
  predicate Final(cfg: Config, retryable: bool, receiveCount: int) {
    !retryable || receiveCount >= cfg.maxReceiveCount
  }

  predicate ErrorOk(cfg: Config, claim: Claim) {
    claim.status == ERROR ==>
      claim.failure.Some? && Final(cfg, claim.failure.value.retryable, claim.failure.value.receiveCount)
  }

  predicate CondemnedOk(cfg: Config, pr: Proc) {
    pr.Condemned? ==> Final(cfg, pr.retryable, pr.receiveCount)
  }

  ghost predicate Warranted(cfg: Config, s: State) {
    && DecisionOk(cfg, s.sys.db) && ErrorOk(cfg, s.sys.db.claim)
    && forall pid :: pid in s.procs ==> CondemnedOk(cfg, s.procs[pid])
  }

  // ---- Every step keeps them ----------------------------------------------

  /** One more event: a new first decision, or none. */
  lemma {:induction false} EventKeepsDecision(cfg: Config, a: Db, b: Db, t: Transition)
    requires DecisionOk(cfg, a) && b.transitions == a.transitions + [t]
    requires a.extractions <= b.extractions
    requires FirstDecision(b.transitions, |a.transitions|) ==>
               && |b.extractions| > 0 && t.from == PROCESSING && t.source == WorkerExtraction
               && (t.to == READY <==>
                     b.extractions[0].confidence >= cfg.readyConfidence && b.extractions[0].missingInfo == 0)
    ensures DecisionOk(cfg, b)
  {
    forall i | FirstDecision(b.transitions, i)
      ensures |b.extractions| > 0 && b.transitions[i].from == PROCESSING && b.transitions[i].source == WorkerExtraction
      ensures b.transitions[i].to == READY <==>
                b.extractions[0].confidence >= cfg.readyConfidence && b.extractions[0].missingInfo == 0
    {
      if i < |a.transitions| {
        assert FirstDecision(a.transitions, i);
      }
    }
  }

  lemma {:induction false} CommitDecision(cfg: Config, sys: Sys, pr: Proc, token: Token, id: Token)
    requires SysOk(cfg, sys) && DecisionOk(cfg, sys.db) && (pr.Starting? || pr.Recovering?)
    ensures DecisionOk(cfg, CommitNext(sys, pr, token, id).db)
  {
    var next := CommitNext(sys, pr, token, id).db;
    if next != sys.db {
      EventKeepsDecision(cfg, sys.db, next, next.transitions[|sys.db.transitions|]);
    }
  }

  lemma {:induction false} PersistDecision(cfg: Config, sys: Sys, m: Message, e: Extraction)
    requires SysOk(cfg, sys) && DecisionOk(cfg, sys.db)
    ensures DecisionOk(cfg, PersistOutcome(sys.db, m, e, cfg.readyConfidence, sys.now))
  {
    var next := PersistOutcome(sys.db, m, e, cfg.readyConfidence, sys.now);
    if next != sys.db {
      EventKeepsDecision(cfg, sys.db, next, next.transitions[|sys.db.transitions|]);
    }
  }

  lemma {:induction false} MarkDecision(cfg: Config, sys: Sys, m: Message, f: Failure)
    requires SysOk(cfg, sys) && DecisionOk(cfg, sys.db)
    ensures DecisionOk(cfg, MarkError(sys.db, m, f, sys.now))
  {
    var next := MarkError(sys.db, m, f, sys.now);
    if next != sys.db {
      EventKeepsDecision(cfg, sys.db, next, next.transitions[|sys.db.transitions|]);
    }
  }

  lemma {:induction false} ClickDecision(cfg: Config, sys: Sys, pr: Proc)
    requires SysOk(cfg, sys) && DecisionOk(cfg, sys.db) && pr.Clicking? && ProcOk(cfg, sys, pr)
    ensures DecisionOk(cfg, DashboardWrite(sys.db, pr.from, pr.target, sys.now))
  {
    var next := DashboardWrite(sys.db, pr.from, pr.target, sys.now);
    EventKeepsDecision(cfg, sys.db, next, next.transitions[|sys.db.transitions|]);
  }

  lemma {:induction false} ActDecision(cfg: Config, sys: Sys, pr: Proc, a: Action)
    requires SysOk(cfg, sys) && DecisionOk(cfg, sys.db) && ProcOk(cfg, sys, pr) && ActEnabled(sys, pr, a)
    ensures DecisionOk(cfg, ActNext(cfg, sys, pr, a).0.db)
  {
    match a
    case Commit(token, id) => CommitDecision(cfg, sys, pr, token, id);
    case Persist(e) => PersistDecision(cfg, sys, pr.msg, e);
    case MarkFailed =>
      if pr.body.Good? {
        MarkDecision(cfg, sys, pr.body.msg,
                     Failure(sys.now, pr.retryable, pr.receiveCount, CauseDisposition(pr.cause)));
      }
    case Write => ClickDecision(cfg, sys, pr);
    case _ =>
      var next := ActNext(cfg, sys, pr, a).0.db;
      assert next.transitions == sys.db.transitions && next.extractions == sys.db.extractions;
  }

  lemma {:induction false} ActError(cfg: Config, sys: Sys, pr: Proc, a: Action)
    requires ProcOk(cfg, sys, pr) && ErrorOk(cfg, sys.db.claim) && CondemnedOk(cfg, pr) && ActEnabled(sys, pr, a)
    ensures ErrorOk(cfg, ActNext(cfg, sys, pr, a).0.db.claim)
  {
  }

  lemma {:induction false} ActCondemned(cfg: Config, sys: Sys, pr: Proc, a: Action)
    requires ActEnabled(sys, pr, a) && ActNext(cfg, sys, pr, a).1.Some?
    ensures CondemnedOk(cfg, ActNext(cfg, sys, pr, a).1.value)
  {
  }

  lemma {:induction false} StepWarranted(cfg: Config, s: State, step: Step)
    requires Inv(cfg, s) && Warranted(cfg, s) && Enabled(cfg, s, step)
    ensures Warranted(cfg, Next(cfg, s, step))
  {
    if step.Act? {
      var pr := s.procs[step.pid];
      assert ProcOk(cfg, s.sys, pr) && CondemnedOk(cfg, pr);
      ActDecision(cfg, s.sys, pr, step.action);
      ActError(cfg, s.sys, pr, step.action);
      if ActNext(cfg, s.sys, pr, step.action).1.Some? {
        ActCondemned(cfg, s.sys, pr, step.action);
      }
    } else if step.World? {
      assert EnvNext(s.sys, step.env).db.transitions == s.sys.db.transitions;
    }
  }

  lemma {:induction false} RunWarranted(cfg: Config, s: State, steps: seq<Step>, t: State)
    requires Inv(cfg, s) && Warranted(cfg, s) && Run(cfg, s, steps, t)
    ensures Warranted(cfg, t)
    decreases |steps|
  {
    if steps != [] {
      StepInv(cfg, s, steps[0]);
      StepWarranted(cfg, s, steps[0]);
      RunWarranted(cfg, Next(cfg, s, steps[0]), steps[1..], t);
    }
  }

  lemma {:induction false} ReachableWarranted(cfg: Config, t: State)
    requires Reachable(cfg, t)
    ensures Warranted(cfg, t)
  {
    var s, steps :| Init(s) && Run(cfg, s, steps, t);
    InitInv(cfg, s);
    RunWarranted(cfg, s, steps, t);
  }

  // ---- What a status says -------------------------------------------------

  /**
   The first event that decides the claim is the worker's, and goes to READY exactly when the claim's extraction is
   confident enough and misses nothing; there is one as soon as there is an extraction.
   */
  lemma {:induction false} DecisionFollowsExtraction(cfg: Config, t: State) returns (i: nat)
    requires Reachable(cfg, t) && t.sys.db.extractions != []
    ensures i < |t.sys.db.transitions|
    ensures forall j :: 0 <= j < i ==>
              t.sys.db.transitions[j].to != READY && t.sys.db.transitions[j].to != REVIEW_REQUIRED
    ensures t.sys.db.transitions[i].from == PROCESSING && t.sys.db.transitions[i].source == WorkerExtraction
    ensures t.sys.db.transitions[i].to
            == if t.sys.db.extractions[0].confidence >= cfg.readyConfidence && t.sys.db.extractions[0].missingInfo == 0
               then READY else REVIEW_REQUIRED
  {
    ReachableInv(cfg, t);
    ReachableWarranted(cfg, t);
    var tr := t.sys.db.transitions;
    i := 0;
    while !Decided(tr[i].to)
      invariant i < |tr| && forall j :: 0 <= j < i ==> !Decided(tr[j].to)
      decreases |tr| - i
    {
      i := i + 1;
    }
    assert FirstDecision(tr, i);
  }

  /** A claim in ERROR has a failure that was not worth retrying, or whose message had been received often enough. */
  lemma {:induction false} ErrorIsWarranted(cfg: Config, t: State)
    requires Reachable(cfg, t)
    ensures t.sys.db.claim.status == ERROR ==>
              && t.sys.db.claim.failure.Some?
              && (!t.sys.db.claim.failure.value.retryable
                  || t.sys.db.claim.failure.value.receiveCount >= cfg.maxReceiveCount)
    ensures forall pid :: pid in t.procs && t.procs[pid].Condemned? ==>
              !t.procs[pid].retryable || t.procs[pid].receiveCount >= cfg.maxReceiveCount
  {
    ReachableWarranted(cfg, t);
    forall pid | pid in t.procs && t.procs[pid].Condemned?
      ensures !t.procs[pid].retryable || t.procs[pid].receiveCount >= cfg.maxReceiveCount
    {
      assert CondemnedOk(cfg, t.procs[pid]);
    }
  }

  /**
   From the throw to the mark, with anything happening between: a retryable failure is condemned only with a
   dead-letter queue to take it and receives used up, any other whenever its copy was taken or there is no such queue;
   and the claim records what was thrown.
   */
  lemma {:induction false} FailureIsRecordedAsThrown(cfg: Config, pr: Proc, thrown: Sys, retryable: bool,
                                                     disposing: Sys, accepted: bool, published: bool, marking: Sys)
    requires pr.Reading? || pr.Claiming? || pr.Extracting? || pr.Finishing?
    requires published ==> accepted
    ensures var failing := ActNext(cfg, thrown, pr, Throw(retryable)).1.value;
            && ActEnabled(disposing, failing, Dispose(accepted, published))
            && var after := ActNext(cfg, disposing, failing, Dispose(accepted, published)).1;
            && after.Some?
            && (after.value.Condemned? <==>
                  if cfg.dlqConfigured then published && (!retryable || pr.receiveCount >= cfg.maxReceiveCount)
                  else !retryable)
            && (!after.value.Condemned? ==> after.value == Releasing(pr.msg))
            && (after.value.Condemned? && Under(marking.db.claim, pr.msg) ==>
                  && ActEnabled(marking, after.value, MarkFailed)
                  && var claim := ActNext(cfg, marking, after.value, MarkFailed).0.db.claim;
                  && claim.status == ERROR
                  && claim.failure == Some(Failure(marking.now, retryable, pr.receiveCount,
                                                   if cfg.dlqConfigured then MovedToDlq else DroppedNonRetryable)))
  {
  }

  // ---- The worker's lease -------------------------------------------------

  /** The message cannot take the claim's lease: it is behind, or the claim is not under it, or the lease is taken. */
  predicate Taken(claim: Claim, m: Message) {
    || m.attempt < claim.attempt
    || (claim.attempt == m.attempt
        && (claim.status != PROCESSING || claim.token != Some(m.token) || claim.leaseClaimedAt.Some?))
  }

  /** In one of the steps a process gives back a lease taken under `m`. */
  predicate Releases(cfg: Config, s: State, steps: seq<Step>, m: Message)
    decreases |steps|
  {
    && steps != [] && Enabled(cfg, s, steps[0])
    && (|| (steps[0].Act? && s.procs[steps[0].pid] == Releasing(m) && Under(s.sys.db.claim, m)
            && s.sys.db.claim.leaseClaimedAt.Some?)
        || Releases(cfg, Next(cfg, s, steps[0]), steps[1..], m))
  }

  /** A worker that takes the lease leaves it taken, and only a lease that nobody has. */
  lemma {:induction false} TakingTakes(cfg: Config, s: State, pid: nat)
    requires Enabled(cfg, s, Act(pid, TakeClaim))
    ensures var next, c := Next(cfg, s, Act(pid, TakeClaim)), s.sys.db.claim;
            && pid in next.procs
            && (next.procs[pid].Extracting? <==>
                  && c.status == PROCESSING && c.attempt == s.procs[pid].msg.attempt
                  && c.token == Some(s.procs[pid].msg.token) && c.leaseClaimedAt.None?)
            && (next.procs[pid].Extracting? ==>
                  next.sys.db.claim == c.(leaseClaimedAt := Some(s.sys.now), updatedAt := s.sys.now))
            && (!next.procs[pid].Extracting? ==> next.sys.db == s.sys.db)
  {
  }

  lemma {:induction false} ActKeepsTaken(cfg: Config, sys: Sys, pr: Proc, a: Action, m: Message)
    requires ProcOk(cfg, sys, pr) && ActEnabled(sys, pr, a) && Taken(sys.db.claim, m)
    requires !(pr == Releasing(m) && Under(sys.db.claim, m) && sys.db.claim.leaseClaimedAt.Some?)
    ensures Taken(ActNext(cfg, sys, pr, a).0.db.claim, m)
  {
  }

  lemma {:induction false} StaysTaken(cfg: Config, s: State, steps: seq<Step>, t: State, m: Message)
    requires Inv(cfg, s) && Taken(s.sys.db.claim, m) && Run(cfg, s, steps, t)
    ensures Taken(t.sys.db.claim, m) || Releases(cfg, s, steps, m)
    decreases |steps|
  {
    if steps != [] && !Releases(cfg, s, steps, m) {
      var next := Next(cfg, s, steps[0]);
      StepInv(cfg, s, steps[0]);
      if steps[0].Act? {
        ActKeepsTaken(cfg, s.sys, s.procs[steps[0].pid], steps[0].action, m);
      }
      StaysTaken(cfg, next, steps[1..], t, m);
    }
  }

  /**
   The lease is exclusive: of two workers that take the claim's lease under one message, the second does so only
   after a lease taken under it was given back in between.
   */
  lemma {:induction false} LeaseIsExclusive(cfg: Config, s: State, first: nat, steps: seq<Step>, t: State, second: nat)
    requires Reachable(cfg, s) && Enabled(cfg, s, Act(first, TakeClaim))
    requires var next := Next(cfg, s, Act(first, TakeClaim));
             first in next.procs && next.procs[first].Extracting? && Run(cfg, next, steps, t)
    requires Enabled(cfg, t, Act(second, TakeClaim)) && t.procs[second].msg == s.procs[first].msg
    requires var last := Next(cfg, t, Act(second, TakeClaim)); second in last.procs && last.procs[second].Extracting?
    ensures Releases(cfg, Next(cfg, s, Act(first, TakeClaim)), steps, s.procs[first].msg)
  {
    var m, next := s.procs[first].msg, Next(cfg, s, Act(first, TakeClaim));
    ReachableInv(cfg, s);
    StepInv(cfg, s, Act(first, TakeClaim));
    TakingTakes(cfg, s, first);
    TakingTakes(cfg, t, second);
    StaysTaken(cfg, next, steps, t, m);
  }

  /** A failing worker's release lets the next delivery of the message take the lease. */
  lemma {:induction false} ReleasedIsFree(cfg: Config, s: State, pid: nat, m: Message, other: nat, mid: Token,
                                          receiveCount: int)
    requires pid in s.procs && s.procs[pid] == Releasing(m) && Under(s.sys.db.claim, m)
    requires other in s.procs && other != pid && s.procs[other] == Claiming(mid, m, receiveCount)
    ensures Enabled(cfg, s, Act(pid, Release))
    ensures var next := Next(cfg, s, Act(pid, Release));
            && next.sys.db.claim.leaseClaimedAt.None? && Enabled(cfg, next, Act(other, TakeClaim))
            && other in Next(cfg, next, Act(other, TakeClaim)).procs
            && Next(cfg, next, Act(other, TakeClaim)).procs[other] == Extracting(mid, m, receiveCount)
  {
  }
}
