/**
 What holds in every reachable state, and between any two states of a run,
 whatever the number and interleaving of processes, crashes, duplicate sends
 and redeliveries.
 */
module ProtocolTheorems {
  import opened Options
  import opened ClaimModel
  import opened Protocol
  import opened ProtocolInvariant

  // ---- From steps to runs -------------------------------------------------

  lemma {:induction false} RunInv(cfg: Config, s: State, steps: seq<Step>, t: State)
    requires Inv(cfg, s) && Run(cfg, s, steps, t)
    ensures Inv(cfg, t) && Grows(s.sys, t.sys)
    decreases |steps|
  {
    if steps != [] {
      var next := Next(cfg, s, steps[0]);
      StepInv(cfg, s, steps[0]);
      RunInv(cfg, next, steps[1..], t);
      GrowsTrans(s.sys, next.sys, t.sys);
    }
  }

  lemma {:induction false} ReachableInv(cfg: Config, t: State)
    requires Reachable(cfg, t)
    ensures Inv(cfg, t)
  {
    var s, steps :| Init(s) && Run(cfg, s, steps, t);
    InitInv(cfg, s);
    RunInv(cfg, s, steps, t);
  }

  // ---- Exactly-once effect ------------------------------------------------

  /** A claim created NEW has at most one extraction, and exactly one iff it is READY or REVIEW_REQUIRED. */
  lemma {:induction false} ExactlyOneExtraction(cfg: Config, t: State)
    requires Reachable(cfg, t)
    ensures |t.sys.db.extractions| <= 1
    ensures |t.sys.db.extractions| == 1 <==> Decided(t.sys.db.claim.status)
  {
    ReachableInv(cfg, t);
  }

  /** The message a worker process is handling. */
  function Handled(pr: Proc): Option<Message> {
    match pr
    case Received(_, body, _) => if body.Good? then Some(body.msg) else None
    case Reading(_, msg, _) => Some(msg)
    case Claiming(_, msg, _) => Some(msg)
    case Extracting(_, msg, _) => Some(msg)
    case Finishing(_, msg, _) => Some(msg)
    case Failing(_, body, _, _) => if body.Good? then Some(body.msg) else None
    case Condemned(_, body, _, _, _) => if body.Good? then Some(body.msg) else None
    case Deleting(_, body, _, _) => if body.Good? then Some(body.msg) else None
    case Releasing(msg) => Some(msg)
    case _ => None
  }

  /**
   A handled message never runs ahead of the claim; when it is behind, no action
   on its success or failure path changes the database, now or in any later state.
   */
  lemma {:induction false} StaleMessageInert(cfg: Config, s: State, steps: seq<Step>, t: State, m: Message, pid: nat,
                                             action: Action)
    requires Reachable(cfg, s) && m in s.sys.sent
    requires m.attempt < s.sys.db.claim.attempt
    requires Run(cfg, s, steps, t)
    requires pid in t.procs && Handled(t.procs[pid]) == Some(m) && ActEnabled(t.sys, t.procs[pid], action)
    ensures ActNext(cfg, t.sys, t.procs[pid], action).0.db == t.sys.db
  {
    ReachableInv(cfg, s);
    RunInv(cfg, s, steps, t);
    NotUnderInert(cfg, t, pid, action);
  }

  /** A worker's action changes the database only while its message's attempt and token are the claim's own. */
  lemma {:induction false} NotUnderInert(cfg: Config, t: State, pid: nat, action: Action)
    requires pid in t.procs && ActEnabled(t.sys, t.procs[pid], action)
    requires Handled(t.procs[pid]).Some? && !Under(t.sys.db.claim, Handled(t.procs[pid]).value)
    ensures ActNext(cfg, t.sys, t.procs[pid], action).0.db == t.sys.db
  {
  }

  // ---- The decided pair is absorbing --------------------------------------

  /** Once READY or REVIEW_REQUIRED, always; the one extraction stays, and no attempt is opened again. */
  lemma {:induction false} DecidedIsAbsorbing(cfg: Config, s: State, steps: seq<Step>, t: State)
    requires Reachable(cfg, s) && Decided(s.sys.db.claim.status) && Run(cfg, s, steps, t)
    ensures Decided(t.sys.db.claim.status)
    ensures t.sys.db.extractions == s.sys.db.extractions
    ensures t.sys.db.claim.attempt == s.sys.db.claim.attempt
  {
    ReachableInv(cfg, s);
    RunInv(cfg, s, steps, t);
    AttemptFrozen(cfg, s, steps, t);
  }

  lemma {:induction false} AttemptFrozen(cfg: Config, s: State, steps: seq<Step>, t: State)
    requires Inv(cfg, s) && Decided(s.sys.db.claim.status) && Run(cfg, s, steps, t)
    ensures t.sys.db.claim.attempt == s.sys.db.claim.attempt
    decreases |steps|
  {
    if steps != [] {
      StepInv(cfg, s, steps[0]);
      AttemptFrozen(cfg, Next(cfg, s, steps[0]), steps[1..], t);
    }
  }

  /** A pending dashboard click exists only over a decided claim, however stale its read. */
  lemma {:induction false} ClickOnlyOverDecided(cfg: Config, t: State, pid: nat)
    requires Reachable(cfg, t) && pid in t.procs && t.procs[pid].Clicking?
    ensures Decided(t.sys.db.claim.status) && Decided(Next(cfg, t, Act(pid, Write)).sys.db.claim.status)
  {
    ReachableInv(cfg, t);
  }

  // ---- Fencing ------------------------------------------------------------

  /** Every sent message has an attempt that was opened; at the claim's own attempt its token is the claim's. */
  lemma {:induction false} MessagesNeverAhead(cfg: Config, t: State, m: Message)
    requires Reachable(cfg, t) && m in t.sys.sent
    ensures 1 <= m.attempt <= t.sys.db.claim.attempt
    ensures t.sys.db.claim.status == PROCESSING && m.attempt == t.sys.db.claim.attempt
            ==> t.sys.db.claim.token == Some(m.token)
  {
    ReachableInv(cfg, t);
    assert MessageOk(t.sys.history, m);
  }

  /** The worker's branches for a claim still NEW, behind the message, or under another token are never taken. */
  lemma {:induction false} GuardBranchesUnreachable(cfg: Config, t: State, pid: nat)
    requires Reachable(cfg, t) && pid in t.procs && t.procs[pid].Reading?
    ensures IngestGuard(t.sys.db.claim, t.procs[pid].msg) in
            {AlreadyDecided, AttemptSuperseded, NotProcessing, LeaseAlreadyClaimed, MayClaim}
  {
    ReachableInv(cfg, t);
    MessagesNeverAhead(cfg, t, t.procs[pid].msg);
  }

  // ---- Conservation -------------------------------------------------------

  /** The attempt counter counts the outbox rows created and the events that opened an attempt. */
  lemma {:induction false} AttemptConservation(cfg: Config, t: State)
    requires Reachable(cfg, t)
    ensures t.sys.db.claim.attempt == |t.sys.history| == Opened(t.sys.db.transitions)
    ensures forall j, k :: 0 <= j < k < |t.sys.history| ==> t.sys.history[j].id != t.sys.history[k].id
    ensures forall id :: id in t.sys.db.outbox ==> RowKeyed(t.sys.history, id, t.sys.db.outbox[id])
    ensures forall i, j :: i in t.sys.db.outbox && j in t.sys.db.outbox ==>
              t.sys.db.outbox[i].attempt == t.sys.db.outbox[j].attempt ==> i == j
    ensures t.sys.db.claim.status == PROCESSING <==> t.sys.db.claim.token.Some?
  {
    ReachableInv(cfg, t);
    forall id | id in t.sys.db.outbox
      ensures RowKeyed(t.sys.history, id, t.sys.db.outbox[id])
    {
      assert RowOk(t.sys.history, t.sys.sent, id, t.sys.db.outbox[id]);
    }
  }

  /** From `a` to `b` either no outbox row is created, or one is and the history grows by exactly that row. */
  ghost predicate CreatesOrNot(a: Sys, b: Sys) {
    || (b.history == a.history && b.db.outbox.Keys <= a.db.outbox.Keys)
    || (exists made :: Creates(a, b, made))
  }

  predicate Creates(a: Sys, b: Sys, made: Attempt) {
    && b.history == a.history + [made]
    && made.id !in a.db.outbox
    && b.db.outbox == a.db.outbox[made.id := NewRow(|b.history|, made.token)]
    && b.db.claim.token == Some(made.token)
  }

  /** `history` is what was created: a step adds an outbox row exactly when it extends the history by that row. */
  lemma {:induction false} HistoryRecordsRows(cfg: Config, s: State, step: Step)
    requires Reachable(cfg, s) && Enabled(cfg, s, step)
    ensures CreatesOrNot(s.sys, Next(cfg, s, step).sys)
  {
    if step.Act? {
      ActCreates(cfg, s, step.pid, step.action);
    }
  }

  lemma {:induction false} ActCreates(cfg: Config, s: State, pid: nat, a: Action)
    requires Reachable(cfg, s) && Enabled(cfg, s, Act(pid, a))
    ensures CreatesOrNot(s.sys, ActNext(cfg, s.sys, s.procs[pid], a).0)
  {
    if a.Commit? {
      ReachableInv(cfg, s);
      CommitCreates(cfg, s.sys, s.procs[pid], a.token, a.id);
    }
  }

  lemma {:induction false} CommitCreates(cfg: Config, sys: Sys, pr: Proc, token: Token, id: Token)
    requires SysOk(cfg, sys) && ActEnabled(sys, pr, Commit(token, id))
    ensures CreatesOrNot(sys, CommitNext(sys, pr, token, id))
  {
    FreshIdHasNoRow(sys.db.outbox, sys.history, sys.sent, sys.used, id);
    if CommitMatches(sys, pr) {
      assert Creates(sys, CommitNext(sys, pr, token, id), Attempt(id, token));
    }
  }

  lemma {:induction false} FreshIdHasNoRow(outbox: map<Token, OutboxRow>, history: seq<Attempt>, sent: set<Message>,
                                           used: set<Token>, id: Token)
    requires OutboxOk(outbox, history, sent) && HistoryOk(history, used) && id !in used
    ensures id !in outbox
  {
    forall i | i in outbox
      ensures i in used
    {
      assert RowOk(history, sent, i, outbox[i]);
    }
  }

  /** Of all starts and recoveries that read the same attempt, at most one opens a new one. */
  lemma {:induction false} OneOpeningPerSnapshot(cfg: Config, s: State, winner: nat, token: Token, id: Token,
                                                 steps: seq<Step>, t: State, loser: nat)
    requires Reachable(cfg, s)
    requires Enabled(cfg, s, Act(winner, Commit(token, id))) && CommitMatches(s.sys, s.procs[winner])
    requires Run(cfg, Next(cfg, s, Act(winner, Commit(token, id))), steps, t)
    requires loser in t.procs && (t.procs[loser].Starting? || t.procs[loser].Recovering?)
    requires t.procs[loser].expected <= s.procs[winner].expected
    ensures !CommitMatches(t.sys, t.procs[loser])
    ensures s.procs[winner].expected < |t.sys.history| && t.sys.history[s.procs[winner].expected] == Attempt(id, token)
  {
    var next := Next(cfg, s, Act(winner, Commit(token, id)));
    ReachableInv(cfg, s);
    StepInv(cfg, s, Act(winner, Commit(token, id)));
    RunInv(cfg, next, steps, t);
    assert next.sys.history[s.procs[winner].expected] == Attempt(id, token);
  }

  // ---- The outbox drops nothing -------------------------------------------

  /** While an attempt is being processed, its undispatched row is there or its message reached the queue. */
  lemma {:induction false} NoAttemptDropped(cfg: Config, t: State)
    requires Reachable(cfg, t) && t.sys.db.claim.status == PROCESSING
    ensures 1 <= t.sys.db.claim.attempt == |t.sys.history|
    ensures var k := t.sys.db.claim.attempt; var made := t.sys.history[k - 1];
            || (made.id in t.sys.db.outbox && t.sys.db.outbox[made.id] ==
                  OutboxRow(k, made.token, None, t.sys.db.outbox[made.id].leaseToken,
                            t.sys.db.outbox[made.id].leaseClaimedAt))
            || Message(k, made.token) in t.sys.sent
    ensures t.sys.db.claim.token == Some(t.sys.history[t.sys.db.claim.attempt - 1].token)
  {
    ReachableInv(cfg, t);
    var k := t.sys.db.claim.attempt - 1;
    var id := t.sys.history[k].id;
    assert NotDropped(t.sys.db.outbox, t.sys.history, t.sys.sent, k);
    if id in t.sys.db.outbox {
      assert RowOk(t.sys.history, t.sys.sent, id, t.sys.db.outbox[id]);
    }
  }

  /** A row disappears only once dispatched, so cleanup never takes an undispatched one. */
  lemma {:induction false} UndispatchedRowsStay(cfg: Config, s: State, step: Step, id: Token)
    requires Enabled(cfg, s, step)
    requires id in s.sys.db.outbox && s.sys.db.outbox[id].dispatchedAt.None?
    ensures id in Next(cfg, s, step).sys.db.outbox
  {
  }

  predicate MarkedAt(sys: Sys, id: Token, at: Time) {
    id in sys.used && (id in sys.db.outbox ==> sys.db.outbox[id].dispatchedAt == Some(at))
  }

  predicate WritesRows(a: Action) {
    a.Commit? || a.TakeRow? || a.Mark? || a.Clear?
  }

  lemma {:induction false} OthersWriteNoRow(cfg: Config, sys: Sys, pr: Proc, a: Action)
    requires ActEnabled(sys, pr, a) && !WritesRows(a)
    ensures ActNext(cfg, sys, pr, a).0.db.outbox == sys.db.outbox && sys.used <= ActNext(cfg, sys, pr, a).0.used
  {
  }

  lemma {:induction false} RowWriteKeepsMark(cfg: Config, sys: Sys, pr: Proc, a: Action, id: Token, at: Time)
    requires ActEnabled(sys, pr, a) && WritesRows(a) && MarkedAt(sys, id, at)
    ensures MarkedAt(ActNext(cfg, sys, pr, a).0, id, at)
  {
  }

  lemma {:induction false} StepKeepsMark(cfg: Config, s: State, step: Step, id: Token, at: Time)
    requires Enabled(cfg, s, step) && MarkedAt(s.sys, id, at)
    ensures MarkedAt(Next(cfg, s, step).sys, id, at)
  {
    if step.Act? {
      if WritesRows(step.action) {
        RowWriteKeepsMark(cfg, s.sys, s.procs[step.pid], step.action, id, at);
      } else {
        OthersWriteNoRow(cfg, s.sys, s.procs[step.pid], step.action);
      }
    }
  }

  lemma {:induction false} RunKeepsMark(cfg: Config, s: State, steps: seq<Step>, t: State, id: Token, at: Time)
    requires Inv(cfg, s) && Run(cfg, s, steps, t) && MarkedAt(s.sys, id, at)
    ensures MarkedAt(t.sys, id, at)
    decreases |steps|
  {
    if steps != [] {
      StepInv(cfg, s, steps[0]);
      StepKeepsMark(cfg, s, steps[0], id, at);
      RunKeepsMark(cfg, Next(cfg, s, steps[0]), steps[1..], t, id, at);
    }
  }

  /** `dispatchedAt`, once set, never changes while the row exists, and the row is never created anew. */
  lemma {:induction false} DispatchedAtIsFinal(cfg: Config, s: State, steps: seq<Step>, t: State, id: Token)
    requires Reachable(cfg, s) && Run(cfg, s, steps, t)
    requires id in s.sys.db.outbox && s.sys.db.outbox[id].dispatchedAt.Some?
    ensures id in t.sys.db.outbox ==> t.sys.db.outbox[id].dispatchedAt == s.sys.db.outbox[id].dispatchedAt
    ensures RowMessage(s.sys.db.outbox[id]) in s.sys.sent
  {
    ReachableInv(cfg, s);
    assert RowOk(s.sys.history, s.sys.sent, id, s.sys.db.outbox[id]);
    RunKeepsMark(cfg, s, steps, t, id, s.sys.db.outbox[id].dispatchedAt.value);
  }

  predicate Lost(sys: Sys, id: Token, leaseToken: Token) {
    leaseToken in sys.used && !HoldsRow(sys.db, id, leaseToken)
  }

  lemma {:induction false} RowWriteKeepsLost(cfg: Config, sys: Sys, pr: Proc, a: Action, id: Token, leaseToken: Token)
    requires ActEnabled(sys, pr, a) && WritesRows(a) && Lost(sys, id, leaseToken)
    ensures Lost(ActNext(cfg, sys, pr, a).0, id, leaseToken)
  {
  }

  lemma {:induction false} StepKeepsLost(cfg: Config, s: State, step: Step, id: Token, leaseToken: Token)
    requires Enabled(cfg, s, step) && Lost(s.sys, id, leaseToken)
    ensures Lost(Next(cfg, s, step).sys, id, leaseToken)
  {
    if step.Act? {
      if WritesRows(step.action) {
        RowWriteKeepsLost(cfg, s.sys, s.procs[step.pid], step.action, id, leaseToken);
      } else {
        OthersWriteNoRow(cfg, s.sys, s.procs[step.pid], step.action);
      }
    }
  }

  lemma {:induction false} RunKeepsLost(cfg: Config, s: State, steps: seq<Step>, t: State, id: Token, leaseToken: Token)
    requires Inv(cfg, s) && Run(cfg, s, steps, t)
    requires Lost(s.sys, id, leaseToken)
    ensures !HoldsRow(t.sys.db, id, leaseToken)
    decreases |steps|
  {
    if steps != [] {
      StepInv(cfg, s, steps[0]);
      StepKeepsLost(cfg, s, steps[0], id, leaseToken);
      RunKeepsLost(cfg, Next(cfg, s, steps[0]), steps[1..], t, id, leaseToken);
    }
  }

  /** A dispatcher that has lost its row's lease can never mark or clear that row, however late it writes. */
  lemma {:induction false} LateHolderIsFenced(cfg: Config, s: State, steps: seq<Step>, t: State, pid: nat,
                                              action: Action)
    requires Reachable(cfg, s) && Run(cfg, s, steps, t)
    requires pid in s.procs && (s.procs[pid].SentOk? || s.procs[pid].SendFailed?)
    requires !HoldsRow(s.sys.db, s.procs[pid].id, s.procs[pid].leaseToken)
    requires pid in t.procs && t.procs[pid] == s.procs[pid] && ActEnabled(t.sys, t.procs[pid], action)
    ensures ActNext(cfg, t.sys, t.procs[pid], action).0.db == t.sys.db
  {
    ReachableInv(cfg, s);
    RunKeepsLost(cfg, s, steps, t, s.procs[pid].id, s.procs[pid].leaseToken);
  }

  // ---- Failure handling ---------------------------------------------------

  /**
   A source message was deleted by failure handling only after its copy was accepted by the
   dead-letter queue, or when it was non-retryable and no such queue is configured; and if
   it parsed, the claim has from then on never been processed under it.
   */
  lemma {:induction false} DeletedOnlyWhenSafe(cfg: Config, t: State, i: nat)
    requires Reachable(cfg, t) && i < |t.sys.deletions| && t.sys.deletions[i].cause != Processed
    ensures var d := t.sys.deletions[i];
            && (Copy(d.mid, d.body) in t.sys.dlq || (!d.retryable && !cfg.dlqConfigured))
            && (d.body.Good? ==> !Under(t.sys.db.claim, d.body.msg))
  {
    ReachableInv(cfg, t);
  }

  /** The deletion log misses nothing: a step takes a message off the queue exactly when it logs its deletion. */
  lemma {:induction false} DeletionsAreLogged(cfg: Config, s: State, step: Step, mid: Token)
    requires Enabled(cfg, s, step)
    requires mid in s.sys.queue && mid !in Next(cfg, s, step).sys.queue
    ensures |Next(cfg, s, step).sys.deletions| == |s.sys.deletions| + 1
    ensures Next(cfg, s, step).sys.deletions[|s.sys.deletions|].mid == mid
  {
  }

  // ---- The event log ------------------------------------------------------

  /** The newest event agrees with the row, and events chain up to and including the first decided one. */
  lemma {:induction false} LogAgrees(cfg: Config, t: State, i: nat)
    requires Reachable(cfg, t)
    ensures var tr := t.sys.db.transitions; var status := t.sys.db.claim.status;
            && (tr == [] ==> status == NEW)
            && (tr != [] ==> tr[|tr| - 1].to == status && tr[0].from == NEW)
            && (0 < i < |tr| && (forall j :: 0 <= j < i ==> !Decided(tr[j].to)) ==> tr[i].from == tr[i - 1].to)
            && (forall j :: 0 <= j < i < |tr| && Decided(tr[j].to) ==> Decided(tr[i].from) && Decided(tr[i].to))
  {
    ReachableInv(cfg, t);
    var tr := t.sys.db.transitions;
    if 0 < i < |tr| {
      assert Follows(tr[i - 1], tr[i]);
    }
    forall j | 0 <= j < i < |tr| && Decided(tr[j].to)
      ensures Decided(tr[i].from) && Decided(tr[i].to)
    {
      DecidedStays(tr, j, i);
    }
  }

  lemma {:induction false} DecidedStays(tr: seq<Transition>, j: nat, i: nat)
    requires j < i < |tr| && Decided(tr[j].to)
    requires forall k :: 0 < k < |tr| ==> Follows(tr[k - 1], tr[k])
    ensures Decided(tr[i].from) && Decided(tr[i].to)
  {
    if j + 1 < i {
      DecidedStays(tr, j, i - 1);
    }
    assert Follows(tr[i - 1], tr[i]);
  }

  // ---- Recovery spacing ---------------------------------------------------

  /** Each recovery strictly increases `updatedAt`. */
  lemma {:induction false} RecoveryAdvancesUpdatedAt(cfg: Config, s: State, pid: nat, token: Token, id: Token)
    requires Reachable(cfg, s)
    requires Enabled(cfg, s, Act(pid, Commit(token, id))) && s.procs[pid].Recovering?
    requires CommitMatches(s.sys, s.procs[pid])
    ensures s.sys.db.claim.updatedAt < Next(cfg, s, Act(pid, Commit(token, id))).sys.db.claim.updatedAt
  {
    ReachableInv(cfg, s);
  }

  /** Number of recoveries whose captured time lies in [a, b]. */
  function RecoveriesIn(recoveries: seq<Recovery>, a: Time, b: Time): nat {
    if recoveries == [] then 0
    else
      var last := recoveries[|recoveries| - 1];
      RecoveriesIn(recoveries[..|recoveries| - 1], a, b) + (if a <= last.at <= b then 1 else 0)
  }

  lemma {:induction false} SpacedRecoveries(recoveries: seq<Recovery>, a: Time, b: Time, stale: nat) returns (i: nat)
    requires forall i, j :: 0 <= i < j < |recoveries| ==> recoveries[i].at + stale <= recoveries[j].at
    requires RecoveriesIn(recoveries, a, b) > 0
    ensures i < |recoveries| && recoveries[i].at <= b
    ensures a + (RecoveriesIn(recoveries, a, b) - 1) * stale <= recoveries[i].at
  {
    var n := |recoveries| - 1;
    var init := recoveries[..n];
    var c := RecoveriesIn(init, a, b);
    if a <= recoveries[n].at <= b {
      i := n;
      if c > 0 {
        var k := SpacedRecoveries(init, a, b, stale);
        assert a + (c - 1) * stale + stale == a + c * stale;
      }
    } else {
      i := SpacedRecoveries(init, a, b, stale);
    }
  }

  /**
   Any two recoveries have captured times at least the later one's stale period apart; so when every
   period is at least `stale`, at most floor(span / stale) + 1 of them fit in a span.
   */
  lemma {:induction false} RecoveriesAreSpaced(cfg: Config, t: State, stale: nat, a: Time, span: nat)
    requires Reachable(cfg, t) && 0 < stale
    requires forall i :: 0 <= i < |t.sys.recoveries| ==> stale <= t.sys.recoveries[i].stale
    ensures forall i, j :: 0 <= i < j < |t.sys.recoveries| ==>
              t.sys.recoveries[i].at + t.sys.recoveries[j].stale <= t.sys.recoveries[j].at
    ensures RecoveriesIn(t.sys.recoveries, a, a + span) <= span / stale + 1
  {
    ReachableInv(cfg, t);
    RecoveriesFit(t.sys.recoveries, stale, a, span);
  }

  lemma {:induction false} RecoveriesFit(recoveries: seq<Recovery>, stale: nat, a: Time, span: nat)
    requires 0 < stale
    requires forall i, j :: 0 <= i < j < |recoveries| ==> recoveries[i].at + stale <= recoveries[j].at
    ensures RecoveriesIn(recoveries, a, a + span) <= span / stale + 1
  {
    var c := RecoveriesIn(recoveries, a, a + span);
    if c > 1 {
      var i := SpacedRecoveries(recoveries, a, a + span, stale);
      FitsInSpan(c - 1, stale, span);
    }
  }

  lemma {:induction false} FitsInSpan(n: nat, stale: nat, span: nat)
    requires 0 < stale && n * stale <= span
    ensures n <= span / stale
  {
    var q := span / stale;
    assert n * stale < q * stale + stale;
    assert (n - q - 1) * stale < 0;
  }
}
