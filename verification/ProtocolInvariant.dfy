/**
 The inductive invariant of the protocol. `SysOk` speaks of the shared state,
 `ProcOk` of one process; `Grows` is what every step guarantees, and `ProcOk`
 is stable under it, so a step is checked against one process at a time.
 */
module ProtocolInvariant {
  import opened Options
  import opened ClaimModel
  import opened Protocol

  // ---- The shared state ---------------------------------------------------

  predicate ClaimOk(c: Claim, history: seq<Attempt>, now: Time) {
    && (c.status == PROCESSING <==> c.token.Some?)
    && (c.leaseClaimedAt.Some? ==> c.status == PROCESSING)
    && (c.status == NEW <==> c.attempt == 0)
    && (c.status == ERROR ==> c.failure.Some?)
    && |history| == c.attempt
    && (c.status == PROCESSING ==> c.token == Some(history[c.attempt - 1].token))
    && c.updatedAt <= now
  }

  /** Events chain until the first one that enters {READY, REVIEW_REQUIRED}; from then on none leaves it. */
  ghost predicate LogOk(c: Claim, transitions: seq<Transition>, extractions: seq<Extraction>) {
    && (transitions == [] <==> c.status == NEW)
    && (transitions != [] ==> transitions[0].from == NEW && transitions[|transitions| - 1].to == c.status)
    && (forall i :: 0 < i < |transitions| ==> Follows(transitions[i - 1], transitions[i]))
    && Opened(transitions) == c.attempt
    && |extractions| == (if Decided(c.status) then 1 else 0)
  }

  predicate Follows(earlier: Transition, later: Transition) {
    if Decided(earlier.to) then Decided(later.from) && Decided(later.to) else later.from == earlier.to
  }

  predicate RowKeyed(history: seq<Attempt>, id: Token, row: OutboxRow) {
    1 <= row.attempt <= |history| && history[row.attempt - 1] == Attempt(id, row.token)
  }

  ghost predicate HistoryOk(history: seq<Attempt>, used: set<Token>) {
    && (forall k :: 0 <= k < |history| ==> history[k].id in used)
    && (forall j, k :: 0 <= j < k < |history| ==> history[j].id != history[k].id)
  }

  predicate RowOk(history: seq<Attempt>, sent: set<Message>, id: Token, row: OutboxRow) {
    RowKeyed(history, id, row) && (row.dispatchedAt.Some? ==> RowMessage(row) in sent)
  }

  /** Attempt k + 1 still has its undispatched row, or its message reached the queue. */
  predicate NotDropped(outbox: map<Token, OutboxRow>, history: seq<Attempt>, sent: set<Message>, k: nat)
    requires k < |history|
  {
    || (history[k].id in outbox && outbox[history[k].id].dispatchedAt.None?)
    || Message(k + 1, history[k].token) in sent
  }

  ghost predicate OutboxOk(outbox: map<Token, OutboxRow>, history: seq<Attempt>, sent: set<Message>) {
    && (forall id :: id in outbox ==> RowOk(history, sent, id, outbox[id]))
    && (forall k :: 0 <= k < |history| ==> NotDropped(outbox, history, sent, k))
  }

  predicate MessageOk(history: seq<Attempt>, m: Message) {
    1 <= m.attempt <= |history| && history[m.attempt - 1].token == m.token
  }

  ghost predicate MessagesOk(history: seq<Attempt>, sent: set<Message>, queue: map<Token, Body>) {
    && (forall m :: m in sent ==> MessageOk(history, m))
    && (forall mid :: mid in queue && queue[mid].Good? ==> queue[mid].msg in sent)
  }

  predicate CauseOk(cfg: Config, dlq: set<Copy>, mid: Token, body: Body, retryable: bool, cause: Cause) {
    && (cause == Moved ==> Copy(mid, body) in dlq)
    && (cause == Dropped ==> !retryable && !cfg.dlqConfigured)
  }

  predicate Settled(claim: Claim, sent: set<Message>, body: Body) {
    body.Good? ==> body.msg in sent && !Under(claim, body.msg)
  }

  ghost predicate DeletionsOk(cfg: Config, claim: Claim, sent: set<Message>, dlq: set<Copy>, deletions: seq<Deletion>) {
    forall i :: 0 <= i < |deletions| ==>
      var d := deletions[i];
      && CauseOk(cfg, dlq, d.mid, d.body, d.retryable, d.cause)
      && (d.cause != Processed ==> Settled(claim, sent, d.body))
  }

  ghost predicate RecoveriesOk(updatedAt: Time, recoveries: seq<Recovery>) {
    && (forall i :: 0 <= i < |recoveries| ==> recoveries[i].at <= updatedAt)
    && (forall i, j :: 0 <= i < j < |recoveries| ==>
          recoveries[i].at + recoveries[j].stale <= recoveries[j].at)
  }

  ghost predicate SysOk(cfg: Config, sys: Sys) {
    && ClaimOk(sys.db.claim, sys.history, sys.now)
    && LogOk(sys.db.claim, sys.db.transitions, sys.db.extractions)
    && HistoryOk(sys.history, sys.used)
    && OutboxOk(sys.db.outbox, sys.history, sys.sent)
    && MessagesOk(sys.history, sys.sent, sys.queue)
    && DeletionsOk(cfg, sys.db.claim, sys.sent, sys.dlq, sys.deletions)
    && RecoveriesOk(sys.db.claim.updatedAt, sys.recoveries)
  }

  // ---- One process --------------------------------------------------------

  predicate ProcOk(cfg: Config, sys: Sys, pr: Proc) {
    match pr
    case Starting(from, expected) =>
      && (from == NEW || from == ERROR) && expected <= sys.db.claim.attempt
      && (from == ERROR && expected == sys.db.claim.attempt ==> Retryable(cfg, sys.db.claim))
    case Recovering(at, stale, expected, manual) => at <= sys.now && 0 < stale
    case Dispatching(at, id, row) => at <= sys.now && RowKeyed(sys.history, id, row)
    case Leased(at, id, row, leaseToken) =>
      at <= sys.now && leaseToken in sys.used && RowKeyed(sys.history, id, row)
    case SentOk(at, id, row, leaseToken) =>
      at <= sys.now && leaseToken in sys.used && RowKeyed(sys.history, id, row) && RowMessage(row) in sys.sent
    case SendFailed(id, leaseToken) => leaseToken in sys.used
    case Received(mid, body, receiveCount) => body.Good? ==> body.msg in sys.sent
    case Reading(mid, msg, receiveCount) => msg in sys.sent
    case Claiming(mid, msg, receiveCount) => msg in sys.sent
    case Extracting(mid, msg, receiveCount) => msg in sys.sent
    case Finishing(mid, msg, receiveCount) => msg in sys.sent
    case Failing(mid, body, receiveCount, retryable) => body.Good? ==> body.msg in sys.sent
    case Condemned(mid, body, receiveCount, retryable, cause) =>
      && (body.Good? ==> body.msg in sys.sent) && cause != Processed
      && CauseOk(cfg, sys.dlq, mid, body, retryable, cause)
    case Deleting(mid, body, retryable, cause) =>
      && CauseOk(cfg, sys.dlq, mid, body, retryable, cause) && Settled(sys.db.claim, sys.sent, body)
    case Releasing(msg) => msg in sys.sent
    case Clicking(from, target) => Decided(from) && Decided(target) && Decided(sys.db.claim.status)
  }

  /** What an operator's retry of a claim in ERROR asks of it. */
  predicate Retryable(cfg: Config, claim: Claim) {
    cfg.hasInbound && claim.status == ERROR && claim.failure.Some? && claim.failure.value.retryable
  }

  ghost predicate Inv(cfg: Config, s: State) {
    && SysOk(cfg, s.sys)
    && forall pid :: pid in s.procs ==> ProcOk(cfg, s.sys, s.procs[pid])
  }

  /** What every step guarantees to the processes that did not take it. */
  ghost predicate Grows(a: Sys, b: Sys) {
    && a.now <= b.now
    && a.history <= b.history
    && a.sent <= b.sent
    && a.dlq <= b.dlq
    && a.used <= b.used
    && a.db.claim.attempt <= b.db.claim.attempt
    && a.db.transitions <= b.db.transitions
    && a.db.extractions <= b.db.extractions
    && (Decided(a.db.claim.status) ==> Decided(b.db.claim.status))
    && (a.db.claim.status == ERROR && a.db.claim.attempt == b.db.claim.attempt ==>
          b.db.claim.status == ERROR && b.db.claim.failure == a.db.claim.failure)
    && (forall m :: m in a.sent && !Under(a.db.claim, m) ==> !Under(b.db.claim, m))
  }

  lemma {:induction false} ProcStable(cfg: Config, a: Sys, b: Sys, pr: Proc)
    requires ProcOk(cfg, a, pr) && Grows(a, b)
    ensures ProcOk(cfg, b, pr)
  {
  }

  lemma {:induction false} GrowsRefl(sys: Sys)
    ensures Grows(sys, sys)
  {
  }

  lemma {:induction false} GrowsTrans(a: Sys, b: Sys, c: Sys)
    requires Grows(a, b) && Grows(b, c)
    ensures Grows(a, c)
  {
  }

  lemma {:induction false} UsingKeeps(cfg: Config, sys: Sys, tokens: set<Token>)
    requires SysOk(cfg, sys)
    ensures SysOk(cfg, sys.(used := sys.used + tokens)) && Grows(sys, sys.(used := sys.used + tokens))
  {
  }

  // ---- Three shapes of write, and why each keeps the shared state good -----

  /** A write on the claim row that leaves the attempt as it is: a touch, or a logged change of status. */
  predicate Touch(a: Db, b: Db, now: Time) {
    && b.outbox == a.outbox
    && b.claim.attempt == a.claim.attempt
    && (b.claim.updatedAt == a.claim.updatedAt || b.claim.updatedAt == now)
    && (Unlogged(a, b) || Logged(a, b))
  }

  predicate Unlogged(a: Db, b: Db) {
    && b.transitions == a.transitions && b.extractions == a.extractions
    && b.claim.status == a.claim.status && b.claim.token == a.claim.token && b.claim.failure == a.claim.failure
    && (b.claim.leaseClaimedAt.Some? ==> b.claim.status == PROCESSING)
  }

  predicate Logged(a: Db, b: Db) {
    && |b.transitions| == |a.transitions| + 1 && b.transitions[..|a.transitions|] == a.transitions
    && b.transitions[|a.transitions|].to == b.claim.status
    && a.claim.status != NEW && a.claim.status != ERROR && (b.claim.status == ERROR ==> b.claim.failure.Some?)
    && (b.claim.status == ERROR || Decided(b.claim.status)) && b.claim.token.None? && b.claim.leaseClaimedAt.None?
    && (if Decided(a.claim.status)
        then Decided(b.claim.status) && Decided(b.transitions[|a.transitions|].from)
        else b.transitions[|a.transitions|].from == a.claim.status)
    && a.extractions <= b.extractions
    && |b.extractions| == |a.extractions|
                          + (if !Decided(a.claim.status) && Decided(b.claim.status) then 1 else 0)
  }

  lemma {:induction false} TouchKeeps(cfg: Config, sys: Sys, db: Db)
    requires SysOk(cfg, sys) && Touch(sys.db, db, sys.now)
    ensures SysOk(cfg, sys.(db := db)) && Grows(sys, sys.(db := db))
  {
    if Logged(sys.db, db) {
      LoggedKeepsLog(sys.db, db);
    }
  }

  lemma {:induction false} LoggedKeepsLog(a: Db, b: Db)
    requires LogOk(a.claim, a.transitions, a.extractions) && Logged(a, b) && b.claim.attempt == a.claim.attempt
    ensures LogOk(b.claim, b.transitions, b.extractions) && a.transitions <= b.transitions
  {
    var tr := a.transitions;
    assert b.transitions == tr + [b.transitions[|tr|]];
    OpenedAppend(tr, b.transitions[|tr|]);
  }

  lemma {:induction false} WritesTouch(cfg: Config, sys: Sys, m: Message, e: Extraction, f: Failure)
    requires SysOk(cfg, sys)
    ensures Touch(sys.db, ClaimLease(sys.db, m, sys.now), sys.now)
    ensures Touch(sys.db, ReleaseLease(sys.db, m, sys.now), sys.now)
    ensures Touch(sys.db, PersistOutcome(sys.db, m, e, cfg.readyConfidence, sys.now), sys.now)
    ensures Touch(sys.db, MarkError(sys.db, m, f, sys.now), sys.now)
    ensures Touch(sys.db, ManualEdit(sys.db, sys.now), sys.now)
  {
  }

  /** A write on one outbox row that keeps its key and marks it dispatched only if its message was sent. */
  lemma {:induction false} RowWriteKeeps(cfg: Config, sys: Sys, id: Token, row: OutboxRow)
    requires SysOk(cfg, sys) && id in sys.db.outbox
    requires row.attempt == sys.db.outbox[id].attempt && row.token == sys.db.outbox[id].token
    requires row.dispatchedAt.Some? ==> RowMessage(row) in sys.sent
    ensures var after := sys.(db := sys.db.(outbox := sys.db.outbox[id := row]));
            SysOk(cfg, after) && Grows(sys, after)
  {
    var outbox := sys.db.outbox[id := row];
    assert RowOk(sys.history, sys.sent, id, sys.db.outbox[id]);
    forall k | 0 <= k < |sys.history|
      ensures NotDropped(outbox, sys.history, sys.sent, k)
    {
      assert NotDropped(sys.db.outbox, sys.history, sys.sent, k);
    }
  }

  /** A row in the outbox and a remembered row under the same id carry the same message. */
  lemma {:induction false} SameRow(history: seq<Attempt>, used: set<Token>, id: Token, a: OutboxRow, b: OutboxRow)
    requires HistoryOk(history, used) && RowKeyed(history, id, a) && RowKeyed(history, id, b)
    ensures RowMessage(a) == RowMessage(b)
  {
  }

  lemma {:induction false} OpenKeeps(cfg: Config, sys: Sys, from: Status, source: Source, token: Token, id: Token,
                                     at: Time)
    requires SysOk(cfg, sys)
    requires sys.db.claim.status == from && !Decided(from) && sys.db.claim.updatedAt <= at <= sys.now
    requires id !in sys.used
    ensures var after := sys.(db := OpenAttempt(sys.db, from, source, token, id, at),
                              used := sys.used + {token, id},
                              history := sys.history + [Attempt(id, token)]);
            SysOk(cfg, after) && Grows(sys, after)
  {
    OpenKeepsLog(sys.db, from, source, token, id, at);
    OpenKeepsOutbox(sys.db.outbox, sys.history, sys.sent, token, id);
  }

  lemma {:induction false} OpenKeepsLog(db: Db, from: Status, source: Source, token: Token, id: Token, at: Time)
    requires LogOk(db.claim, db.transitions, db.extractions) && db.claim.status == from && !Decided(from)
    ensures var after := OpenAttempt(db, from, source, token, id, at);
            LogOk(after.claim, after.transitions, after.extractions)
  {
    OpenedAppend(db.transitions, Transition(from, PROCESSING, source));
  }

  lemma {:induction false} OpenKeepsOutbox(outbox: map<Token, OutboxRow>, history: seq<Attempt>, sent: set<Message>,
                                           token: Token, id: Token)
    requires OutboxOk(outbox, history, sent) && forall k :: 0 <= k < |history| ==> history[k].id != id
    ensures OutboxOk(outbox[id := NewRow(|history| + 1, token)], history + [Attempt(id, token)], sent)
  {
    var outbox', history' := outbox[id := NewRow(|history| + 1, token)], history + [Attempt(id, token)];
    forall i | i in outbox'
      ensures RowOk(history', sent, i, outbox'[i])
    {
      if i != id {
        assert RowOk(history, sent, i, outbox[i]);
      }
    }
    forall k | 0 <= k < |history'|
      ensures NotDropped(outbox', history', sent, k)
    {
      if k < |history| {
        assert NotDropped(outbox, history, sent, k);
      }
    }
  }

  // ---- Each kind of step keeps the invariant ------------------------------

  lemma {:induction false} InitInv(cfg: Config, s: State)
    requires Init(s)
    ensures Inv(cfg, s)
  {
  }

  lemma {:induction false} EnvKeeps(cfg: Config, sys: Sys, e: Env)
    requires SysOk(cfg, sys) && EnvEnabled(sys, e)
    ensures SysOk(cfg, EnvNext(sys, e)) && Grows(sys, EnvNext(sys, e))
  {
    match e
    case Edit => TouchKeeps(cfg, sys, ManualEdit(sys.db, sys.now));
    case Cleanup(ids, olderThan) => CleanupKeeps(cfg, sys, ids, olderThan);
    case _ =>
  }

  /** Cleanup deletes dispatched rows only, and a dispatched row's message was sent. */
  lemma {:induction false} CleanupKeeps(cfg: Config, sys: Sys, ids: set<Token>, olderThan: Time)
    requires SysOk(cfg, sys)
    ensures var after := EnvNext(sys, Cleanup(ids, olderThan)); SysOk(cfg, after) && Grows(sys, after)
  {
    var outbox := CleanupOutbox(sys.db, ids, olderThan).outbox;
    forall k | 0 <= k < |sys.history|
      ensures NotDropped(outbox, sys.history, sys.sent, k)
    {
      assert NotDropped(sys.db.outbox, sys.history, sys.sent, k);
    }
  }

  lemma {:induction false} BeginKeeps(cfg: Config, sys: Sys, b: Begin)
    requires SysOk(cfg, sys) && BeginEnabled(cfg, sys, b)
    ensures ProcOk(cfg, sys, BeginProc(cfg, sys, b))
  {
  }

  /** What one action of one process owes: the shared state stays good, grows, and the process stays good. */
  ghost predicate ActKeeps(cfg: Config, sys: Sys, pr: Proc, a: Action)
    requires ActEnabled(sys, pr, a)
  {
    var (after, next) := ActNext(cfg, sys, pr, a);
    SysOk(cfg, after) && Grows(sys, after) && (next.Some? ==> ProcOk(cfg, after, next.value))
  }

  lemma {:induction false} CommitKeeps(cfg: Config, sys: Sys, pr: Proc, token: Token, id: Token)
    requires SysOk(cfg, sys) && ProcOk(cfg, sys, pr) && ActEnabled(sys, pr, Commit(token, id))
    ensures SysOk(cfg, CommitNext(sys, pr, token, id)) && Grows(sys, CommitNext(sys, pr, token, id))
  {
    if CommitMatches(sys, pr) {
      if pr.Starting? {
        OpenKeeps(cfg, sys, pr.from, StartSource(pr.from), token, id, sys.now);
      } else {
        OpenKeeps(cfg, sys, PROCESSING, RecoverySource(pr.manual), token, id, pr.at);
      }
    }
  }

  lemma {:induction false} TakeRowKeeps(cfg: Config, sys: Sys, pr: Proc, leaseToken: Token)
    requires SysOk(cfg, sys) && ProcOk(cfg, sys, pr) && ActEnabled(sys, pr, TakeRow(leaseToken))
    ensures ActKeeps(cfg, sys, pr, TakeRow(leaseToken))
  {
    var leased := sys.(db := LeaseRow(sys.db, pr.id, leaseToken, pr.at, pr.at - cfg.leaseTimeout));
    if CanLeaseRow(sys.db, pr.id, pr.at - cfg.leaseTimeout) {
      RowWriteKeeps(cfg, sys, pr.id, sys.db.outbox[pr.id].(leaseToken := Some(leaseToken),
                                                           leaseClaimedAt := Some(pr.at)));
    } else {
      GrowsRefl(sys);
    }
    UsingKeeps(cfg, leased, {leaseToken});
    GrowsTrans(sys, leased, leased.(used := leased.used + {leaseToken}));
  }

  lemma {:induction false} SendKeeps(cfg: Config, sys: Sys, pr: Proc, ok: bool, accepted: bool, mid: Token)
    requires SysOk(cfg, sys) && ProcOk(cfg, sys, pr) && ActEnabled(sys, pr, Send(ok, accepted, mid))
    ensures ActKeeps(cfg, sys, pr, Send(ok, accepted, mid))
  {
    var sent := if accepted then sys.sent + {RowMessage(pr.row)} else sys.sent;
    forall k | 0 <= k < |sys.history|
      ensures NotDropped(sys.db.outbox, sys.history, sent, k)
    {
      assert NotDropped(sys.db.outbox, sys.history, sys.sent, k);
    }
  }

  lemma {:induction false} MarkKeeps(cfg: Config, sys: Sys, pr: Proc)
    requires SysOk(cfg, sys) && ProcOk(cfg, sys, pr) && pr.SentOk?
    ensures ActKeeps(cfg, sys, pr, Mark)
  {
    if HoldsRow(sys.db, pr.id, pr.leaseToken) {
      var row := sys.db.outbox[pr.id];
      assert RowOk(sys.history, sys.sent, pr.id, row);
      SameRow(sys.history, sys.used, pr.id, row, pr.row);
      RowWriteKeeps(cfg, sys, pr.id, row.(dispatchedAt := Some(pr.at), leaseToken := None, leaseClaimedAt := None));
    }
  }

  lemma {:induction false} ClearKeeps(cfg: Config, sys: Sys, pr: Proc)
    requires SysOk(cfg, sys) && ProcOk(cfg, sys, pr) && pr.SendFailed?
    ensures ActKeeps(cfg, sys, pr, Clear)
  {
    if HoldsRow(sys.db, pr.id, pr.leaseToken) {
      RowWriteKeeps(cfg, sys, pr.id, sys.db.outbox[pr.id].(leaseToken := None, leaseClaimedAt := None));
    }
  }

  lemma {:induction false} TakeClaimKeeps(cfg: Config, sys: Sys, pr: Proc)
    requires SysOk(cfg, sys) && ProcOk(cfg, sys, pr) && pr.Claiming?
    ensures ActKeeps(cfg, sys, pr, TakeClaim)
  {
    WritesTouch(cfg, sys, pr.msg, Extraction(0.0, 0), Failure(sys.now, true, 1, MovedToDlq));
    TouchKeeps(cfg, sys, ClaimLease(sys.db, pr.msg, sys.now));
  }

  lemma {:induction false} PersistKeeps(cfg: Config, sys: Sys, pr: Proc, e: Extraction)
    requires SysOk(cfg, sys) && ProcOk(cfg, sys, pr) && pr.Extracting?
    ensures ActKeeps(cfg, sys, pr, Persist(e))
  {
    WritesTouch(cfg, sys, pr.msg, e, Failure(sys.now, true, 1, MovedToDlq));
    TouchKeeps(cfg, sys, PersistOutcome(sys.db, pr.msg, e, cfg.readyConfidence, sys.now));
  }

  lemma {:induction false} ReleaseKeeps(cfg: Config, sys: Sys, pr: Proc)
    requires SysOk(cfg, sys) && ProcOk(cfg, sys, pr) && pr.Releasing?
    ensures ActKeeps(cfg, sys, pr, Release)
  {
    WritesTouch(cfg, sys, pr.msg, Extraction(0.0, 0), Failure(sys.now, true, 1, MovedToDlq));
    TouchKeeps(cfg, sys, ReleaseLease(sys.db, pr.msg, sys.now));
  }

  /** The failure write touches the claim, after which it is not being processed under the message. */
  lemma {:induction false} MarkErrorKeeps(cfg: Config, sys: Sys, m: Message, f: Failure)
    requires SysOk(cfg, sys)
    ensures var after := sys.(db := MarkError(sys.db, m, f, sys.now));
            SysOk(cfg, after) && Grows(sys, after) && !Under(after.db.claim, m)
  {
    WritesTouch(cfg, sys, m, Extraction(0.0, 0), f);
    TouchKeeps(cfg, sys, MarkError(sys.db, m, f, sys.now));
  }

  lemma {:induction false} MarkFailedKeeps(cfg: Config, sys: Sys, pr: Proc)
    requires SysOk(cfg, sys) && ProcOk(cfg, sys, pr) && pr.Condemned?
    ensures ActKeeps(cfg, sys, pr, MarkFailed)
  {
    var (after, next) := MarkFailedNext(sys, pr);
    if pr.body.Good? {
      var f := Failure(sys.now, pr.retryable, pr.receiveCount, CauseDisposition(pr.cause));
      MarkErrorKeeps(cfg, sys, pr.body.msg, f);
    }
    DeletingOk(cfg, after, pr.mid, pr.body, pr.retryable, pr.cause);
  }

  lemma {:induction false} DeletingOk(cfg: Config, sys: Sys, mid: Token, body: Body, retryable: bool, cause: Cause)
    requires CauseOk(cfg, sys.dlq, mid, body, retryable, cause) && Settled(sys.db.claim, sys.sent, body)
    ensures ProcOk(cfg, sys, Deleting(mid, body, retryable, cause))
  {
  }

  lemma {:induction false} ClickKeeps(cfg: Config, sys: Sys, pr: Proc)
    requires SysOk(cfg, sys) && ProcOk(cfg, sys, pr) && pr.Clicking?
    ensures ActKeeps(cfg, sys, pr, Write)
  {
    TouchKeeps(cfg, sys, DashboardWrite(sys.db, pr.from, pr.target, sys.now));
  }

  /** Parsing, reading and throwing change only what the process remembers. */
  lemma {:induction false} ReadsKeep(cfg: Config, sys: Sys, pr: Proc, a: Action)
    requires SysOk(cfg, sys) && ProcOk(cfg, sys, pr) && ActEnabled(sys, pr, a)
    requires a.Parse? || a.Read? || a.Throw?
    ensures ActKeeps(cfg, sys, pr, a)
  {
    GrowsRefl(sys);
  }

  lemma {:induction false} DisposeKeeps(cfg: Config, sys: Sys, pr: Proc, accepted: bool, published: bool)
    requires SysOk(cfg, sys) && ProcOk(cfg, sys, pr) && ActEnabled(sys, pr, Dispose(accepted, published))
    ensures ActKeeps(cfg, sys, pr, Dispose(accepted, published))
  {
  }

  lemma {:induction false} DeleteKeeps(cfg: Config, sys: Sys, pr: Proc, a: Action)
    requires SysOk(cfg, sys) && ProcOk(cfg, sys, pr) && ActEnabled(sys, pr, a) && a.Delete?
    ensures ActKeeps(cfg, sys, pr, a)
  {
  }

  lemma {:induction false} ClaimWriteKeeps(cfg: Config, sys: Sys, pr: Proc, a: Action)
    requires SysOk(cfg, sys) && ProcOk(cfg, sys, pr) && ActEnabled(sys, pr, a)
    requires a.TakeClaim? || a.Persist? || a.Release? || a.MarkFailed?
    ensures ActKeeps(cfg, sys, pr, a)
  {
    match a
    case TakeClaim => TakeClaimKeeps(cfg, sys, pr);
    case Persist(e) => PersistKeeps(cfg, sys, pr, e);
    case Release => ReleaseKeeps(cfg, sys, pr);
    case MarkFailed => MarkFailedKeeps(cfg, sys, pr);
  }

  lemma {:induction false} QueueActKeeps(cfg: Config, sys: Sys, pr: Proc, a: Action)
    requires SysOk(cfg, sys) && ProcOk(cfg, sys, pr) && ActEnabled(sys, pr, a)
    requires a.Dispose? || a.Delete?
    ensures ActKeeps(cfg, sys, pr, a)
  {
    if a.Dispose? {
      DisposeKeeps(cfg, sys, pr, a.accepted, a.published);
    } else {
      DeleteKeeps(cfg, sys, pr, a);
    }
  }

  /** The writes of starters, recoverers, dispatchers and dashboard clicks. */
  lemma {:induction false} OpenerOrDispatcherKeeps(cfg: Config, sys: Sys, pr: Proc, a: Action)
    requires SysOk(cfg, sys) && ProcOk(cfg, sys, pr) && ActEnabled(sys, pr, a)
    requires a.Commit? || a.TakeRow? || a.Send? || a.Mark? || a.Clear? || a.Write?
    ensures ActKeeps(cfg, sys, pr, a)
  {
    match a
    case Commit(token, id) => CommitKeeps(cfg, sys, pr, token, id);
    case TakeRow(leaseToken) => TakeRowKeeps(cfg, sys, pr, leaseToken);
    case Send(ok, accepted, mid) => SendKeeps(cfg, sys, pr, ok, accepted, mid);
    case Mark => MarkKeeps(cfg, sys, pr);
    case Clear => ClearKeeps(cfg, sys, pr);
    case Write => ClickKeeps(cfg, sys, pr);
  }

  /** A process whose action keeps the shared part leaves every other process in order. */
  lemma {:induction false} ActStep(cfg: Config, s: State, pid: nat, a: Action)
    requires Inv(cfg, s) && Enabled(cfg, s, Act(pid, a)) && ActKeeps(cfg, s.sys, s.procs[pid], a)
    ensures Inv(cfg, Next(cfg, s, Act(pid, a))) && Grows(s.sys, Next(cfg, s, Act(pid, a)).sys)
  {
    OthersKept(cfg, s, Next(cfg, s, Act(pid, a)));
  }

  /** One step of the system keeps the invariant. */
  lemma {:induction false} StepInv(cfg: Config, s: State, step: Step)
    requires Inv(cfg, s) && Enabled(cfg, s, step)
    ensures Inv(cfg, Next(cfg, s, step)) && Grows(s.sys, Next(cfg, s, step).sys)
  {
    match step {
      case World(env) =>
        EnvKeeps(cfg, s.sys, env);
        OthersKept(cfg, s, Next(cfg, s, step));
      case Spawn(pid, begin) =>
        BeginKeeps(cfg, s.sys, begin);
        OthersKept(cfg, s, Next(cfg, s, step));
      case Crash(pid) => OthersKept(cfg, s, Next(cfg, s, step));
      case Act(pid, a) =>
        var sys, pr := s.sys, s.procs[pid];
        if a.TakeClaim? || a.Persist? || a.Release? || a.MarkFailed? {
          ClaimWriteKeeps(cfg, sys, pr, a);
        } else if a.Parse? || a.Read? || a.Throw? {
          ReadsKeep(cfg, sys, pr, a);
        } else if a.Dispose? || a.Delete? {
          QueueActKeeps(cfg, sys, pr, a);
        } else {
          OpenerOrDispatcherKeeps(cfg, sys, pr, a);
        }
        ActStep(cfg, s, pid, a);
    }
  }

  lemma {:induction false} OthersKept(cfg: Config, s: State, t: State)
    requires Inv(cfg, s) && SysOk(cfg, t.sys) && Grows(s.sys, t.sys)
    requires forall pid :: pid in t.procs ==>
               ProcOk(cfg, t.sys, t.procs[pid]) || (pid in s.procs && t.procs[pid] == s.procs[pid])
    ensures Inv(cfg, t)
  {
    forall pid | pid in t.procs
      ensures ProcOk(cfg, t.sys, t.procs[pid])
    {
      if pid in s.procs && t.procs[pid] == s.procs[pid] {
        ProcStable(cfg, s.sys, t.sys, s.procs[pid]);
      }
    }
  }
}
