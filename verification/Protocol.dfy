/**
 The claim-processing protocol: one claim's tables, its outbox, an
 at-least-once queue, a dead-letter queue, and any number of concurrent
 starters, recoverers, dispatchers, workers and dashboard clicks.

 Every database transaction is one atomic step. A process keeps only what it
 has read, so its next write may act on a stale snapshot; it may also crash
 between any two steps.
 */
module Protocol {
  import opened Options
  import opened ClaimModel

  /** `leaseTimeout` is the outbox dispatch lease; `hasInbound` says whether the claim has an inbound message. */
  datatype Config = Config(
    dlqConfigured: bool,
    maxReceiveCount: int,
    readyConfidence: real,
    leaseTimeout: nat,
    hasInbound: bool)

  /** A queue message's body: one that parses, or one that does not. */
  datatype Body = Good(msg: Message) | Malformed

  datatype Copy = Copy(mid: Token, body: Body)

  datatype Cause = Processed | Moved | Dropped

  datatype Deletion = Deletion(mid: Token, body: Body, cause: Cause, retryable: bool)

  datatype Recovery = Recovery(at: Time, stale: nat)

  datatype Attempt = Attempt(id: Token, token: Token)

  /**
   Everything shared. `history`, `sent`, `deletions`, `recoveries` and
   `okSends` are history variables: no step reads them, except that a message
   that was sent may be delivered again.
   */
  datatype Sys = Sys(
    now: Time,
    db: Db,
    used: set<Token>,
    queue: map<Token, Body>,
    dlq: set<Copy>,
    history: seq<Attempt>,
    sent: set<Message>,
    deletions: seq<Deletion>,
    recoveries: seq<Recovery>,
    okSends: multiset<Token>)

  /** One running process and what it remembers. */
  datatype Proc =
    | Starting(from: Status, expected: nat)
    | Recovering(at: Time, stale: nat, expected: nat, manual: bool)
    | Dispatching(at: Time, id: Token, row: OutboxRow)
    | Leased(at: Time, id: Token, row: OutboxRow, leaseToken: Token)
    | SentOk(at: Time, id: Token, row: OutboxRow, leaseToken: Token)
    | SendFailed(id: Token, leaseToken: Token)
    | Received(mid: Token, body: Body, receiveCount: int)
    | Reading(mid: Token, msg: Message, receiveCount: int)
    | Claiming(mid: Token, msg: Message, receiveCount: int)
    | Extracting(mid: Token, msg: Message, receiveCount: int)
    | Finishing(mid: Token, msg: Message, receiveCount: int)
    | Failing(mid: Token, body: Body, receiveCount: int, retryable: bool)
    | Condemned(mid: Token, body: Body, receiveCount: int, retryable: bool, cause: Cause)
    | Deleting(mid: Token, body: Body, retryable: bool, cause: Cause)
    | Releasing(msg: Message)
    | Clicking(from: Status, target: Status)

  datatype State = State(sys: Sys, procs: map<nat, Proc>)

  datatype Env =
    | Tick(elapsed: nat)
    | Edit
    | Cleanup(ids: set<Token>, olderThan: Time)
    | Redeliver(msg: Message, mid: Token)
    | Inject(mid: Token)

  datatype Begin =
    | BeginStart(from: Status)
    | BeginRecover(at: Time, stale: nat, manual: bool)
    | BeginDispatch(at: Time, id: Token)
    | BeginReceive(mid: Token, receiveCount: int)
    | BeginClick(target: Status)

  datatype Action =
    | Commit(token: Token, id: Token)
    | TakeRow(leaseToken: Token)
    | Send(ok: bool, accepted: bool, mid: Token)
    | Mark
    | Clear
    | Parse
    | Read
    | TakeClaim
    | Throw(retryable: bool)
    | Persist(extraction: Extraction)
    | Delete
    | Dispose(accepted: bool, published: bool)
    | MarkFailed
    | Release
    | Write

  datatype Step =
    | World(env: Env)
    | Spawn(pid: nat, begin: Begin)
    | Act(pid: nat, action: Action)
    | Crash(pid: nat)

  // ---- Initial states -----------------------------------------------------

  /** A claim just created NEW, with nothing queued. */
  predicate Init(s: State) {
    && s.procs == map[]
    && s.sys.db == Db(Claim(NEW, 0, None, None, s.sys.db.claim.updatedAt, None), map[], [], [])
    && s.sys.db.claim.updatedAt <= s.sys.now
    && s.sys.queue == map[] && s.sys.dlq == {} && s.sys.used == {}
    && s.sys.history == [] && s.sys.sent == {} && s.sys.deletions == [] && s.sys.recoveries == []
    && s.sys.okSends == multiset{}
  }

  // ---- Steps of the world -------------------------------------------------

  predicate EnvEnabled(sys: Sys, e: Env) {
    match e
    case Redeliver(msg, mid) => msg in sys.sent && mid !in sys.used
    case Inject(mid) => mid !in sys.used
    case _ => true
  }

  function EnvNext(sys: Sys, e: Env): Sys
    requires EnvEnabled(sys, e)
  {
    match e
    case Tick(elapsed) => sys.(now := sys.now + elapsed)
    case Edit => sys.(db := ManualEdit(sys.db, sys.now))
    case Cleanup(ids, olderThan) => sys.(db := CleanupOutbox(sys.db, ids, olderThan))
    case Redeliver(msg, mid) => sys.(queue := sys.queue[mid := Good(msg)], used := sys.used + {mid})
    case Inject(mid) => sys.(queue := sys.queue[mid := Malformed], used := sys.used + {mid})
  }

  // ---- First reads --------------------------------------------------------

  /** A claim read in this state may be started from `from`: by the webhook, or by an operator's retry. */
  predicate MayStart(cfg: Config, claim: Claim, from: Status) {
    && claim.status == from
    && (from == NEW || (from == ERROR && claim.failure.Some? && claim.failure.value.retryable && cfg.hasInbound))
  }

  predicate MayRecover(cfg: Config, claim: Claim, staleBefore: Time) {
    cfg.hasInbound && claim.status == PROCESSING && claim.updatedAt <= staleBefore
  }

  predicate MayClick(claim: Claim, target: Status) {
    Decided(claim.status) && Decided(target) && claim.status != target
  }

  predicate BeginEnabled(cfg: Config, sys: Sys, b: Begin) {
    match b
    case BeginStart(from) => MayStart(cfg, sys.db.claim, from)
    case BeginRecover(at, stale, manual) => at <= sys.now && 0 < stale && MayRecover(cfg, sys.db.claim, at - stale)
    case BeginDispatch(at, id) =>
      at <= sys.now && id in sys.db.outbox && sys.db.outbox[id].dispatchedAt.None?
    case BeginReceive(mid, receiveCount) => mid in sys.queue && 1 <= receiveCount
    case BeginClick(target) => MayClick(sys.db.claim, target)
  }

  function BeginProc(cfg: Config, sys: Sys, b: Begin): Proc
    requires BeginEnabled(cfg, sys, b)
  {
    match b
    case BeginStart(from) => Starting(from, sys.db.claim.attempt)
    case BeginRecover(at, stale, manual) => Recovering(at, stale, sys.db.claim.attempt, manual)
    case BeginDispatch(at, id) => Dispatching(at, id, sys.db.outbox[id])
    case BeginReceive(mid, receiveCount) => Received(mid, sys.queue[mid], receiveCount)
    case BeginClick(target) => Clicking(sys.db.claim.status, target)
  }

  // ---- Steps of starters and recoverers -----------------------------------

  function StartSource(from: Status): Source {
    if from == NEW then WebhookEnqueue else ManualRetry
  }

  function RecoverySource(manual: bool): Source {
    if manual then ManualRecovery else WatchdogRecovery
  }

  predicate CommitMatches(sys: Sys, pr: Proc)
    requires pr.Starting? || pr.Recovering?
  {
    if pr.Starting? then StartMatches(sys.db.claim, pr.from, pr.expected)
    else RecoveryMatches(sys.db.claim, pr.expected, pr.at - pr.stale)
  }

  function CommitNext(sys: Sys, pr: Proc, token: Token, id: Token): Sys
    requires pr.Starting? || pr.Recovering?
  {
    var db := if pr.Starting?
              then StartAttempt(sys.db, pr.from, pr.expected, StartSource(pr.from), token, id, sys.now)
              else RecoverAttempt(sys.db, pr.expected, pr.at - pr.stale, pr.at, RecoverySource(pr.manual), token, id);
    var wins := CommitMatches(sys, pr);
    sys.(db := db,
         used := sys.used + {token, id},
         history := if wins then sys.history + [Attempt(id, token)] else sys.history,
         recoveries := if wins && pr.Recovering? then sys.recoveries + [Recovery(pr.at, pr.stale)] else sys.recoveries)
  }

  // ---- Steps of dispatchers -----------------------------------------------

  function RowMessage(row: OutboxRow): Message {
    Message(row.attempt, row.token)
  }

  function TakeRowNext(cfg: Config, sys: Sys, pr: Proc, leaseToken: Token): (Sys, Option<Proc>)
    requires pr.Dispatching?
  {
    (sys.(db := LeaseRow(sys.db, pr.id, leaseToken, pr.at, pr.at - cfg.leaseTimeout),
          used := sys.used + {leaseToken}),
     if CanLeaseRow(sys.db, pr.id, pr.at - cfg.leaseTimeout)
     then Some(Leased(pr.at, pr.id, pr.row, leaseToken)) else None)
  }

  /** `accepted`: the queue took the message; `ok`: the sender was told so. */
  function SendNext(sys: Sys, pr: Proc, ok: bool, accepted: bool, mid: Token): (Sys, Option<Proc>)
    requires pr.Leased?
  {
    var m := RowMessage(pr.row);
    (sys.(queue := if accepted then sys.queue[mid := Good(m)] else sys.queue,
          sent := if accepted then sys.sent + {m} else sys.sent,
          used := sys.used + {mid},
          okSends := if ok then sys.okSends + multiset{pr.id} else sys.okSends),
     Some(if ok then SentOk(pr.at, pr.id, pr.row, pr.leaseToken) else SendFailed(pr.id, pr.leaseToken)))
  }

  // ---- Steps of workers ---------------------------------------------------

  function ReadNext(sys: Sys, pr: Proc): Proc
    requires pr.Reading?
  {
    var g := IngestGuard(sys.db.claim, pr.msg);
    if GuardThrows(g) then Failing(pr.mid, Good(pr.msg), pr.receiveCount, false)
    else if g == MayClaim then Claiming(pr.mid, pr.msg, pr.receiveCount)
    else Finishing(pr.mid, pr.msg, pr.receiveCount)
  }

  predicate WantsDlq(cfg: Config, retryable: bool, receiveCount: int) {
    cfg.dlqConfigured && (!retryable || receiveCount >= cfg.maxReceiveCount)
  }

  /** `accepted`: the dead-letter queue took the copy; `published`: the worker was told so. */
  function DisposeNext(cfg: Config, sys: Sys, pr: Proc, accepted: bool, published: bool): (Sys, Option<Proc>)
    requires pr.Failing?
  {
    var wants := WantsDlq(cfg, pr.retryable, pr.receiveCount);
    (if wants && accepted then sys.(dlq := sys.dlq + {Copy(pr.mid, pr.body)}) else sys,
     if wants && published then Some(Condemned(pr.mid, pr.body, pr.receiveCount, pr.retryable, Moved))
     else if !pr.retryable && !cfg.dlqConfigured then
       Some(Condemned(pr.mid, pr.body, pr.receiveCount, pr.retryable, Dropped))
     else if pr.body.Good? then Some(Releasing(pr.body.msg))
     else None)
  }

  function CauseDisposition(cause: Cause): Disposition {
    if cause == Moved then MovedToDlq else DroppedNonRetryable
  }

  function MarkFailedNext(sys: Sys, pr: Proc): (Sys, Option<Proc>)
    requires pr.Condemned?
  {
    (if pr.body.Good? then
       sys.(db := MarkError(sys.db, pr.body.msg,
                            Failure(sys.now, pr.retryable, pr.receiveCount, CauseDisposition(pr.cause)), sys.now))
     else sys,
     Some(Deleting(pr.mid, pr.body, pr.retryable, pr.cause)))
  }

  function DeleteNext(sys: Sys, pr: Proc): Sys
    requires pr.Finishing? || pr.Deleting?
  {
    var d := if pr.Finishing? then Deletion(pr.mid, Good(pr.msg), Processed, true)
             else Deletion(pr.mid, pr.body, pr.cause, pr.retryable);
    sys.(queue := sys.queue - {pr.mid}, deletions := sys.deletions + [d])
  }

  // ---- Steps of a process -------------------------------------------------

  predicate ActEnabled(sys: Sys, pr: Proc, a: Action) {
    match a
    case Commit(token, id) =>
      (pr.Starting? || pr.Recovering?) && token !in sys.used && id !in sys.used && token != id
    case TakeRow(leaseToken) => pr.Dispatching? && leaseToken !in sys.used
    case Send(ok, accepted, mid) => pr.Leased? && (ok ==> accepted) && mid !in sys.used
    case Mark => pr.SentOk?
    case Clear => pr.SendFailed?
    case Parse => pr.Received?
    case Read => pr.Reading?
    case TakeClaim => pr.Claiming?
    case Throw(retryable) => pr.Reading? || pr.Claiming? || pr.Extracting? || pr.Finishing?
    case Persist(extraction) => pr.Extracting?
    case Delete => pr.Finishing? || pr.Deleting?
    case Dispose(accepted, published) => pr.Failing? && (published ==> accepted)
    case MarkFailed => pr.Condemned?
    case Release => pr.Releasing?
    case Write => pr.Clicking?
  }

  function ActNext(cfg: Config, sys: Sys, pr: Proc, a: Action): (Sys, Option<Proc>)
    requires ActEnabled(sys, pr, a)
  {
    match a
    case Commit(token, id) => (CommitNext(sys, pr, token, id), None)
    case TakeRow(leaseToken) => TakeRowNext(cfg, sys, pr, leaseToken)
    case Send(ok, accepted, mid) => SendNext(sys, pr, ok, accepted, mid)
    case Mark => (sys.(db := MarkDispatched(sys.db, pr.id, pr.leaseToken, pr.at)), None)
    case Clear => (sys.(db := ClearRowLease(sys.db, pr.id, pr.leaseToken)), None)
    case Parse =>
      (sys, Some(if pr.body.Good? then Reading(pr.mid, pr.body.msg, pr.receiveCount)
                 else Failing(pr.mid, pr.body, pr.receiveCount, false)))
    case Read => (sys, Some(ReadNext(sys, pr)))
    case TakeClaim =>
      (sys.(db := ClaimLease(sys.db, pr.msg, sys.now)),
       Some(if LeaseMatches(sys.db.claim, pr.msg) then Extracting(pr.mid, pr.msg, pr.receiveCount)
            else Finishing(pr.mid, pr.msg, pr.receiveCount)))
    case Throw(retryable) => (sys, Some(Failing(pr.mid, Good(pr.msg), pr.receiveCount, retryable)))
    case Persist(extraction) =>
      (sys.(db := PersistOutcome(sys.db, pr.msg, extraction, cfg.readyConfidence, sys.now)),
       Some(Finishing(pr.mid, pr.msg, pr.receiveCount)))
    case Delete => (DeleteNext(sys, pr), None)
    case Dispose(accepted, published) => DisposeNext(cfg, sys, pr, accepted, published)
    case MarkFailed => MarkFailedNext(sys, pr)
    case Release => (sys.(db := ReleaseLease(sys.db, pr.msg, sys.now)), None)
    case Write => (sys.(db := DashboardWrite(sys.db, pr.from, pr.target, sys.now)), None)
  }

  // ---- Steps of the whole system, and runs --------------------------------

  predicate Enabled(cfg: Config, s: State, step: Step) {
    match step
    case World(env) => EnvEnabled(s.sys, env)
    case Spawn(pid, begin) => pid !in s.procs && BeginEnabled(cfg, s.sys, begin)
    case Act(pid, action) => pid in s.procs && ActEnabled(s.sys, s.procs[pid], action)
    case Crash(pid) => pid in s.procs
  }

  function Next(cfg: Config, s: State, step: Step): State
    requires Enabled(cfg, s, step)
  {
    match step
    case World(env) => s.(sys := EnvNext(s.sys, env))
    case Spawn(pid, begin) => s.(procs := s.procs[pid := BeginProc(cfg, s.sys, begin)])
    case Act(pid, action) =>
      var (sys, pr) := ActNext(cfg, s.sys, s.procs[pid], action);
      State(sys, if pr.Some? then s.procs[pid := pr.value] else s.procs - {pid})
    case Crash(pid) => s.(procs := s.procs - {pid})
  }

  /** `steps` leads from `s` to `t`. */
  predicate Run(cfg: Config, s: State, steps: seq<Step>, t: State)
    decreases |steps|
  {
    if steps == [] then s == t
    else Enabled(cfg, s, steps[0]) && Run(cfg, Next(cfg, s, steps[0]), steps[1..], t)
  }

  /** Runs compose. */
  lemma {:induction false} RunConcat(cfg: Config, s: State, xs: seq<Step>, t: State, ys: seq<Step>, u: State)
    requires Run(cfg, s, xs, t) && Run(cfg, t, ys, u)
    ensures Run(cfg, s, xs + ys, u)
    decreases |xs|
  {
    if xs == [] {
      assert xs + ys == ys;
    } else {
      RunConcat(cfg, Next(cfg, s, xs[0]), xs[1..], t, ys, u);
      assert (xs + ys)[1..] == xs[1..] + ys;
    }
  }

  ghost predicate Reachable(cfg: Config, t: State) {
    exists s, steps :: Init(s) && Run(cfg, s, steps, t)
  }
}
