/**
 The database rows behind one claim, and every guarded write on them as a
 function from the tables before to the tables after.

 A guarded write is a compare-and-set: when its `where` clause matches no row
 the function returns the tables it was given. `ClaimSystem` runs the same
 writes imperatively; `Protocol` interleaves them.
 */
module ClaimModel {

  import opened Options

  type Time = int      // milliseconds
  type Token = nat     // every generated identifier: lease tokens, outbox ids, queue message ids

  datatype Status = NEW | PROCESSING | READY | REVIEW_REQUIRED | ERROR

  /** The two statuses the dashboard moves between. */
  predicate Decided(status: Status) {
    status == READY || status == REVIEW_REQUIRED
  }

  datatype Disposition = MovedToDlq | DroppedNonRetryable

  datatype Failure = Failure(at: Time, retryable: bool, receiveCount: int, disposition: Disposition)

  datatype Claim = Claim(
    status: Status,
    attempt: nat,
    token: Option<Token>,
    leaseClaimedAt: Option<Time>,
    updatedAt: Time,
    failure: Option<Failure>)

  datatype OutboxRow = OutboxRow(
    attempt: nat,
    token: Token,
    dispatchedAt: Option<Time>,
    leaseToken: Option<Token>,
    leaseClaimedAt: Option<Time>)

  datatype Source =
    | WebhookEnqueue | ManualRetry | ManualRecovery | WatchdogRecovery
    | WorkerFailure | WorkerExtraction | Dashboard

  datatype Transition = Transition(from: Status, to: Status, source: Source)

  datatype Extraction = Extraction(confidence: real, missingInfo: nat)

  datatype Message = Message(attempt: nat, token: Token)

  datatype Db = Db(
    claim: Claim,
    outbox: map<Token, OutboxRow>,
    transitions: seq<Transition>,
    extractions: seq<Extraction>)

  /** The claim is being processed under exactly this message's attempt and token. */
  predicate Under(claim: Claim, m: Message) {
    claim.status == PROCESSING && claim.attempt == m.attempt && claim.token == Some(m.token)
  }

  function NewRow(attempt: nat, token: Token): OutboxRow {
    OutboxRow(attempt, token, None, None, None)
  }

  // ---- Opening an attempt -------------------------------------------------

  /** What a successful start or recovery writes: row, outbox entry and event in one transaction. */
  function OpenAttempt(db: Db, from: Status, source: Source, token: Token, id: Token, at: Time): Db {
    db.(claim := db.claim.(status := PROCESSING, attempt := db.claim.attempt + 1, token := Some(token),
                           leaseClaimedAt := None, updatedAt := at),
        outbox := db.outbox[id := NewRow(db.claim.attempt + 1, token)],
        transitions := db.transitions + [Transition(from, PROCESSING, source)])
  }

  predicate StartMatches(claim: Claim, from: Status, expected: nat) {
    claim.status == from && claim.attempt == expected
  }

  function StartAttempt(db: Db, from: Status, expected: nat, source: Source, token: Token, id: Token, now: Time): Db {
    if StartMatches(db.claim, from, expected) then OpenAttempt(db, from, source, token, id, now) else db
  }

  predicate RecoveryMatches(claim: Claim, expected: nat, staleBefore: Time) {
    claim.status == PROCESSING && claim.attempt == expected && claim.updatedAt <= staleBefore
  }

  function RecoverAttempt(db: Db, expected: nat, staleBefore: Time, touchedAt: Time,
                          source: Source, token: Token, id: Token): Db {
    if RecoveryMatches(db.claim, expected, staleBefore)
    then OpenAttempt(db, PROCESSING, source, token, id, touchedAt) else db
  }

  // ---- The worker's writes ------------------------------------------------

  predicate LeaseMatches(claim: Claim, m: Message) {
    Under(claim, m) && claim.leaseClaimedAt.None?
  }

  function ClaimLease(db: Db, m: Message, now: Time): Db {
    if LeaseMatches(db.claim, m) then db.(claim := db.claim.(leaseClaimedAt := Some(now), updatedAt := now)) else db
  }

  function ReleaseLease(db: Db, m: Message, now: Time): Db {
    if Under(db.claim, m) && db.claim.leaseClaimedAt.Some?
    then db.(claim := db.claim.(leaseClaimedAt := None, updatedAt := now)) else db
  }

  function OutcomeStatus(e: Extraction, readyConfidence: real): Status {
    if e.confidence >= readyConfidence && e.missingInfo == 0 then READY else REVIEW_REQUIRED
  }

  function PersistOutcome(db: Db, m: Message, e: Extraction, readyConfidence: real, now: Time): Db {
    var next := OutcomeStatus(e, readyConfidence);
    if Under(db.claim, m) then
      db.(claim := db.claim.(status := next, token := None, leaseClaimedAt := None, updatedAt := now),
          transitions := db.transitions + [Transition(PROCESSING, next, WorkerExtraction)],
          extractions := db.extractions + [e])
    else db
  }

  function MarkError(db: Db, m: Message, failure: Failure, now: Time): Db {
    if Under(db.claim, m) then
      db.(claim := db.claim.(status := ERROR, token := None, leaseClaimedAt := None,
                             updatedAt := now, failure := Some(failure)),
          transitions := db.transitions + [Transition(PROCESSING, ERROR, WorkerFailure)])
    else db
  }

  // ---- The dashboard's writes: no status guard ----------------------------

  function DashboardWrite(db: Db, from: Status, target: Status, now: Time): Db {
    db.(claim := db.claim.(status := target, updatedAt := now),
        transitions := db.transitions + [Transition(from, target, Dashboard)])
  }

  function ManualEdit(db: Db, now: Time): Db {
    db.(claim := db.claim.(updatedAt := now))
  }

  // ---- The outbox's writes ------------------------------------------------

  predicate RowLeasable(row: OutboxRow, staleBefore: Time) {
    && row.dispatchedAt.None?
    && (row.leaseClaimedAt.None? || row.leaseClaimedAt.value <= staleBefore)
  }

  predicate CanLeaseRow(db: Db, id: Token, staleBefore: Time) {
    id in db.outbox && RowLeasable(db.outbox[id], staleBefore)
  }

  function LeaseRow(db: Db, id: Token, leaseToken: Token, now: Time, staleBefore: Time): Db {
    if CanLeaseRow(db, id, staleBefore)
    then db.(outbox := db.outbox[id := db.outbox[id].(leaseToken := Some(leaseToken), leaseClaimedAt := Some(now))])
    else db
  }

  predicate HoldsRow(db: Db, id: Token, leaseToken: Token) {
    id in db.outbox && db.outbox[id].dispatchedAt.None? && db.outbox[id].leaseToken == Some(leaseToken)
  }

  function MarkDispatched(db: Db, id: Token, leaseToken: Token, now: Time): Db {
    if HoldsRow(db, id, leaseToken)
    then db.(outbox := db.outbox[id := db.outbox[id].(dispatchedAt := Some(now), leaseToken := None,
                                                      leaseClaimedAt := None)])
    else db
  }

  function ClearRowLease(db: Db, id: Token, leaseToken: Token): Db {
    if HoldsRow(db, id, leaseToken)
    then db.(outbox := db.outbox[id := db.outbox[id].(leaseToken := None, leaseClaimedAt := None)])
    else db
  }

  predicate Expired(row: OutboxRow, olderThan: Time) {
    row.dispatchedAt.Some? && row.dispatchedAt.value < olderThan
  }

  function CleanupOutbox(db: Db, ids: set<Token>, olderThan: Time): Db {
    db.(outbox := map id | id in db.outbox && !(id in ids && Expired(db.outbox[id], olderThan)) :: db.outbox[id])
  }

  // ---- The worker's guard ladder over the row it read ---------------------

  datatype Guard =
    | AlreadyDecided | AttemptSuperseded | StillNew | NotAdvanced
    | NotProcessing | LeaseSuperseded | LeaseAlreadyClaimed | MayClaim

  function IngestGuard(claim: Claim, m: Message): Guard {
    if Decided(claim.status) then AlreadyDecided
    else if claim.attempt > m.attempt then AttemptSuperseded
    else if claim.status == NEW then StillNew
    else if claim.attempt < m.attempt then NotAdvanced
    else if claim.status != PROCESSING then NotProcessing
    else if claim.token != Some(m.token) then LeaseSuperseded
    else if claim.leaseClaimedAt.Some? then LeaseAlreadyClaimed
    else MayClaim
  }

  /** The two guard outcomes that the worker raises as non-retryable errors. */
  predicate GuardThrows(g: Guard) {
    g == StillNew || g == NotAdvanced
  }

  // ---- Reading the event log ----------------------------------------------

  /** Number of events that opened an attempt. */
  function Opened(transitions: seq<Transition>): nat {
    if transitions == [] then 0
    else Opened(transitions[..|transitions| - 1]) + (if transitions[|transitions| - 1].to == PROCESSING then 1 else 0)
  }

  lemma {:induction false} OpenedAppend(transitions: seq<Transition>, t: Transition)
    ensures Opened(transitions + [t]) == Opened(transitions) + (if t.to == PROCESSING then 1 else 0)
  {
    assert (transitions + [t])[..|transitions|] == transitions;
  }
}
