/**
 One run of the pending-outbox dispatcher over the rows of every claim: batches
 of leasable rows in the select order, one captured time for the whole run, and
 the tallies it reports.

 What happens to a row selected in a batch is given by `attempts(batch, row)`.
 Rows of one batch are distinct, so the order in which its workers run does not
 matter.
 */
module OutboxBatches {

  import opened Options
  import opened ClaimModel

  datatype Attempt =
    | Taken       // another dispatcher leased the row after it was selected
    | Marked      // sent, and the row marked dispatched
    | MarkLost    // sent, but the marking write failed: the lease stays until it expires
    | Cleared     // the send failed and the lease was given back
    | ClearLost   // the send failed and so did giving the lease back

  datatype Tally = Tally(selected: nat, dispatched: nat, skipped: nat, failed: nat)

  /** `now` is captured once; `token` stands for the fresh lease tokens. */
  datatype Plan = Plan(attempts: (nat, nat) -> Attempt, token: Token, now: Time, staleBefore: Time, batchSize: nat)

  /** The row after an attempt made at the captured time. */
  function After(row: OutboxRow, attempt: Attempt, token: Token, now: Time): OutboxRow {
    match attempt
    case Marked => row.(dispatchedAt := Some(now), leaseToken := None, leaseClaimedAt := None)
    case Cleared => row.(leaseToken := None, leaseClaimedAt := None)
    case _ => row.(leaseToken := Some(token), leaseClaimedAt := Some(now))
  }

  /** The guarded writes an attempt makes on a claim's outbox, in order. */
  function Writes(db: Db, id: Token, attempt: Attempt, token: Token, now: Time, staleBefore: Time): Db {
    var leased := LeaseRow(db, id, token, now, staleBefore);
    match attempt
    case Marked => MarkDispatched(leased, id, token, now)
    case Cleared => ClearRowLease(leased, id, token)
    case _ => leased
  }

  /** On a leasable row those writes leave exactly the row described above, and no other row changes. */
  lemma {:induction false} WritesAgree(db: Db, id: Token, attempt: Attempt, token: Token, now: Time, staleBefore: Time)
    requires CanLeaseRow(db, id, staleBefore)
    ensures Writes(db, id, attempt, token, now, staleBefore)
            == db.(outbox := db.outbox[id := After(db.outbox[id], attempt, token, now)])
  {
    var row := After(db.outbox[id], attempt, token, now);
    assert Writes(db, id, attempt, token, now, staleBefore).outbox == db.outbox[id := row];
  }

  function Counted(t: Tally, attempt: Attempt): Tally {
    match attempt
    case Taken => t.(skipped := t.skipped + 1)
    case Marked => t.(dispatched := t.dispatched + 1)
    case MarkLost => t.(dispatched := t.dispatched + 1)
    case _ => t.(failed := t.failed + 1)
  }

  // ---- Selecting a batch --------------------------------------------------

  /** The first `k` leasable rows from `i` on. */
  function Select(rows: seq<OutboxRow>, staleBefore: Time, k: nat, i: nat): seq<nat>
    decreases |rows| - i
  {
    if i >= |rows| || k == 0 then []
    else if RowLeasable(rows[i], staleBefore) then [i] + Select(rows, staleBefore, k - 1, i + 1)
    else Select(rows, staleBefore, k, i + 1)
  }

  function Leasable(rows: seq<OutboxRow>, staleBefore: Time): (c: nat)
    ensures c <= |rows|
  {
    if rows == [] then 0
    else Leasable(rows[..|rows| - 1], staleBefore) + (if RowLeasable(rows[|rows| - 1], staleBefore) then 1 else 0)
  }

  function Undispatched(rows: seq<OutboxRow>): nat {
    if rows == [] then 0
    else Undispatched(rows[..|rows| - 1]) + (if rows[|rows| - 1].dispatchedAt.None? then 1 else 0)
  }

  lemma {:induction false} CountsUpdate(rows: seq<OutboxRow>, staleBefore: Time, i: nat, row: OutboxRow)
    requires i < |rows|
    ensures Leasable(rows[i := row], staleBefore) + (if RowLeasable(rows[i], staleBefore) then 1 else 0)
            == Leasable(rows, staleBefore) + (if RowLeasable(row, staleBefore) then 1 else 0)
    ensures Undispatched(rows[i := row]) + (if rows[i].dispatchedAt.None? then 1 else 0)
            == Undispatched(rows) + (if row.dispatchedAt.None? then 1 else 0)
  {
    var n := |rows| - 1;
    if i < n {
      assert rows[i := row][..n] == rows[..n][i := row];
      CountsUpdate(rows[..n], staleBefore, i, row);
    } else {
      assert rows[i := row][..n] == rows[..n];
    }
  }

  predicate Ascending(s: seq<nat>) {
    forall x, y :: 0 <= x < y < |s| ==> s[x] < s[y]
  }

  predicate AllLeasable(rows: seq<OutboxRow>, pending: seq<nat>, staleBefore: Time) {
    forall j :: 0 <= j < |pending| ==> pending[j] < |rows| && RowLeasable(rows[pending[j]], staleBefore)
  }

  /** The selection is leasable rows in order. */
  lemma {:induction false} SelectIs(rows: seq<OutboxRow>, staleBefore: Time, k: nat, i: nat)
    requires i <= |rows|
    ensures var s := Select(rows, staleBefore, k, i);
            && |s| <= k && Ascending(s) && AllLeasable(rows, s, staleBefore) && forall j :: 0 <= j < |s| ==> i <= s[j]
    decreases |rows| - i
  {
    if i < |rows| && k > 0 {
      SelectIs(rows, staleBefore, if RowLeasable(rows[i], staleBefore) then k - 1 else k, i + 1);
    }
  }

  /** A leasable row is selected exactly when fewer than `k` leasable rows come before it. */
  lemma {:induction false} SelectedIff(rows: seq<OutboxRow>, staleBefore: Time, k: nat, i: nat, r: nat)
    requires i <= r < |rows| && RowLeasable(rows[r], staleBefore)
    ensures r in Select(rows, staleBefore, k, i)
            <==> Leasable(rows[..r], staleBefore) < Leasable(rows[..i], staleBefore) + k
    decreases |rows| - i
  {
    SelectIs(rows, staleBefore, k, i);
    if k == 0 {
      LeasableMonotone(rows, staleBefore, i, r);
    } else {
      assert rows[..i + 1][..i] == rows[..i];
      var rest := Select(rows, staleBefore, if RowLeasable(rows[i], staleBefore) then k - 1 else k, i + 1);
      if r == i {
        assert r in Select(rows, staleBefore, k, i);
      } else {
        SelectedIff(rows, staleBefore, if RowLeasable(rows[i], staleBefore) then k - 1 else k, i + 1, r);
        assert r in Select(rows, staleBefore, k, i) <==> r in rest;
      }
    }
  }

  lemma {:induction false} LeasableMonotone(rows: seq<OutboxRow>, staleBefore: Time, i: nat, r: nat)
    requires i <= r <= |rows|
    ensures Leasable(rows[..i], staleBefore) <= Leasable(rows[..r], staleBefore)
    decreases r
  {
    if i < r {
      LeasableMonotone(rows, staleBefore, i, r - 1);
      assert rows[..r][..r - 1] == rows[..r - 1];
    }
  }

  /** A short selection leaves no leasable row out. */
  lemma {:induction false} ShortSelection(rows: seq<OutboxRow>, staleBefore: Time, k: nat, i: nat, r: nat)
    requires i <= r < |rows| && RowLeasable(rows[r], staleBefore) && |Select(rows, staleBefore, k, i)| < k
    ensures r in Select(rows, staleBefore, k, i)
    decreases |rows| - i
  {
    if i < r {
      ShortSelection(rows, staleBefore, if RowLeasable(rows[i], staleBefore) then k - 1 else k, i + 1, r);
    }
  }

  // ---- One batch ----------------------------------------------------------

  /** The rows a batch selects. */
  function Pending(p: Plan, rows: seq<OutboxRow>): seq<nat> {
    Select(rows, p.staleBefore, p.batchSize, 0)
  }

  /** The rows after the selected ones have been tried in batch `b`. */
  function Apply(p: Plan, b: nat, rows: seq<OutboxRow>, pending: seq<nat>): (r: seq<OutboxRow>)
    ensures |r| == |rows|
  {
    if pending == [] then rows
    else
      var n := |pending| - 1;
      var before, i := Apply(p, b, rows, pending[..n]), pending[n];
      if i < |rows| then before[i := After(before[i], p.attempts(b, i), p.token, p.now)] else before
  }

  function CountBatch(p: Plan, b: nat, t: Tally, pending: seq<nat>): Tally {
    if pending == [] then t
    else Counted(CountBatch(p, b, t, pending[..|pending| - 1]), p.attempts(b, pending[|pending| - 1]))
  }

  /** Selections of the batch with the outcome `what`. */
  function Tried(p: Plan, b: nat, pending: seq<nat>, what: Attempt): nat {
    if pending == [] then 0
    else
      var n := |pending| - 1;
      Tried(p, b, pending[..n], what) + (if p.attempts(b, pending[n]) == what then 1 else 0)
  }

  lemma {:induction false} ApplyAt(p: Plan, b: nat, rows: seq<OutboxRow>, pending: seq<nat>, i: nat)
    requires Ascending(pending) && i < |rows|
    ensures Apply(p, b, rows, pending)[i] == if i in pending then After(rows[i], p.attempts(b, i), p.token, p.now)
            else rows[i]
  {
    if pending != [] {
      var n := |pending| - 1;
      ApplyAt(p, b, rows, pending[..n], i);
      assert pending == pending[..n] + [pending[n]];
    }
  }

  /** Only a row whose lease was given back can be selected again, and no row becomes leasable. */
  lemma {:induction false} LeasableAfter(p: Plan, b: nat, rows: seq<OutboxRow>, i: nat)
    requires p.staleBefore < p.now && i < |rows|
    ensures var pending := Pending(p, rows);
            RowLeasable(Apply(p, b, rows, pending)[i], p.staleBefore)
            <==> RowLeasable(rows[i], p.staleBefore) && (i in pending ==> p.attempts(b, i) == Cleared)
  {
    SelectIs(rows, p.staleBefore, p.batchSize, 0);
    ApplyAt(p, b, rows, Pending(p, rows), i);
  }

  lemma {:induction false} LeasableShrinks(before: seq<OutboxRow>, after: seq<OutboxRow>, staleBefore: Time, r: nat)
    requires |before| == |after| && r <= |before|
    requires forall i :: 0 <= i < r && RowLeasable(after[i], staleBefore) ==> RowLeasable(before[i], staleBefore)
    ensures Leasable(after[..r], staleBefore) <= Leasable(before[..r], staleBefore)
    decreases r
  {
    if r > 0 {
      LeasableShrinks(before, after, staleBefore, r - 1);
      assert after[..r][..r - 1] == after[..r - 1] && before[..r][..r - 1] == before[..r - 1];
    }
  }

  /** What a batch takes from the two counts. */
  lemma {:induction false} BatchCounts(p: Plan, b: nat, rows: seq<OutboxRow>, pending: seq<nat>)
    requires p.staleBefore < p.now && Ascending(pending) && AllLeasable(rows, pending, p.staleBefore)
    ensures Leasable(Apply(p, b, rows, pending), p.staleBefore) + |pending|
            == Leasable(rows, p.staleBefore) + Tried(p, b, pending, Cleared)
    ensures Undispatched(Apply(p, b, rows, pending)) + Tried(p, b, pending, Marked) == Undispatched(rows)
  {
    if pending != [] {
      var n := |pending| - 1;
      var before, i := Apply(p, b, rows, pending[..n]), pending[n];
      BatchCounts(p, b, rows, pending[..n]);
      ApplyAt(p, b, rows, pending[..n], i);
      CountsUpdate(before, p.staleBefore, i, After(before[i], p.attempts(b, i), p.token, p.now));
    }
  }

  /** A tally grows by one for each selection, under its own heading. */
  lemma {:induction false} CountBatchIs(p: Plan, b: nat, t: Tally, pending: seq<nat>)
    ensures var u := CountBatch(p, b, t, pending);
            && u.selected == t.selected
            && u.dispatched == t.dispatched + Tried(p, b, pending, Marked) + Tried(p, b, pending, MarkLost)
            && u.skipped == t.skipped + Tried(p, b, pending, Taken)
            && u.failed == t.failed + Tried(p, b, pending, Cleared) + Tried(p, b, pending, ClearLost)
            && u.dispatched + u.skipped + u.failed == t.dispatched + t.skipped + t.failed + |pending|
  {
    if pending != [] {
      CountBatchIs(p, b, t, pending[..|pending| - 1]);
    }
  }

  // ---- A run --------------------------------------------------------------

  /** The rows before batch `b`, while batches are run. */
  function RowsAt(p: Plan, rows: seq<OutboxRow>, b: nat): (r: seq<OutboxRow>)
    ensures |r| == |rows|
  {
    if b == 0 then rows
    else
      var before := RowsAt(p, rows, b - 1);
      Apply(p, b - 1, before, Pending(p, before))
  }

  /** The selections of batch `b`. */
  function Selected(p: Plan, rows: seq<OutboxRow>, b: nat): seq<nat> {
    Pending(p, RowsAt(p, rows, b))
  }

  function TallyAt(p: Plan, rows: seq<OutboxRow>, b: nat): Tally {
    if b == 0 then Tally(0, 0, 0, 0)
    else
      var t, pending := TallyAt(p, rows, b - 1), Selected(p, rows, b - 1);
      CountBatch(p, b - 1, t.(selected := t.selected + |pending|), pending)
  }

  /** A run of exactly `n` batches: it stops at its last batch, at a short one, or when nothing is left to select. */
  predicate Runs(p: Plan, rows: seq<OutboxRow>, maxBatches: nat, n: nat) {
    && n <= maxBatches
    && (forall b: nat :: b < n ==> Selected(p, rows, b) != [])
    && (forall b: nat :: b + 1 < n ==> |Selected(p, rows, b)| == p.batchSize)
    && (n < maxBatches ==> Selected(p, rows, n) == [] || (n > 0 && |Selected(p, rows, n - 1)| < p.batchSize))
  }

  /** The first `n` batches are all full. */
  predicate AllFull(p: Plan, rows: seq<OutboxRow>, n: nat) {
    forall b: nat :: b < n ==> Selected(p, rows, b) != [] && |Selected(p, rows, b)| == p.batchSize
  }

  lemma {:induction false} FullThenEmpty(p: Plan, rows: seq<OutboxRow>, maxBatches: nat, n: nat)
    requires AllFull(p, rows, n) && n <= maxBatches && (n == maxBatches || Selected(p, rows, n) == [])
    ensures Runs(p, rows, maxBatches, n)
  {
  }

  lemma {:induction false} FullThenShort(p: Plan, rows: seq<OutboxRow>, maxBatches: nat, n: nat)
    requires AllFull(p, rows, n) && n < maxBatches && 0 < |Selected(p, rows, n)| < p.batchSize
    ensures Runs(p, rows, maxBatches, n + 1)
  {
  }

  /** A run's length is determined. */
  lemma {:induction false} RunsOnce(p: Plan, rows: seq<OutboxRow>, maxBatches: nat, m: nat, n: nat)
    requires Runs(p, rows, maxBatches, m) && Runs(p, rows, maxBatches, n)
    ensures m == n
  {
  }

  // ---- Which rows are tried again -----------------------------------------

  /**
   A row selected in a batch is selected by the next one exactly when its send failed and its lease was given back.
   */
  lemma {:induction false} SelectedAgainIff(p: Plan, rows: seq<OutboxRow>, b: nat, i: nat)
    requires p.staleBefore < p.now && i in Selected(p, rows, b)
    ensures i in Selected(p, rows, b + 1) <==> p.attempts(b, i) == Cleared
  {
    var before, after := RowsAt(p, rows, b), RowsAt(p, rows, b + 1);
    SelectIs(before, p.staleBefore, p.batchSize, 0);
    SelectIs(after, p.staleBefore, p.batchSize, 0);
    LeasableAfter(p, b, before, i);
    if p.attempts(b, i) == Cleared {
      forall j | 0 <= j < i && RowLeasable(after[j], p.staleBefore)
        ensures RowLeasable(before[j], p.staleBefore)
      {
        LeasableAfter(p, b, before, j);
      }
      LeasableShrinks(before, after, p.staleBefore, i);
      SelectedIff(before, p.staleBefore, p.batchSize, 0, i);
      SelectedIff(after, p.staleBefore, p.batchSize, 0, i);
    }
  }

  /** A row that is not leasable is not selected in this run any more. */
  lemma {:induction false} StaysUnleasable(p: Plan, rows: seq<OutboxRow>, b: nat, c: nat, i: nat)
    requires p.staleBefore < p.now && b <= c && i < |rows| && !RowLeasable(RowsAt(p, rows, b)[i], p.staleBefore)
    ensures !RowLeasable(RowsAt(p, rows, c)[i], p.staleBefore) && i !in Selected(p, rows, c)
    decreases c
  {
    if b < c {
      StaysUnleasable(p, rows, b, c - 1, i);
      LeasableAfter(p, c - 1, RowsAt(p, rows, c - 1), i);
    }
    SelectIs(RowsAt(p, rows, c), p.staleBefore, p.batchSize, 0);
  }

  predicate ClearedThrough(p: Plan, i: nat, b: nat, c: nat) {
    forall d: nat :: b <= d < c ==> p.attempts(d, i) == Cleared
  }

  /** The batches that select a row follow one another, up to the first that does not give its lease back. */
  lemma {:induction false} SelectedLaterIff(p: Plan, rows: seq<OutboxRow>, b: nat, c: nat, i: nat)
    requires p.staleBefore < p.now && b <= c && i in Selected(p, rows, b)
    ensures i in Selected(p, rows, c) <==> ClearedThrough(p, i, b, c)
    decreases c - b
  {
    if b < c {
      SelectIs(RowsAt(p, rows, b), p.staleBefore, p.batchSize, 0);
      if p.attempts(b, i) == Cleared {
        SelectedAgainIff(p, rows, b, i);
        SelectedLaterIff(p, rows, b + 1, c, i);
      } else {
        LeasableAfter(p, b, RowsAt(p, rows, b), i);
        StaysUnleasable(p, rows, b + 1, c, i);
      }
    }
  }

  predicate TakenTwice(p: Plan, rows: seq<OutboxRow>, n: nat) {
    exists b: nat, c: nat, i: nat :: b < c < n && i in Selected(p, rows, b) && i in Selected(p, rows, c)
  }

  /** Some selection of batch `b` has its lease given back. */
  predicate ClearsIn(p: Plan, rows: seq<OutboxRow>, b: nat) {
    exists j :: 0 <= j < |Selected(p, rows, b)| && p.attempts(b, Selected(p, rows, b)[j]) == Cleared
  }

  /** A run of `n` batches takes no row twice exactly when no batch but its last gives a lease back. */
  lemma {:induction false} TakenTwiceIff(p: Plan, rows: seq<OutboxRow>, n: nat)
    requires p.staleBefore < p.now
    ensures TakenTwice(p, rows, n) <==> exists b: nat :: b + 1 < n && ClearsIn(p, rows, b)
  {
    if TakenTwice(p, rows, n) {
      var b: nat, c: nat, i: nat :| b < c < n && i in Selected(p, rows, b) && i in Selected(p, rows, c);
      SelectedLaterIff(p, rows, b, c, i);
      assert p.attempts(b, i) == Cleared;
      assert ClearsIn(p, rows, b) && b + 1 < n;
    }
    if b: nat :| b + 1 < n && ClearsIn(p, rows, b) {
      var j :| 0 <= j < |Selected(p, rows, b)| && p.attempts(b, Selected(p, rows, b)[j]) == Cleared;
      SelectedAgainIff(p, rows, b, Selected(p, rows, b)[j]);
    }
  }

  // ---- Tallies and counts over a run --------------------------------------

  /** Selections of the first `b` batches with the outcome `what`. */
  function TriedBefore(p: Plan, rows: seq<OutboxRow>, b: nat, what: Attempt): nat {
    if b == 0 then 0 else TriedBefore(p, rows, b - 1, what) + Tried(p, b - 1, Selected(p, rows, b - 1), what)
  }

  function SelectedBefore(p: Plan, rows: seq<OutboxRow>, b: nat): nat {
    if b == 0 then 0 else SelectedBefore(p, rows, b - 1) + |Selected(p, rows, b - 1)|
  }

  /** Every selection is counted once, under what became of it. */
  lemma {:induction false} TalliesAddUp(p: Plan, rows: seq<OutboxRow>, b: nat)
    ensures var t := TallyAt(p, rows, b);
            && t.selected == t.dispatched + t.skipped + t.failed == SelectedBefore(p, rows, b) <= p.batchSize * b
            && t.dispatched == TriedBefore(p, rows, b, Marked) + TriedBefore(p, rows, b, MarkLost)
            && t.skipped == TriedBefore(p, rows, b, Taken)
            && t.failed == TriedBefore(p, rows, b, Cleared) + TriedBefore(p, rows, b, ClearLost)
  {
    if b > 0 {
      var t, pending := TallyAt(p, rows, b - 1), Selected(p, rows, b - 1);
      TalliesAddUp(p, rows, b - 1);
      SelectIs(RowsAt(p, rows, b - 1), p.staleBefore, p.batchSize, 0);
      CountBatchIs(p, b - 1, t.(selected := t.selected + |pending|), pending);
      assert p.batchSize * b == p.batchSize * (b - 1) + p.batchSize;
    }
  }

  lemma {:induction false} NextBatch(p: Plan, rows: seq<OutboxRow>, b: nat)
    requires p.staleBefore < p.now
    ensures var before, after, pending := RowsAt(p, rows, b), RowsAt(p, rows, b + 1), Selected(p, rows, b);
            && Leasable(after, p.staleBefore) + |pending|
               == Leasable(before, p.staleBefore) + Tried(p, b, pending, Cleared)
            && Undispatched(after) + Tried(p, b, pending, Marked) == Undispatched(before)
  {
    SelectIs(RowsAt(p, rows, b), p.staleBefore, p.batchSize, 0);
    BatchCounts(p, b, RowsAt(p, rows, b), Selected(p, rows, b));
  }

  /** Each selection uses up one leasable row, unless it gives the lease back. */
  lemma {:induction false} LeasableConserved(p: Plan, rows: seq<OutboxRow>, b: nat)
    requires p.staleBefore < p.now
    ensures Leasable(RowsAt(p, rows, b), p.staleBefore) + SelectedBefore(p, rows, b)
            == Leasable(rows, p.staleBefore) + TriedBefore(p, rows, b, Cleared)
  {
    if b > 0 {
      LeasableConserved(p, rows, b - 1);
      NextBatch(p, rows, b - 1);
    }
  }

  /** Each marked selection is one undispatched row less. */
  lemma {:induction false} UndispatchedConserved(p: Plan, rows: seq<OutboxRow>, b: nat)
    requires p.staleBefore < p.now
    ensures Undispatched(RowsAt(p, rows, b)) + TriedBefore(p, rows, b, Marked) == Undispatched(rows)
  {
    if b > 0 {
      UndispatchedConserved(p, rows, b - 1);
      NextBatch(p, rows, b - 1);
    }
  }

  /** A run that stops early leaves leasable only rows whose lease its last batch gave back. */
  lemma {:induction false} EarlyStopLeavesCleared(p: Plan, rows: seq<OutboxRow>, maxBatches: nat, n: nat, r: nat)
    requires p.staleBefore < p.now && 0 < p.batchSize && Runs(p, rows, maxBatches, n) && n < maxBatches && r < |rows|
    requires RowLeasable(RowsAt(p, rows, n)[r], p.staleBefore)
    ensures 0 < n && r in Selected(p, rows, n - 1) && p.attempts(n - 1, r) == Cleared
  {
    if Selected(p, rows, n) == [] {
      ShortSelection(RowsAt(p, rows, n), p.staleBefore, p.batchSize, 0, r);
    } else {
      LeasableAfter(p, n - 1, RowsAt(p, rows, n - 1), r);
      ShortSelection(RowsAt(p, rows, n - 1), p.staleBefore, p.batchSize, 0, r);
    }
  }

  // ---- The dispatcher -----------------------------------------------------

  class OutboxTable {
    var rows: seq<OutboxRow>   // in the select order

    constructor (rows: seq<OutboxRow>)
      ensures this.rows == rows
    {
      this.rows := rows;
    }

    /** The callback on each selected row. */
    method DispatchBatch(p: Plan, b: nat, pending: seq<nat>, tally: Tally) returns (t: Tally)
      modifies this
      ensures rows == Apply(p, b, old(rows), pending) && t == CountBatch(p, b, tally, pending)
    {
      t := tally;
      for j := 0 to |pending|
        invariant rows == Apply(p, b, old(rows), pending[..j]) && t == CountBatch(p, b, tally, pending[..j])
      {
        var i := pending[j];
        assert pending[..j + 1][..j] == pending[..j];
        if i < |rows| {
          rows := rows[i := After(rows[i], p.attempts(b, i), p.token, p.now)];
        }
        t := Counted(t, p.attempts(b, i));
      }
      assert pending[..|pending|] == pending;
    }

    /** Batch `b` of a run that began with the rows `start`. */
    method SelectAndDispatch(p: Plan, ghost start: seq<OutboxRow>, b: nat, tally: Tally) returns (t: Tally, size: nat)
      requires rows == RowsAt(p, start, b) && tally == TallyAt(p, start, b)
      modifies this
      ensures size == |Selected(p, start, b)| <= p.batchSize
      ensures size == 0 ==> rows == old(rows) && t == tally
      ensures size > 0 ==> rows == RowsAt(p, start, b + 1) && t == TallyAt(p, start, b + 1)
    {
      var pendingEntries := Select(rows, p.staleBefore, p.batchSize, 0);
      SelectIs(rows, p.staleBefore, p.batchSize, 0);
      t, size := tally.(selected := tally.selected + |pendingEntries|), |pendingEntries|;
      if size > 0 {
        t := DispatchBatch(p, b, pendingEntries, t);
      }
    }

    /** The whole run: `n` batches are dispatched. */
    method DispatchPendingClaimIngestQueueOutbox(p: Plan, maxBatches: nat) returns (t: Tally, ghost n: nat)
      modifies this
      ensures Runs(p, old(rows), maxBatches, n)
      ensures rows == RowsAt(p, old(rows), n) && t == TallyAt(p, old(rows), n)
    {
      t, n := Tally(0, 0, 0, 0), 0;
      for batchIndex: nat := 0 to maxBatches
        invariant n == batchIndex && AllFull(p, old(rows), n)
        invariant rows == RowsAt(p, old(rows), n) && t == TallyAt(p, old(rows), n)
      {
        var size;
        t, size := SelectAndDispatch(p, old(rows), batchIndex, t);
        if size == 0 {
          FullThenEmpty(p, old(rows), maxBatches, n);
          return;
        }
        n := n + 1;
        if size < p.batchSize {
          FullThenShort(p, old(rows), maxBatches, batchIndex);
          return;
        }
      }
      FullThenEmpty(p, old(rows), maxBatches, n);
    }
  }
}
