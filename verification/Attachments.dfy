/**
 What becomes of the attachments of one inbound message: the policy pass, the
 preparation of the accepted ones, and the rows written for both kinds.

 Decoding, scanning, uploading and every insert are given by a `World`, one
 outcome for each attachment index, so that the theorems hold for all of them.
 */
module Attachments {

  import opened Options
  import opened Sequences
  import ConcurrentMap

  datatype Attachment = Attachment(filename: string, byteSize: int, content: string)

  datatype Policy = Policy(maxCount: int, maxBytes: int, maxTotalBytes: int, allowsType: Attachment -> bool)

  datatype Reason =
    | TotalTooLarge
    | TooMany
    | TooLarge
    | TypeNotAllowed
    | NotBase64
    | DecodedTooLarge
    | Quarantined(reason: string)
    | UploadFailed(message: string)
    | WriteFailed(message: string)

  datatype Row = StoredRow(filename: string, byteSize: int) | FailedRow(filename: string, byteSize: int, reason: Reason)

  /** A row with the index of its attachment. */
  datatype Entry = Entry(index: nat, row: Row)

  datatype Candidate = Candidate(index: nat, attachment: Attachment)

  datatype Guarded = Accepted(candidate: Candidate) | Rejected(failure: Entry)

  datatype Prepared = Stored(entry: Entry) | Failed(failure: Entry)

  datatype Scan = Clean | Quarantine(reason: string) | ScanThrows

  datatype World = World(
    decode: string -> Option<nat>,            // the decoded length, when the content is base64
    scan: nat -> Scan,
    uploadError: nat -> Option<string>,
    failedBatchThrows: bool,                  // the failed rows' createMany, then each single create
    failedCreateThrows: nat -> bool,
    storedBatchThrows: bool,                  // the stored rows' createMany, each single create, and its fallback row
    storedCreateError: nat -> Option<string>,
    fallbackThrows: nat -> bool)

  datatype Report = Report(received: nat, stored: int, failed: nat, errors: seq<Entry>)

  // ---- The stages, as they are composed ----------------------------

  /** Keeps and converts the elements `f` picks. */
  function Pick<T, U>(s: seq<T>, f: T -> Option<U>): seq<U> {
    if s == [] then []
    else Pick(s[..|s| - 1], f) + (if f(s[|s| - 1]).Some? then [f(s[|s| - 1]).value] else [])
  }

  lemma {:induction false} PickSnoc<T, U>(s: seq<T>, x: T, f: T -> Option<U>)
    ensures Pick(s + [x], f) == Pick(s, f) + (if f(x).Some? then [f(x).value] else [])
  {
    assert (s + [x])[..|s|] == s;
  }

  function TotalBytes(attachments: seq<Attachment>): int {
    if attachments == [] then 0
      else TotalBytes(attachments[..|attachments| - 1]) + attachments[|attachments| - 1].byteSize
  }

  /** The total counts every attachment once. */
  lemma {:induction false} TotalBytesAdds(xs: seq<Attachment>, ys: seq<Attachment>, a: Attachment)
    ensures TotalBytes([]) == 0 && TotalBytes([a]) == a.byteSize
    ensures TotalBytes(xs + ys) == TotalBytes(xs) + TotalBytes(ys)
    decreases |ys|
  {
    assert [a][..0] == [];
    if ys == [] {
      assert xs + ys == xs;
    } else {
      var n := |ys| - 1;
      TotalBytesAdds(xs, ys[..n], a);
      assert (xs + ys)[..|xs| + n] == xs + ys[..n];
    }
  }

  function Reject(index: nat, a: Attachment, byteSize: int, reason: Reason): Entry {
    Entry(index, FailedRow(a.filename, byteSize, reason))
  }

  function Guard(policy: Policy, total: int, index: nat, a: Attachment): Guarded {
    if total > policy.maxTotalBytes then Rejected(Reject(index, a, a.byteSize, TotalTooLarge))
    else if index >= policy.maxCount then Rejected(Reject(index, a, a.byteSize, TooMany))
    else if a.byteSize > policy.maxBytes then Rejected(Reject(index, a, a.byteSize, TooLarge))
    else if !policy.allowsType(a) then Rejected(Reject(index, a, a.byteSize, TypeNotAllowed))
    else Accepted(Candidate(index, a))
  }

  function ApplyAttachmentPolicy(policy: Policy, total: int, attachments: seq<Attachment>): (r: seq<Guarded>)
    ensures |r| == |attachments|
  {
    if attachments == [] then []
    else
      var n := |attachments| - 1;
      ApplyAttachmentPolicy(policy, total, attachments[..n]) + [Guard(policy, total, n, attachments[n])]
  }

  /** The scan that throws is not caught here: `None`. */
  function Prepare(policy: Policy, world: World, c: Candidate): Option<Prepared> {
    var a, decoded := c.attachment, world.decode(c.attachment.content);
    if decoded.None? then Some(Failed(Reject(c.index, a, a.byteSize, NotBase64)))
    else if decoded.value > policy.maxBytes then Some(Failed(Reject(c.index, a, decoded.value, DecodedTooLarge)))
    else match world.scan(c.index)
         case ScanThrows => None
         case Quarantine(reason) => Some(Failed(Reject(c.index, a, decoded.value, Quarantined(reason))))
         case Clean =>
           var error := world.uploadError(c.index);
           if error.Some? then Some(Failed(Reject(c.index, a, decoded.value, UploadFailed(error.value))))
           else Some(Stored(Entry(c.index, StoredRow(a.filename, decoded.value))))
  }

  function RejectedOf(g: Guarded): Option<Entry> {
    if g.Rejected? then Some(g.failure) else None
  }

  function AcceptedOf(g: Guarded): Option<Candidate> {
    if g.Accepted? then Some(g.candidate) else None
  }

  function FailedOf(p: Prepared): Option<Entry> {
    if p.Failed? then Some(p.failure) else None
  }

  function StoredOf(p: Prepared): Option<Entry> {
    if p.Stored? then Some(p.entry) else None
  }

  /** A stored row whose own insert fails after the batch insert failed is replaced by a failed row. */
  function WriteFailure(world: World, p: Entry): Option<Entry> {
    if world.storedBatchThrows && world.storedCreateError(p.index).Some?
    then Some(Entry(p.index, FailedRow(p.row.filename, p.row.byteSize,
                                       WriteFailed(world.storedCreateError(p.index).value))))
    else None
  }

  /** A stable insertion sort by index. */
  function Insert(s: seq<Entry>, f: Entry): seq<Entry> {
    if s == [] || s[|s| - 1].index <= f.index then s + [f]
    else Insert(s[..|s| - 1], f) + [s[|s| - 1]]
  }

  function SortByIndex(s: seq<Entry>): seq<Entry> {
    if s == [] then [] else Insert(SortByIndex(s[..|s| - 1]), s[|s| - 1])
  }

  // ---- The reference: one attachment at a time ----------------------------

  /** The row attachment `index` ends with, its failure included. */
  function RowFor(policy: Policy, world: World, total: int, index: nat, a: Attachment): Row {
    var decoded := world.decode(a.content);
    if total > policy.maxTotalBytes then FailedRow(a.filename, a.byteSize, TotalTooLarge)
    else if index >= policy.maxCount then FailedRow(a.filename, a.byteSize, TooMany)
    else if a.byteSize > policy.maxBytes then FailedRow(a.filename, a.byteSize, TooLarge)
    else if !policy.allowsType(a) then FailedRow(a.filename, a.byteSize, TypeNotAllowed)
    else if decoded.None? then FailedRow(a.filename, a.byteSize, NotBase64)
    else if decoded.value > policy.maxBytes then FailedRow(a.filename, decoded.value, DecodedTooLarge)
    else if world.scan(index).Quarantine? then FailedRow(a.filename, decoded.value,
                                                         Quarantined(world.scan(index).reason))
    else if world.uploadError(index).Some? then FailedRow(a.filename, decoded.value,
                                                          UploadFailed(world.uploadError(index).value))
    else if world.storedBatchThrows && world.storedCreateError(index).Some?
    then FailedRow(a.filename, decoded.value, WriteFailed(world.storedCreateError(index).value))
    else StoredRow(a.filename, decoded.value)
  }

  function RowsFor(policy: Policy, world: World, total: int, attachments: seq<Attachment>): (r: seq<Row>)
    ensures |r| == |attachments|
  {
    if attachments == [] then []
    else
      var n := |attachments| - 1;
      RowsFor(policy, world, total, attachments[..n]) + [RowFor(policy, world, total, n, attachments[n])]
  }

  /** The failed rows with their indices, in index order. */
  function FailuresIn(rows: seq<Row>): (r: seq<Entry>)
    ensures forall i :: 0 <= i < |r| ==> r[i].index < |rows|
  {
    if rows == [] then []
    else
      var n := |rows| - 1;
      FailuresIn(rows[..n]) + (if rows[n].FailedRow? then [Entry(n, rows[n])] else [])
  }

  /** What the response says of the rows written. */
  function ReportOf(rows: seq<Row>): Report {
    var errors := FailuresIn(rows);
    Report(|rows|, |rows| - |errors|, |errors|, errors)
  }

  predicate Ascending(s: seq<Entry>) {
    forall i, j :: 0 <= i < j < |s| ==> s[i].index < s[j].index
  }

  lemma {:induction false} FailuresAre(rows: seq<Row>)
    ensures Ascending(FailuresIn(rows))
    ensures forall f :: f in FailuresIn(rows) <==> f.index < |rows| && rows[f.index] == f.row && f.row.FailedRow?
  {
    if rows != [] {
      FailuresAre(rows[..|rows| - 1]);
    }
  }

  /**
   A report accounts for every row: stored and failed add up, and the errors name each failed one once in index
   order.
   */
  lemma {:induction false} ReportConserves(rows: seq<Row>)
    ensures var report := ReportOf(rows);
            && report.received == |rows| == report.stored + report.failed && 0 <= report.stored
            && report.failed == |report.errors| && Ascending(report.errors)
            && forall f :: f in report.errors <==> f.index < |rows| && rows[f.index] == f.row && f.row.FailedRow?
  {
    FailuresAre(rows);
    AtMostOneEach(rows);
  }

  /** A row is stored exactly when it is within every limit of the policy and nothing refused or lost it. */
  lemma {:induction false} StoredIsWithinPolicy(policy: Policy, world: World, attachments: seq<Attachment>, i: nat)
    requires i < |attachments|
    ensures var row, a := RowsFor(policy, world, TotalBytes(attachments), attachments)[i], attachments[i];
            && (row.StoredRow? ==> row.byteSize <= policy.maxBytes && world.decode(a.content) == Some(row.byteSize))
            && (row.StoredRow? <==>
                  && TotalBytes(attachments) <= policy.maxTotalBytes && i < policy.maxCount
                  && a.byteSize <= policy.maxBytes && policy.allowsType(a)
                  && world.decode(a.content).Some? && world.decode(a.content).value <= policy.maxBytes
                  && !world.scan(i).Quarantine? && world.uploadError(i).None?
                  && !(world.storedBatchThrows && world.storedCreateError(i).Some?))
  {
    RowsForAt(policy, world, TotalBytes(attachments), attachments, i);
  }

  /** What a failed row gives as its reason is so. */
  lemma {:induction false} ReasonIsTrue(policy: Policy, world: World, attachments: seq<Attachment>, i: nat)
    requires i < |attachments| && RowsFor(policy, world, TotalBytes(attachments), attachments)[i].FailedRow?
    ensures var a := attachments[i];
            match RowsFor(policy, world, TotalBytes(attachments), attachments)[i].reason
            case TotalTooLarge => TotalBytes(attachments) > policy.maxTotalBytes
            case TooMany => policy.maxCount <= i
            case TooLarge => a.byteSize > policy.maxBytes
            case TypeNotAllowed => !policy.allowsType(a)
            case NotBase64 => world.decode(a.content).None?
            case DecodedTooLarge => world.decode(a.content).Some? && world.decode(a.content).value > policy.maxBytes
            case Quarantined(reason) => world.scan(i) == Quarantine(reason)
            case UploadFailed(message) => world.uploadError(i) == Some(message)
            case WriteFailed(message) => world.storedBatchThrows && world.storedCreateError(i) == Some(message)
  {
    RowsForAt(policy, world, TotalBytes(attachments), attachments, i);
  }

  lemma {:induction false} AtMostOneEach(rows: seq<Row>)
    ensures |FailuresIn(rows)| <= |rows|
  {
    if rows != [] {
      AtMostOneEach(rows[..|rows| - 1]);
    }
  }

  lemma {:induction false} RowsForAt(policy: Policy, world: World, total: int, attachments: seq<Attachment>, i: nat)
    requires i < |attachments|
    ensures RowsFor(policy, world, total, attachments)[i] == RowFor(policy, world, total, i, attachments[i])
  {
    if i < |attachments| - 1 {
      RowsForAt(policy, world, total, attachments[..|attachments| - 1], i);
    }
  }

  // ---- The stages agree with the reference --------------------------------

  function Preparer(policy: Policy, world: World): Candidate -> Option<Prepared> {
    c => Prepare(policy, world, c)
  }

  /** The stored rows whose inserts fail, as the failed rows that replace them. */
  function LostOf(world: World, stored: seq<Entry>): seq<Entry> {
    if stored == [] then []
    else
      var f := WriteFailure(world, stored[|stored| - 1]);
      LostOf(world, stored[..|stored| - 1]) + (if f.Some? then [f.value] else [])
  }

  function WrittenOf(world: World, stored: seq<Entry>): seq<Row> {
    if stored == [] then []
    else
      var p := stored[|stored| - 1];
      WrittenOf(world, stored[..|stored| - 1]) + (if WriteFailure(world, p).None? then [p.row] else [])
  }

  lemma {:induction false} LostOfSnoc(world: World, stored: seq<Entry>, p: Entry)
    ensures LostOf(world, stored + [p])
            == LostOf(world, stored) + (if WriteFailure(world, p).Some? then [WriteFailure(world, p).value] else [])
    ensures WrittenOf(world, stored + [p])
            == WrittenOf(world, stored) + (if WriteFailure(world, p).None? then [p.row] else [])
  {
    assert (stored + [p])[..|stored|] == stored;
  }

  function RowsOf(failures: seq<Entry>): seq<Row> {
    if failures == [] then [] else RowsOf(failures[..|failures| - 1]) + [failures[|failures| - 1].row]
  }

  function Rows(failures: seq<Entry>): multiset<Row> {
    multiset(RowsOf(failures))
  }

  /**
   Failures of the policy pass, of preparation and of the stored inserts; what is stored, and what of it is
   written.
   */
  datatype Stages = Stages(
    candidates: seq<Candidate>,
    rejected: seq<Entry>,
    failed: seq<Entry>,
    stored: seq<Entry>,
    lost: seq<Entry>,
    written: seq<Row>)

  function StagesFrom(policy: Policy, world: World, guarded: seq<Guarded>): Stages {
    var candidates := Pick(guarded, AcceptedOf);
    var prepared := Pick(candidates, Preparer(policy, world));
    var stored := Pick(prepared, StoredOf);
    Stages(candidates, Pick(guarded, RejectedOf), Pick(prepared, FailedOf), stored, LostOf(world, stored),
           WrittenOf(world, stored))
  }

  function StagesOf(policy: Policy, world: World, total: int, attachments: seq<Attachment>): Stages {
    StagesFrom(policy, world, ApplyAttachmentPolicy(policy, total, attachments))
  }

  /** One more attachment, with row `row`, lands in exactly one place. */
  ghost predicate Grown(before: Stages, after: Stages, n: nat, row: Row) {
    var f := Entry(n, row);
    || (row.FailedRow? && after == before.(rejected := before.rejected + [f]))
    || (row.FailedRow? && after == before.(candidates := after.candidates, failed := before.failed + [f]))
    || (row.FailedRow? && |after.stored| == |before.stored| + 1
        && after == before.(candidates := after.candidates, stored := after.stored, lost := before.lost + [f]))
    || (row.StoredRow? && |after.stored| == |before.stored| + 1
        && after == before.(candidates := after.candidates, stored := after.stored, written := before.written + [row]))
  }

  ghost predicate NoScanThrows(policy: Policy, world: World, candidates: seq<Candidate>) {
    forall i :: 0 <= i < |candidates| ==> Prepare(policy, world, candidates[i]).Some?
  }

  /** The outcome of one guarded attachment, stage by stage. */
  function Extended(policy: Policy, world: World, s: Stages, g: Guarded): Stages
    requires g.Accepted? ==> Prepare(policy, world, g.candidate).Some?
  {
    if g.Rejected? then s.(rejected := s.rejected + [g.failure])
    else
      var p, t := Prepare(policy, world, g.candidate).value, s.(candidates := s.candidates + [g.candidate]);
      if p.Failed? then t.(failed := s.failed + [p.failure])
      else if WriteFailure(world, p.entry).Some?
      then t.(stored := s.stored + [p.entry], lost := s.lost + [WriteFailure(world, p.entry).value])
      else t.(stored := s.stored + [p.entry], written := s.written + [p.entry.row])
  }

  lemma {:induction false} StagesExtend(policy: Policy, world: World, guarded: seq<Guarded>, g: Guarded)
    requires g.Accepted? ==> Prepare(policy, world, g.candidate).Some?
    ensures StagesFrom(policy, world, guarded + [g]) == Extended(policy, world, StagesFrom(policy, world, guarded), g)
  {
    var candidates := Pick(guarded, AcceptedOf);
    PickSnoc(guarded, g, AcceptedOf);
    PickSnoc(guarded, g, RejectedOf);
    if g.Rejected? {
      assert Pick(guarded + [g], AcceptedOf) == candidates;
    } else {
      var prepared, p := Pick(candidates, Preparer(policy, world)), Prepare(policy, world, g.candidate).value;
      assert Pick(guarded + [g], RejectedOf) == Pick(guarded, RejectedOf);
      PickSnoc(candidates, g.candidate, Preparer(policy, world));
      PreparedExtends(world, prepared, p);
    }
  }

  lemma {:induction false} PreparedExtends(world: World, prepared: seq<Prepared>, p: Prepared)
    ensures p.Failed? ==>
              && Pick(prepared + [p], FailedOf) == Pick(prepared, FailedOf) + [p.failure]
              && Pick(prepared + [p], StoredOf) == Pick(prepared, StoredOf)
    ensures p.Stored? ==>
              var stored, failure := Pick(prepared, StoredOf), WriteFailure(world, p.entry);
              && Pick(prepared + [p], FailedOf) == Pick(prepared, FailedOf)
              && Pick(prepared + [p], StoredOf) == stored + [p.entry]
              && (failure.Some? ==>
                    && LostOf(world, stored + [p.entry]) == LostOf(world, stored) + [failure.value]
                    && WrittenOf(world, stored + [p.entry]) == WrittenOf(world, stored))
              && (failure.None? ==>
                    && LostOf(world, stored + [p.entry]) == LostOf(world, stored)
                    && WrittenOf(world, stored + [p.entry]) == WrittenOf(world, stored) + [p.entry.row])
  {
    PickSnoc(prepared, p, FailedOf);
    PickSnoc(prepared, p, StoredOf);
    if p.Stored? {
      LostOfSnoc(world, Pick(prepared, StoredOf), p.entry);
    }
  }

  lemma {:induction false} StagesGrow(policy: Policy, world: World, total: int, attachments: seq<Attachment>)
    requires attachments != [] && NoScanThrows(policy, world, StagesOf(policy, world, total, attachments).candidates)
    ensures var n := |attachments| - 1;
            var before, after := StagesOf(policy, world, total, attachments[..n]),
                                 StagesOf(policy, world, total, attachments);
            && NoScanThrows(policy, world, before.candidates)
            && Grown(before, after, n, RowFor(policy, world, total, n, attachments[n]))
  {
    var n := |attachments| - 1;
    var before, after := StagesOf(policy, world, total, attachments[..n]), StagesOf(policy, world, total, attachments);
    var guarded, g := ApplyAttachmentPolicy(policy, total, attachments[..n]), Guard(policy, total, n, attachments[n]);
    CandidatesExtend(policy, world, guarded, g);
    StagesExtend(policy, world, guarded, g);
    ExtendedGrows(policy, world, total, before, n, attachments[n]);
  }

  lemma {:induction false} CandidatesExtend(policy: Policy, world: World, guarded: seq<Guarded>, g: Guarded)
    requires NoScanThrows(policy, world, Pick(guarded + [g], AcceptedOf))
    ensures NoScanThrows(policy, world, Pick(guarded, AcceptedOf))
    ensures g.Accepted? ==> Prepare(policy, world, g.candidate).Some?
  {
    var candidates, all := Pick(guarded, AcceptedOf), Pick(guarded + [g], AcceptedOf);
    PickSnoc(guarded, g, AcceptedOf);
    assert forall i :: 0 <= i < |candidates| ==> all[i] == candidates[i];
    assert g.Accepted? ==> all[|candidates|] == g.candidate;
  }

  lemma {:induction false} ExtendedGrows(policy: Policy, world: World, total: int, before: Stages, n: nat,
                                         a: Attachment)
    requires var g := Guard(policy, total, n, a);
             g.Accepted? ==> Prepare(policy, world, g.candidate).Some?
    ensures Grown(before, Extended(policy, world, before, Guard(policy, total, n, a)), n,
                  RowFor(policy, world, total, n, a))
  {
  }

  predicate Below(failures: seq<Entry>, n: nat) {
    forall i :: 0 <= i < |failures| ==> failures[i].index < n
  }

  ghost predicate Agrees(s: Stages, rows: seq<Row>) {
    Sized(s, |rows|) && SortByIndex(AllFailures(s)) == FailuresIn(rows) && AllWritten(s) == multiset(rows)
  }

  lemma {:induction false} RowsSnoc(failures: seq<Entry>, f: Entry)
    ensures Rows(failures + [f]) == Rows(failures) + multiset{f.row}
  {
    assert (failures + [f])[..|failures|] == failures;
  }

  lemma {:induction false} RowsAppend(a: seq<Entry>, b: seq<Entry>)
    ensures Rows(a + b) == Rows(a) + Rows(b)
  {
    if b == [] {
      assert a + b == a;
    } else {
      var n := |b| - 1;
      Assoc(a, b[..n], [b[n]]);
      assert b == b[..n] + [b[n]];
      RowsSnoc(a + b[..n], b[n]);
      RowsAppend(a, b[..n]);
    }
  }

  lemma {:induction false} InsertUnder(s: seq<Entry>, top: Entry, f: Entry)
    requires f.index < top.index
    ensures Insert(s + [top], f) == Insert(s, f) + [top]
  {
    assert (s + [top])[..|s|] == s;
  }

  lemma {:induction false} InsertBelow(s: seq<Entry>, f: Entry, n: nat)
    requires Below(s, n) && f.index < n
    ensures Below(Insert(s, f), n)
  {
    if s != [] && s[|s| - 1].index > f.index {
      InsertBelow(s[..|s| - 1], f, n);
    }
  }

  lemma {:induction false} SortBelow(s: seq<Entry>, n: nat)
    requires Below(s, n)
    ensures Below(SortByIndex(s), n)
  {
    if s != [] {
      SortBelow(s[..|s| - 1], n);
      InsertBelow(SortByIndex(s[..|s| - 1]), s[|s| - 1], n);
    }
  }

  lemma {:induction false} InsertPermutes(s: seq<Entry>, f: Entry)
    ensures |Insert(s, f)| == |s| + 1 && multiset(Insert(s, f)) == multiset(s) + multiset{f}
  {
    if s != [] && s[|s| - 1].index > f.index {
      var n := |s| - 1;
      InsertPermutes(s[..n], f);
      assert s == s[..n] + [s[n]];
    }
  }

  lemma {:induction false} SortPermutes(s: seq<Entry>)
    ensures |SortByIndex(s)| == |s| && multiset(SortByIndex(s)) == multiset(s)
  {
    if s != [] {
      var n := |s| - 1;
      SortPermutes(s[..n]);
      InsertPermutes(SortByIndex(s[..n]), s[n]);
      assert s == s[..n] + [s[n]];
    }
  }

  /** The largest index sorts to the end from wherever it stands. */
  lemma {:induction false} SortPullsTop(a: seq<Entry>, top: Entry, b: seq<Entry>)
    requires Below(a, top.index) && Below(b, top.index)
    ensures SortByIndex(a + [top] + b) == SortByIndex(a + b) + [top]
  {
    if b == [] {
      assert a + [top] + b == a + [top] && a + b == a && (a + [top])[..|a|] == a;
      SortBelow(a, top.index);
    } else {
      var n := |b| - 1;
      SortPullsTop(a, top, b[..n]);
      DropLast(a + [top], b);
      DropLast(a, b);
      InsertUnder(SortByIndex(a + b[..n]), top, b[n]);
    }
  }

  lemma {:induction false} DropLast<T>(a: seq<T>, b: seq<T>)
    requires b != []
    ensures (a + b)[..|a + b| - 1] == a + b[..|b| - 1] && (a + b)[|a + b| - 1] == b[|b| - 1]
  {
  }

  lemma {:induction false} GrownAgrees(before: Stages, after: Stages, rows: seq<Row>, row: Row)
    requires Agrees(before, rows) && Grown(before, after, |rows|, row)
    ensures Agrees(after, rows + [row])
  {
    FailuresSnoc(rows, row);
    SortGrows(before, after, |rows|, row);
    RowsGrow(before, after, |rows|, row);
    CountsGrow(before, after, |rows|, row);
  }

  predicate Sized(s: Stages, n: nat) {
    && Below(s.rejected, n) && Below(s.failed, n) && Below(s.lost, n)
    && |s.stored| == |s.lost| + |s.written|
    && |s.rejected| + |s.failed| + |s.stored| == n
  }

  lemma {:induction false} CountsGrow(before: Stages, after: Stages, n: nat, row: Row)
    requires Sized(before, n) && Grown(before, after, n, row)
    ensures Sized(after, n + 1)
  {
  }

  /** The rows written: the failed ones, the stored ones, and the fallbacks of the lost ones. */
  function AllWritten(s: Stages): multiset<Row> {
    Rows(s.rejected) + Rows(s.failed) + Rows(s.lost) + multiset(s.written)
  }

  lemma {:induction false} FailuresSnoc(rows: seq<Row>, row: Row)
    ensures FailuresIn(rows + [row]) == FailuresIn(rows) + (if row.FailedRow? then [Entry(|rows|, row)] else [])
    ensures multiset(rows + [row]) == multiset(rows) + multiset{row}
  {
    assert (rows + [row])[..|rows|] == rows;
  }

  function AllFailures(s: Stages): seq<Entry> {
    s.rejected + s.failed + s.lost
  }

  lemma {:induction false} SortGrows(before: Stages, after: Stages, n: nat, row: Row)
    requires Grown(before, after, n, row) && Below(before.rejected, n) && Below(before.failed, n)
             && Below(before.lost, n)
    ensures SortByIndex(AllFailures(after))
            == SortByIndex(AllFailures(before)) + (if row.FailedRow? then [Entry(n, row)] else [])
  {
    var f := Entry(n, row);
    if row.StoredRow? {
      assert AllFailures(after) == AllFailures(before);
    } else if |after.rejected| > |before.rejected| {
      SortPullsTop(before.rejected, f, before.failed + before.lost);
      Assoc(before.rejected + [f], before.failed, before.lost);
      Assoc(before.rejected, before.failed, before.lost);
    } else if |after.failed| > |before.failed| {
      SortPullsTop(before.rejected + before.failed, f, before.lost);
      Assoc(before.rejected, before.failed, [f]);
    } else {
      SortPullsTop(AllFailures(before), f, []);
      Assoc(before.rejected + before.failed, before.lost, [f]);
      assert AllFailures(before) + [] == AllFailures(before);
      assert AllFailures(before) + [f] + [] == AllFailures(before) + [f];
    }
  }

  lemma {:induction false} RowsGrow(before: Stages, after: Stages, n: nat, row: Row)
    requires Grown(before, after, n, row)
    ensures AllWritten(after) == AllWritten(before) + multiset{row}
  {
    var f := Entry(n, row);
    if |after.rejected| > |before.rejected| {
      RowsSnoc(before.rejected, f);
    } else if |after.failed| > |before.failed| {
      RowsSnoc(before.failed, f);
    } else if |after.lost| > |before.lost| {
      RowsSnoc(before.lost, f);
    }
    AddAnywhere(Rows(before.rejected), Rows(before.failed), Rows(before.lost), multiset(before.written), multiset{row});
  }

  lemma {:induction false} AddAnywhere(a: multiset<Row>, b: multiset<Row>, c: multiset<Row>, d: multiset<Row>,
                                       x: multiset<Row>)
    ensures (a + x) + b + c + d == a + b + c + d + x
    ensures a + (b + x) + c + d == a + b + c + d + x
    ensures a + b + (c + x) + d == a + b + c + d + x
    ensures a + b + c + (d + x) == a + b + c + d + x
  {
  }

  /** The composed stages report and write what the reference gives each attachment. */
  lemma {:induction false} StagesAgree(policy: Policy, world: World, total: int, attachments: seq<Attachment>)
    requires NoScanThrows(policy, world, StagesOf(policy, world, total, attachments).candidates)
    ensures Agrees(StagesOf(policy, world, total, attachments), RowsFor(policy, world, total, attachments))
  {
    if attachments != [] {
      var n := |attachments| - 1;
      StagesGrow(policy, world, total, attachments);
      StagesAgree(policy, world, total, attachments[..n]);
      GrownAgrees(StagesOf(policy, world, total, attachments[..n]), StagesOf(policy, world, total, attachments),
                  RowsFor(policy, world, total, attachments[..n]), RowFor(policy, world, total, n, attachments[n]));
    }
  }

  /** The counted report is the reference's. */
  lemma {:induction false} ReportsAgree(s: Stages, rows: seq<Row>)
    requires Agrees(s, rows)
    ensures var errors := SortByIndex(AllFailures(s));
            Report(|rows|, |s.stored| - |s.lost|, |errors|, errors) == ReportOf(rows)
  {
    SortPermutes(AllFailures(s));
  }

  // ---- The table and the passes over it -----------------------------------

  predicate AnyCreateThrows(world: World, failures: seq<Entry>) {
    exists i :: 0 <= i < |failures| && world.failedCreateThrows(failures[i].index)
  }

  predicate FallbackThrows(world: World, p: Entry) {
    WriteFailure(world, p).Some? && world.fallbackThrows(WriteFailure(world, p).value.index)
  }

  predicate NoFallbackThrows(world: World, stored: seq<Entry>) {
    stored == [] || (NoFallbackThrows(world, stored[..|stored| - 1]) && !FallbackThrows(world, stored[|stored| - 1]))
  }

  /** What single inserts write: those that throw leave no row, the others go on. */
  function Created(throws: nat -> bool, failures: seq<Entry>): seq<Row> {
    if failures == [] then []
    else
      var n := |failures| - 1;
      Created(throws, failures[..n]) + (if throws(failures[n].index) then [] else [failures[n].row])
  }

  lemma {:induction false} NextCreated(throws: nat -> bool, failures: seq<Entry>, k: nat)
    requires k < |failures|
    ensures Created(throws, failures[..k + 1])
            == Created(throws, failures[..k]) + (if throws(failures[k].index) then [] else [failures[k].row])
  {
    assert failures[..k + 1][..k] == failures[..k];
  }

  lemma {:induction false} CreatedAll(throws: nat -> bool, failures: seq<Entry>)
    requires forall i :: 0 <= i < |failures| ==> !throws(failures[i].index)
    ensures Created(throws, failures) == RowsOf(failures)
  {
    if failures != [] {
      CreatedAll(throws, failures[..|failures| - 1]);
    }
  }

  /** The row a stored attachment leaves: its own, its fallback, or none when that throws too. */
  function AddedBy(world: World, p: Entry): seq<Row> {
    if WriteFailure(world, p).None? then [p.row]
    else if FallbackThrows(world, p) then []
    else [WriteFailure(world, p).value.row]
  }

  function Added(world: World, stored: seq<Entry>): seq<Row> {
    if stored == [] then [] else Added(world, stored[..|stored| - 1]) + AddedBy(world, stored[|stored| - 1])
  }

  lemma {:induction false} AddedAll(world: World, stored: seq<Entry>)
    requires NoFallbackThrows(world, stored)
    ensures multiset(Added(world, stored)) == Rows(LostOf(world, stored)) + multiset(WrittenOf(world, stored))
  {
    if stored != [] {
      var n := |stored| - 1;
      AddedAll(world, stored[..n]);
      AddedStep(world, stored[..n], stored[n]);
      NextPrefix(stored, n);
      WholePrefix(stored);
    }
  }

  lemma {:induction false} AddedStep(world: World, stored: seq<Entry>, p: Entry)
    requires !FallbackThrows(world, p)
    ensures multiset(AddedBy(world, p)) + Rows(LostOf(world, stored)) + multiset(WrittenOf(world, stored))
            == Rows(LostOf(world, stored + [p])) + multiset(WrittenOf(world, stored + [p]))
  {
    LostOfSnoc(world, stored, p);
    if WriteFailure(world, p).Some? {
      RowsSnoc(LostOf(world, stored), WriteFailure(world, p).value);
      assert WrittenOf(world, stored + [p]) == WrittenOf(world, stored);
    } else {
      assert LostOf(world, stored + [p]) == LostOf(world, stored);
    }
  }

  lemma {:induction false} NextAdded(world: World, stored: seq<Entry>, k: nat)
    requires k < |stored|
    ensures Added(world, stored[..k + 1]) == Added(world, stored[..k]) + AddedBy(world, stored[k])
    ensures var failure := WriteFailure(world, stored[k]);
            LostOf(world, stored[..k + 1])
            == LostOf(world, stored[..k]) + (if failure.Some? then [failure.value] else [])
    ensures NoFallbackThrows(world, stored[..k + 1])
            <==> NoFallbackThrows(world, stored[..k]) && !FallbackThrows(world, stored[k])
  {
    NextPrefix(stored, k);
  }

  /** The table, oldest row first. */
  class ClaimAttachments {
    var rows: seq<Row>

    constructor ()
      ensures rows == []
    {
      rows := [];
    }

    /** One insert for all, or else one for each; the single inserts all happen even when one throws. */
    method PersistFailedAttachmentRows(world: World, failures: seq<Entry>) returns (ok: bool)
      modifies this
      ensures ok <==> !(world.failedBatchThrows && AnyCreateThrows(world, failures))
      ensures rows == old(rows) + if world.failedBatchThrows
                                  then Created(world.failedCreateThrows, failures) else RowsOf(failures)
    {
      ok := true;
      if !world.failedBatchThrows {
        rows := rows + RowsOf(failures);
        return;
      }
      for k := 0 to |failures|
        invariant ok <==> forall i :: 0 <= i < k ==> !world.failedCreateThrows(failures[i].index)
        invariant rows == old(rows) + Created(world.failedCreateThrows, failures[..k])
      {
        NextCreated(world.failedCreateThrows, failures, k);
        if world.failedCreateThrows(failures[k].index) {
          ok := false;
        } else {
          rows := rows + [failures[k].row];
        }
      }
      WholePrefix(failures);
    }

    /** Writes the stored rows; one whose insert fails alone is recorded as failed instead, and returned. */
    method PersistStoredAttachmentRows(world: World, stored: seq<Entry>) returns (ok: bool, lost: seq<Entry>)
      modifies this
      ensures lost == LostOf(world, stored)
      ensures ok <==> NoFallbackThrows(world, stored)
      ensures rows == old(rows) + Added(world, stored)
    {
      ok, lost := true, [];
      for k := 0 to |stored|
        invariant lost == LostOf(world, stored[..k]) && (ok <==> NoFallbackThrows(world, stored[..k]))
        invariant rows == old(rows) + Added(world, stored[..k])
      {
        NextAdded(world, stored, k);
        var failure := WriteFailure(world, stored[k]);
        if failure.None? {
          rows := rows + [stored[k].row];
        } else {
          lost := lost + [failure.value];
          if world.fallbackThrows(failure.value.index) {
            ok := false;
          } else {
            rows := rows + [failure.value.row];
          }
        }
      }
      WholePrefix(stored);
    }

    /** The failed rows, then the stored ones: all of them written, unless an insert throws. */
    method WriteRows(world: World, failed: seq<Entry>, stored: seq<Entry>) returns (ok: bool, lost: seq<Entry>)
      modifies this
      ensures ok <==> !(world.failedBatchThrows && AnyCreateThrows(world, failed)) && NoFallbackThrows(world, stored)
      ensures ok ==> lost == LostOf(world, stored)
      ensures ok ==>
                multiset(rows)
                == multiset(old(rows)) + Rows(failed) + (Rows(lost) + multiset(WrittenOf(world, stored)))
      ensures old(rows) <= rows
    {
      lost := [];
      ok := PersistFailedAttachmentRows(world, failed);
      if ok {
        if world.failedBatchThrows {
          CreatedAll(world.failedCreateThrows, failed);
        }
        ok, lost := PersistStoredAttachmentRows(world, stored);
        if ok {
          AddedAll(world, stored);
        }
      }
    }

    /**
     Nothing thrown: every received attachment leaves exactly one row and the report is the reference's. A throw
     loses the report, never a row already there.
     */
    method PersistAttachments(policy: Policy, world: World, attachments: seq<Attachment>)
      returns (report: Option<Report>)
      modifies this
      ensures report.Some? <==> Survives(policy, world, StagesOf(policy, world, TotalBytes(attachments), attachments))
      ensures report.Some? ==>
                var expected := RowsFor(policy, world, TotalBytes(attachments), attachments);
                report.value == ReportOf(expected) && multiset(rows) == multiset(old(rows)) + multiset(expected)
      ensures old(rows) <= rows
    {
      if attachments == [] {
        return Some(Report(0, 0, 0, []));
      }
      ghost var stages := StagesOf(policy, world, TotalBytes(attachments), attachments);
      var threw, failed, stored := PrepareAll(policy, world, attachments);
      if threw {
        return None;
      }
      ghost var before := rows;
      var ok, lost := WriteRows(world, failed, stored);
      if !ok {
        return None;
      }
      Concludes(policy, world, attachments, stages, lost, before, rows);
      var errors := SortByIndex(failed + lost);
      return Some(Report(|attachments|, |stored| - |lost|, |errors|, errors));
    }
  }

  /** The policy pass and the preparation: what failed so far, and what is to be stored. */
  method PrepareAll(policy: Policy, world: World, attachments: seq<Attachment>)
    returns (threw: bool, failed: seq<Entry>, stored: seq<Entry>)
    ensures var s := StagesOf(policy, world, TotalBytes(attachments), attachments);
            && (threw <==> AnyScanThrows(policy, world, s.candidates))
            && (!threw ==> failed == s.rejected + s.failed && stored == s.stored)
  {
    var guarded := ApplyAttachmentPolicy(policy, TotalBytes(attachments), attachments);
    var candidates := Pick(guarded, AcceptedOf);
    if AnyScanThrows(policy, world, candidates) {
      return true, [], [];
    }
    var prepared := Pick(candidates, Preparer(policy, world));
    return false, Pick(guarded, RejectedOf) + Pick(prepared, FailedOf), Pick(prepared, StoredOf);
  }

  /** What was reported and written, once every row is in. */
  lemma {:induction false} Concludes(policy: Policy, world: World, attachments: seq<Attachment>, s: Stages,
                                     lost: seq<Entry>,
                                     before: seq<Row>, after: seq<Row>)
    requires s == StagesOf(policy, world, TotalBytes(attachments), attachments) && lost == s.lost
    requires !AnyScanThrows(policy, world, s.candidates)
    requires multiset(after) == multiset(before) + Rows(s.rejected + s.failed) + (Rows(lost) + multiset(s.written))
    ensures var expected, errors := RowsFor(policy, world, TotalBytes(attachments), attachments),
            SortByIndex(s.rejected + s.failed + lost);
            && Report(|attachments|, |s.stored| - |lost|, |errors|, errors) == ReportOf(expected)
            && multiset(after) == multiset(before) + multiset(expected)
  {
    var expected := RowsFor(policy, world, TotalBytes(attachments), attachments);
    StagesAgree(policy, world, TotalBytes(attachments), attachments);
    ReportsAgree(s, expected);
    RowsAppend(s.rejected, s.failed);
    AddGroups(multiset(before), Rows(s.rejected), Rows(s.failed), Rows(lost), multiset(s.written));
  }

  lemma {:induction false} AddGroups(m: multiset<Row>, a: multiset<Row>, b: multiset<Row>, c: multiset<Row>,
                                     d: multiset<Row>)
    ensures m + (a + b) + (c + d) == m + (a + b + c + d)
  {
  }

  predicate AnyScanThrows(policy: Policy, world: World, candidates: seq<Candidate>) {
    exists i :: 0 <= i < |candidates| && Prepare(policy, world, candidates[i]).None?
  }

  /** No scan, no insert of a failed row and no fallback insert throws. */
  predicate Survives(policy: Policy, world: World, s: Stages) {
    && !AnyScanThrows(policy, world, s.candidates)
    && !(world.failedBatchThrows && AnyCreateThrows(world, s.rejected + s.failed))
    && NoFallbackThrows(world, s.stored)
  }

  // ---- The worker pool prepares the candidates ----------------------------

  lemma {:induction false} PickAll<T, U>(s: seq<T>, f: T -> Option<U>)
    requires forall i :: 0 <= i < |s| ==> f(s[i]).Some?
    ensures |Pick(s, f)| == |s| && forall i :: 0 <= i < |s| ==> Some(Pick(s, f)[i]) == f(s[i])
  {
    if s != [] {
      PickAll(s[..|s| - 1], f);
    }
  }

  /** Whatever the interleaving of the pool's workers, its results are the prepared candidates in their order. */
  lemma {:induction false} PoolPrepares(policy: Policy, world: World, job: ConcurrentMap.Job<Candidate, Prepared>,
                                        concurrency: real,
                                        run: seq<ConcurrentMap.Pool<Prepared>>)
    requires forall c, i, r :: job.allows(c, i, r) <==> Prepare(policy, world, c) == Some(r)
    requires ConcurrentMap.Run(job, ConcurrentMap.WorkerCount(concurrency, |job.items|), run)
    requires ConcurrentMap.Completed(run[|run| - 1])
    ensures !AnyScanThrows(policy, world, job.items)
    ensures var results, prepared := run[|run| - 1].results, Pick(job.items, Preparer(policy, world));
            |results| == |prepared| && forall i :: 0 <= i < |results| ==> results[i] == Some(prepared[i])
  {
    ConcurrentMap.CompletedMapsAll(job, concurrency, run);
    var results := run[|run| - 1].results;
    forall i | 0 <= i < |results|
      ensures Preparer(policy, world)(job.items[i]) == results[i]
    {
      assert job.allows(job.items[i], i, results[i].value);
    }
    PickAll(job.items, Preparer(policy, world));
  }
}
