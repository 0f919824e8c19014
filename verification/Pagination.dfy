/**
 Bidirectional keyset pagination: three orders of the error queue and the
 dashboard's. The SQL cursor predicates are written branch by branch as in the
 queries and proved to be the ORDER BY's own lexicographic order.
 */
module Pagination {
  import opened Options
  import opened Sequences

  datatype Row = Row(id: string, createdAt: int, updatedAt: int, receiveCount: Option<int>, failureAt: Option<int>)

  datatype Sort = UpdatedDesc | ReceiveCountDesc | FailureOldestFirst | CreatedDesc

  datatype Direction = Forward | Backward

  datatype Cursor =
    | Updated(timestamp: int, id: string)
    | ReceiveCount(receiveCount: int, timestamp: int, id: string)
    | FailureOldest(occurredAt: int, id: string)
    | Created(timestamp: int, id: string)

  function FailureReceiveCount(row: Row): int {
    if row.receiveCount.Some? then row.receiveCount.value else -1
  }

  function FailureOccurredAt(row: Row): int {
    if row.failureAt.Some? then row.failureAt.value else row.updatedAt
  }

  function CursorOf(row: Row, sort: Sort): Cursor {
    match sort
    case ReceiveCountDesc => ReceiveCount(FailureReceiveCount(row), row.updatedAt, row.id)
    case FailureOldestFirst => FailureOldest(FailureOccurredAt(row), row.id)
    case UpdatedDesc => Updated(row.updatedAt, row.id)
    case CreatedDesc => Created(row.createdAt, row.id)
  }

  // ---- The cursor predicates, as written ----------------------------------

  /** `rank` is the database's order on ids, an arbitrary total order. A cursor of another sort filters nothing. */
  predicate CursorWhere(rank: string -> real, sort: Sort, cursor: Cursor, direction: Direction, row: Row) {
    var id := rank(row.id);
    if sort == ReceiveCountDesc then
      if !cursor.ReceiveCount? then true
      else if direction == Backward then
        || FailureReceiveCount(row) > cursor.receiveCount
        || (&& FailureReceiveCount(row) == cursor.receiveCount
            && (|| row.updatedAt > cursor.timestamp
                || (row.updatedAt == cursor.timestamp && id > rank(cursor.id))))
      else
        || FailureReceiveCount(row) < cursor.receiveCount
        || (&& FailureReceiveCount(row) == cursor.receiveCount
            && (|| row.updatedAt < cursor.timestamp
                || (row.updatedAt == cursor.timestamp && id < rank(cursor.id))))
    else if sort == FailureOldestFirst then
      if !cursor.FailureOldest? then true
      else if direction == Backward then
        || FailureOccurredAt(row) < cursor.occurredAt
        || (FailureOccurredAt(row) == cursor.occurredAt && id < rank(cursor.id))
      else
        || FailureOccurredAt(row) > cursor.occurredAt
        || (FailureOccurredAt(row) == cursor.occurredAt && id > rank(cursor.id))
    else if sort == UpdatedDesc then
      if !cursor.Updated? then true
      else if direction == Backward then
        row.updatedAt > cursor.timestamp || (row.updatedAt == cursor.timestamp && id > rank(cursor.id))
      else
        row.updatedAt < cursor.timestamp || (row.updatedAt == cursor.timestamp && id < rank(cursor.id))
    else
      if !cursor.Created? then true
      else if direction == Backward then
        row.createdAt > cursor.timestamp || (row.createdAt == cursor.timestamp && id > rank(cursor.id))
      else
        row.createdAt < cursor.timestamp || (row.createdAt == cursor.timestamp && id < rank(cursor.id))
  }

  // ---- ORDER BY: columns with directions, compared lexicographically ------

  datatype Column = ByReceiveCount | ByOccurredAt | ByUpdatedAt | ByCreatedAt | ById

  datatype Term = Asc(column: Column) | Desc(column: Column)

  function OrderBy(sort: Sort, direction: Direction): seq<Term> {
    match sort
    case ReceiveCountDesc =>
      if direction == Backward then [Asc(ByReceiveCount), Asc(ByUpdatedAt), Asc(ById)]
      else [Desc(ByReceiveCount), Desc(ByUpdatedAt), Desc(ById)]
    case FailureOldestFirst =>
      if direction == Backward then [Desc(ByOccurredAt), Desc(ById)] else [Asc(ByOccurredAt), Asc(ById)]
    case UpdatedDesc =>
      if direction == Backward then [Asc(ByUpdatedAt), Asc(ById)] else [Desc(ByUpdatedAt), Desc(ById)]
    case CreatedDesc =>
      if direction == Backward then [Asc(ByCreatedAt), Asc(ById)] else [Desc(ByCreatedAt), Desc(ById)]
  }

  function Value(rank: string -> real, column: Column, row: Row): real {
    match column
    case ByReceiveCount => FailureReceiveCount(row) as real
    case ByOccurredAt => FailureOccurredAt(row) as real
    case ByUpdatedAt => row.updatedAt as real
    case ByCreatedAt => row.createdAt as real
    case ById => rank(row.id)
  }

  /** `x` sorts strictly before `y`. */
  predicate Before(rank: string -> real, terms: seq<Term>, x: Row, y: Row) {
    terms != [] &&
    var a, b := Value(rank, terms[0].column, x), Value(rank, terms[0].column, y);
    || (if terms[0].Asc? then a < b else a > b)
    || (a == b && Before(rank, terms[1..], x, y))
  }

  /** Rows that the columns cannot tell apart. */
  predicate Tied(rank: string -> real, terms: seq<Term>, x: Row, y: Row) {
    terms == [] || (Value(rank, terms[0].column, x) == Value(rank, terms[0].column, y) && Tied(rank, terms[1..], x, y))
  }

  /**
   The orders in terms of the rows. A row without a failure sorts by receive count behind every row that has one, and
   by age of failure as if it had failed when it was last updated.
   */
  lemma {:induction false} OrdersAre(rank: string -> real, x: Row, y: Row)
    ensures Before(rank, OrderBy(UpdatedDesc, Forward), x, y) <==>
              x.updatedAt > y.updatedAt || (x.updatedAt == y.updatedAt && rank(x.id) > rank(y.id))
    ensures Before(rank, OrderBy(CreatedDesc, Forward), x, y) <==>
              x.createdAt > y.createdAt || (x.createdAt == y.createdAt && rank(x.id) > rank(y.id))
    ensures x.receiveCount.Some? && y.receiveCount.Some? && x.receiveCount != y.receiveCount ==>
              (Before(rank, OrderBy(ReceiveCountDesc, Forward), x, y) <==> x.receiveCount.value > y.receiveCount.value)
    ensures x.receiveCount.Some? && 0 <= x.receiveCount.value && y.receiveCount.None? ==>
              Before(rank, OrderBy(ReceiveCountDesc, Forward), x, y)
    ensures x.receiveCount.None? ==> CursorOf(x, ReceiveCountDesc) == ReceiveCount(-1, x.updatedAt, x.id)
    ensures x.receiveCount == y.receiveCount ==>
              (Before(rank, OrderBy(ReceiveCountDesc, Forward), x, y) <==>
                 x.updatedAt > y.updatedAt || (x.updatedAt == y.updatedAt && rank(x.id) > rank(y.id)))
    ensures var failed := (r: Row) => if r.failureAt.Some? then r.failureAt.value else r.updatedAt;
            Before(rank, OrderBy(FailureOldestFirst, Forward), x, y) <==>
              failed(x) < failed(y) || (failed(x) == failed(y) && rank(x.id) < rank(y.id))
  {
    DescThenId(rank, ByUpdatedAt, x, y);
    DescThenId(rank, ByCreatedAt, x, y);
    assert OrderBy(ReceiveCountDesc, Forward)[1..] == OrderBy(UpdatedDesc, Forward);
    ByIdOnly(rank, Asc(ById), x, y);
    assert OrderBy(FailureOldestFirst, Forward)[1..] == [Asc(ById)];
  }

  lemma {:induction false} DescThenId(rank: string -> real, column: Column, x: Row, y: Row)
    ensures Before(rank, [Desc(column), Desc(ById)], x, y) <==>
              || Value(rank, column, x) > Value(rank, column, y)
              || (Value(rank, column, x) == Value(rank, column, y) && rank(x.id) > rank(y.id))
  {
    ByIdOnly(rank, Desc(ById), x, y);
    assert [Desc(column), Desc(ById)][1..] == [Desc(ById)];
  }

  lemma {:induction false} ByIdOnly(rank: string -> real, term: Term, x: Row, y: Row)
    requires term.column.ById?
    ensures Before(rank, [term], x, y) <==> if term.Asc? then rank(x.id) < rank(y.id) else rank(x.id) > rank(y.id)
  {
    assert [term][1..] == [];
  }

  /** Any two rows are tied, or exactly one of them comes first. */
  lemma {:induction false} Trichotomy(rank: string -> real, terms: seq<Term>, x: Row, y: Row)
    ensures Tied(rank, terms, x, y) ==> !Before(rank, terms, x, y) && !Before(rank, terms, y, x)
    ensures !Tied(rank, terms, x, y) ==> (Before(rank, terms, x, y) <==> !Before(rank, terms, y, x))
  {
    if terms != [] {
      Trichotomy(rank, terms[1..], x, y);
    }
  }

  lemma {:induction false} BeforeTrans(rank: string -> real, terms: seq<Term>, x: Row, y: Row, z: Row)
    requires Before(rank, terms, x, y) && Before(rank, terms, y, z)
    ensures Before(rank, terms, x, z)
  {
    var v := (r: Row) => Value(rank, terms[0].column, r);
    if v(x) == v(y) && v(y) == v(z) {
      BeforeTrans(rank, terms[1..], x, y, z);
    }
  }

  function Flip(t: Term): Term {
    if t.Asc? then Desc(t.column) else Asc(t.column)
  }

  lemma {:induction false} FlippedOrder(rank: string -> real, xs: seq<Term>, ys: seq<Term>, x: Row, y: Row)
    requires |xs| == |ys| && forall i :: 0 <= i < |xs| ==> ys[i] == Flip(xs[i])
    ensures Before(rank, ys, x, y) <==> Before(rank, xs, y, x)
  {
    if xs != [] {
      assert forall i :: 0 <= i < |xs[1..]| ==> ys[1..][i] == Flip(xs[1..][i]);
      FlippedOrder(rank, xs[1..], ys[1..], x, y);
    }
  }

  /** Paging backward sorts by exactly the reverse order. */
  lemma {:induction false} BackwardReverses(rank: string -> real, sort: Sort, x: Row, y: Row)
    ensures Before(rank, OrderBy(sort, Backward), x, y) <==> Before(rank, OrderBy(sort, Forward), y, x)
  {
    FlippedOrder(rank, OrderBy(sort, Forward), OrderBy(sort, Backward), x, y);
  }

  // ---- The cursor predicate is that order ---------------------------------

  predicate Matches(sort: Sort, cursor: Cursor) {
    match sort
    case ReceiveCountDesc => cursor.ReceiveCount?
    case FailureOldestFirst => cursor.FailureOldest?
    case UpdatedDesc => cursor.Updated?
    case CreatedDesc => cursor.Created?
  }

  /** A row a cursor of this sort could have been taken from. */
  function RowAt(sort: Sort, cursor: Cursor): (row: Row)
    requires Matches(sort, cursor)
    ensures CursorOf(row, sort) == cursor
  {
    match cursor
    case ReceiveCount(n, at, id) => Row(id, 0, at, Some(n), None)
    case FailureOldest(at, id) => Row(id, 0, 0, None, Some(at))
    case Updated(at, id) => Row(id, 0, at, None, None)
    case Created(at, id) => Row(id, at, 0, None, None)
  }

  lemma {:induction false} BeforeTwo(rank: string -> real, t: Term, u: Term, x: Row, y: Row)
    ensures var v := (c: Column, r: Row) => Value(rank, c, r);
            Before(rank, [t, u], x, y) <==>
              || (if t.Asc? then v(t.column, x) < v(t.column, y) else v(t.column, x) > v(t.column, y))
              || (v(t.column, x) == v(t.column, y)
                  && (if u.Asc? then v(u.column, x) < v(u.column, y) else v(u.column, x) > v(u.column, y)))
  {
    assert [t, u][1..] == [u];
    assert [u][1..] == [];
    assert !Before(rank, [], x, y);
  }

  lemma {:induction false} BeforeThree(rank: string -> real, t: Term, u: Term, w: Term, x: Row, y: Row)
    ensures Before(rank, [t, u, w], x, y) <==>
              var a, b := Value(rank, t.column, x), Value(rank, t.column, y);
              (if t.Asc? then a < b else a > b) || (a == b && Before(rank, [u, w], x, y))
  {
    assert [t, u, w][1..] == [u, w];
  }

  /** The cursor taken from any row lets through exactly the rows that the query sorts after that row. */
  lemma {:induction false} CursorIsExact(rank: string -> real, sort: Sort, direction: Direction, from: Row, row: Row)
    ensures CursorWhere(rank, sort, CursorOf(from, sort), direction, row)
            <==> Before(rank, OrderBy(sort, direction), from, row)
  {
    var terms := OrderBy(sort, direction);
    if sort == ReceiveCountDesc {
      BeforeThree(rank, terms[0], terms[1], terms[2], from, row);
      BeforeTwo(rank, terms[1], terms[2], from, row);
    } else {
      BeforeTwo(rank, terms[0], terms[1], from, row);
    }
  }

  /** So does any cursor of the sort, whether or not its row still exists. */
  lemma {:induction false} AnyCursorIsExact(rank: string -> real, sort: Sort, direction: Direction, cursor: Cursor,
                                            row: Row)
    requires Matches(sort, cursor)
    ensures CursorWhere(rank, sort, cursor, direction, row)
            <==> Before(rank, OrderBy(sort, direction), RowAt(sort, cursor), row)
  {
    CursorIsExact(rank, sort, direction, RowAt(sort, cursor), row);
  }

  // ---- One page -----------------------------------------------------------

  /** ORDER BY over rows with distinct ids. */
  ghost predicate Sorted(rank: string -> real, terms: seq<Term>, table: seq<Row>) {
    forall i, j :: InOrder(rank, terms, table, i, j)
  }

  predicate InOrder(rank: string -> real, terms: seq<Term>, table: seq<Row>, i: int, j: int) {
    0 <= i < j < |table| ==> Before(rank, terms, table[i], table[j])
  }

  function Reverse<T>(s: seq<T>): (r: seq<T>)
    ensures |r| == |s|
  {
    seq(|s|, i requires 0 <= i < |s| => s[|s| - 1 - i])
  }

  /** The table as the backward query sees it is the reversed table. */
  lemma {:induction false} ReverseIsSorted(rank: string -> real, sort: Sort, table: seq<Row>)
    requires Sorted(rank, OrderBy(sort, Forward), table)
    ensures Sorted(rank, OrderBy(sort, Backward), Reverse(table))
  {
    forall i, j
      ensures InOrder(rank, OrderBy(sort, Backward), Reverse(table), i, j)
    {
      if 0 <= i < j < |table| {
        assert InOrder(rank, OrderBy(sort, Forward), table, |table| - 1 - j, |table| - 1 - i);
        BackwardReverses(rank, sort, Reverse(table)[i], Reverse(table)[j]);
      }
    }
  }

  /** An ORDER BY has one result: two sorted arrangements of the same rows are equal. */
  lemma {:induction false} SortedIsUnique(rank: string -> real, terms: seq<Term>, a: seq<Row>, b: seq<Row>)
    requires Sorted(rank, terms, a) && Sorted(rank, terms, b)
    requires |a| == |b| && forall r :: r in a <==> r in b
    ensures a == b
    decreases |a|
  {
    if a != [] {
      FirstIsFirst(rank, terms, a, b);
      forall r
        ensures r in a[1..] <==> r in b[1..]
      {
        TailMember(rank, terms, a, r);
        TailMember(rank, terms, b, r);
      }
      TailSorted(rank, terms, a);
      TailSorted(rank, terms, b);
      SortedIsUnique(rank, terms, a[1..], b[1..]);
      assert a == [a[0]] + a[1..] && b == [b[0]] + b[1..];
    }
  }

  lemma {:induction false} FirstIsFirst(rank: string -> real, terms: seq<Term>, a: seq<Row>, b: seq<Row>)
    requires a != [] && b != [] && Sorted(rank, terms, a) && Sorted(rank, terms, b)
    requires forall r :: r in a <==> r in b
    ensures a[0] == b[0]
  {
    assert a[0] in b && b[0] in a;
    var i :| 0 <= i < |b| && b[i] == a[0];
    var j :| 0 <= j < |a| && a[j] == b[0];
    if a[0] != b[0] {
      assert InOrder(rank, terms, b, 0, i) && InOrder(rank, terms, a, 0, j);
      Trichotomy(rank, terms, a[0], b[0]);
    }
  }

  lemma {:induction false} TailMember(rank: string -> real, terms: seq<Term>, a: seq<Row>, r: Row)
    requires a != [] && Sorted(rank, terms, a)
    ensures r in a[1..] <==> r in a && r != a[0]
  {
    if r in a[1..] {
      var i :| 0 <= i < |a[1..]| && a[1..][i] == r;
      assert InOrder(rank, terms, a, 0, i + 1);
      Trichotomy(rank, terms, a[0], r);
    }
    if r in a && r != a[0] {
      var i :| 0 <= i < |a| && a[i] == r;
      assert a[1..][i - 1] == r;
    }
  }

  lemma {:induction false} TailSorted(rank: string -> real, terms: seq<Term>, a: seq<Row>)
    requires a != [] && Sorted(rank, terms, a)
    ensures Sorted(rank, terms, a[1..])
  {
    forall i, j
      ensures InOrder(rank, terms, a[1..], i, j)
    {
      assert InOrder(rank, terms, a, i + 1, j + 1);
    }
  }

  function Where(rank: string -> real, sort: Sort, cursor: Cursor, direction: Direction): Row -> bool {
    row => CursorWhere(rank, sort, cursor, direction, row)
  }

  /** WHERE, ORDER BY, LIMIT over a table kept in forward order. */
  function Query(rank: string -> real, sort: Sort, table: seq<Row>, cursor: Option<Cursor>, direction: Direction,
                 limit: int): seq<Row> {
    var ordered := if direction == Backward then Reverse(table) else table;
    var kept := if cursor.Some? then Filter(ordered, Where(rank, sort, cursor.value, direction)) else ordered;
    Take(kept, limit)
  }

  datatype Page = Page(rows: seq<Row>, nextCursor: Option<Cursor>, prevCursor: Option<Cursor>)

  function ListPage(rank: string -> real, sort: Sort, table: seq<Row>, limit: nat, cursor: Option<Cursor>,
                    direction: Direction): Page {
    PageOf(sort, Query(rank, sort, table, cursor, direction, limit + 1), limit, cursor.Some?, direction)
  }

  /** The page made of the rows fetched, one more than a page asked for. */
  function PageOf(sort: Sort, fetched: seq<Row>, limit: nat, hasCursor: bool, direction: Direction): Page {
    var hasMore := |fetched| > limit;
    var slice := if hasMore then fetched[..limit] else fetched;
    var rows := if direction == Backward then Reverse(slice) else slice;
    var next :=
      if rows == [] then None
      else if direction == Backward || hasMore then Some(CursorOf(rows[|rows| - 1], sort)) else None;
    var prev :=
      if rows == [] then None
      else if direction == Backward then (if hasMore then Some(CursorOf(rows[0], sort)) else None)
      else if hasCursor then Some(CursorOf(rows[0], sort)) else None;
    Page(rows, next, prev)
  }

  /** The cursor of the row before position `i`, which is none at the start. */
  function CursorBefore(sort: Sort, table: seq<Row>, i: nat): Option<Cursor>
    requires i <= |table|
  {
    if i == 0 then None else Some(CursorOf(table[i - 1], sort))
  }

  lemma {:induction false} AfterPosition(rank: string -> real, sort: Sort, table: seq<Row>, i: nat, limit: nat)
    requires Sorted(rank, OrderBy(sort, Forward), table) && i <= |table|
    ensures Query(rank, sort, table, CursorBefore(sort, table, i), Forward, limit) == table[i..Min(i + limit, |table|)]
  {
    if i > 0 {
      var keep := Where(rank, sort, CursorOf(table[i - 1], sort), Forward);
      forall j | 0 <= j < |table|
        ensures keep(table[j]) <==> i <= j
      {
        KeptForward(rank, sort, table, i, j);
      }
      FilterSuffix(table, keep, i);
    }
    TakeSlice(table, i, limit);
    assert table[0..] == table;
  }

  lemma {:induction false} KeptForward(rank: string -> real, sort: Sort, table: seq<Row>, i: nat, j: nat)
    requires Sorted(rank, OrderBy(sort, Forward), table) && 0 < i <= |table| && j < |table|
    ensures CursorWhere(rank, sort, CursorOf(table[i - 1], sort), Forward, table[j]) <==> i <= j
  {
    var terms := OrderBy(sort, Forward);
    CursorIsExact(rank, sort, Forward, table[i - 1], table[j]);
    Trichotomy(rank, terms, table[i - 1], table[j]);
    assert InOrder(rank, terms, table, j, i - 1) && InOrder(rank, terms, table, i - 1, j);
    if j == i - 1 {
      assert !Before(rank, terms, table[j], table[j]);
    }
  }

  lemma {:induction false} TakeSlice<T>(s: seq<T>, i: nat, n: nat)
    requires i <= |s|
    ensures Take(s[i..], n) == s[i..Min(i + n, |s|)]
  {
  }

  lemma {:induction false} SlicePrefix<T>(s: seq<T>, i: nat, m: nat, n: nat)
    requires i + n <= m <= |s|
    ensures s[i..m][..n] == s[i..i + n]
  {
  }

  /** What the backward query keeps: the rows before position `i`, nearest first. */
  lemma {:induction false} BeforePosition(rank: string -> real, sort: Sort, table: seq<Row>, i: nat)
    requires Sorted(rank, OrderBy(sort, Forward), table) && i < |table|
    ensures Filter(Reverse(table), Where(rank, sort, CursorOf(table[i], sort), Backward))
            == Reverse(table)[|table| - i..]
  {
    var keep := Where(rank, sort, CursorOf(table[i], sort), Backward);
    forall j | 0 <= j < |table|
      ensures keep(Reverse(table)[j]) <==> |table| - i <= j
    {
      KeptBackward(rank, sort, table, i, j);
    }
    FilterSuffix(Reverse(table), keep, |table| - i);
  }

  lemma {:induction false} KeptBackward(rank: string -> real, sort: Sort, table: seq<Row>, i: nat, j: nat)
    requires Sorted(rank, OrderBy(sort, Forward), table) && i < |table| && j < |table|
    ensures CursorWhere(rank, sort, CursorOf(table[i], sort), Backward, Reverse(table)[j]) <==> |table| - i <= j
  {
    var terms, k := OrderBy(sort, Forward), |table| - 1 - j;
    CursorIsExact(rank, sort, Backward, table[i], table[k]);
    BackwardReverses(rank, sort, table[i], table[k]);
    Trichotomy(rank, terms, table[i], table[k]);
    assert InOrder(rank, terms, table, k, i) && InOrder(rank, terms, table, i, k);
  }

  /** The page of the rows at position `i`, and its cursors. */
  function PageAt(sort: Sort, table: seq<Row>, limit: nat, i: nat): Page
    requires i <= |table|
  {
    Page(table[i..Min(i + limit, |table|)],
         if i + limit < |table| then CursorBefore(sort, table, i + limit) else None,
         if 0 < i < |table| then Some(CursorOf(table[i], sort)) else None)
  }

  /** The page of the rows before position `i`, a full one unless the table starts sooner. */
  function PageBefore(sort: Sort, table: seq<Row>, limit: nat, i: nat): Page
    requires i < |table|
  {
    Page(table[(if i < limit then 0 else i - limit)..i],
         CursorBefore(sort, table, i),
         if i > limit then Some(CursorOf(table[i - limit], sort)) else None)
  }

  lemma {:induction false} PageBeforeIsPageAt(sort: Sort, table: seq<Row>, limit: nat, i: nat)
    requires i + limit < |table| && 1 <= limit
    ensures PageBefore(sort, table, limit, i + limit) == PageAt(sort, table, limit, i)
  {
  }

  lemma {:induction false} ForwardPageOf(sort: Sort, table: seq<Row>, limit: nat, i: nat, hasCursor: bool)
    requires i <= |table| && 1 <= limit && (hasCursor <==> 0 < i)
    ensures PageOf(sort, table[i..Min(i + limit + 1, |table|)], limit, hasCursor, Forward)
            == PageAt(sort, table, limit, i)
  {
    if i + limit < |table| {
      SlicePrefix(table, i, i + limit + 1, limit);
    }
  }

  /** The forward page at position `i`. */
  lemma {:induction false} ForwardPage(rank: string -> real, sort: Sort, table: seq<Row>, limit: nat, i: nat)
    requires Sorted(rank, OrderBy(sort, Forward), table) && i <= |table| && 1 <= limit
    ensures ListPage(rank, sort, table, limit, CursorBefore(sort, table, i), Forward) == PageAt(sort, table, limit, i)
  {
    AfterPosition(rank, sort, table, i, limit + 1);
    ForwardPageOf(sort, table, limit, i, 0 < i);
  }

  lemma {:induction false} ReverseSlice<T>(s: seq<T>, a: nat, b: nat)
    requires a <= b <= |s|
    ensures Reverse(Reverse(s)[a..b]) == s[|s| - b..|s| - a]
  {
  }

  lemma {:induction false} BackwardRows(table: seq<Row>, limit: nat, i: nat)
    requires i < |table| && 1 <= limit
    ensures var fetched := Take(Reverse(table)[|table| - i..], limit + 1);
            && (|fetched| > limit <==> i > limit)
            && Reverse(if |fetched| > limit then fetched[..limit] else fetched)
               == table[(if i < limit then 0 else i - limit)..i]
  {
    var start := |table| - i;
    FirstOfRest(Reverse(table), start, limit);
    ReverseSlice(table, start, Min(start + limit, |table|));
  }

  /** The page made of rows fetched backward, once they are known. */
  lemma {:induction false} BackwardPageOf(sort: Sort, table: seq<Row>, limit: nat, i: nat, fetched: seq<Row>)
    requires i < |table| && 1 <= limit && (|fetched| > limit <==> i > limit)
    requires Reverse(if |fetched| > limit then fetched[..limit] else fetched)
             == table[(if i < limit then 0 else i - limit)..i]
    ensures PageOf(sort, fetched, limit, true, Backward) == PageBefore(sort, table, limit, i)
  {
  }

  lemma {:induction false} FirstOfRest<T>(s: seq<T>, start: nat, limit: nat)
    requires start <= |s|
    ensures var fetched := Take(s[start..], limit + 1);
            var slice := if |fetched| > limit then fetched[..limit] else fetched;
            slice == s[start..Min(start + limit, |s|)]
  {
  }

  /** The backward page before position `i`. */
  lemma {:induction false} BackwardPage(rank: string -> real, sort: Sort, table: seq<Row>, limit: nat, i: nat)
    requires Sorted(rank, OrderBy(sort, Forward), table) && i < |table| && 1 <= limit
    ensures ListPage(rank, sort, table, limit, Some(CursorOf(table[i], sort)), Backward)
            == PageBefore(sort, table, limit, i)
  {
    BeforePosition(rank, sort, table, i);
    BackwardRows(table, limit, i);
    BackwardPageOf(sort, table, limit, i, Take(Reverse(table)[|table| - i..], limit + 1));
  }

  // ---- Walking the pages --------------------------------------------------

  /** The pager in one direction as a function of its cursor. */
  function Pager(rank: string -> real, sort: Sort, table: seq<Row>, limit: nat,
                 direction: Direction): Option<Cursor> -> Page {
    cursor => ListPage(rank, sort, table, limit, cursor, direction)
  }

  lemma {:induction false} PagerLists(rank: string -> real, sort: Sort, table: seq<Row>, limit: nat,
                                      direction: Direction,
                                      cursor: Option<Cursor>, page: Page)
    requires ListPage(rank, sort, table, limit, cursor, direction) == page
    ensures Pager(rank, sort, table, limit, direction)(cursor) == page
  {
  }

  lemma {:induction false} ForwardIsPageAt(rank: string -> real, sort: Sort, table: seq<Row>, limit: nat, i: nat)
    requires Sorted(rank, OrderBy(sort, Forward), table) && i <= |table| && 1 <= limit
    ensures Pager(rank, sort, table, limit, Forward)(CursorBefore(sort, table, i)) == PageAt(sort, table, limit, i)
  {
    ForwardPage(rank, sort, table, limit, i);
    PagerLists(rank, sort, table, limit, Forward, CursorBefore(sort, table, i), PageAt(sort, table, limit, i));
  }

  lemma {:induction false} BackwardIsPageBefore(rank: string -> real, sort: Sort, table: seq<Row>, limit: nat, i: nat)
    requires Sorted(rank, OrderBy(sort, Forward), table) && i < |table| && 1 <= limit
    ensures Pager(rank, sort, table, limit, Backward)(Some(CursorOf(table[i], sort)))
            == PageBefore(sort, table, limit, i)
  {
    BackwardPage(rank, sort, table, limit, i);
    PagerLists(rank, sort, table, limit, Backward, Some(CursorOf(table[i], sort)), PageBefore(sort, table, limit, i));
  }

  /** Going back from the page after the page at `cursor` returns that page, rows and both cursors. */
  predicate ReturnsTo(list: Option<Cursor> -> Page, back: Option<Cursor> -> Page, cursor: Option<Cursor>) {
    list(cursor).nextCursor.Some? ==>
      var second := list(list(cursor).nextCursor);
      second.prevCursor.Some? && back(second.prevCursor) == list(cursor)
  }

  /** `pages` are those reached from `cursor` by following next cursors until there is none. */
  predicate Walk(list: Option<Cursor> -> Page, cursor: Option<Cursor>, pages: seq<Page>)
    decreases |pages|
  {
    && pages != [] && pages[0] == list(cursor)
    && if pages[0].nextCursor.Some? then Walk(list, pages[0].nextCursor, pages[1..]) else |pages| == 1
  }

  /** At every position the pager lists the page there. */
  ghost predicate ListsPages(list: Option<Cursor> -> Page, sort: Sort, table: seq<Row>, limit: nat) {
    forall i: nat :: i <= |table| ==> list(CursorBefore(sort, table, i)) == PageAt(sort, table, limit, i)
  }

  lemma {:induction false} PagerListsPages(rank: string -> real, sort: Sort, table: seq<Row>, limit: nat)
    requires Sorted(rank, OrderBy(sort, Forward), table) && 1 <= limit
    ensures ListsPages(Pager(rank, sort, table, limit, Forward), sort, table, limit)
  {
    forall i: nat | i <= |table|
      ensures Pager(rank, sort, table, limit, Forward)(CursorBefore(sort, table, i)) == PageAt(sort, table, limit, i)
    {
      ForwardIsPageAt(rank, sort, table, limit, i);
    }
  }

  /** From every row's cursor the pager lists the page before it. */
  ghost predicate ListsBack(back: Option<Cursor> -> Page, sort: Sort, table: seq<Row>, limit: nat) {
    forall i: nat :: i < |table| ==> back(Some(CursorOf(table[i], sort))) == PageBefore(sort, table, limit, i)
  }

  lemma {:induction false} PagerListsBack(rank: string -> real, sort: Sort, table: seq<Row>, limit: nat)
    requires Sorted(rank, OrderBy(sort, Forward), table) && 1 <= limit
    ensures ListsBack(Pager(rank, sort, table, limit, Backward), sort, table, limit)
  {
    forall i: nat | i < |table|
      ensures Pager(rank, sort, table, limit, Backward)(Some(CursorOf(table[i], sort)))
              == PageBefore(sort, table, limit, i)
    {
      BackwardIsPageBefore(rank, sort, table, limit, i);
    }
  }

  lemma {:induction false} BackToFirst(list: Option<Cursor> -> Page, back: Option<Cursor> -> Page, sort: Sort,
                                       table: seq<Row>, limit: nat, i: nat)
    requires i <= |table| && 1 <= limit && ListsPages(list, sort, table, limit) && ListsBack(back, sort, table, limit)
    ensures ReturnsTo(list, back, CursorBefore(sort, table, i))
  {
    assert list(CursorBefore(sort, table, i)) == PageAt(sort, table, limit, i);
    if i + limit < |table| {
      assert list(CursorBefore(sort, table, i + limit)) == PageAt(sort, table, limit, i + limit);
      PageBeforeIsPageAt(sort, table, limit, i);
    }
  }

  /** At every position, going back from the next page returns the page itself. */
  lemma {:induction false} PrevAfterNext(rank: string -> real, sort: Sort, table: seq<Row>, limit: nat, i: nat)
    requires Sorted(rank, OrderBy(sort, Forward), table) && i <= |table| && 1 <= limit
    ensures ReturnsTo(Pager(rank, sort, table, limit, Forward), Pager(rank, sort, table, limit, Backward),
                      CursorBefore(sort, table, i))
  {
    PagerListsPages(rank, sort, table, limit);
    PagerListsBack(rank, sort, table, limit);
    BackToFirst(Pager(rank, sort, table, limit, Forward), Pager(rank, sort, table, limit, Backward), sort, table,
                limit, i);
  }

  function RowsOf(pages: seq<Page>): seq<Row> {
    if pages == [] then [] else pages[0].rows + RowsOf(pages[1..])
  }

  lemma {:induction false} Rejoin(table: seq<Row>, i: nat, k: nat)
    requires i <= k <= |table|
    ensures table[i..k] + table[k..] == table[i..]
  {
  }

  lemma {:induction false} RowsOfCons(page: Page, rest: seq<Page>)
    ensures RowsOf([page] + rest) == page.rows + RowsOf(rest)
  {
    assert ([page] + rest)[1..] == rest;
  }

  /** ceil(n / p), but one page for an empty table. */
  function PageCount(n: nat, p: nat): nat
    requires 1 <= p
  {
    if n <= p then 1 else 1 + PageCount(n - p, p)
  }

  lemma {:induction false} PageCountIsCeiling(n: nat, p: nat)
    requires 1 <= p && 1 <= n
    ensures (PageCount(n, p) - 1) * p < n <= PageCount(n, p) * p
  {
    if n > p {
      PageCountIsCeiling(n - p, p);
      var c := PageCount(n - p, p);
      assert (c + 1 - 1) * p == (c - 1) * p + p;
      assert (c + 1) * p == c * p + p;
    }
  }

  /** The pages that start at position `i` of the table. */
  predicate PagesFrom(table: seq<Row>, limit: nat, i: nat, pages: seq<Page>)
    requires i <= |table|
    decreases |pages|
  {
    && pages != [] && pages[0].rows == table[i..Min(i + limit, |table|)]
    && if i + limit < |table| then PagesFrom(table, limit, i + limit, pages[1..]) else |pages| == 1
  }

  lemma {:induction false} WalkIsPages(list: Option<Cursor> -> Page, sort: Sort, table: seq<Row>, limit: nat, i: nat,
                                       pages: seq<Page>)
    requires i <= |table| && 1 <= limit && ListsPages(list, sort, table, limit)
    requires Walk(list, CursorBefore(sort, table, i), pages)
    ensures PagesFrom(table, limit, i, pages)
    decreases |pages|
  {
    var page := PageAt(sort, table, limit, i);
    assert list(CursorBefore(sort, table, i)) == page && pages[0] == page;
    if i + limit < |table| {
      WalkIsPages(list, sort, table, limit, i + limit, pages[1..]);
    }
  }

  lemma {:induction false} PagesVisitAll(table: seq<Row>, limit: nat, i: nat, pages: seq<Page>)
    requires i <= |table| && 1 <= limit && PagesFrom(table, limit, i, pages)
    ensures RowsOf(pages) == table[i..] && |pages| == PageCount(|table| - i, limit)
    decreases |pages|
  {
    RowsOfCons(pages[0], pages[1..]);
    assert pages == [pages[0]] + pages[1..];
    if i + limit < |table| {
      PagesVisitAll(table, limit, i + limit, pages[1..]);
      Rejoin(table, i, i + limit);
    } else {
      assert pages[1..] == [];
      Rejoin(table, i, |table|);
    }
  }

  /** Following next cursors from the start visits every row exactly once, in order, in ceil(n / p) pages. */
  lemma {:induction false} WalkVisitsAll(rank: string -> real, sort: Sort, table: seq<Row>, limit: nat, i: nat,
                                         pages: seq<Page>)
    requires Sorted(rank, OrderBy(sort, Forward), table) && i <= |table| && 1 <= limit
    requires Walk(Pager(rank, sort, table, limit, Forward), CursorBefore(sort, table, i), pages)
    ensures RowsOf(pages) == table[i..]
    ensures |pages| == PageCount(|table| - i, limit)
  {
    PagerListsPages(rank, sort, table, limit);
    WalkIsPages(Pager(rank, sort, table, limit, Forward), sort, table, limit, i, pages);
    PagesVisitAll(table, limit, i, pages);
  }

  /** Following next cursors always comes to an end. */
  lemma {:induction false} WalkEnds(rank: string -> real, sort: Sort, table: seq<Row>, limit: nat, i: nat)
    returns (pages: seq<Page>)
    requires Sorted(rank, OrderBy(sort, Forward), table) && i <= |table| && 1 <= limit
    ensures Walk(Pager(rank, sort, table, limit, Forward), CursorBefore(sort, table, i), pages)
  {
    PagerListsPages(rank, sort, table, limit);
    pages := FollowNext(Pager(rank, sort, table, limit, Forward), sort, table, limit, i);
  }

  lemma {:induction false} FollowNext(list: Option<Cursor> -> Page, sort: Sort, table: seq<Row>, limit: nat, i: nat)
    returns (pages: seq<Page>)
    requires i <= |table| && 1 <= limit && ListsPages(list, sort, table, limit)
    ensures Walk(list, CursorBefore(sort, table, i), pages)
    decreases |table| - i
  {
    assert list(CursorBefore(sort, table, i)) == PageAt(sort, table, limit, i);
    var page, rest := list(CursorBefore(sort, table, i)), [];
    if i + limit < |table| {
      rest := FollowNext(list, sort, table, limit, i + limit);
    }
    pages := [page] + rest;
    assert pages[1..] == rest;
  }
}
