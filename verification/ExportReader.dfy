/**
 The export's prefetching batch reader and the two streams built on it. They
 refine "take the first `limit` rows of the ordered table and print them".
 */
module ExportReader {
  import opened Options
  import opened Sequences

  /** An exported claim: its place in the order, and its other fields, dates and enumerations as text. */
  datatype Row = Row(
    createdAt: int,
    id: string,
    externalClaimId: Option<string>,
    sourceEmail: Option<string>,
    customerName: Option<string>,
    productName: Option<string>,
    serialNumber: Option<string>,
    purchaseDate: Option<string>,
    issueSummary: Option<string>,
    retailer: Option<string>,
    status: string,
    warrantyStatus: string,
    missingInfo: seq<string>,
    createdAtText: string,
    updatedAtText: string)

  datatype Cursor = Cursor(createdAt: int, id: string)

  function CursorOf(row: Row): Cursor {
    Cursor(row.createdAt, row.id)
  }

  /** The cursor's SQL predicate. `rank` is the database's order on ids, an arbitrary total order. */
  predicate AfterCursor(rank: string -> real, c: Cursor, row: Row) {
    row.createdAt < c.createdAt || (row.createdAt == c.createdAt && rank(row.id) < rank(c.id))
  }

  /** ORDER BY createdAt DESC, id DESC: `x` comes before `y`. */
  predicate Before(rank: string -> real, x: Row, y: Row) {
    x.createdAt > y.createdAt || (x.createdAt == y.createdAt && rank(x.id) > rank(y.id))
  }

  /** The cursor of a row keeps exactly the rows that come after it in the order. */
  lemma {:induction false} CursorIsExact(rank: string -> real, x: Row, y: Row)
    ensures AfterCursor(rank, CursorOf(x), y) <==> Before(rank, x, y)
    ensures !(Before(rank, x, y) && Before(rank, y, x))
  {
  }

  /** The table is in that order, over rows with distinct ids. */
  ghost predicate Ordered(rank: string -> real, table: seq<Row>) {
    forall i, j :: InOrder(rank, table, i, j)
  }

  predicate InOrder(rank: string -> real, table: seq<Row>, i: int, j: int) {
    0 <= i < j < |table| ==> Before(rank, table[i], table[j])
  }

  function FetchBatch(rank: string -> real, table: seq<Row>, cursor: Option<Cursor>, take: int): seq<Row> {
    match cursor
    case None => Take(table, take)
    case Some(c) => Take(Filter(table, row => AfterCursor(rank, c, row)), take)
  }

  /** Fetching after the row at position `i - 1`, or with no cursor at position 0, continues at `i`. */
  lemma {:induction false} FetchContinues(rank: string -> real, table: seq<Row>, cursor: Option<Cursor>, i: nat,
                                          take: nat)
    requires Ordered(rank, table) && i <= |table|
    requires if i == 0 then cursor.None? else cursor == Some(CursorOf(table[i - 1]))
    ensures FetchBatch(rank, table, cursor, take) == table[i..Min(i + take, |table|)]
  {
    if i > 0 {
      var keep := row => AfterCursor(rank, cursor.value, row);
      forall j | 0 <= j < |table|
        ensures keep(table[j]) <==> i <= j
      {
        assert InOrder(rank, table, j, i - 1) && InOrder(rank, table, i - 1, j);
        CursorIsExact(rank, table[i - 1], table[j]);
      }
      FilterSuffix(table, keep, i);
    }
  }

  lemma {:induction false} SliceOfSlice(table: seq<Row>, a: nat, b: nat, i: nat, n: nat)
    requires a <= b <= |table| && i + n <= b - a
    ensures table[a..b][i..i + n] == table[a + i..a + i + n]
  {
    var xs, ys := table[a..b][i..i + n], table[a + i..a + i + n];
    assert forall k :: 0 <= k < n ==> xs[k] == ys[k];
  }

  class ExportBatchReader {
    const rank: string -> real
    const table: seq<Row>
    const limit: nat
    const batchSize: nat

    var remaining: int
    var batch: seq<Row>
    var batchIndex: nat
    var cursor: Option<Cursor>
    var moreAvailable: bool
    var nextBatch: Option<seq<Row>>   // the batch being prefetched

    ghost var nextTake: int           // the `take` it was requested with
    ghost var directFetches: nat      // fetches made without a prefetched batch
    ghost var base: nat               // position in the table of the current batch
    ghost var loaded: nat             // position after it

    ghost function Total(): nat {
      if limit < |table| then limit else |table|
    }

    /** Number of rows handed out so far. */
    ghost function Pos(): nat
      reads this
    {
      base + batchIndex
    }

    ghost predicate Valid()
      reads this
    {
      && Ordered(rank, table) && 0 < batchSize && directFetches == 0
      && 0 <= remaining && Pos() == limit - remaining
      && Pos() <= loaded == base + |batch| <= Total()
      && batch == table[base..loaded]
      && (!moreAvailable ==> loaded == |table|)
      && (moreAvailable && loaded < limit ==>
            && nextBatch.Some?
            && nextTake == Min(batchSize, limit - loaded)
            && nextBatch.value == table[loaded..Min(loaded + nextTake, |table|)])
    }

    constructor (rank: string -> real, table: seq<Row>, limit: nat, batchSize: nat)
      requires Ordered(rank, table) && 0 < batchSize
      ensures Valid() && Pos() == 0
      ensures this.rank == rank && this.table == table && this.limit == limit && this.batchSize == batchSize
    {
      this.rank, this.table, this.limit, this.batchSize := rank, table, limit, batchSize;
      var take := Min(batchSize, limit);
      FetchContinues(rank, table, None, 0, take);
      var initialBatch := FetchBatch(rank, table, None, take);
      assert initialBatch == table[0..|initialBatch|];
      remaining := limit;
      batch := initialBatch;
      batchIndex := 0;
      cursor := if |initialBatch| > 0 then Some(CursorOf(initialBatch[|initialBatch| - 1])) else None;
      moreAvailable := |initialBatch| == take;
      nextBatch := None;
      nextTake, directFetches, base, loaded := 0, 0, 0, |initialBatch|;
      new;
      PrimeNextBatch();
    }

    method PrimeNextBatch()
      requires Ordered(rank, table) && 0 < batchSize && directFetches == 0
      requires batchIndex == 0 && nextBatch.None? && 0 <= remaining && base == limit - remaining
      requires loaded == base + |batch| <= Total() && batch == table[base..loaded]
      requires batch != [] ==> cursor == Some(CursorOf(batch[|batch| - 1]))
      requires if moreAvailable then loaded < limit ==> batch != [] else loaded == |table|
      modifies this`nextBatch, this`nextTake
      ensures Valid()
    {
      if nextBatch.Some? || !moreAvailable || batchIndex >= |batch| {
        return;
      }
      var remainingAfterCurrentBatch := remaining - (|batch| - batchIndex);
      if remainingAfterCurrentBatch <= 0 {
        return;
      }
      nextTake := Min(batchSize, remainingAfterCurrentBatch);
      FetchContinues(rank, table, cursor, loaded, nextTake);
      nextBatch := Some(FetchBatch(rank, table, cursor, Min(batchSize, remainingAfterCurrentBatch)));
    }

    /** The prefetched batch becomes the current one; without one, a batch would be fetched here. */
    method TakeBatch(take: int)
      requires 1 <= take && loaded + take <= limit && loaded <= |table|
      requires nextBatch.Some? && nextBatch.value == table[loaded..Min(loaded + take, |table|)]
      modifies this`batch, this`batchIndex, this`cursor, this`moreAvailable, this`nextBatch, this`directFetches,
               this`base, this`loaded
      ensures nextBatch.None? && batchIndex == 0 && directFetches == old(directFetches)
      ensures base == old(loaded) && loaded == base + |batch| <= Total() && batch == table[base..loaded]
      ensures batch != [] ==> cursor == Some(CursorOf(batch[|batch| - 1]))
      ensures if moreAvailable then batch != [] else loaded == |table|
    {
      batch := if nextBatch.Some? then nextBatch.value else FetchBatch(rank, table, cursor, take);
      directFetches := directFetches + (if nextBatch.Some? then 0 else 1);
      base, loaded := loaded, loaded + |batch|;
      nextBatch, batchIndex := None, 0;
      moreAvailable := |batch| == take;
      if |batch| > 0 {
        cursor := Some(CursorOf(batch[|batch| - 1]));
      }
    }

    /** Every load uses the prefetched batch, and that batch was requested with the `take` compared here. */
    method EnsureBatchLoaded()
      requires Valid()
      modifies this
      ensures Valid() && Pos() == old(Pos())
      ensures batchIndex == |batch| ==> Pos() == Total()
    {
      if batchIndex < |batch| || remaining <= 0 {
        return;
      }
      if !moreAvailable {
        base, batch, batchIndex := loaded, [], 0;
        return;
      }
      var take := Min(batchSize, remaining);
      assert nextTake == take;
      TakeBatch(take);
      if |batch| > 0 {
        PrimeNextBatch();
      }
    }

    /** The next rows in order; none exactly when the first `limit` rows are exhausted. */
    method ReadNextRows(maxRows: int) returns (rows: seq<Row>)
      requires Valid() && 1 <= maxRows
      modifies this
      ensures Valid() && Pos() == old(Pos()) + |rows| <= Total() && |rows| <= maxRows
      ensures rows == table[old(Pos())..Pos()]
      ensures rows == [] <==> old(Pos()) == Total()
    {
      EnsureBatchLoaded();
      if remaining <= 0 || batchIndex >= |batch| {
        return [];
      }
      var chunkSize := Min(Min(maxRows, |batch| - batchIndex), remaining);
      rows := batch[batchIndex..batchIndex + chunkSize];
      SliceOfSlice(table, base, loaded, batchIndex, chunkSize);
      batchIndex := batchIndex + chunkSize;
      remaining := remaining - chunkSize;
    }
  }

  // ---- The two streams ----------------------------------------------------

  /** The rows of a table as newline-terminated lines. */
  function Lines(line: Row -> string, rows: seq<Row>): string {
    if rows == [] then "" else Lines(line, rows[..|rows| - 1]) + line(rows[|rows| - 1]) + "\n"
  }

  lemma {:induction false} LinesAppend(line: Row -> string, xs: seq<Row>, ys: seq<Row>)
    ensures Lines(line, xs + ys) == Lines(line, xs) + Lines(line, ys)
  {
    if ys == [] {
      assert xs + ys == xs;
    } else {
      var n := |ys| - 1;
      LinesAppend(line, xs, ys[..n]);
      assert (xs + ys)[..|xs + ys| - 1] == xs + ys[..n];
    }
  }

  /** One chunk's text is its lines. */
  lemma {:induction false} JoinIsLines(line: Row -> string, rows: seq<Row>)
    requires rows != []
    ensures Join(Map(line, rows), "\n") + "\n" == Lines(line, rows)
  {
    if |rows| > 1 {
      JoinIsLines(line, rows[1..]);
      assert Map(line, rows)[1..] == Map(line, rows[1..]);
      LinesAppend(line, rows[..1], rows[1..]);
      assert rows == rows[..1] + rows[1..];
      assert rows[..1][..0] == [];
    } else {
      assert rows[..0] == [];
    }
  }

  function JsonChunk(json: Row -> string, emittedAnyClaim: bool, rows: seq<Row>): string {
    (if emittedAnyClaim then "," else "") + Join(Map(json, rows), ",")
  }

  lemma {:induction false} JsonChunkExtends(json: Row -> string, done: seq<Row>, rows: seq<Row>)
    requires rows != []
    ensures Join(Map(json, done), ",") + JsonChunk(json, done != [], rows) == Join(Map(json, done + rows), ",")
  {
    MapAppend(json, done, rows);
    if done != [] {
      JoinAppend(Map(json, done), Map(json, rows), ",");
    } else {
      assert done + rows == rows;
    }
  }

  lemma {:induction false} Extend(output: seq<string>, chunk: string, prefix: string, body: string)
    requires Concat(output) == prefix + body
    ensures Concat(output + [chunk]) == prefix + (body + chunk)
  {
    ConcatSnoc(output, chunk);
  }

  lemma {:induction false} FirstChunk(prefix: string)
    ensures Concat([prefix]) == prefix
  {
    ConcatSnoc([], prefix);
    assert [] + [prefix] == [prefix];
  }

  function CsvChunk(line: Row -> string, rows: seq<Row>): string {
    Join(Map(line, rows), "\n") + "\n"
  }

  /** What has been streamed of the rows `done`. */
  predicate CsvStreamed(output: seq<string>, prefix: string, line: Row -> string, done: seq<Row>) {
    Concat(output) == prefix + Lines(line, done)
  }

  lemma {:induction false} CsvExtends(output: seq<string>, prefix: string, line: Row -> string, done: seq<Row>,
                                      rows: seq<Row>)
    requires CsvStreamed(output, prefix, line, done) && rows != []
    ensures CsvStreamed(output + [CsvChunk(line, rows)], prefix, line, done + rows)
  {
    JoinIsLines(line, rows);
    LinesAppend(line, done, rows);
    Extend(output, CsvChunk(line, rows), prefix, Lines(line, done));
  }

  predicate JsonStreamed(output: seq<string>, prefix: string, json: Row -> string, done: seq<Row>) {
    Concat(output) == prefix + Join(Map(json, done), ",")
  }

  lemma {:induction false} JsonExtends(output: seq<string>, prefix: string, json: Row -> string, done: seq<Row>,
                                       rows: seq<Row>)
    requires JsonStreamed(output, prefix, json, done) && rows != []
    ensures JsonStreamed(output + [JsonChunk(json, done != [], rows)], prefix, json, done + rows)
  {
    JsonChunkExtends(json, done, rows);
    Extend(output, JsonChunk(json, done != [], rows), prefix, Join(Map(json, done), ","));
  }

  lemma {:induction false} TakeMore(table: seq<Row>, i: nat, j: nat)
    requires i <= j <= |table|
    ensures table[..i] + table[i..j] == table[..j]
  {
  }

  /** The CSV stream: header, then one line per row, whatever the chunk size. */
  method StreamCsv(reader: ExportBatchReader, header: string, line: Row -> string, chunkRows: int)
    returns (output: seq<string>, count: nat)
    requires reader.Valid() && reader.Pos() == 0 && 1 <= chunkRows
    modifies reader
    ensures Concat(output) == header + "\n" + Lines(line, reader.table[..reader.Total()])
    ensures count == reader.Total()
  {
    output := [header + "\n"];
    count := 0;
    ghost var prefix, done := header + "\n", [];
    FirstChunk(prefix);
    while true
      invariant reader.Valid()
      invariant count == reader.Pos() <= reader.Total()
      invariant done == reader.table[..count]
      invariant CsvStreamed(output, prefix, line, done)
      decreases reader.Total() - reader.Pos()
    {
      var rows := reader.ReadNextRows(chunkRows);
      if |rows| == 0 {
        return;
      }
      CsvExtends(output, prefix, line, done, rows);
      TakeMore(reader.table, count, reader.Pos());
      output := output + [CsvChunk(line, rows)];
      count := count + |rows|;
      done := done + rows;
    }
  }

  /** The JSON stream: prefix, comma-joined rows, and the row count, whatever the chunk size. */
  method StreamJson(reader: ExportBatchReader, prefix: string, json: Row -> string, showCount: nat -> string,
                    chunkRows: int)
    returns (output: seq<string>, count: nat)
    requires reader.Valid() && reader.Pos() == 0 && 1 <= chunkRows
    modifies reader
    ensures Concat(output) == prefix + (Join(Map(json, reader.table[..reader.Total()]), ",")
                                        + ("],\"count\":" + showCount(reader.Total()) + "}"))
    ensures count == reader.Total()
  {
    output := [prefix];
    count := 0;
    var emittedAnyClaim := false;
    ghost var done := [];
    FirstChunk(prefix);
    while true
      invariant reader.Valid()
      invariant count == reader.Pos() <= reader.Total()
      invariant done == reader.table[..count]
      invariant emittedAnyClaim <==> done != []
      invariant JsonStreamed(output, prefix, json, done)
      decreases reader.Total() - reader.Pos()
    {
      var rows := reader.ReadNextRows(chunkRows);
      if |rows| == 0 {
        break;
      }
      JsonExtends(output, prefix, json, done, rows);
      TakeMore(reader.table, count, reader.Pos());
      output := output + [JsonChunk(json, emittedAnyClaim, rows)];
      emittedAnyClaim := true;
      count := count + |rows|;
      done := done + rows;
    }
    var suffix := "],\"count\":" + showCount(count) + "}";
    Extend(output, suffix, prefix, Join(Map(json, done), ","));
    output := output + [suffix];
  }
}
