/**
 Paging over the wire: cursors travel as text. On tables whose ids survive the
 text form, following encoded cursors lists the same pages as following the
 cursors themselves.
 */
module CursorWalk {

  import opened Options
  import opened Pagination
  import opened CursorCodec

  /** A page as it is sent: its cursors encoded. */
  datatype TextPage = TextPage(rows: seq<Row>, nextCursor: Option<string>, prevCursor: Option<string>)

  function EncodeSome(iso: int -> string, cursor: Option<Cursor>): Option<string> {
    if cursor.Some? then Some(Encode(iso, cursor.value)) else None
  }

  function EncodePage(iso: int -> string, page: Page): TextPage {
    TextPage(page.rows, EncodeSome(iso, page.nextCursor), EncodeSome(iso, page.prevCursor))
  }

  /** A text that does not parse is no cursor. */
  function ParseSome(date: string -> Option<int>, sort: Sort, text: Option<string>): Option<Cursor> {
    if text.Some? then Parse(date, text.value, sort) else None
  }

  /** The forward pager as its callers see it. */
  function TextPager(list: Option<Cursor> -> Page, iso: int -> string, date: string -> Option<int>,
                     sort: Sort): Option<string> -> TextPage {
    text => EncodePage(iso, list(ParseSome(date, sort, text)))
  }

  predicate TextWalk(list: Option<string> -> TextPage, text: Option<string>, pages: seq<TextPage>)
    decreases |pages|
  {
    && pages != [] && pages[0] == list(text)
    && if pages[0].nextCursor.Some? then TextWalk(list, pages[0].nextCursor, pages[1..]) else |pages| == 1
  }

  predicate GoodIds(table: seq<Row>) {
    forall i :: 0 <= i < |table| ==> GoodId(table[i].id)
  }

  predicate Survives(iso: int -> string, date: string -> Option<int>, sort: Sort, cursor: Option<Cursor>) {
    ParseSome(date, sort, EncodeSome(iso, cursor)) == cursor
  }

  /** The cursor before any position of a table of good ids survives its text form. */
  lemma {:induction false} CursorsSurvive(iso: int -> string, date: string -> Option<int>, sort: Sort, table: seq<Row>,
                                          i: nat)
    requires FaithfulDates(iso, date) && GoodIds(table) && i <= |table|
    ensures Survives(iso, date, sort, CursorBefore(sort, table, i))
  {
    if i > 0 {
      CursorRoundTrip(iso, date, CursorOf(table[i - 1], sort), sort);
    }
  }

  /** At every position the page sent is the page there, encoded. */
  ghost predicate SendsPages(send: Option<string> -> TextPage, iso: int -> string, sort: Sort, table: seq<Row>,
                             limit: nat) {
    forall i: nat :: i <= |table| ==>
      send(EncodeSome(iso, CursorBefore(sort, table, i))) == EncodePage(iso, PageAt(sort, table, limit, i))
  }

  lemma {:induction false} TextPagerSends(list: Option<Cursor> -> Page, iso: int -> string, date: string -> Option<int>,
                                          sort: Sort, table: seq<Row>, limit: nat)
    requires FaithfulDates(iso, date) && GoodIds(table) && ListsPages(list, sort, table, limit)
    ensures SendsPages(TextPager(list, iso, date, sort), iso, sort, table, limit)
  {
    forall i: nat | i <= |table|
      ensures TextPager(list, iso, date, sort)(EncodeSome(iso, CursorBefore(sort, table, i)))
              == EncodePage(iso, PageAt(sort, table, limit, i))
    {
      CursorsSurvive(iso, date, sort, table, i);
      assert list(CursorBefore(sort, table, i)) == PageAt(sort, table, limit, i);
    }
  }

  /** A walk along encoded cursors is the walk along the cursors, page by page. */
  lemma {:induction false} TextWalkIsWalk(send: Option<string> -> TextPage, list: Option<Cursor> -> Page,
                                          iso: int -> string,
                                          sort: Sort, table: seq<Row>, limit: nat, i: nat, texts: seq<TextPage>)
    returns (pages: seq<Page>)
    requires i <= |table| && 1 <= limit && ListsPages(list, sort, table, limit)
             && SendsPages(send, iso, sort, table, limit)
    requires TextWalk(send, EncodeSome(iso, CursorBefore(sort, table, i)), texts)
    ensures Walk(list, CursorBefore(sort, table, i), pages)
    ensures |texts| == |pages| && forall k :: 0 <= k < |pages| ==> texts[k] == EncodePage(iso, pages[k])
    decreases |texts|
  {
    var page, rest := PageAt(sort, table, limit, i), [];
    assert send(EncodeSome(iso, CursorBefore(sort, table, i))) == EncodePage(iso, page);
    assert list(CursorBefore(sort, table, i)) == page;
    if i + limit < |table| {
      rest := TextWalkIsWalk(send, list, iso, sort, table, limit, i + limit, texts[1..]);
    }
    pages := [page] + rest;
    assert pages[1..] == rest;
  }

  function TextRows(pages: seq<TextPage>): seq<Row> {
    if pages == [] then [] else pages[0].rows + TextRows(pages[1..])
  }

  lemma {:induction false} SameRows(iso: int -> string, texts: seq<TextPage>, pages: seq<Page>)
    requires |texts| == |pages| && forall k :: 0 <= k < |pages| ==> texts[k] == EncodePage(iso, pages[k])
    ensures TextRows(texts) == RowsOf(pages)
  {
    if texts != [] {
      assert forall k :: 0 <= k < |pages[1..]| ==> texts[1..][k] == texts[k + 1] && pages[1..][k] == pages[k + 1];
      SameRows(iso, texts[1..], pages[1..]);
    }
  }

  lemma {:induction false} SentPagesVisitAll(send: Option<string> -> TextPage, list: Option<Cursor> -> Page,
                                             iso: int -> string,
                                             sort: Sort, table: seq<Row>, limit: nat, texts: seq<TextPage>)
    requires 1 <= limit && ListsPages(list, sort, table, limit) && SendsPages(send, iso, sort, table, limit)
    requires TextWalk(send, None, texts)
    ensures TextRows(texts) == table && |texts| == PageCount(|table|, limit)
  {
    var pages := TextWalkIsWalk(send, list, iso, sort, table, limit, 0, texts);
    WalkIsPages(list, sort, table, limit, 0, pages);
    PagesVisitAll(table, limit, 0, pages);
    SameRows(iso, texts, pages);
    assert table[0..] == table;
  }

  /** So a caller that follows encoded cursors from the start sees every row exactly once, in order. */
  lemma {:induction false} TextWalkVisitsAll(rank: string -> real, iso: int -> string, date: string -> Option<int>,
                                             sort: Sort,
                                             table: seq<Row>, limit: nat, texts: seq<TextPage>)
    requires Sorted(rank, OrderBy(sort, Forward), table) && 1 <= limit && FaithfulDates(iso, date) && GoodIds(table)
    requires TextWalk(TextPager(Pager(rank, sort, table, limit, Forward), iso, date, sort), None, texts)
    ensures TextRows(texts) == table && |texts| == PageCount(|table|, limit)
  {
    var list := Pager(rank, sort, table, limit, Forward);
    PagerListsPages(rank, sort, table, limit);
    TextPagerSends(list, iso, date, sort, table, limit);
    SentPagesVisitAll(TextPager(list, iso, date, sort), list, iso, sort, table, limit, texts);
  }
}
