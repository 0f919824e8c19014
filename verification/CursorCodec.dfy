/**
 The text form of the pagers' cursors. A cursor decodes to what was encoded
 exactly when its id is non-empty, trimmed and free of `~`.
 */
module CursorCodec {
  import opened Options
  import opened Sequences
  import opened Pagination
  import opened WhiteSpace

  // ---- Text helpers -------------------------------------------------------

  /** String.prototype.split("~"). */
  function Split(s: string): (parts: seq<string>)
    ensures parts != []
    decreases |s|
  {
    if s == [] then [""]
    else
      var rest := Split(s[1..]);
      if s[0] == '~' then [""] + rest else [[s[0]] + rest[0]] + rest[1..]
  }

  lemma {:induction false} SplitAt(a: string, rest: string)
    requires '~' !in a
    ensures Split(a + "~" + rest) == [a] + Split(rest)
    decreases |a|
  {
    var s := a + "~" + rest;
    if a == "" {
      assert s[1..] == rest;
    } else {
      assert s[1..] == a[1..] + "~" + rest;
      SplitAt(a[1..], rest);
      assert [s[0]] + a[1..] == a;
      assert ([a[1..]] + Split(rest))[1..] == Split(rest);
    }
  }

  lemma {:induction false} SplitPlain(s: string)
    ensures '~' !in s ==> Split(s) == [s]
    ensures '~' in s ==> |Split(s)| >= 2
    ensures '~' !in Split(s)[0]
    decreases |s|
  {
    if s != [] {
      SplitPlain(s[1..]);
      assert s == [s[0]] + s[1..];
    }
  }

  predicate IsSpace(c: char) {
    IsSpaceCode(c as int)
  }

  function TrimStart(s: string): string {
    if s != "" && IsSpace(s[0]) then TrimStart(s[1..]) else s
  }

  function TrimEnd(s: string): string {
    if s != "" && IsSpace(s[|s| - 1]) then TrimEnd(s[..|s| - 1]) else s
  }

  function Trim(s: string): string {
    TrimEnd(TrimStart(s))
  }

  lemma {:induction false} TrimStartTilde(s: string)
    ensures '~' in TrimStart(s) ==> '~' in s
    ensures TrimStart(s) != "" ==> !IsSpace(TrimStart(s)[0])
  {
    if s != "" && IsSpace(s[0]) {
      TrimStartTilde(s[1..]);
    }
  }

  lemma {:induction false} TrimEndKeeps(s: string)
    ensures '~' in TrimEnd(s) ==> '~' in s
    ensures TrimEnd(TrimEnd(s)) == TrimEnd(s)
    ensures TrimEnd(s) != "" ==> TrimEnd(s)[0] == s[0]
  {
    if s != "" && IsSpace(s[|s| - 1]) {
      TrimEndKeeps(s[..|s| - 1]);
    }
  }

  /** Trimmed text is trimmed, and trimming adds no character. */
  lemma {:induction false} TrimTwice(s: string)
    ensures Trim(Trim(s)) == Trim(s)
    ensures '~' in Trim(s) ==> '~' in s
  {
    TrimStartTilde(s);
    TrimEndKeeps(TrimStart(s));
  }

  // ---- Decimal numbers ----------------------------------------------------

  function Digit(n: nat): char
    requires n < 10
  {
    "0123456789"[n]
  }

  function DigitValue(c: char): Option<nat> {
    if '0' <= c <= '9' then Some(c as int - '0' as int) else None
  }

  function ShowNat(n: nat): string {
    if n < 10 then [Digit(n)] else ShowNat(n / 10) + [Digit(n % 10)]
  }

  function ShowInt(n: int): string {
    if n < 0 then "-" + ShowNat(-n) else ShowNat(n)
  }

  /** The value of the longest prefix of digits, after `acc`. */
  function ReadDigits(acc: nat, s: string): nat
    decreases |s|
  {
    if s == "" || DigitValue(s[0]).None? then acc else ReadDigits(acc * 10 + DigitValue(s[0]).value, s[1..])
  }

  /** parseInt(s, 10): leading blanks, a sign, then at least one digit; what follows the digits is ignored. */
  function ParseInt(s: string): Option<int> {
    var t := TrimStart(s);
    var negative := t != "" && t[0] == '-';
    var body := if negative || (t != "" && t[0] == '+') then t[1..] else t;
    if body == "" || DigitValue(body[0]).None? then None
    else
      var value: int := ReadDigits(0, body);
      Some(if negative then -value else value)
  }

  predicate AllDigits(s: string) {
    forall i :: 0 <= i < |s| ==> DigitValue(s[i]).Some?
  }

  lemma {:induction false} ReadDigitsConcat(acc: nat, a: string, b: string)
    requires AllDigits(a)
    ensures ReadDigits(acc, a + b) == ReadDigits(ReadDigits(acc, a), b)
    decreases |a|
  {
    if a == "" {
      assert a + b == b;
    } else {
      assert (a + b)[1..] == a[1..] + b;
      ReadDigitsConcat(acc * 10 + DigitValue(a[0]).value, a[1..], b);
    }
  }

  lemma {:induction false} DigitReadsBack(n: nat)
    requires n < 10
    ensures DigitValue(Digit(n)) == Some(n)
  {
  }

  lemma {:induction false} ShowNatReadsBack(n: nat)
    ensures ReadDigits(0, ShowNat(n)) == n && AllDigits(ShowNat(n)) && ShowNat(n) != ""
  {
    DigitReadsBack(n % 10);
    if n < 10 {
      assert [Digit(n)][1..] == "";
    } else {
      ShowNatReadsBack(n / 10);
      ReadDigitsConcat(0, ShowNat(n / 10), [Digit(n % 10)]);
      assert [Digit(n % 10)][1..] == "";
    }
  }

  lemma {:induction false} ShowIntReadsBack(n: int)
    ensures ParseInt(ShowInt(n)) == Some(n) && '~' !in ShowInt(n) && ShowInt(n) != ""
  {
    var m := if n < 0 then -n else n;
    ShowNatReadsBack(m);
    var digits := ShowNat(m);
    assert DigitValue(digits[0]).Some?;
    if n < 0 {
      assert ShowInt(n)[1..] == digits;
    }
    forall i | 0 <= i < |digits|
      ensures digits[i] != '~'
    {
      assert DigitValue(digits[i]).Some?;
    }
  }

  // ---- Encoding and parsing -----------------------------------------------

  /** `iso` prints an instant and `date` reads one: an invertible encoding without `~`. */
  ghost predicate FaithfulDates(iso: int -> string, date: string -> Option<int>) {
    forall t :: date(iso(t)) == Some(t) && iso(t) != "" && '~' !in iso(t)
  }

  function Encode(iso: int -> string, c: Cursor): string {
    match c
    case Updated(at, id) => "u~" + iso(at) + "~" + id
    case ReceiveCount(n, at, id) => "r~" + ShowInt(n) + "~" + iso(at) + "~" + id
    case FailureOldest(at, id) => "f~" + iso(at) + "~" + id
    case Created(at, id) => iso(at) + "~" + id
  }

  /** Part `i`, or nothing: absent and empty parts are both refused by every parser. */
  function Part(parts: seq<string>, i: nat): string {
    if i < |parts| then parts[i] else ""
  }

  /** The id part: trimmed, and refused when nothing is left. */
  function ParseId(raw: string): Option<string> {
    if raw == "" || Trim(raw) == "" then None else Some(Trim(raw))
  }

  function Parse(date: string -> Option<int>, value: string, sort: Sort): Option<Cursor> {
    if value == "" then None
    else
      var parts := Split(value);
      match sort
      case ReceiveCountDesc =>
        var n, at, id := ParseInt(Part(parts, 1)), date(Part(parts, 2)), ParseId(Part(parts, 3));
        if parts[0] != "r" || Part(parts, 1) == "" || Part(parts, 2) == "" || n.None? || at.None? || id.None? then None
        else Some(ReceiveCount(n.value, at.value, id.value))
      case FailureOldestFirst =>
        var at, id := date(Part(parts, 1)), ParseId(Part(parts, 2));
        if parts[0] != "f" || Part(parts, 1) == "" || at.None? || id.None? then None
        else Some(FailureOldest(at.value, id.value))
      case UpdatedDesc =>
        var tagged := |parts| == 3 && parts[0] == "u";
        var raw, rawId := if tagged then parts[1] else parts[0], if tagged then parts[2] else Part(parts, 1);
        var at, id := date(raw), ParseId(rawId);
        if raw == "" || at.None? || id.None? then None else Some(Updated(at.value, id.value))
      case CreatedDesc =>
        var at, id := date(parts[0]), ParseId(Part(parts, 1));
        if parts[0] == "" || at.None? || id.None? then None else Some(Created(at.value, id.value))
  }

  predicate GoodId(id: string) {
    id != "" && Trim(id) == id && '~' !in id
  }

  /** A parsed id is good when its part has no separator left in it. */
  lemma {:induction false} ParsedIdIsGood(raw: string)
    ensures ParseId(raw).Some? && '~' !in raw ==> GoodId(ParseId(raw).value)
    ensures GoodId(raw) ==> ParseId(raw) == Some(raw)
  {
    TrimTwice(raw);
  }

  /** The parts of an encoded cursor. */
  lemma {:induction false} EncodedParts(iso: int -> string, date: string -> Option<int>, c: Cursor)
    requires FaithfulDates(iso, date)
    ensures Split(Encode(iso, c)) ==
              match c
              case Updated(at, id) => ["u", iso(at)] + Split(id)
              case ReceiveCount(n, at, id) => ["r", ShowInt(n), iso(at)] + Split(id)
              case FailureOldest(at, id) => ["f", iso(at)] + Split(id)
              case Created(at, id) => [iso(at)] + Split(id)
  {
    match c
    case Updated(at, id) => Tagged("u", iso(at), id);
    case FailureOldest(at, id) => Tagged("f", iso(at), id);
    case Created(at, id) => SplitAt(iso(at), id);
    case ReceiveCount(n, at, id) =>
      ShowIntReadsBack(n);
      SplitAt(iso(at), id);
      Tagged("r", ShowInt(n), iso(at) + "~" + id);
      Assoc("r~" + ShowInt(n) + "~", iso(at) + "~", id);
      Assoc("r~" + ShowInt(n) + "~", iso(at), "~");
  }

  lemma {:induction false} Tagged(tag: string, a: string, rest: string)
    requires '~' !in tag && '~' !in a
    ensures Split((tag + "~") + a + "~" + rest) == [tag, a] + Split(rest)
    ensures "u~" == "u" + "~" && "r~" == "r" + "~" && "f~" == "f" + "~"
  {
    SplitAt(a, rest);
    SplitAt(tag, a + "~" + rest);
    Assoc(tag + "~" + a, "~", rest);
    Assoc(tag + "~", a, "~" + rest);
    Assoc(a, "~", rest);
  }

  /** A cursor survives encoding and parsing under its own sort exactly when its id is good. */
  lemma {:induction false} CursorRoundTrip(iso: int -> string, date: string -> Option<int>, c: Cursor, sort: Sort)
    requires FaithfulDates(iso, date) && Matches(sort, c)
    ensures Parse(date, Encode(iso, c), sort) == Some(c) <==> GoodId(c.id)
  {
    var parts := Split(Encode(iso, c));
    EncodedParts(iso, date, c);
    SplitPlain(c.id);
    var head := Split(c.id)[0];
    ParsedIdIsGood(head);
    if c.ReceiveCount? {
      ShowIntReadsBack(c.receiveCount);
    }
    if c.Updated? && |parts| > 3 {
      ParsedIdIsGood(parts[1]);
    }
  }
}
