/**
 Scan keywords: the settings form parses and stores them, the page prints them
 back one a line, and the worker normalises them again before use.

 Text is a sequence of UTF-16 code units. Replacing control characters one
 code point at a time touches only units below 128, so working unit by unit is
 the same. `lower` stands for toLowerCase; nothing is assumed of it.
 */
module Keywords {

  import opened Sequences
  import opened WhiteSpace

  newtype Unit = x: int | 0 <= x < 0x1_0000

  type Text = seq<Unit>

  const MAX_SCAN_KEYWORDS := 75
  const MAX_SCAN_KEYWORD_LENGTH := 80

  const NEWLINE: Unit := 10
  const SPACE: Unit := 32
  const COMMA: Unit := 44

  predicate IsControl(c: Unit) {
    c < 32 || c == 127
  }

  predicate IsSpace(c: Unit) {
    IsSpaceCode(c as int)
  }

  predicate IsSeparator(c: Unit) {
    c == NEWLINE || c == COMMA
  }

  // ---- Normalising one keyword --------------------------------------------

  function ReplaceControlCharacters(t: Text): (r: Text)
    ensures |r| == |t|
  {
    if t == [] then [] else [if IsControl(t[0]) then SPACE else t[0]] + ReplaceControlCharacters(t[1..])
  }

  /** Each run of white space becomes one space; `inRun` when one has just been written for the current run. */
  function Collapse(t: Text, inRun: bool): Text {
    if t == [] then []
    else if IsSpace(t[0]) then (if inRun then [] else [SPACE]) + Collapse(t[1..], true)
    else [t[0]] + Collapse(t[1..], false)
  }

  function LeadingSpaces(t: Text): (n: nat)
    ensures n <= |t| && (forall i :: 0 <= i < n ==> IsSpace(t[i])) && (n < |t| ==> !IsSpace(t[n]))
  {
    if t != [] && IsSpace(t[0]) then 1 + LeadingSpaces(t[1..]) else 0
  }

  function WithoutTrailingSpaces(t: Text): (n: nat)
    ensures n <= |t| && (forall i :: n <= i < |t| ==> IsSpace(t[i])) && (n > 0 ==> !IsSpace(t[n - 1]))
  {
    if t != [] && IsSpace(t[|t| - 1]) then WithoutTrailingSpaces(t[..|t| - 1]) else |t|
  }

  function Trim(t: Text): Text {
    TrimEnd(t[LeadingSpaces(t)..])
  }

  /** The empty text stands for the null of `normalizeScanKeyword`. */
  function Normalize(t: Text): Text {
    Trim(Collapse(ReplaceControlCharacters(t), false))
  }

  /** White space only as single spaces, and no control characters. */
  predicate Collapsed(t: Text) {
    && (forall i :: 0 <= i < |t| ==> !IsControl(t[i]) && (IsSpace(t[i]) ==> t[i] == SPACE))
    && (forall i :: 0 < i < |t| ==> !(IsSpace(t[i - 1]) && IsSpace(t[i])))
  }

  /** A keyword in normal form. */
  predicate Normal(t: Text) {
    t != [] && Collapsed(t) && !IsSpace(t[0]) && !IsSpace(t[|t| - 1])
  }

  predicate WithoutUnit(t: Text, c: Unit) {
    forall i :: 0 <= i < |t| ==> t[i] != c
  }

  lemma {:induction false} ReplaceAt(t: Text, i: nat)
    requires i < |t|
    ensures ReplaceControlCharacters(t)[i] == if IsControl(t[i]) then SPACE else t[i]
  {
    if i > 0 {
      ReplaceAt(t[1..], i - 1);
    }
  }

  lemma {:induction false} CollapseCollapses(t: Text, inRun: bool)
    requires forall i :: 0 <= i < |t| ==> !IsControl(t[i])
    ensures var r := Collapse(t, inRun);
            Collapsed(r) && |r| <= |t| && (inRun && r != [] ==> !IsSpace(r[0]))
  {
    if t != [] {
      CollapseCollapses(t[1..], IsSpace(t[0]));
    }
  }

  lemma {:induction false} CollapseKeepsOut(t: Text, inRun: bool, c: Unit)
    requires WithoutUnit(t, c) && !IsSpace(c)
    ensures WithoutUnit(Collapse(t, inRun), c)
  {
    if t != [] {
      CollapseKeepsOut(t[1..], IsSpace(t[0]), c);
    }
  }

  lemma {:induction false} CollapseIdle(t: Text, inRun: bool)
    requires Collapsed(t) && (inRun && t != [] ==> !IsSpace(t[0]))
    ensures Collapse(t, inRun) == t
  {
    if t != [] {
      assert forall i :: 0 <= i < |t[1..]| ==> t[1..][i] == t[i + 1];
      CollapseIdle(t[1..], IsSpace(t[0]));
    }
  }

  /** Normalising gives nothing or a normal form, no longer than its input and without new commas. */
  lemma {:induction false} NormalizeIsNormal(t: Text)
    ensures var r := Normalize(t);
            (r == [] || Normal(r)) && |r| <= |t| && (WithoutUnit(t, COMMA) ==> WithoutUnit(r, COMMA))
  {
    var replaced := ReplaceControlCharacters(t);
    forall i | 0 <= i < |replaced|
      ensures !IsControl(replaced[i]) && (t[i] != COMMA ==> replaced[i] != COMMA)
    {
      ReplaceAt(t, i);
    }
    CollapseCollapses(replaced, false);
    if WithoutUnit(t, COMMA) {
      CollapseKeepsOut(replaced, false, COMMA);
    }
    var u := Collapse(replaced, false);
    TrimOfCollapsed(u);
  }

  lemma {:induction false} TrimOfCollapsed(u: Text)
    requires Collapsed(u)
    ensures var r := Trim(u);
            (r == [] || Normal(r)) && |r| <= |u| && (WithoutUnit(u, COMMA) ==> WithoutUnit(r, COMMA))
  {
    var k := LeadingSpaces(u);
    var r := Trim(u);
    assert forall i :: 0 <= i < |r| ==> r[i] == u[k + i];
  }

  /** Nothing below the space, and no delete character, is left by normalising. */
  lemma {:induction false} NormalizedIsVisible(t: Text)
    ensures forall i :: 0 <= i < |Normalize(t)| ==> 32 <= Normalize(t)[i] && Normalize(t)[i] != 127
  {
    NormalizeIsNormal(t);
  }

  /** Normal forms are the fixed points. */
  lemma {:induction false} NormalIsFixed(t: Text)
    ensures Normal(t) || t == [] <==> Normalize(t) == t
  {
    NormalizeIsNormal(t);
    if Normal(t) {
      var replaced := ReplaceControlCharacters(t);
      forall i | 0 <= i < |t|
        ensures replaced[i] == t[i]
      {
        ReplaceAt(t, i);
      }
      assert replaced == t;
      CollapseIdle(t, false);
      assert t[0..] == t;
    }
  }

  predicate IsBlank(c: Unit) {
    IsSpace(c) || IsControl(c)
  }

  function WordLength(t: Text): (n: nat)
    ensures n <= |t| && (forall i :: 0 <= i < n ==> !IsBlank(t[i])) && (n < |t| ==> IsBlank(t[n]))
  {
    if t == [] || IsBlank(t[0]) then 0 else 1 + WordLength(t[1..])
  }

  /** The maximal runs of units that are neither white space nor control characters. */
  function Words(t: Text): seq<Text>
    decreases |t|
  {
    if t == [] then []
    else if IsBlank(t[0]) then Words(t[1..])
    else [t[..WordLength(t)]] + Words(t[WordLength(t)..])
  }

  function JoinWords(words: seq<Text>): Text {
    if words == [] then []
    else if |words| == 1 then words[0]
    else words[0] + [SPACE] + JoinWords(words[1..])
  }

  function TrimEnd(t: Text): Text {
    t[..WithoutTrailingSpaces(t)]
  }

  /** A word passes through both steps unchanged. */
  lemma {:induction false} WordPasses(word: Text, rest: Text, inRun: bool)
    requires word != [] && forall i :: 0 <= i < |word| ==> !IsBlank(word[i])
    ensures Collapse(ReplaceControlCharacters(word + rest), inRun)
            == word + Collapse(ReplaceControlCharacters(rest), false)
  {
    var all := word + rest;
    assert all[1..] == word[1..] + rest;
    if |word| == 1 {
      assert all[1..] == rest;
    } else {
      WordPasses(word[1..], rest, false);
    }
    assert word == [word[0]] + word[1..];
  }

  lemma {:induction false} TrimEndAppend(word: Text, x: Text)
    requires word != [] && !IsSpace(word[|word| - 1])
    ensures TrimEnd(word + [SPACE] + x) == if TrimEnd(x) == [] then word else word + [SPACE] + TrimEnd(x)
    ensures TrimEnd(word) == word
    decreases |x|
  {
    var all := word + [SPACE] + x;
    if x == [] {
      assert all[..|all| - 1] == word;
    } else if IsSpace(x[|x| - 1]) {
      TrimEndAppend(word, x[..|x| - 1]);
      assert all[..|all| - 1] == word + [SPACE] + x[..|x| - 1];
    }
  }

  lemma {:induction false} FirstWord(word: Text, rest: Text)
    requires word != [] && (forall i :: 0 <= i < |word| ==> !IsBlank(word[i])) && (rest != [] ==> IsBlank(rest[0]))
    ensures Words(word + rest) == [word] + Words(rest)
    ensures JoinWords(Words(word + rest)) == if Words(rest) == [] then word else word + [SPACE] + JoinWords(Words(rest))
  {
    var t := word + rest;
    assert t[..|word|] == word && t[|word|..] == rest;
    assert WordLength(t) == |word|;
    assert ([word] + Words(rest))[1..] == Words(rest);
  }

  function Squeeze(t: Text, inRun: bool): Text {
    Collapse(ReplaceControlCharacters(t), inRun)
  }

  lemma {:induction false} SqueezeBlank(t: Text)
    requires t != [] && IsBlank(t[0])
    ensures Squeeze(t, true) == Squeeze(t[1..], true)
    ensures Squeeze(t, false) == [SPACE] + Squeeze(t, true)
  {
    assert ReplaceControlCharacters(t)[1..] == ReplaceControlCharacters(t[1..]);
  }

  /** A word, then a space and what follows it. */
  lemma {:induction false} SqueezeWord(word: Text, rest: Text)
    requires word != [] && (forall i :: 0 <= i < |word| ==> !IsBlank(word[i])) && (rest != [] ==> IsBlank(rest[0]))
    ensures Squeeze(word + rest, true) == if rest == [] then word else word + [SPACE] + Squeeze(rest, true)
  {
    WordPasses(word, rest, true);
    if rest != [] {
      SqueezeBlank(rest);
      Assoc(word, [SPACE], Squeeze(rest, true));
    }
  }

  /** When a run is already open, leading blanks vanish and the words follow. */
  lemma {:induction false} OpenRunGivesWords(t: Text)
    ensures TrimEnd(Squeeze(t, true)) == JoinWords(Words(t))
    ensures Words(t) == [] <==> JoinWords(Words(t)) == []
    decreases |t|
  {
    if t != [] && IsBlank(t[0]) {
      SqueezeBlank(t);
      OpenRunGivesWords(t[1..]);
    } else if t != [] {
      var word, rest := t[..WordLength(t)], t[WordLength(t)..];
      assert t == word + rest;
      OpenRunGivesWords(rest);
      SqueezeWord(word, rest);
      TrimEndAppend(word, Squeeze(rest, true));
      FirstWord(word, rest);
    }
  }

  /** A closed run differs from an open one by at most the leading space. */
  lemma {:induction false} TrimForgetsLeadingSpace(t: Text)
    ensures Trim(Collapse(t, false)) == TrimEnd(Collapse(t, true))
  {
    var open := Collapse(t, true);
    HeadOfOpenRun(t);
    if t != [] && IsSpace(t[0]) {
      assert Collapse(t, false) == [SPACE] + open;
      assert Collapse(t, false)[LeadingSpaces(Collapse(t, false))..] == open;
    } else {
      assert Collapse(t, false) == open && open[0..] == open;
    }
  }

  lemma {:induction false} HeadOfOpenRun(t: Text)
    ensures var r := Collapse(t, true);
            r != [] ==> !IsSpace(r[0])
  {
    if t != [] && IsSpace(t[0]) {
      HeadOfOpenRun(t[1..]);
    }
  }

  /** Normalising keeps exactly the words, in order, with one space between each two. */
  lemma {:induction false} NormalizeKeepsWords(t: Text)
    ensures Normalize(t) == JoinWords(Words(t))
  {
    TrimForgetsLeadingSpace(ReplaceControlCharacters(t));
    OpenRunGivesWords(t);
  }

  // ---- Splitting and joining ----------------------------------------------

  /** Length of the longest prefix all of whose units are separators, or all of whose units are not. */
  function RunLength(t: Text, separators: bool): (n: nat)
    ensures n <= |t| && (forall i :: 0 <= i < n ==> IsSeparator(t[i]) == separators)
    ensures n < |t| ==> IsSeparator(t[n]) != separators
  {
    if t != [] && IsSeparator(t[0]) == separators then 1 + RunLength(t[1..], separators) else 0
  }

  predicate SeparatorFree(pieces: seq<Text>) {
    forall j, k :: 0 <= j < |pieces| && 0 <= k < |pieces[j]| ==> !IsSeparator(pieces[j][k])
  }

  /** split(/[\n,]+/): a run of separators splits once, and one at an end leaves an empty piece there. */
  function Split(t: Text): (pieces: seq<Text>)
    ensures pieces != [] && SeparatorFree(pieces)
    decreases |t|
  {
    var i := RunLength(t, false);
    if i == |t| then [t] else [t[..i]] + Split(t[i + RunLength(t[i..], true)..])
  }

  function JoinBy(separator: Unit, keywords: seq<Text>): Text {
    if keywords == [] then []
    else if |keywords| == 1 then keywords[0]
    else keywords[0] + [separator] + JoinBy(separator, keywords[1..])
  }

  function JoinLines(keywords: seq<Text>): Text {
    JoinBy(NEWLINE, keywords)
  }

  /** A keyword the form can show on a line of its own. */
  predicate Printable(t: Text) {
    t != [] && forall i :: 0 <= i < |t| ==> t[i] != NEWLINE && t[i] != COMMA
  }

  predicate AllPrintable(keywords: seq<Text>) {
    forall i :: 0 <= i < |keywords| ==> Printable(keywords[i])
  }

  lemma {:induction false} RunIs(t: Text, separators: bool, n: nat)
    requires n <= |t| && (forall i :: 0 <= i < n ==> IsSeparator(t[i]) == separators)
    requires n < |t| ==> IsSeparator(t[n]) != separators
    ensures RunLength(t, separators) == n
  {
  }

  lemma {:induction false} SplitOfJoin(separator: Unit, keywords: seq<Text>)
    requires (separator == NEWLINE || separator == COMMA) && keywords != [] && AllPrintable(keywords)
    ensures Split(JoinBy(separator, keywords)) == keywords
    ensures JoinBy(separator, keywords) != [] && !IsSeparator(JoinBy(separator, keywords)[0])
  {
    var first, others := keywords[0], keywords[1..];
    assert Printable(first) && keywords == [first] + others;
    if others == [] {
      SplitOne(first);
    } else {
      SplitOfJoin(separator, others);
      SplitFirst(first, separator, JoinBy(separator, others));
    }
  }

  lemma {:induction false} SplitOne(t: Text)
    requires Printable(t)
    ensures Split(t) == [t]
  {
    RunIs(t, false, |t|);
  }

  lemma {:induction false} SplitFirst(first: Text, separator: Unit, rest: Text)
    requires separator == NEWLINE || separator == COMMA
    requires Printable(first) && rest != [] && !IsSeparator(rest[0])
    ensures Split(first + [separator] + rest) == [first] + Split(rest)
  {
    var t := first + [separator] + rest;
    ConcatSlices(first, separator, rest);
    RunIs(t, false, |first|);
    RunIs([separator] + rest, true, 1);
  }

  lemma {:induction false} ConcatSlices<T>(first: seq<T>, x: T, rest: seq<T>)
    ensures var t := first + [x] + rest;
            t[..|first|] == first && t[|first|..] == [x] + rest && t[|first| + 1..] == rest
  {
  }

  // ---- Removing duplicates ------------------------------------------------

  function Keys(keywords: seq<Text>, lower: Text -> Text): set<Text> {
    if keywords == [] then {} else Keys(keywords[..|keywords| - 1], lower) + {lower(keywords[|keywords| - 1])}
  }

  lemma {:induction false} KeysAre(keywords: seq<Text>, lower: Text -> Text, key: Text)
    ensures key in Keys(keywords, lower) <==> exists i :: 0 <= i < |keywords| && lower(keywords[i]) == key
  {
    if keywords != [] {
      KeysAre(keywords[..|keywords| - 1], lower, key);
    }
  }

  /** The keywords at positions no earlier keyword shares a key with, in order. */
  function FirstOccurrences(keywords: seq<Text>, lower: Text -> Text): seq<Text> {
    if keywords == [] then []
    else
      var n := |keywords| - 1;
      FirstOccurrences(keywords[..n], lower) + (if lower(keywords[n]) in Keys(keywords[..n], lower) then []
                                                else [keywords[n]])
  }

  ghost predicate Distinct(keywords: seq<Text>, lower: Text -> Text) {
    forall i, j :: 0 <= i < j < |keywords| ==> lower(keywords[i]) != lower(keywords[j])
  }

  lemma {:induction false} KeysSnoc(keywords: seq<Text>, lower: Text -> Text, keyword: Text)
    ensures Keys(keywords + [keyword], lower) == Keys(keywords, lower) + {lower(keyword)}
  {
    assert (keywords + [keyword])[..|keywords|] == keywords;
  }

  lemma {:induction false} FirstOccurrencesSnoc(keywords: seq<Text>, lower: Text -> Text, keyword: Text)
    ensures FirstOccurrences(keywords + [keyword], lower)
            == FirstOccurrences(keywords, lower) + (if lower(keyword) in Keys(keywords, lower) then [] else [keyword])
  {
    assert (keywords + [keyword])[..|keywords|] == keywords;
  }

  /** One round of either loop, over the keywords so far. */
  lemma {:induction false} LoopStep(keywords: seq<Text>, lower: Text -> Text, keyword: Text, kept: seq<Text>,
                                    seen: set<Text>)
    requires kept == FirstOccurrences(keywords, lower) && seen == Keys(keywords, lower)
    ensures FirstOccurrences(keywords + [keyword], lower) == if lower(keyword) in seen then kept else kept + [keyword]
    ensures Keys(keywords + [keyword], lower) == seen + {lower(keyword)}
  {
    FirstOccurrencesSnoc(keywords, lower, keyword);
    KeysSnoc(keywords, lower, keyword);
  }

  /** One keyword of each key survives. */
  lemma {:induction false} OneOfEachKey(keywords: seq<Text>, lower: Text -> Text)
    ensures Distinct(FirstOccurrences(keywords, lower), lower)
    ensures Keys(FirstOccurrences(keywords, lower), lower) == Keys(keywords, lower)
  {
    if keywords != [] {
      var n := |keywords| - 1;
      var before := FirstOccurrences(keywords[..n], lower);
      OneOfEachKey(keywords[..n], lower);
      assert keywords == keywords[..n] + [keywords[n]];
      KeysSnoc(keywords[..n], lower, keywords[n]);
      if lower(keywords[n]) in Keys(before, lower) {
        assert FirstOccurrences(keywords, lower) == before;
      } else {
        KeysSnoc(before, lower, keywords[n]);
        KeysAre(before, lower, lower(keywords[n]));
      }
    }
  }

  lemma {:induction false} DrawnFrom(keywords: seq<Text>, lower: Text -> Text)
    ensures |FirstOccurrences(keywords, lower)| <= |keywords|
    ensures forall i :: 0 <= i < |FirstOccurrences(keywords, lower)| ==>
            FirstOccurrences(keywords, lower)[i] in keywords
  {
    if keywords != [] {
      DrawnFrom(keywords[..|keywords| - 1], lower);
    }
  }

  lemma {:induction false} DistinctIsFixed(keywords: seq<Text>, lower: Text -> Text)
    ensures Distinct(keywords, lower) <==> FirstOccurrences(keywords, lower) == keywords
  {
    if keywords != [] {
      var n := |keywords| - 1;
      var before := FirstOccurrences(keywords[..n], lower);
      DistinctIsFixed(keywords[..n], lower);
      OneOfEachKey(keywords, lower);
      assert keywords == keywords[..n] + [keywords[n]];
      KeysAre(keywords[..n], lower, lower(keywords[n]));
    }
  }

  // ---- The form's parser and the worker's normaliser ----------------------

  datatype Parsed = Accepted(keywords: seq<Text>) | TooManyKeywords | KeywordTooLong

  /** Each text normalised, those that come out empty left out. */
  function NormalizeAll(texts: seq<Text>): seq<Text> {
    if texts == [] then []
    else
      var n := |texts| - 1;
      NormalizeAll(texts[..n]) + (if Normalize(texts[n]) == [] then [] else [Normalize(texts[n])])
  }

  predicate AnyTooLong(keywords: seq<Text>) {
    exists i :: 0 <= i < |keywords| && |keywords[i]| > MAX_SCAN_KEYWORD_LENGTH
  }

  function Judge(keywords: seq<Text>, lower: Text -> Text): Parsed {
    var deduped := FirstOccurrences(keywords, lower);
    if AnyTooLong(keywords) then KeywordTooLong
    else if |deduped| > MAX_SCAN_KEYWORDS then TooManyKeywords
    else Accepted(deduped)
  }

  function Parse(text: Text, lower: Text -> Text): Parsed {
    Judge(NormalizeAll(Split(text)), lower)
  }

  lemma {:induction false} ParserRound(keywords: seq<Text>, i: nat, lower: Text -> Text, kept: seq<Text>,
                                       seen: set<Text>)
    requires i < |keywords| && kept == FirstOccurrences(keywords[..i], lower) && seen == Keys(keywords[..i], lower)
    ensures var after := keywords[..i + 1];
            && FirstOccurrences(after, lower) == (if lower(keywords[i]) in seen then kept else kept + [keywords[i]])
            && Keys(after, lower) == seen + {lower(keywords[i])}
  {
    NextPrefix(keywords, i);
    LoopStep(keywords[..i], lower, keywords[i], kept, seen);
  }

  method ParseScanKeywordsText(value: Text, lower: Text -> Text) returns (r: Parsed)
    ensures r == Parse(value, lower)
  {
    var keywords := NormalizeAll(Split(value));
    r := CheckKeywords(keywords, lower);
  }

  lemma {:induction false} JudgeTooLong(keywords: seq<Text>, lower: Text -> Text, i: nat)
    requires i < |keywords| && |keywords[i]| > MAX_SCAN_KEYWORD_LENGTH
    ensures Judge(keywords, lower) == KeywordTooLong
  {
  }

  /** The loop over the normalised keywords, and the count that follows it. */
  method CheckKeywords(keywords: seq<Text>, lower: Text -> Text) returns (r: Parsed)
    ensures r == Judge(keywords, lower)
  {
    var deduped: seq<Text>, seen: set<Text> := [], {};
    for i := 0 to |keywords|
      invariant forall j :: 0 <= j < i ==> |keywords[j]| <= MAX_SCAN_KEYWORD_LENGTH
      invariant deduped == FirstOccurrences(keywords[..i], lower)
      invariant seen == Keys(keywords[..i], lower)
    {
      var keyword := keywords[i];
      if |keyword| > MAX_SCAN_KEYWORD_LENGTH {
        JudgeTooLong(keywords, lower, i);
        return KeywordTooLong;
      }
      ParserRound(keywords, i, lower, deduped, seen);
      var key := lower(keyword);
      if key !in seen {
        seen := seen + {key};
        deduped := deduped + [keyword];
      }
    }
    WholePrefix(keywords);
    return if |deduped| > MAX_SCAN_KEYWORDS then TooManyKeywords else Accepted(deduped);
  }

  function Truncate<T>(s: seq<T>, n: nat): seq<T> {
    if |s| <= n then s else s[..n]
  }

  /** The worker's keyword for one value; nothing when it comes out empty. */
  function Cut(t: Text): Text {
    Truncate(Normalize(t), MAX_SCAN_KEYWORD_LENGTH)
  }

  function CutEach(texts: seq<Text>): (r: seq<Text>)
    ensures |r| == |texts|
  {
    if texts == [] then [] else CutEach(texts[..|texts| - 1]) + [Cut(texts[|texts| - 1])]
  }

  lemma {:induction false} CutEachAt(texts: seq<Text>, i: nat)
    requires i < |texts|
    ensures CutEach(texts)[i] == Cut(texts[i])
  {
    if i < |texts| - 1 {
      CutEachAt(texts[..|texts| - 1], i);
    }
  }

  function NonEmpty(texts: seq<Text>): seq<Text> {
    if texts == [] then []
    else
      var last := texts[|texts| - 1];
      NonEmpty(texts[..|texts| - 1]) + (if last == [] then [] else [last])
  }

  function TruncateAll(texts: seq<Text>): seq<Text> {
    NonEmpty(CutEach(texts))
  }

  lemma {:induction false} TruncateAllSnoc(texts: seq<Text>, t: Text)
    ensures CutEach(texts + [t]) == CutEach(texts) + [Cut(t)]
    ensures TruncateAll(texts + [t]) == if Cut(t) == [] then TruncateAll(texts) else TruncateAll(texts) + [Cut(t)]
  {
    assert (texts + [t])[..|texts|] == texts;
    NonEmptySnoc(CutEach(texts), Cut(t));
  }

  lemma {:induction false} LastNonEmpty(texts: seq<Text>)
    requires texts != []
    ensures var n := |texts| - 1;
            NonEmpty(texts) == if texts[n] == [] then NonEmpty(texts[..n]) else NonEmpty(texts[..n]) + [texts[n]]
  {
  }

  lemma {:induction false} NonEmptySnoc(texts: seq<Text>, t: Text)
    ensures NonEmpty(texts + [t]) == if t == [] then NonEmpty(texts) else NonEmpty(texts) + [t]
  {
    assert (texts + [t])[..|texts|] == texts;
  }

  function Configured(values: seq<Text>, lower: Text -> Text): seq<Text> {
    FirstOccurrences(TruncateAll(Truncate(values, MAX_SCAN_KEYWORDS)), lower)
  }

  lemma {:induction false} WorkerRound(texts: seq<Text>, i: nat, lower: Text -> Text, kept: seq<Text>, seen: set<Text>)
    requires i < |texts| && kept == FirstOccurrences(TruncateAll(texts[..i]), lower)
             && seen == Keys(TruncateAll(texts[..i]), lower)
    ensures var keyword := Cut(texts[i]);
            var after := TruncateAll(texts[..i + 1]);
            && FirstOccurrences(after, lower) == (if keyword == [] || lower(keyword) in seen then kept
                                                  else kept + [keyword])
            && Keys(after, lower) == (if keyword == [] then seen else seen + {lower(keyword)})
  {
    NextPrefix(texts, i);
    TruncateAllSnoc(texts[..i], texts[i]);
    LoopStep(TruncateAll(texts[..i]), lower, Cut(texts[i]), kept, seen);
  }

  method NormalizeConfiguredScanKeywords(values: seq<Text>, lower: Text -> Text) returns (normalized: seq<Text>)
    ensures normalized == Configured(values, lower)
  {
    normalized := [];
    var seen: set<Text>, sliced := {}, Truncate(values, MAX_SCAN_KEYWORDS);
    for i := 0 to |sliced|
      invariant normalized == FirstOccurrences(TruncateAll(sliced[..i]), lower)
      invariant seen == Keys(TruncateAll(sliced[..i]), lower)
    {
      WorkerRound(sliced, i, lower, normalized, seen);
      var keyword := Cut(sliced[i]);
      if keyword != [] {
        var key := lower(keyword);
        if key !in seen {
          seen := seen + {key};
          normalized := normalized + [keyword];
        }
      }
    }
    WholePrefix(sliced);
  }

  // ---- Theorems -----------------------------------------------------------

  /** What the form stores: at most 75 distinct normal keywords of at most 80 units, each free of separators. */
  ghost predicate Storable(keywords: seq<Text>, lower: Text -> Text) {
    Usable(keywords, lower) && AllPrintable(keywords)
  }

  ghost predicate Usable(keywords: seq<Text>, lower: Text -> Text) {
    && |keywords| <= MAX_SCAN_KEYWORDS && Distinct(keywords, lower)
    && forall i :: 0 <= i < |keywords| ==> Normal(keywords[i]) && |keywords[i]| <= MAX_SCAN_KEYWORD_LENGTH
  }

  lemma {:induction false} NormalizedAre(texts: seq<Text>, i: nat)
    requires SeparatorFree(texts) && i < |NormalizeAll(texts)|
    ensures Normal(NormalizeAll(texts)[i]) && Printable(NormalizeAll(texts)[i])
  {
    var n := |texts| - 1;
    NormalizeIsNormal(texts[n]);
    if i < |NormalizeAll(texts[..n])| {
      NormalizedAre(texts[..n], i);
    }
  }

  /** Everything the parser accepts can be stored. */
  lemma {:induction false} AcceptedIsStorable(text: Text, lower: Text -> Text)
    requires Parse(text, lower).Accepted?
    ensures Storable(Parse(text, lower).keywords, lower)
  {
    var pieces := Split(text);
    forall i | 0 <= i < |NormalizeAll(pieces)|
      ensures Normal(NormalizeAll(pieces)[i]) && Printable(NormalizeAll(pieces)[i])
    {
      NormalizedAre(pieces, i);
    }
    JudgedIsStorable(NormalizeAll(pieces), lower);
  }

  lemma {:induction false} JudgedIsStorable(keywords: seq<Text>, lower: Text -> Text)
    requires Judge(keywords, lower).Accepted?
    requires forall i :: 0 <= i < |keywords| ==> Normal(keywords[i]) && Printable(keywords[i])
    ensures Storable(Judge(keywords, lower).keywords, lower)
  {
    var deduped := FirstOccurrences(keywords, lower);
    OneOfEachKey(keywords, lower);
    forall i | 0 <= i < |deduped|
      ensures Normal(deduped[i]) && Printable(deduped[i]) && |deduped[i]| <= MAX_SCAN_KEYWORD_LENGTH
    {
      var j := DrawnAt(keywords, lower, i);
    }
  }

  lemma {:induction false} DrawnAt(keywords: seq<Text>, lower: Text -> Text, i: nat) returns (j: nat)
    requires i < |FirstOccurrences(keywords, lower)|
    ensures j < |keywords| && keywords[j] == FirstOccurrences(keywords, lower)[i]
  {
    DrawnFrom(keywords, lower);
    j :| j < |keywords| && keywords[j] == FirstOccurrences(keywords, lower)[i];
  }

  lemma {:induction false} NormalizeAllIdle(texts: seq<Text>)
    requires forall i :: 0 <= i < |texts| ==> Normal(texts[i])
    ensures NormalizeAll(texts) == texts
  {
    if texts != [] {
      var n := |texts| - 1;
      NormalizeAllIdle(texts[..n]);
      NormalIsFixed(texts[n]);
      assert texts == texts[..n] + [texts[n]];
    }
  }

  /** Joining keywords by line ends or by commas and parsing gives them back: exactly the storable lists do. */
  lemma {:induction false} JoinedReadsBack(separator: Unit, keywords: seq<Text>, lower: Text -> Text)
    requires separator == NEWLINE || separator == COMMA
    ensures Storable(keywords, lower) <==> Parse(JoinBy(separator, keywords), lower) == Accepted(keywords)
  {
    if Parse(JoinBy(separator, keywords), lower) == Accepted(keywords) {
      AcceptedIsStorable(JoinBy(separator, keywords), lower);
    }
    if Storable(keywords, lower) {
      if keywords == [] {
        NothingParsesToNothing(lower);
      } else {
        SplitOfJoin(separator, keywords);
        NormalizeAllIdle(keywords);
        DistinctIsFixed(keywords, lower);
      }
    }
  }

  /** So printing stored keywords one a line and parsing them gives them back. */
  lemma {:induction false} PrintedReadsBack(keywords: seq<Text>, lower: Text -> Text)
    ensures Storable(keywords, lower) <==> Parse(JoinLines(keywords), lower) == Accepted(keywords)
  {
    JoinedReadsBack(NEWLINE, keywords, lower);
  }

  /** A text is refused for a keyword that stays too long when normalised, and else for too many distinct ones. */
  lemma {:induction false} RefusedIff(text: Text, lower: Text -> Text)
    ensures var normalized := NormalizeAll(Split(text));
            && (Parse(text, lower) == KeywordTooLong <==> exists i :: 0 <= i < |normalized| && |normalized[i]| > 80)
            && (Parse(text, lower) == TooManyKeywords <==>
                  && (forall i :: 0 <= i < |normalized| ==> |normalized[i]| <= 80)
                  && |FirstOccurrences(normalized, lower)| > 75)
            && (Parse(text, lower).Accepted? ==> Parse(text, lower).keywords == FirstOccurrences(normalized, lower))
  {
  }

  lemma {:induction false} NothingParsesToNothing(lower: Text -> Text)
    ensures Parse([], lower) == Accepted([])
  {
    assert Split([]) == [[]];
    NormalIsFixed([]);
    var pieces: seq<Text> := [[]];
    assert pieces[..0] == [];
    assert NormalizeAll(pieces) == [];
  }

  lemma {:induction false} TruncateAllFixed(texts: seq<Text>)
    ensures |TruncateAll(texts)| <= |texts|
    ensures (forall i :: 0 <= i < |texts| ==> Normal(texts[i]) && |texts[i]| <= MAX_SCAN_KEYWORD_LENGTH)
            <==> TruncateAll(texts) == texts
  {
    if texts != [] {
      var n := |texts| - 1;
      TruncateAllFixed(texts[..n]);
      NormalIsFixed(texts[n]);
      NormalizeIsNormal(texts[n]);
      assert texts == texts[..n] + [texts[n]];
      if TruncateAll(texts) == texts {
        TailIs(TruncateAll(texts[..n]), texts, Cut(texts[n]));
      }
    }
  }

  lemma {:induction false} TailIs(front: seq<Text>, texts: seq<Text>, last: Text)
    requires texts != [] && |front| < |texts| && front + (if last == [] then [] else [last]) == texts
    ensures front == texts[..|texts| - 1] && last == texts[|texts| - 1] != []
  {
  }

  /** The worker leaves a list alone exactly when it is usable: few, distinct, normal and short. */
  lemma {:induction false} WorkerFixesUsable(values: seq<Text>, lower: Text -> Text)
    ensures Usable(values, lower) <==> Configured(values, lower) == values
  {
    var sliced := Truncate(values, MAX_SCAN_KEYWORDS);
    var kept := TruncateAll(sliced);
    TruncateAllFixed(sliced);
    DistinctIsFixed(values, lower);
    if FirstOccurrences(kept, lower) == values {
      DrawnFrom(kept, lower);
      FullLength(kept, lower);
      assert kept == sliced == values;
    }
  }

  /** Cutting the normalised value at 80 units leaves a space at its end. */
  predicate CutEndsInSpace(t: Text) {
    |Normalize(t)| > MAX_SCAN_KEYWORD_LENGTH && Normalize(t)[MAX_SCAN_KEYWORD_LENGTH - 1] == SPACE
  }

  predicate HasKey(t: Text, lower: Text -> Text, key: Text) {
    t != [] && lower(t) == key
  }

  /** The key of position `i` is that of no keyword before it; empty texts are no keywords. */
  predicate NewKey(texts: seq<Text>, lower: Text -> Text, i: nat)
    requires i < |texts|
  {
    forall j :: 0 <= j < i ==> !HasKey(texts[j], lower, lower(texts[i]))
  }

  /** Position `i` is kept, but not in normal form. */
  predicate KeptAbnormal(texts: seq<Text>, lower: Text -> Text, i: nat) {
    i < |texts| && texts[i] != [] && !Normal(texts[i]) && NewKey(texts, lower, i)
  }

  predicate AllNormal(keywords: seq<Text>) {
    forall i :: 0 <= i < |keywords| ==> Normal(keywords[i])
  }

  lemma {:induction false} AllNormalSnoc(keywords: seq<Text>, keyword: Text)
    ensures AllNormal(keywords + [keyword]) <==> AllNormal(keywords) && Normal(keyword)
  {
    var all := keywords + [keyword];
    if AllNormal(all) {
      assert forall i :: 0 <= i < |keywords| ==> all[i] == keywords[i];
      assert all[|keywords|] == keyword;
    }
  }

  lemma {:induction false} KeysOfNonEmpty(texts: seq<Text>, lower: Text -> Text, key: Text)
    ensures key in Keys(NonEmpty(texts), lower) <==> exists j :: 0 <= j < |texts| && HasKey(texts[j], lower, key)
  {
    if texts != [] {
      var n := |texts| - 1;
      KeysOfNonEmpty(texts[..n], lower, key);
      LastNonEmpty(texts);
      KeysSnoc(NonEmpty(texts[..n]), lower, texts[n]);
      assert key in Keys(NonEmpty(texts), lower) <==>
               key in Keys(NonEmpty(texts[..n]), lower) || HasKey(texts[n], lower, key);
      assert forall j :: 0 <= j < n ==> HasKey(texts[..n][j], lower, key) == HasKey(texts[j], lower, key);
    }
  }

  lemma {:induction false} KeptAbnormalBefore(texts: seq<Text>, lower: Text -> Text, n: nat, i: nat)
    requires i < n <= |texts|
    ensures KeptAbnormal(texts[..n], lower, i) <==> KeptAbnormal(texts, lower, i)
  {
    assert forall j :: 0 <= j < n ==> texts[..n][j] == texts[j];
  }

  /** The last text is kept, abnormal, exactly when it is abnormal and has a new key. */
  lemma {:induction false} LastKeptAbnormal(texts: seq<Text>, lower: Text -> Text, n: nat)
    requires n < |texts|
    ensures KeptAbnormal(texts, lower, n)
            <==> texts[n] != [] && !Normal(texts[n]) && lower(texts[n]) !in Keys(NonEmpty(texts[..n]), lower)
  {
    KeysOfNonEmpty(texts[..n], lower, lower(texts[n]));
    assert forall j :: 0 <= j < n ==> texts[..n][j] == texts[j];
  }

  predicate NoneKeptAbnormal(texts: seq<Text>, lower: Text -> Text) {
    forall i: nat :: i < |texts| ==> !KeptAbnormal(texts, lower, i)
  }

  lemma {:induction false} NoneKeptAbnormalSnoc(texts: seq<Text>, lower: Text -> Text)
    requires texts != []
    ensures var n := |texts| - 1;
            NoneKeptAbnormal(texts, lower) <==> NoneKeptAbnormal(texts[..n], lower) && !KeptAbnormal(texts, lower, n)
  {
    var n := |texts| - 1;
    forall i: nat | i < n
      ensures KeptAbnormal(texts[..n], lower, i) <==> KeptAbnormal(texts, lower, i)
    {
      KeptAbnormalBefore(texts, lower, n, i);
    }
  }

  /** What is kept is in normal form exactly when no position is kept abnormal. */
  lemma {:induction false} KeptAreNormal(texts: seq<Text>, lower: Text -> Text)
    ensures AllNormal(FirstOccurrences(NonEmpty(texts), lower)) <==> NoneKeptAbnormal(texts, lower)
  {
    if texts != [] {
      var n := |texts| - 1;
      var before := NonEmpty(texts[..n]);
      KeptAreNormal(texts[..n], lower);
      NoneKeptAbnormalSnoc(texts, lower);
      LastKeptAbnormal(texts, lower, n);
      LastNonEmpty(texts);
      FirstOccurrencesSnoc(before, lower, texts[n]);
      AllNormalSnoc(FirstOccurrences(before, lower), texts[n]);
      if texts[n] != [] && lower(texts[n]) in Keys(before, lower) {
        assert FirstOccurrences(NonEmpty(texts), lower) == FirstOccurrences(before, lower);
      }
    }
  }

  /** A cut value is short, and abnormal exactly when it ends in a space. */
  lemma {:induction false} CutIsNormal(t: Text)
    ensures |Cut(t)| <= MAX_SCAN_KEYWORD_LENGTH
    ensures Cut(t) != [] && !Normal(Cut(t)) <==> CutEndsInSpace(t)
  {
    NormalizeIsNormal(t);
  }

  lemma {:induction false} NonEmptyAreShort(texts: seq<Text>, i: nat)
    requires i < |NonEmpty(texts)|
    requires forall j :: 0 <= j < |texts| ==> |texts[j]| <= MAX_SCAN_KEYWORD_LENGTH
    ensures |NonEmpty(texts)[i]| <= MAX_SCAN_KEYWORD_LENGTH
  {
    if i < |NonEmpty(texts[..|texts| - 1])| {
      NonEmptyAreShort(texts[..|texts| - 1], i);
    }
  }

  /** What the worker makes of any list is few, distinct and short keywords. */
  lemma {:induction false} ConfiguredIsShort(values: seq<Text>, lower: Text -> Text)
    ensures Usable(Configured(values, lower), lower) <==> AllNormal(Configured(values, lower))
  {
    var sliced := Truncate(values, MAX_SCAN_KEYWORDS);
    var cuts, kept := TruncateAll(sliced), Configured(values, lower);
    OneOfEachKey(cuts, lower);
    DrawnFrom(cuts, lower);
    TruncateAllFixed(sliced);
    forall i | 0 <= i < |sliced|
      ensures |CutEach(sliced)[i]| <= MAX_SCAN_KEYWORD_LENGTH
    {
      CutEachAt(sliced, i);
      CutIsNormal(sliced[i]);
    }
    forall i | 0 <= i < |kept|
      ensures |kept[i]| <= MAX_SCAN_KEYWORD_LENGTH
    {
      var j :| 0 <= j < |cuts| && cuts[j] == kept[i];
      NonEmptyAreShort(CutEach(sliced), j);
    }
  }

  /** Value `i` is cut after a space, and no value before it comes out with its key. */
  predicate LeavesSpace(values: seq<Text>, lower: Text -> Text, i: nat) {
    i < |values| && CutEndsInSpace(values[i]) && NewKey(CutEach(values), lower, i)
  }

  /** Two passes of the worker are the same as one exactly when none of the first 75 values leaves a space. */
  lemma {:induction false} WorkerIdempotentIff(values: seq<Text>, lower: Text -> Text)
    ensures var sliced := Truncate(values, MAX_SCAN_KEYWORDS);
            Configured(Configured(values, lower), lower) == Configured(values, lower)
            <==> forall i: nat :: i < |sliced| ==> !LeavesSpace(sliced, lower, i)
  {
    var sliced := Truncate(values, MAX_SCAN_KEYWORDS);
    WorkerFixesUsable(Configured(values, lower), lower);
    ConfiguredIsShort(values, lower);
    KeptAreNormal(CutEach(sliced), lower);
    forall i: nat | i < |sliced|
      ensures LeavesSpace(sliced, lower, i) <==> KeptAbnormal(CutEach(sliced), lower, i)
    {
      CutEachAt(sliced, i);
      CutIsNormal(sliced[i]);
    }
  }

  /**
   The worker's pass is not idempotent on lists the form cannot produce: cutting a keyword at 80 units can
   leave it ending in a space.
   */
  lemma {:induction false} WorkerNotIdempotent(lower: Text -> Text)
    ensures exists values :: Configured(Configured(values, lower), lower) != Configured(values, lower)
  {
    var long: Text := seq(79, i => 97) + [SPACE, 97];
    assert Normal(long) && long[79] == SPACE;
    NormalIsFixed(long);
    assert LeavesSpace([long], lower, 0);
    WorkerIdempotentIff([long], lower);
  }

  /** Dropping duplicates keeps the length only by dropping nothing. */
  lemma {:induction false} FullLength(keywords: seq<Text>, lower: Text -> Text)
    requires |FirstOccurrences(keywords, lower)| == |keywords|
    ensures FirstOccurrences(keywords, lower) == keywords
  {
    if keywords != [] {
      var n := |keywords| - 1;
      DrawnFrom(keywords[..n], lower);
      FullLength(keywords[..n], lower);
      NextPrefix(keywords, n);
      WholePrefix(keywords);
    }
  }

  /** For every text the form accepts: re-parsing the printed keywords, and the worker's pass, change nothing. */
  lemma {:induction false} AcceptedIsFixedPoint(text: Text, lower: Text -> Text)
    requires Parse(text, lower).Accepted?
    ensures var keywords := Parse(text, lower).keywords;
            Parse(JoinLines(keywords), lower) == Accepted(keywords) && Configured(keywords, lower) == keywords
  {
    AcceptedIsStorable(text, lower);
    PrintedReadsBack(Parse(text, lower).keywords, lower);
    WorkerFixesUsable(Parse(text, lower).keywords, lower);
  }

  // ---- The stored settings ------------------------------------------------

  datatype UpdateResult = Updated(scanKeywords: seq<Text>) | NoChanges(scanKeywords: seq<Text>) | Invalid(error: Parsed)

  datatype SettingsUpdate = SettingsUpdate(previous: seq<Text>, next: seq<Text>)

  class OrganizationExtractionSettings {
    const lower: Text -> Text
    var scanKeywords: seq<Text>
    var auditEvents: seq<SettingsUpdate>

    /** The stored list is one the form prints and the worker uses as it stands. */
    ghost predicate Valid()
      reads this
    {
      Storable(scanKeywords, lower)
    }

    constructor (lower: Text -> Text)
      ensures Valid() && scanKeywords == [] && auditEvents == [] && this.lower == lower
    {
      this.lower, scanKeywords, auditEvents := lower, [], [];
    }

    /** An invalid text changes nothing; a change writes the list and one audit event together. */
    method Update(scanKeywordsText: Text) returns (r: UpdateResult)
      modifies this
      ensures old(Valid()) || r.Updated? ==> Valid()
      ensures match Parse(scanKeywordsText, lower)
              case Accepted(next) =>
                && scanKeywords == next
                && r == (if next == old(scanKeywords) then NoChanges(next) else Updated(next))
                && auditEvents == old(auditEvents) + (if next == old(scanKeywords) then []
                                                      else [SettingsUpdate(old(scanKeywords), next)])
              case error => scanKeywords == old(scanKeywords) && auditEvents == old(auditEvents) && r == Invalid(error)
      ensures old(Valid()) && scanKeywordsText == JoinLines(old(scanKeywords)) ==> r == NoChanges(old(scanKeywords))
    {
      PrintedReadsBack(scanKeywords, lower);
      var parsed := ParseScanKeywordsText(scanKeywordsText, lower);
      if !parsed.Accepted? {
        return Invalid(parsed);
      }
      AcceptedIsStorable(scanKeywordsText, lower);
      if scanKeywords == parsed.keywords {
        return NoChanges(scanKeywords);
      }
      auditEvents := auditEvents + [SettingsUpdate(scanKeywords, parsed.keywords)];
      scanKeywords := parsed.keywords;
      return Updated(parsed.keywords);
    }
  }
}
