/** Sequence functions shared by the export reader and the pagers. */
module Sequences {

  function Min(a: int, b: int): int {
    if a < b then a else b
  }

  /** SQL's LIMIT: the first `n` elements, or all of them. */
  function Take<T>(s: seq<T>, n: int): seq<T> {
    if n < 0 then [] else if n < |s| then s[..n] else s
  }

  function Filter<T>(s: seq<T>, keep: T -> bool): seq<T> {
    if s == [] then []
    else (if keep(s[0]) then [s[0]] else []) + Filter(s[1..], keep)
  }

  /** Filtering by a predicate that holds exactly from position `i` on leaves the suffix. */
  lemma {:induction false} FilterSuffix<T>(s: seq<T>, keep: T -> bool, i: nat)
    requires i <= |s| && forall j :: 0 <= j < |s| ==> (keep(s[j]) <==> i <= j)
    ensures Filter(s, keep) == s[i..]
  {
    if s != [] {
      assert forall j :: 0 <= j < |s[1..]| ==> s[1..][j] == s[j + 1];
      FilterSuffix(s[1..], keep, if i == 0 then 0 else i - 1);
      if i == 0 {
        assert s == [s[0]] + s[1..];
      } else {
        assert s[1..][i - 1..] == s[i..];
      }
    }
  }

  function Map<T, U>(f: T -> U, s: seq<T>): (r: seq<U>)
    ensures |r| == |s|
  {
    if s == [] then [] else [f(s[0])] + Map(f, s[1..])
  }

  lemma {:induction false} MapAt<T, U>(f: T -> U, s: seq<T>, i: nat)
    requires i < |s|
    ensures Map(f, s)[i] == f(s[i])
  {
    if i > 0 {
      MapAt(f, s[1..], i - 1);
    }
  }

  lemma {:induction false} MapAppend<T, U>(f: T -> U, a: seq<T>, b: seq<T>)
    ensures Map(f, a + b) == Map(f, a) + Map(f, b)
  {
    if a == [] {
      assert a + b == b;
      assert Map(f, a) + Map(f, b) == Map(f, b);
    } else {
      assert (a + b)[1..] == a[1..] + b;
      MapAppend(f, a[1..], b);
      Assoc([f(a[0])], Map(f, a[1..]), Map(f, b));
    }
  }

  lemma {:induction false} MapLast<T, U>(f: T -> U, s: seq<T>)
    requires s != []
    ensures Map(f, s) == Map(f, s[..|s| - 1]) + [f(s[|s| - 1])]
  {
    var n := |s| - 1;
    forall i | 0 <= i < |s|
      ensures Map(f, s)[i] == (Map(f, s[..n]) + [f(s[n])])[i]
    {
      MapAt(f, s, i);
      if i < n {
        MapAt(f, s[..n], i);
      }
    }
  }

  lemma {:induction false} Assoc<T>(a: seq<T>, b: seq<T>, c: seq<T>)
    ensures a + b + c == a + (b + c)
  {
  }

  lemma {:induction false} NextPrefix<T>(s: seq<T>, i: nat)
    requires i < |s|
    ensures s[..i + 1] == s[..i] + [s[i]] && s[..i + 1][..i] == s[..i]
  {
  }

  lemma {:induction false} WholePrefix<T>(s: seq<T>)
    ensures s[..|s|] == s
  {
  }

  function Join(parts: seq<string>, separator: string): string {
    if parts == [] then ""
    else if |parts| == 1 then parts[0]
    else parts[0] + separator + Join(parts[1..], separator)
  }

  lemma {:induction false} JoinAppend(xs: seq<string>, ys: seq<string>, separator: string)
    requires xs != [] && ys != []
    ensures Join(xs + ys, separator) == Join(xs, separator) + separator + Join(ys, separator)
  {
    var zs := xs + ys;
    assert zs[1..] == xs[1..] + ys;
    if |xs| > 1 {
      JoinAppend(xs[1..], ys, separator);
    }
  }

  function Concat(parts: seq<string>): string {
    if parts == [] then "" else Concat(parts[..|parts| - 1]) + parts[|parts| - 1]
  }

  lemma {:induction false} ConcatSnoc(parts: seq<string>, part: string)
    ensures Concat(parts + [part]) == Concat(parts) + part
  {
    assert (parts + [part])[..|parts|] == parts;
  }
}
