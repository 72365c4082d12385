/** Small helpers shared by every other module: an Option type, Qt's qBound for
    percentages, C++ integer division, the QString predicates the engine uses and
    an enumeration of a hash's keys in some order (QHash iteration). */
module Util {

  datatype Option<T> = None | Some(value: T)

  /** qBound(0, v, 100): every volume the engine stores or sends is clamped this way. */
  function ClampPercent(v: int): (r: int)
    ensures 0 <= r <= 100
    ensures 0 <= v <= 100 ==> r == v
    ensures v < 0 ==> r == 0
    ensures 100 < v ==> r == 100
  {
    if v < 0 then 0 else if v > 100 then 100 else v
  }

  /** C++ `/` on int: truncates toward zero (Dafny's `/` is Euclidean). */
  function TruncDiv(a: int, b: int): (q: int)
    requires b > 0
    ensures 0 <= a ==> q * b <= a < q * b + b
    ensures a < 0 ==> q <= 0 && -q * b <= -a < -q * b + b
  {
    if a >= 0 then a / b else -((-a) / b)
  }

  predicate StartsWith(s: string, prefix: string)
  {
    |prefix| <= |s| && s[..|prefix|] == prefix
  }

  /** QString::contains, case-sensitive. */
  predicate Contains(s: string, sub: string)
    decreases |s|
  {
    StartsWith(s, sub) || (|s| > 0 && Contains(s[1..], sub))
  }

  /** Case folding of one character, ASCII letters only. */
  function FoldCase(c: char): char
  {
    if 'A' <= c <= 'Z' then (c as int + 32) as char else c
  }

  function FoldString(s: string): (r: string)
    ensures |r| == |s|
    ensures forall i :: 0 <= i < |s| ==> r[i] == FoldCase(s[i])
  {
    seq(|s|, i requires 0 <= i < |s| => FoldCase(s[i]))
  }

  /** QString::contains(sub, Qt::CaseInsensitive). */
  predicate ContainsIgnoreCase(s: string, sub: string)
  {
    Contains(FoldString(s), FoldString(sub))
  }

  /** QString::replace(' ', '-'). */
  function ReplaceSpaces(s: string): (r: string)
    ensures |r| == |s|
    ensures ' ' !in r
    ensures forall i :: 0 <= i < |s| && s[i] != ' ' ==> r[i] == s[i]
    ensures forall i :: 0 <= i < |s| && s[i] == ' ' ==> r[i] == '-'
  {
    seq(|s|, i requires 0 <= i < |s| => if s[i] == ' ' then '-' else s[i])
  }

  ghost predicate Distinct<T>(xs: seq<T>)
  {
    forall i, j :: 0 <= i < j < |xs| ==> xs[i] != xs[j]
  }

  /** xs lists every element of s exactly once. */
  ghost predicate Enumerates<T(!new)>(xs: seq<T>, s: set<T>)
  {
    Distinct(xs) && (forall x :: x in xs <==> x in s)
  }

  /** Iterating over a QHash visits every key exactly once, in an order the model
      does not fix. */
  method KeysOf<T(!new)>(s: set<T>) returns (xs: seq<T>)
    ensures Enumerates(xs, s)
    ensures |xs| == |s|
  {
    var rest := s;
    xs := [];
    while rest != {}
      invariant rest <= s
      invariant forall x :: x in xs <==> x in s && x !in rest
      invariant Distinct(xs)
      invariant |xs| == |s| - |rest|
      decreases rest
    {
      var k :| k in rest;
      xs := xs + [k];
      rest := rest - {k};
    }
  }

  /** Appending in two steps is appending once. */
  lemma AppendAssoc<T>(a: seq<T>, b: seq<T>, c: seq<T>)
    ensures (a + b) + c == a + (b + c)
  {
  }

  /** What follows a prefix is what was appended to it. */
  lemma SuffixAfter<T>(a: seq<T>, b: seq<T>)
    ensures (a + b)[|a|..] == b
  {
  }

}
