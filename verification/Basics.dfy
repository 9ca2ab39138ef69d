/** Vocabulary shared by every component: optional fields, instants, identifiers. */
module Basics {

  datatype Option<+T> = None | Some(value: T)

  /** Instants and durations, in nanoseconds. */
  type Time = int

  function Seconds(n: int): (t: Time)
    ensures Unix(t) == n
  {
    n * 1_000_000_000
  }

  function Days(n: int): (t: Time)
    ensures t == Seconds(n * 24 * 60 * 60)
  {
    n * 86_400_000_000_000
  }

  type Id = string

  function Max(a: int, b: int): int { if a < b then b else a }

  function Min(a: int, b: int): int { if a < b then a else b }

  /** The whole seconds of an instant, rounded towards minus infinity. */
  function Unix(t: Time): int { t / 1_000_000_000 }

  /** The earliest of an instant and some limits: no later than any, and one of them. */
  ghost predicate Earliest(e: Time, first: Time, limits: set<Option<Time>>) {
    && e <= first && (forall l :: l in limits && l.Some? ==> e <= l.value)
    && (e == first || Some(e) in limits)
  }

  ghost predicate Distinct<T>(s: seq<T>) {
    forall i, j :: 0 <= i < j < |s| ==> s[i] != s[j]
  }

  /** White space as trimming removes it. */
  predicate Space(c: char) {
    ('\t' <= c <= '\r') || c == ' ' || c == '\U{85}' || c == '\U{A0}' || c == '\U{1680}'
    || ('\U{2000}' <= c <= '\U{200A}') || c in "\U{2028}\U{2029}\U{202F}\U{205F}\U{3000}"
  }

  /** Nothing is left of the text when it is trimmed. */
  predicate Blank(s: string) { forall i :: 0 <= i < |s| ==> Space(s[i]) }

  /** Byte order of strings. */
  predicate IdLess(a: Id, b: Id) {
    b != "" && (a == "" || a[0] < b[0] || (a[0] == b[0] && IdLess(a[1..], b[1..])))
  }

  lemma {:induction false} DistinctSize<T>(r: seq<T>, s: set<T>)
    requires Distinct(r) && forall x :: x in r <==> x in s
    ensures |r| == |s|
  {
    if r == [] {
      assert s == {};
    } else {
      var init, last := r[..|r| - 1], r[|r| - 1];
      assert r == init + [last];
      forall x ensures x in init <==> x in s - {last} {
        if x in init { var i :| 0 <= i < |init| && init[i] == x; assert r[i] != r[|r| - 1]; }
      }
      DistinctSize(init, s - {last});
    }
  }

  lemma SmallerSet<T>(a: set<T>, b: set<T>)
    requires a <= b
    ensures |a| <= |b|
  {
    assert b == a + (b - a);
  }
}
