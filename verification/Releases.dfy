/** Choosing the release an installation is offered: the newest eligible version, and within it the
    most specific target. */
module Releases {
  import opened Basics
  import opened Text

  // ---------- versions ----------

  predicate Digit(c: char) { '0' <= c <= '9' }

  /** A number without leading zeros and of at most nine digits. */
  predicate Numeral(s: string) {
    1 <= |s| <= 9 && (forall i :: 0 <= i < |s| ==> Digit(s[i])) && (|s| > 1 ==> s[0] != '0')
  }

  predicate Version(s: string) {
    var p := Split(s, '.');
    |p| == 3 && Numeral(p[0]) && Numeral(p[1]) && Numeral(p[2])
  }

  /** A version text is three numbers joined by dots, each of one to nine digits and not beginning with a zero unless
      it is one. */
  lemma VersionIff(s: string)
    ensures Version(s) <==> |Split(s, '.')| == 3 && forall p :: p in Split(s, '.') ==> Plain(p)
  {
    var parts := Split(s, '.');
    forall i | 0 <= i < |parts| ensures Numeral(parts[i]) <==> Plain(parts[i]) { NumeralIff(parts[i]); }
    if |parts| == 3 { assert parts == [parts[0], parts[1], parts[2]]; }
  }

  predicate Plain(s: string) {
    1 <= |s| <= 9 && (s[0] == '0' ==> s == "0") && forall c :: c in s ==> c in "0123456789"
  }

  lemma NumeralIff(s: string)
    ensures Numeral(s) <==> Plain(s)
  {
    forall c ensures Digit(c) <==> c in "0123456789" { DigitIff(c); }
    forall i | 0 <= i < |s| ensures s[i] in s {}
  }

  lemma DigitIff(c: char)
    ensures Digit(c) <==> c in "0123456789"
  {
    var digits := "0123456789";
    if Digit(c) { assert digits[c as int - '0' as int] == c; }
  }

  function Value(s: string): nat
    requires forall i :: 0 <= i < |s| ==> Digit(s[i])
  {
    if s == "" then 0
    else
      assert Digit(s[|s| - 1]);
      10 * Value(s[..|s| - 1]) + (s[|s| - 1] as int - '0' as int)
  }

  function Sign(a: int, b: int): int { if a > b then 1 else if a < b then -1 else 0 }

  function CompareVersion(a: string, b: string): int
    requires Version(a) && Version(b)
  {
    var x, y := Split(a, '.'), Split(b, '.');
    if Value(x[0]) != Value(y[0]) then Sign(Value(x[0]), Value(y[0]))
    else if Value(x[1]) != Value(y[1]) then Sign(Value(x[1]), Value(y[1]))
    else Sign(Value(x[2]), Value(y[2]))
  }

  lemma {:induction false} ValueGrows(s: string)
    requires forall i :: 0 <= i < |s| ==> Digit(s[i])
    requires s != "" && s[0] != '0'
    ensures Pow10(|s| - 1) <= Value(s) < Pow10(|s|)
  {
    var init := s[..|s| - 1];
    if |s| == 1 {
      assert init == "";
    } else {
      ValueGrows(init);
    }
  }

  function Pow10(n: nat): nat { if n == 0 then 1 else 10 * Pow10(n - 1) }

  lemma {:induction false} Pow10Grows(a: nat, b: nat)
    requires a <= b
    ensures Pow10(a) <= Pow10(b)
  {
    if a < b { Pow10Grows(a, b - 1); }
  }

  lemma {:induction false} SameLengthSameValue(a: string, b: string)
    requires forall i :: 0 <= i < |a| ==> Digit(a[i])
    requires forall i :: 0 <= i < |b| ==> Digit(b[i])
    requires |a| == |b| && Value(a) == Value(b)
    ensures a == b
  {
    if a != "" {
      var x, y := a[..|a| - 1], b[..|b| - 1];
      SameLengthSameValue(x, y);
      assert a == x + [a[|a| - 1]] && b == y + [b[|b| - 1]];
    }
  }

  /** Numbers written without leading zeros are equal only if the texts are. */
  lemma NumeralsInjective(a: string, b: string)
    requires Numeral(a) && Numeral(b) && Value(a) == Value(b)
    ensures a == b
  {
    if |a| == |b| {
      SameLengthSameValue(a, b);
    } else if |a| < |b| {
      ShorterIsLess(a, b);
    } else {
      ShorterIsLess(b, a);
    }
  }

  lemma ShorterIsLess(a: string, b: string)
    requires Numeral(a) && Numeral(b) && |a| < |b|
    ensures Value(a) < Value(b)
  {
    ValueGrows(b);
    Pow10Grows(|a|, |b| - 1);
    if a[0] == '0' {
      assert a[..0] == "";
      Pow10Grows(0, |b| - 1);
    } else {
      ValueGrows(a);
    }
  }

  /** `CompareVersion` is a total order on version texts, and zero means the texts are equal. */
  lemma CompareVersionOrders(a: string, b: string, c: string)
    requires Version(a) && Version(b) && Version(c)
    ensures CompareVersion(a, b) == 0 <==> a == b
    ensures CompareVersion(b, a) == -CompareVersion(a, b)
    ensures CompareVersion(a, b) <= 0 && CompareVersion(b, c) <= 0 ==> CompareVersion(a, c) <= 0
    ensures CompareVersion(a, b) < 0 && CompareVersion(b, c) <= 0 ==> CompareVersion(a, c) < 0
  {
    if CompareVersion(a, b) == 0 { SameParts(a, b); }
  }

  lemma SameParts(a: string, b: string)
    requires Version(a) && Version(b) && CompareVersion(a, b) == 0
    ensures a == b
  {
    var x, y := Split(a, '.'), Split(b, '.');
    NumeralsInjective(x[0], y[0]);
    NumeralsInjective(x[1], y[1]);
    NumeralsInjective(x[2], y[2]);
    assert x == y;
    JoinSplit(a, '.');
    JoinSplit(b, '.');
  }

  // ---------- the order as it is read off the texts ----------

  /** A number is greater when it is longer, or as long and greater in the first digit that differs. */
  ghost predicate Greater(a: string, b: string) {
    |a| > |b| || (|a| == |b| && exists i :: FirstGreater(a, b, i))
  }

  predicate FirstGreater(a: string, b: string, i: int) {
    0 <= i < |a| && i < |b| && a[..i] == b[..i] && a[i] > b[i]
  }

  /** A version is newer when the first of its numbers that differs is greater. */
  ghost predicate Newer(a: string, b: string) { exists k :: NewerIn(Split(a, '.'), Split(b, '.'), k) }

  ghost predicate NewerIn(x: seq<string>, y: seq<string>, k: int) {
    0 <= k < |x| && k < |y| && x[..k] == y[..k] && Greater(x[k], y[k])
  }

  lemma {:induction false} GreaterDigits(a: string, b: string, i: int)
    requires |a| == |b| && FirstGreater(a, b, i)
    requires forall j :: 0 <= j < |a| ==> Digit(a[j]) && Digit(b[j])
    ensures Value(a) > Value(b)
  {
    var n := |a| - 1;
    var x, y := a[..n], b[..n];
    assert Digit(a[n]) && Digit(b[n]);
    if i == n {
      assert x == y;
    } else {
      assert x[..i] == a[..i] && y[..i] == b[..i];
      GreaterDigits(x, y, i);
    }
  }

  lemma {:induction false} FirstDifference(a: string, b: string)
    requires |a| == |b| && a != b
    ensures exists i :: FirstGreater(a, b, i) || FirstGreater(b, a, i)
  {
    if a[0] != b[0] {
      assert FirstGreater(a, b, 0) || FirstGreater(b, a, 0);
    } else {
      assert a == [a[0]] + a[1..] && b == [b[0]] + b[1..];
      FirstDifference(a[1..], b[1..]);
      var i :| FirstGreater(a[1..], b[1..], i) || FirstGreater(b[1..], a[1..], i);
      assert a[..i + 1] == [a[0]] + a[1..][..i] && b[..i + 1] == [b[0]] + b[1..][..i];
      assert FirstGreater(a, b, i + 1) || FirstGreater(b, a, i + 1);
    }
  }

  lemma GreaterHasGreaterValue(a: string, b: string)
    requires Numeral(a) && Numeral(b) && Greater(a, b)
    ensures Value(a) > Value(b)
  {
    if |a| > |b| {
      ShorterIsLess(b, a);
    } else {
      var i :| FirstGreater(a, b, i);
      GreaterDigits(a, b, i);
    }
  }

  lemma OneIsGreater(a: string, b: string)
    requires Numeral(a) && Numeral(b) && a != b
    ensures Greater(a, b) || Greater(b, a)
  {
    if |a| == |b| {
      FirstDifference(a, b);
    }
  }

  lemma ValueIsOrder(a: string, b: string)
    requires Numeral(a) && Numeral(b)
    ensures Value(a) > Value(b) <==> Greater(a, b)
    ensures Value(a) == Value(b) <==> a == b
  {
    if a != b { OneIsGreater(a, b); }
    if Greater(a, b) { GreaterHasGreaterValue(a, b); }
    if Greater(b, a) { GreaterHasGreaterValue(b, a); }
  }

  /** The comparison says which text is the newer version, number by number and digit by digit. */
  lemma CompareVersionMeans(a: string, b: string)
    requires Version(a) && Version(b)
    ensures CompareVersion(a, b) == if Newer(a, b) then 1 else if Newer(b, a) then -1 else 0
  {
    var x, y := Split(a, '.'), Split(b, '.');
    ValueIsOrder(x[0], y[0]);
    ValueIsOrder(y[0], x[0]);
    ValueIsOrder(x[1], y[1]);
    ValueIsOrder(y[1], x[1]);
    ValueIsOrder(x[2], y[2]);
    ValueIsOrder(y[2], x[2]);
    NewerAt(x, y, a, b);
    NewerAt(y, x, b, a);
  }

  lemma SamePrefix(x: seq<string>, y: seq<string>)
    requires |x| == |y| == 3
    ensures x[..0] == y[..0]
    ensures x[..1] == y[..1] <==> x[0] == y[0]
    ensures x[..2] == y[..2] <==> x[0] == y[0] && x[1] == y[1]
  {
    assert x[..1] == [x[0]] && y[..1] == [y[0]];
    assert x[..2] == [x[0], x[1]] && y[..2] == [y[0], y[1]];
  }

  lemma NewerAt(x: seq<string>, y: seq<string>, a: string, b: string)
    requires x == Split(a, '.') && y == Split(b, '.') && |x| == |y| == 3
    ensures Newer(a, b) <==>
      || Greater(x[0], y[0])
      || (x[0] == y[0] && Greater(x[1], y[1]))
      || (x[0] == y[0] && x[1] == y[1] && Greater(x[2], y[2]))
  {
    SamePrefix(x, y);
    assert NewerIn(x, y, 0) <==> Greater(x[0], y[0]);
    assert NewerIn(x, y, 1) <==> x[0] == y[0] && Greater(x[1], y[1]);
    assert NewerIn(x, y, 2) <==> x[0] == y[0] && x[1] == y[1] && Greater(x[2], y[2]);
  }

  // ---------- releases and targets ----------

  datatype Target = Target(os: string, arch: string, runtime: string, channel: string, kind: string, minVersion: string,
                           maxVersion: string)

  datatype Release = Release(id: string, version: string, target: Target)

  /** What an installation asks for; `only` names one release when it wants that one. */
  datatype Request = Request(current: string, os: string, arch: string, runtime: string, channel: string, kind: string,
                             only: string)

  predicate ReleaseOk(r: Release) {
    && Version(r.version)
    && (r.target.minVersion != "" ==> Version(r.target.minVersion))
    && (r.target.maxVersion != "" ==> Version(r.target.maxVersion))
  }

  predicate Fits(offered: string, wanted: string) { offered == "any" || offered == wanted }

  predicate Matches(r: Release, q: Request)
    requires ReleaseOk(r) && Version(q.current)
  {
    var t := r.target;
    && Fits(t.os, q.os) && Fits(t.arch, q.arch) && Fits(t.runtime, q.runtime)
    && t.channel == (if q.channel == "" then "stable" else q.channel)
    && (q.kind == "" || t.kind == q.kind)
    && (t.minVersion == "" || CompareVersion(q.current, t.minVersion) >= 0)
    && (t.maxVersion == "" || CompareVersion(q.current, t.maxVersion) <= 0)
  }

  predicate Eligible(r: Release, q: Request)
    requires ReleaseOk(r) && Version(q.current)
  {
    (q.only == "" || r.id == q.only) && CompareVersion(r.version, q.current) > 0 && Matches(r, q)
  }

  function Specificity(t: Target): nat {
    (if t.os != "any" then 1 else 0) + (if t.arch != "any" then 1 else 0) + (if t.runtime != "any" then 1 else 0)
  }

  /** A newer version, or the same version for a more specific target. */
  predicate Better(a: Release, b: Release)
    requires ReleaseOk(a) && ReleaseOk(b)
  {
    CompareVersion(a.version, b.version) > 0
      || (a.version == b.version && Specificity(a.target) > Specificity(b.target))
  }

  lemma BetterOrders(a: Release, b: Release, c: Release)
    requires ReleaseOk(a) && ReleaseOk(b) && ReleaseOk(c)
    ensures Better(a, b) ==> !Better(b, a)
    ensures Better(a, b) && !Better(c, b) ==> Better(a, c)
    ensures !Better(a, b) && !Better(b, c) ==> !Better(a, c)
    ensures !Better(a, b) && !Better(b, a) <==> a.version == b.version && Specificity(a.target) == Specificity(b.target)
  {
    CompareVersionOrders(a.version, b.version, c.version);
    CompareVersionOrders(b.version, c.version, a.version);
    CompareVersionOrders(c.version, a.version, b.version);
    CompareVersionOrders(a.version, c.version, b.version);
    CompareVersionOrders(b.version, a.version, c.version);
    CompareVersionOrders(c.version, b.version, a.version);
  }

  /** Which of operating system, architecture and runtime a target names. */
  ghost function Named(t: Target): set<int> { set i | 0 <= i < 3 && [t.os, t.arch, t.runtime][i] != "any" }

  lemma SpecificityCounts(t: Target)
    ensures Specificity(t) == |Named(t)|
  {
    var s0: set<int> := if t.os != "any" then {0} else {};
    var s1: set<int> := if t.arch != "any" then {1} else {};
    var s2: set<int> := if t.runtime != "any" then {2} else {};
    assert Named(t) == s0 + s1 + s2;
    assert |s0 + s1| == |s0| + |s1| && |s0 + s1 + s2| == |s0 + s1| + |s2|;
  }

  /** A release may be offered iff it is newer than the installation, for its platform and channel, and the
      installation's version lies within the release's range; a request for one release admits that one only. */
  lemma EligibleIff(r: Release, q: Request)
    requires ReleaseOk(r) && Version(q.current)
    ensures Eligible(r, q) <==>
      && Newer(r.version, q.current) && (q.only != "" ==> r.id == q.only)
      && r.target.os in {"any", q.os} && r.target.arch in {"any", q.arch} && r.target.runtime in {"any", q.runtime}
      && r.target.channel == (if q.channel != "" then q.channel else "stable") && q.kind in {"", r.target.kind}
      && (r.target.minVersion != "" ==> !Newer(r.target.minVersion, q.current))
      && (r.target.maxVersion != "" ==> !Newer(q.current, r.target.maxVersion))
  {
    CompareVersionMeans(r.version, q.current);
    if r.target.minVersion != "" { ComparesBothWays(q.current, r.target.minVersion); }
    if r.target.maxVersion != "" { ComparesBothWays(q.current, r.target.maxVersion); }
  }

  lemma ComparesBothWays(a: string, b: string)
    requires Version(a) && Version(b)
    ensures CompareVersion(a, b) >= 0 <==> !Newer(b, a)
    ensures CompareVersion(a, b) <= 0 <==> !Newer(a, b)
  {
    CompareVersionMeans(a, b);
    CompareVersionMeans(b, a);
    CompareVersionOrders(a, b, a);
  }

  // ---------- the choice ----------

  ghost predicate ReleasesOk(rs: seq<Release>) { forall i :: 0 <= i < |rs| ==> ReleaseOk(rs[i]) }

  /** Position `k` holds an eligible release, no eligible one is better, and earlier ones are worse. */
  ghost predicate IsBest(rs: seq<Release>, q: Request, k: nat)
    requires ReleasesOk(rs) && Version(q.current)
  {
    && k < |rs| && Eligible(rs[k], q)
    && (forall j :: 0 <= j < |rs| && Eligible(rs[j], q) ==> !Better(rs[j], rs[k]))
    && (forall j :: 0 <= j < k && Eligible(rs[j], q) ==> Better(rs[k], rs[j]))
  }

  /** What the loop has found among the first `i` releases. */
  ghost predicate BestSoFar(rs: seq<Release>, q: Request, i: nat, chosen: Option<nat>, score: int)
    requires ReleasesOk(rs) && Version(q.current)
  {
    && i <= |rs|
    && (chosen.None? ==> forall j :: 0 <= j < i ==> !Eligible(rs[j], q))
    && (chosen.Some? ==>
          chosen.value < i && score == Specificity(rs[chosen.value].target) && IsBest(rs[..i], q, chosen.value))
  }

  predicate Replaces(r: Release, chosen: Release, specific: int, score: int)
    requires ReleaseOk(r) && ReleaseOk(chosen)
  {
    CompareVersion(r.version, chosen.version) > 0 || (r.version == chosen.version && specific > score)
  }

  lemma NextRelease(rs: seq<Release>, q: Request, i: nat, chosen: Option<nat>, score: int)
    requires ReleasesOk(rs) && Version(q.current) && i < |rs| && BestSoFar(rs, q, i, chosen, score)
    ensures var specific := Specificity(rs[i].target);
      if Eligible(rs[i], q) && (chosen.None? || Replaces(rs[i], rs[chosen.value], specific, score))
      then BestSoFar(rs, q, i + 1, Some(i), specific)
      else BestSoFar(rs, q, i + 1, chosen, score)
  {
    if chosen.None? {
      if Eligible(rs[i], q) { FirstBest(rs, q, i); }
    } else if Eligible(rs[i], q) && Better(rs[i], rs[chosen.value]) {
      NewBest(rs, q, chosen.value, i);
    } else {
      SameBest(rs, q, chosen.value, i);
    }
  }

  /** The loop over the published releases. */
  method Choose(rs: seq<Release>, q: Request) returns (chosen: Option<nat>)
    requires ReleasesOk(rs) && Version(q.current)
    ensures chosen.Some? ==> IsBest(rs, q, chosen.value)
    ensures chosen.None? <==> forall j :: 0 <= j < |rs| ==> !Eligible(rs[j], q)
    ensures chosen.Some? ==> Newer(rs[chosen.value].version, q.current)
    ensures chosen.Some? ==> forall j :: 0 <= j < |rs| && Eligible(rs[j], q) ==>
      !Newer(rs[j].version, rs[chosen.value].version)
  {
    chosen := None;
    var score: int := -1;
    var i := 0;
    while i < |rs|
      invariant BestSoFar(rs, q, i, chosen, score)
    {
      chosen, score := Consider(rs, q, i, chosen, score);
      i := i + 1;
    }
    assert rs[..|rs|] == rs;
    if chosen.Some? { BestIsNewest(rs, q, chosen.value); }
  }

  /** The choice is newer than the installation, no eligible release is newer than it, and among those of its version
      none names more of the platform. */
  lemma BestIsNewest(rs: seq<Release>, q: Request, k: nat)
    requires ReleasesOk(rs) && Version(q.current) && IsBest(rs, q, k)
    ensures Newer(rs[k].version, q.current)
    ensures forall j :: 0 <= j < |rs| && Eligible(rs[j], q) ==>
      && !Newer(rs[j].version, rs[k].version)
      && (rs[j].version == rs[k].version ==> |Named(rs[j].target)| <= |Named(rs[k].target)|)
  {
    EligibleIff(rs[k], q);
    forall j | 0 <= j < |rs| && Eligible(rs[j], q)
      ensures !Newer(rs[j].version, rs[k].version)
      ensures rs[j].version == rs[k].version ==> |Named(rs[j].target)| <= |Named(rs[k].target)|
    {
      CompareVersionMeans(rs[j].version, rs[k].version);
      SpecificityCounts(rs[j].target);
      SpecificityCounts(rs[k].target);
    }
  }

  /** One turn of the loop: an eligible release replaces a worse choice. */
  method Consider(rs: seq<Release>, q: Request, i: nat, before: Option<nat>, best: int)
      returns (chosen: Option<nat>, score: int)
    requires ReleasesOk(rs) && Version(q.current) && i < |rs| && BestSoFar(rs, q, i, before, best)
    ensures BestSoFar(rs, q, i + 1, chosen, score)
  {
    NextRelease(rs, q, i, before, best);
    if !Eligible(rs[i], q) { return before, best; }
    var specific := Specificity(rs[i].target);
    if before.None? || Replaces(rs[i], rs[before.value], specific, best) { return Some(i), specific; }
    return before, best;
  }

  lemma FirstBest(rs: seq<Release>, q: Request, i: nat)
    requires ReleasesOk(rs) && Version(q.current) && i < |rs| && Eligible(rs[i], q)
    requires forall j :: 0 <= j < i ==> !Eligible(rs[j], q)
    ensures IsBest(rs[..i + 1], q, i)
  {
    BetterOrders(rs[i], rs[i], rs[i]);
  }

  lemma BetterThanBest(a: Release, best: Release, other: Release)
    requires ReleaseOk(a) && ReleaseOk(best) && ReleaseOk(other) && Better(a, best) && !Better(other, best)
    ensures Better(a, other) && !Better(other, a)
  {
    BetterOrders(a, best, other);
    BetterOrders(a, other, a);
  }

  lemma NewBest(rs: seq<Release>, q: Request, k: nat, i: nat)
    requires ReleasesOk(rs) && Version(q.current) && k < i < |rs| && IsBest(rs[..i], q, k)
    requires Eligible(rs[i], q) && Better(rs[i], rs[k])
    ensures IsBest(rs[..i + 1], q, i)
  {
    forall j | 0 <= j <= i && Eligible(rs[j], q) ensures !Better(rs[j], rs[i]) && (j < i ==> Better(rs[i], rs[j])) {
      if j < i {
        assert rs[..i][j] == rs[j];
        BetterThanBest(rs[i], rs[k], rs[j]);
      } else {
        BetterOrders(rs[i], rs[i], rs[i]);
      }
    }
  }

  lemma SameBest(rs: seq<Release>, q: Request, k: nat, i: nat)
    requires ReleasesOk(rs) && Version(q.current) && k < i < |rs| && IsBest(rs[..i], q, k)
    requires Eligible(rs[i], q) ==> !Better(rs[i], rs[k])
    ensures IsBest(rs[..i + 1], q, k)
  {
    forall j | 0 <= j <= i && Eligible(rs[j], q) ensures !Better(rs[j], rs[k]) {
      if j < i { assert rs[..i][j] == rs[j]; }
    }
    forall j | 0 <= j < k && Eligible(rs[j], q) ensures Better(rs[k], rs[j]) { assert rs[..i][j] == rs[j]; }
  }

  /** Whatever order the releases are listed in, the chosen version and specificity are the same; so is
      the release, up to exact ties. */
  lemma ChoiceIgnoresOrder(rs: seq<Release>, ss: seq<Release>, q: Request, k: nat, m: nat)
    requires ReleasesOk(rs) && ReleasesOk(ss) && Version(q.current)
    requires forall r :: r in rs <==> r in ss
    requires IsBest(rs, q, k) && IsBest(ss, q, m)
    ensures rs[k].version == ss[m].version && Specificity(rs[k].target) == Specificity(ss[m].target)
    ensures (forall a, b ::
      a in rs && b in rs && a.version == b.version && Specificity(a.target) == Specificity(b.target) ==> a == b)
      ==> rs[k] == ss[m]
  {
    var a, b := rs[k], ss[m];
    assert a in ss && b in rs;
    var i :| 0 <= i < |ss| && ss[i] == a;
    var j :| 0 <= j < |rs| && rs[j] == b;
    BetterOrders(a, b, a);
  }
}
