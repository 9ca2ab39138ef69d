/** Finding the bindings that cover a queried domain or address through an index of hashed values,
    instead of scanning every binding. Hashing is taken to be injective, so the index holds values. */
module Bindings {
  import opened Basics
  import opened Text

  /** A canonical value: a host name or other text, an address as its bits, or a network as the width
      of its addresses and its masked prefix. */
  datatype Value = Text(text: string) | Address(bits: seq<bool>) | Network(width: nat, prefix: seq<bool>)

  datatype Terms = Terms(includeApex: bool, allDepths: bool)

  /** A binding registers one value per kind; a composite binding has several. */
  datatype Binding = Binding(id: Id, active: bool, components: map<string, Value>, terms: Terms)

  datatype Row = Row(binding: Id, kind: string, value: Value)

  // ---------- the rule a binding is matched by ----------

  predicate HasSuffix(s: string, x: string) { |x| <= |s| && s[|s| - |x|..] == x }

  predicate MatchDomain(registered: string, actual: string, t: Terms) {
    if '*' in actual then false
    else if !("*." <= registered) then registered == actual
    else
      var base := registered[2..];
      if actual == base then t.includeApex
      else if !HasSuffix(actual, "." + base) then false
      else
        var prefix := actual[..|actual| - |base| - 1];
        prefix != "" && (t.allDepths || '.' !in prefix)
  }

  predicate Match(kind: string, registered: Value, actual: Value, t: Terms) {
    if kind == "domain_wildcard" then registered.Text? && actual.Text? && MatchDomain(registered.text, actual.text, t)
    else if kind == "ip_cidr" then
      && actual.Address?
      && if registered.Network? then registered.width == |actual.bits| && registered.prefix <= actual.bits
         else registered == actual
    else registered == actual
  }

  /** What canonical registration guarantees: a wildcard's base has two labels at least, and a network a
      prefix of at least one bit. */
  predicate RegisteredOk(kind: string, v: Value) {
    && (kind == "domain_wildcard" ==> v.Text? && ("*." <= v.text ==> '.' in v.text[2..]))
    && (kind == "ip_cidr" && v.Network? ==> 1 <= |v.prefix| <= v.width)
  }

  /** A public query is for a domain, an address or an account. */
  predicate QueryOk(kind: string, value: Value) {
    && kind in {"domain", "ip", "account"}
    && (kind == "domain" ==> value.Text?) && (kind == "ip" ==> value.Address?)
  }

  // ---------- candidates ----------

  /** The kinds a query looks under. */
  function Kinds(kind: string): seq<string> {
    if kind == "domain" then [kind, "domain_wildcard"] else if kind == "ip" then [kind, "ip_cidr"] else [kind]
  }

  function Wildcards(labels: seq<string>): seq<Value>
    requires |labels| >= 1
  {
    if |labels| == 1 then [] else [Text("*." + Join(labels, '.'))] + Wildcards(labels[1..])
  }

  function Networks(bits: seq<bool>, n: nat): seq<Value>
    requires n <= |bits|
  {
    if n == 0 then [] else Networks(bits, n - 1) + [Network(|bits|, bits[..n])]
  }

  /** The registered values that could match, kind by kind. */
  function Candidates(kind: string, value: Value, k: string): seq<Value>
    requires QueryOk(kind, value)
  {
    if k == kind then [value]
    else if kind == "domain" then [value] + Wildcards(Split(value.text, '.'))
    else if kind == "ip" then [value] + Networks(value.bits, |value.bits|)
    else []
  }

  /** The candidates as they are collected: one wildcard per suffix of at least two labels, one network per
      prefix length. */
  method CollectCandidates(kind: string, value: Value, k: string) returns (values: seq<Value>)
    requires QueryOk(kind, value) && k in Kinds(kind)
    ensures values == Candidates(kind, value, k)
  {
    values := [value];
    if k == kind { return; }
    if kind == "domain" {
      var labels, i := Split(value.text, '.'), 0;
      assert labels[0..] == labels;
      while i < |labels| - 1
        invariant 0 <= i < |labels|
        invariant values + Wildcards(labels[i..]) == [value] + Wildcards(labels)
      {
        assert labels[i..][1..] == labels[i + 1..];
        values := values + [Text("*." + Join(labels[i..], '.'))];
        i := i + 1;
      }
    } else {
      var bits := 0;
      while bits < |value.bits|
        invariant 0 <= bits <= |value.bits| && values == [value] + Networks(value.bits, bits)
      {
        bits := bits + 1;
        values := values + [Network(|value.bits|, value.bits[..bits])];
      }
    }
  }

  lemma {:induction false} WildcardOfTail(labels: seq<string>, i: nat)
    requires i + 1 < |labels|
    ensures Text("*." + Join(labels[i..], '.')) in Wildcards(labels)
  {
    if i == 0 {
      assert labels[0..] == labels;
    } else {
      WildcardOfTail(labels[1..], i - 1);
      assert labels[1..][i - 1..] == labels[i..];
    }
  }

  lemma DomainCovered(registered: string, actual: string, t: Terms)
    requires MatchDomain(registered, actual, t) && ("*." <= registered ==> '.' in registered[2..])
    ensures Text(registered) in [Text(actual)] + Wildcards(Split(actual, '.'))
  {
    if "*." <= registered {
      var base := registered[2..];
      var labels := Split(actual, '.');
      JoinSplit(base, '.');
      SplitCount(base, '.');
      assert registered == "*." + base;
      if actual == base {
        assert labels[0..] == labels;
        WildcardOfTail(labels, 0);
      } else {
        var prefix := actual[..|actual| - |base| - 1];
        assert actual == prefix + "." + base;
        SplitAppend(prefix, base, '.');
        var i := |Split(prefix, '.')|;
        assert labels[i..] == Split(base, '.');
        WildcardOfTail(labels, i);
      }
    }
  }

  /** The rule on labels: a wildcard matches its base only if the apex is included, a name one label below it, and
      names further below only if all depths are; anything else matches itself, and no name with a star is matched. */
  lemma MatchDomainOnLabels(registered: string, actual: string, t: Terms)
    ensures MatchDomain(registered, actual, t) <==>
      && '*' !in actual
      && if "*." <= registered then
           var base, labels := Split(registered[2..], '.'), Split(actual, '.');
           var below := |labels| - |base|;
           if below == 0 then labels == base && t.includeApex
           else below >= 1 && labels[below..] == base && labels[..below] != [""] && (below == 1 || t.allDepths)
         else actual == registered
  {
    if "*." <= registered {
      var base := registered[2..];
      SuffixIff(actual, base);
      if Split(actual, '.') == Split(base, '.') { SplitInjective(actual, base, '.'); }
      if HasSuffix(actual, "." + base) { SuffixLabels(actual, base); }
    }
  }

  lemma SuffixIff(actual: string, base: string)
    ensures HasSuffix(actual, "." + base) <==>
      var n := |Split(actual, '.')| - |Split(base, '.')|;
      n >= 1 && Split(actual, '.')[n..] == Split(base, '.')
  {
    if HasSuffix(actual, "." + base) { SuffixLabels(actual, base); }
    var n := |Split(actual, '.')| - |Split(base, '.')|;
    if n >= 1 && Split(actual, '.')[n..] == Split(base, '.') { EndsInLabels(actual, base, n); }
  }

  lemma SuffixLabels(actual: string, base: string)
    requires HasSuffix(actual, "." + base)
    ensures var labels, n := Split(actual, '.'), |Split(actual, '.')| - |Split(base, '.')|;
      var prefix := actual[..|actual| - |base| - 1];
      && n >= 1 && labels[n..] == Split(base, '.')
      && (labels[..n] == [""] <==> prefix == "") && (n == 1 <==> '.' !in prefix)
  {
    assert actual == actual[..|actual| - |base| - 1] + "." + base;
    PrefixLabels(actual[..|actual| - |base| - 1], base);
  }

  lemma JoinedSuffix(prefix: string, base: string)
    ensures HasSuffix(prefix + ['.'] + base, "." + base)
  {
    assert prefix + ['.'] + base == prefix + ("." + base);
  }

  lemma EndsInLabels(actual: string, base: string, n: nat)
    requires 1 <= n < |Split(actual, '.')| && Split(actual, '.')[n..] == Split(base, '.')
    ensures HasSuffix(actual, "." + base)
  {
    JoinSplit(actual, '.');
    JoinSplit(base, '.');
    JoinParts(Split(actual, '.'), n, '.');
    JoinedSuffix(Join(Split(actual, '.')[..n], '.'), base);
  }

  lemma PrefixLabels(prefix: string, base: string)
    ensures var labels, n := Split(prefix + "." + base, '.'), |Split(prefix, '.')|;
      && |labels| == n + |Split(base, '.')| && n >= 1
      && labels[n..] == Split(base, '.') && labels[..n] == Split(prefix, '.')
      && (labels[..n] == [""] <==> prefix == "") && (n == 1 <==> '.' !in prefix)
  {
    SplitAppend(prefix, base, '.');
    SplitCount(prefix, '.');
    JoinSplit(prefix, '.');
  }

  /** The candidates under the wildcard kind are the name itself and the wildcards of its endings of two labels and
      more; under the network kind, the address itself and its prefixes of one bit and more. */
  lemma CandidatesAre(kind: string, value: Value, k: string, v: Value)
    requires QueryOk(kind, value) && k in Kinds(kind)
    ensures v in Candidates(kind, value, k) <==>
      v == value || (k == "domain_wildcard" && WildcardOver(value.text, v)) || (k == "ip_cidr" && NetworkOver(value, v))
  {
    var rest := if k == kind then [] else if kind == "domain" then Wildcards(Split(value.text, '.'))
                else Networks(value.bits, |value.bits|);
    assert v in [value] + rest <==> v == value || v in rest;
    if k != kind {
      if kind == "domain" {
        WildcardsAre(Split(value.text, '.'), v);
      } else {
        NetworksAre(value.bits, |value.bits|, v);
      }
    }
  }

  predicate WildcardOver(name: string, v: Value) {
    var labels := Split(name, '.');
    exists i :: 0 <= i < |labels| - 1 && v == Text("*." + Join(labels[i..], '.'))
  }

  predicate NetworkOver(address: Value, v: Value)
    requires address.Address?
  {
    exists n :: 1 <= n <= |address.bits| && v == Network(|address.bits|, address.bits[..n])
  }

  lemma {:induction false} WildcardsAre(labels: seq<string>, v: Value)
    requires |labels| >= 1
    ensures v in Wildcards(labels) <==> exists i :: 0 <= i < |labels| - 1 && v == Text("*." + Join(labels[i..], '.'))
  {
    if |labels| > 1 {
      var rest := labels[1..];
      WildcardsAre(rest, v);
      assert labels[0..] == labels;
      forall i | 0 <= i < |rest| ensures rest[i..] == labels[i + 1..] {}
      if i :| 0 <= i < |rest| - 1 && v == Text("*." + Join(rest[i..], '.')) {
        assert v == Text("*." + Join(labels[i + 1..], '.'));
      }
      if i :| 1 <= i < |labels| - 1 && v == Text("*." + Join(labels[i..], '.')) {
        assert v == Text("*." + Join(rest[i - 1..], '.'));
      }
    }
  }

  lemma {:induction false} NetworksAre(bits: seq<bool>, n: nat, v: Value)
    requires n <= |bits|
    ensures v in Networks(bits, n) <==> exists m :: 1 <= m <= n && v == Network(|bits|, bits[..m])
  {
    if n > 0 { NetworksAre(bits, n - 1, v); }
  }

  lemma {:induction false} NetworkOfPrefix(bits: seq<bool>, n: nat, m: nat)
    requires 1 <= m <= n <= |bits|
    ensures Network(|bits|, bits[..m]) in Networks(bits, n)
  {
    if m < n { NetworkOfPrefix(bits, n - 1, m); }
  }

  /** Whatever matches is among the candidates. */
  lemma CandidatesCover(kind: string, value: Value, k: string, registered: Value, t: Terms)
    requires QueryOk(kind, value) && k in Kinds(kind) && RegisteredOk(k, registered) && Match(k, registered, value, t)
    ensures registered in Candidates(kind, value, k)
  {
    if k != kind {
      if kind == "domain" {
        DomainCovered(registered.text, value.text, t);
      } else if registered.Network? {
        NetworkOfPrefix(value.bits, |value.bits|, |registered.prefix|);
        assert registered.prefix == value.bits[..|registered.prefix|];
      }
    }
  }

  // ---------- the index ----------

  function RowsOf(b: Binding): set<Row> { set k | k in b.components :: Row(b.id, k, b.components[k]) }

  ghost predicate Indexed(bindings: seq<Binding>, rows: set<Row>) {
    && (forall i, j :: 0 <= i < j < |bindings| ==> bindings[i].id != bindings[j].id)
    && (forall b, k, v :: b in bindings ==> (Row(b.id, k, v) in rows <==> k in b.components && b.components[k] == v))
  }

  predicate Hit(b: Binding, rows: set<Row>, k: string, values: seq<Value>) {
    b.active && exists v :: v in values && Row(b.id, k, v) in rows
  }

  /** All active bindings with an indexed value among the candidates, latest first. */
  function Hits(bindings: seq<Binding>, rows: set<Row>, k: string, values: seq<Value>): (r: seq<Binding>)
    ensures forall b :: b in r <==> b in bindings && Hit(b, rows, k, values)
  {
    if bindings == [] then []
    else
      assert forall b :: b in bindings <==> b == bindings[0] || b in bindings[1..];
      var rest := Hits(bindings[1..], rows, k, values);
      if Hit(bindings[0], rows, k, values) then [bindings[0]] + rest else rest
  }

  /** The lookup returns at most this many bindings per kind. */
  const LOOKUP_LIMIT := 20

  function Looked(bindings: seq<Binding>, rows: set<Row>, k: string, values: seq<Value>): seq<Binding> {
    var hits := Hits(bindings, rows, k, values);
    hits[..Min(LOOKUP_LIMIT, |hits|)]
  }

  // ---------- lookup and scan ----------

  predicate Covers(b: Binding, k: string, value: Value) {
    k in b.components && Match(k, b.components[k], value, b.terms)
  }

  /** What a scan of every binding finds. */
  ghost predicate Scanned(bindings: seq<Binding>, kind: string, value: Value, b: Binding) {
    b in bindings && b.active && exists k :: k in Kinds(kind) && Covers(b, k, value)
  }

  /** The address is the registered one, or it begins with the bits of the registered network of its width. */
  predicate InNetwork(registered: Value, address: Value)
    requires address.Address?
  {
    || registered == address
    || (registered.Network? && registered.width == |address.bits| && |registered.prefix| <= |address.bits|
        && forall i :: 0 <= i < |registered.prefix| ==> registered.prefix[i] == address.bits[i])
  }

  /** A scan finds the active bindings registered with the value itself, for a domain also those with a wildcard rule
      that covers it, and for an address those with a network it lies in. */
  lemma ScannedIff(bindings: seq<Binding>, kind: string, value: Value, b: Binding)
    requires QueryOk(kind, value)
    ensures Scanned(bindings, kind, value, b) <==>
      && b in bindings && b.active
      && (|| (kind in b.components && b.components[kind] == value)
          || (kind == "domain" && "domain_wildcard" in b.components && b.components["domain_wildcard"].Text?
              && MatchDomain(b.components["domain_wildcard"].text, value.text, b.terms))
          || (kind == "ip" && "ip_cidr" in b.components && InNetwork(b.components["ip_cidr"], value)))
  {
    if kind in b.components && b.components[kind] == value { assert kind in Kinds(kind) && Covers(b, kind, value); }
    if kind == "domain" && "domain_wildcard" in b.components {
      assert "domain_wildcard" in Kinds(kind);
      var rule := b.components["domain_wildcard"];
      assert Covers(b, "domain_wildcard", value) <==> rule.Text? && MatchDomain(rule.text, value.text, b.terms);
    }
    if kind == "ip" && "ip_cidr" in b.components {
      assert "ip_cidr" in Kinds(kind);
      assert Covers(b, "ip_cidr", value) <==> InNetwork(b.components["ip_cidr"], value);
    }
  }

  /** What the lookup finds. */
  ghost predicate Found(bindings: seq<Binding>, rows: set<Row>, kind: string, value: Value, b: Binding)
    requires QueryOk(kind, value)
  {
    exists k :: k in Kinds(kind) && Covers(b, k, value) && b in Looked(bindings, rows, k, Candidates(kind, value, k))
  }

  /** The lookup: per kind, check each returned binding once. */
  method Lookup(bindings: seq<Binding>, rows: set<Row>, kind: string, value: Value) returns (result: seq<Binding>)
    requires QueryOk(kind, value) && Indexed(bindings, rows)
    ensures Distinct(result)
    ensures forall b :: b in result <==> Found(bindings, rows, kind, value, b)
  {
    result := [];
    var kinds, i := Kinds(kind), 0;
    while i < |kinds|
      invariant 0 <= i <= |kinds| && Distinct(result)
      invariant forall b :: b in result <==> FoundUnder(bindings, rows, kind, value, kinds[..i], b)
    {
      var values := CollectCandidates(kind, value, kinds[i]);
      var items := Looked(bindings, rows, kinds[i], values);
      ghost var before := result;
      assert kinds[i] in kinds;
      result := AddMatches(result, items, kinds[i], value);
      forall b ensures b in result <==> FoundUnder(bindings, rows, kind, value, kinds[..i + 1], b) {
        assert b in before <==> FoundUnder(bindings, rows, kind, value, kinds[..i], b);
        FoundUnderOneMore(bindings, rows, kind, value, kinds, i, b);
      }
      i := i + 1;
    }
    assert kinds[..|kinds|] == kinds;
  }

  ghost predicate FoundUnder(bindings: seq<Binding>, rows: set<Row>, kind: string, value: Value, kinds: seq<string>,
                             b: Binding)
    requires QueryOk(kind, value)
  {
    exists k :: k in kinds && Covers(b, k, value) && b in Looked(bindings, rows, k, Candidates(kind, value, k))
  }

  lemma FoundUnderOneMore(bindings: seq<Binding>, rows: set<Row>, kind: string, value: Value, kinds: seq<string>,
                          i: nat, b: Binding)
    requires QueryOk(kind, value) && i < |kinds|
    ensures FoundUnder(bindings, rows, kind, value, kinds[..i + 1], b)
      <==> FoundUnder(bindings, rows, kind, value, kinds[..i], b)
           || (Covers(b, kinds[i], value) && b in Looked(bindings, rows, kinds[i], Candidates(kind, value, kinds[i])))
  {
    assert kinds[..i + 1] == kinds[..i] + [kinds[i]];
  }

  /** Append the items that match and are not there yet. */
  method AddMatches(found: seq<Binding>, items: seq<Binding>, k: string, value: Value) returns (result: seq<Binding>)
    requires Distinct(found)
    ensures Distinct(result) && forall b :: b in result <==> b in found || (b in items && Covers(b, k, value))
  {
    result := found;
    var i := 0;
    while i < |items|
      invariant 0 <= i <= |items| && Distinct(result)
      invariant forall b :: b in result <==> b in found || (b in items[..i] && Covers(b, k, value))
    {
      assert items[..i + 1] == items[..i] + [items[i]];
      if items[i] !in result && k in items[i].components && Match(k, items[i].components[k], value, items[i].terms) {
        result := result + [items[i]];
      }
      i := i + 1;
    }
    assert items[..|items|] == items;
  }

  ghost predicate AllRegistered(bindings: seq<Binding>) {
    forall b, k :: b in bindings && k in b.components ==> RegisteredOk(k, b.components[k])
  }

  /** A binding that covers the query is always hit by the candidates. */
  lemma CoveringIsHit(bindings: seq<Binding>, rows: set<Row>, kind: string, value: Value, k: string, b: Binding)
    requires QueryOk(kind, value) && Indexed(bindings, rows) && AllRegistered(bindings)
    requires b in bindings && b.active && k in Kinds(kind) && Covers(b, k, value)
    ensures b in Hits(bindings, rows, k, Candidates(kind, value, k))
  {
    CandidatesCover(kind, value, k, b.components[k], b.terms);
    assert Row(b.id, k, b.components[k]) in rows;
  }

  /** Nothing is found that a scan would not find. */
  lemma FoundIsScanned(bindings: seq<Binding>, rows: set<Row>, kind: string, value: Value, b: Binding)
    requires QueryOk(kind, value) && Found(bindings, rows, kind, value, b)
    ensures Scanned(bindings, kind, value, b)
  {
    var k :| k in Kinds(kind) && Covers(b, k, value) && b in Looked(bindings, rows, k, Candidates(kind, value, k));
    assert b in Hits(bindings, rows, k, Candidates(kind, value, k));
  }

  // ---------- what the limit cuts off ----------

  /** An active binding registered under `k` with one of the candidate values. */
  predicate Competes(b: Binding, kind: string, value: Value, k: string)
    requires QueryOk(kind, value)
  {
    b.active && k in b.components && b.components[k] in Candidates(kind, value, k)
  }

  /** How many of the bindings activated later than the one at `i` compete with it under `k`. */
  function Ahead(bindings: seq<Binding>, kind: string, value: Value, k: string, i: nat): nat
    requires QueryOk(kind, value) && i <= |bindings|
  {
    if i == 0 then 0
    else Ahead(bindings, kind, value, k, i - 1) + if Competes(bindings[i - 1], kind, value, k) then 1 else 0
  }

  lemma HitIsCompeting(bindings: seq<Binding>, rows: set<Row>, kind: string, value: Value, k: string, b: Binding)
    requires QueryOk(kind, value) && Indexed(bindings, rows) && b in bindings
    ensures Hit(b, rows, k, Candidates(kind, value, k)) <==> Competes(b, kind, value, k)
  {
    if Competes(b, kind, value, k) { assert Row(b.id, k, b.components[k]) in rows; }
  }

  lemma {:induction false} HitsConcat(a: seq<Binding>, b: seq<Binding>, rows: set<Row>, k: string, values: seq<Value>)
    ensures Hits(a + b, rows, k, values) == Hits(a, rows, k, values) + Hits(b, rows, k, values)
  {
    if a == [] {
      assert a + b == b;
    } else {
      HitsConcat(a[1..], b, rows, k, values);
      assert (a + b)[1..] == a[1..] + b;
    }
  }

  lemma {:induction false} HitsAhead(bindings: seq<Binding>, rows: set<Row>, kind: string, value: Value, k: string,
                                     i: nat)
    requires QueryOk(kind, value) && Indexed(bindings, rows) && i <= |bindings|
    ensures |Hits(bindings[..i], rows, k, Candidates(kind, value, k))| == Ahead(bindings, kind, value, k, i)
  {
    if i > 0 {
      var last := bindings[i - 1];
      HitsAhead(bindings, rows, kind, value, k, i - 1);
      assert bindings[..i] == bindings[..i - 1] + [last];
      HitsConcat(bindings[..i - 1], [last], rows, k, Candidates(kind, value, k));
      HitIsCompeting(bindings, rows, kind, value, k, last);
    }
  }

  lemma HitsAround(bindings: seq<Binding>, rows: set<Row>, k: string, values: seq<Value>, i: nat)
    requires i < |bindings| && Hit(bindings[i], rows, k, values)
    ensures Hits(bindings, rows, k, values)
      == Hits(bindings[..i], rows, k, values) + [bindings[i]] + Hits(bindings[i + 1..], rows, k, values)
  {
    var b, rest := bindings[i], bindings[i + 1..];
    assert bindings == bindings[..i] + ([b] + rest);
    HitsConcat(bindings[..i], [b] + rest, rows, k, values);
    assert ([b] + rest)[1..] == rest;
  }

  lemma AmongFirst<T>(first: seq<T>, b: T, rest: seq<T>, limit: nat)
    requires b !in first
    ensures var all := first + [b] + rest; b in all[..Min(limit, |all|)] <==> |first| < limit
  {
    var all := first + [b] + rest;
    var page := all[..Min(limit, |all|)];
    if |first| < limit { assert page[|first|] == b; } else { assert page == first[..limit]; }
  }

  /** The lookup under `k` returns a binding iff it competes and fewer than twenty compete ahead of it. */
  lemma LookedIff(bindings: seq<Binding>, rows: set<Row>, kind: string, value: Value, k: string, i: nat)
    requires QueryOk(kind, value) && Indexed(bindings, rows) && i < |bindings|
    ensures bindings[i] in Looked(bindings, rows, k, Candidates(kind, value, k))
      <==> Competes(bindings[i], kind, value, k) && Ahead(bindings, kind, value, k, i) < 20
  {
    var b, values := bindings[i], Candidates(kind, value, k);
    HitIsCompeting(bindings, rows, kind, value, k, b);
    HitsAhead(bindings, rows, kind, value, k, i);
    if Competes(b, kind, value, k) {
      HitsAround(bindings, rows, k, values, i);
      NotEarlier(bindings, i);
      AmongFirst(Hits(bindings[..i], rows, k, values), b, Hits(bindings[i + 1..], rows, k, values), LOOKUP_LIMIT);
    }
  }

  lemma NotEarlier(bindings: seq<Binding>, i: nat)
    requires i < |bindings| && forall j, k :: 0 <= j < k < |bindings| ==> bindings[j].id != bindings[k].id
    ensures bindings[i] !in bindings[..i]
  {}

  /** A binding is found iff it is active and covers the query under a kind in which fewer than twenty
      bindings activated later compete with it. */
  lemma FoundIff(bindings: seq<Binding>, rows: set<Row>, kind: string, value: Value, i: nat)
    requires QueryOk(kind, value) && Indexed(bindings, rows) && AllRegistered(bindings) && i < |bindings|
    ensures Found(bindings, rows, kind, value, bindings[i])
      <==> bindings[i].active && Reached(bindings, kind, value, i)
  {
    var b := bindings[i];
    forall k | k in Kinds(kind) && Covers(b, k, value)
      ensures b in Looked(bindings, rows, k, Candidates(kind, value, k))
        <==> b.active && Ahead(bindings, kind, value, k, i) < LOOKUP_LIMIT
    {
      CandidatesCover(kind, value, k, b.components[k], b.terms);
      LookedIff(bindings, rows, kind, value, k, i);
    }
  }

  ghost predicate Reached(bindings: seq<Binding>, kind: string, value: Value, i: nat)
    requires QueryOk(kind, value) && i < |bindings|
  {
    exists k :: k in Kinds(kind) && Covers(bindings[i], k, value) && Ahead(bindings, kind, value, k, i) < 20
  }

  /** The lookup is the scan iff every active binding that covers the query does so under some kind in which
      fewer than twenty bindings activated later compete with it. */
  lemma LookupIsScanIff(bindings: seq<Binding>, rows: set<Row>, kind: string, value: Value)
    requires QueryOk(kind, value) && Indexed(bindings, rows) && AllRegistered(bindings)
    ensures (forall b :: Found(bindings, rows, kind, value, b) <==> Scanned(bindings, kind, value, b))
      <==> forall i :: 0 <= i < |bindings| && Scanned(bindings, kind, value, bindings[i]) ==>
             Reached(bindings, kind, value, i)
  {
    forall i | 0 <= i < |bindings|
      ensures Found(bindings, rows, kind, value, bindings[i])
        <==> bindings[i].active && Reached(bindings, kind, value, i)
    {
      FoundIff(bindings, rows, kind, value, i);
    }
    forall b | Found(bindings, rows, kind, value, b) ensures Scanned(bindings, kind, value, b) {
      FoundIsScanned(bindings, rows, kind, value, b);
    }
  }

  /** With at most twenty hits per kind, the lookup returns exactly what a scan with the matching rule
      would, for every domain and address. */
  lemma LookupIsScan(bindings: seq<Binding>, rows: set<Row>, kind: string, value: Value, b: Binding)
    requires QueryOk(kind, value) && Indexed(bindings, rows) && AllRegistered(bindings)
    requires forall k :: k in Kinds(kind) ==> |Hits(bindings, rows, k, Candidates(kind, value, k))| <= 20
    ensures Found(bindings, rows, kind, value, b) <==> Scanned(bindings, kind, value, b)
  {
    if Scanned(bindings, kind, value, b) {
      var k :| k in Kinds(kind) && Covers(b, k, value);
      CoveringIsHit(bindings, rows, kind, value, k, b);
      var hits := Hits(bindings, rows, k, Candidates(kind, value, k));
      assert hits[..|hits|] == hits;
    }
    if Found(bindings, rows, kind, value, b) { FoundIsScanned(bindings, rows, kind, value, b); }
  }

  // ---------- one domain registered too often ----------

  function Shared(n: nat): seq<Binding> {
    if n == 0 then []
    else Shared(n - 1) + [Binding(Name(n), true, map["domain" := Text("example.com")], Terms(false, false))]
  }

  /** Distinct identifiers. */
  function Name(n: nat): Id { if n == 0 then "" else Name(n - 1) + "b" }

  lemma {:induction false} NameLength(n: nat)
    ensures |Name(n)| == n
  {
    if n > 0 { NameLength(n - 1); }
  }

  lemma {:induction false} SharedAre(n: nat)
    ensures |Shared(n)| == n
    ensures forall i :: 0 <= i < n ==>
      Shared(n)[i] == Binding(Name(i + 1), true, map["domain" := Text("example.com")], Terms(false, false))
  {
    if n > 0 { SharedAre(n - 1); }
  }

  function SharedRows(n: nat): set<Row> {
    if n == 0 then {} else SharedRows(n - 1) + {Row(Name(n), "domain", Text("example.com"))}
  }

  lemma {:induction false} SharedRowsAre(n: nat, r: Row)
    ensures r in SharedRows(n)
      <==> r.kind == "domain" && r.value == Text("example.com") && exists i :: 1 <= i <= n && Name(i) == r.binding
  {
    if n > 0 {
      SharedRowsAre(n - 1, r);
      assert Name(n) == Name(n);
    }
  }

  lemma SharedIndexed(n: nat)
    ensures Indexed(Shared(n), SharedRows(n)) && AllRegistered(Shared(n))
  {
    SharedAre(n);
    var bindings, rows := Shared(n), SharedRows(n);
    forall i, j | 0 <= i < j < n ensures bindings[i].id != bindings[j].id {
      NameLength(i + 1);
      NameLength(j + 1);
    }
    forall b, k, v | b in bindings ensures Row(b.id, k, v) in rows <==> k in b.components && b.components[k] == v {
      var i :| 0 <= i < n && bindings[i] == b;
      SharedRow(n, i, k, v);
    }
  }

  lemma SharedRow(n: nat, i: nat, k: string, v: Value)
    requires i < n && |Shared(n)| == n
    ensures var b := Shared(n)[i]; Row(b.id, k, v) in SharedRows(n) <==> k in b.components && b.components[k] == v
  {
    SharedAre(n);
    SharedRowsAre(n, Row(Name(i + 1), k, v));
    assert 1 <= i + 1 <= n;
  }

  lemma {:induction false} AllHit(bindings: seq<Binding>, rows: set<Row>, k: string, values: seq<Value>)
    requires forall b :: b in bindings ==> Hit(b, rows, k, values)
    ensures Hits(bindings, rows, k, values) == bindings
  {
    if bindings != [] {
      assert bindings[0] in bindings;
      AllHit(bindings[1..], rows, k, values);
    }
  }

  lemma SharedHits(n: nat)
    ensures Hits(Shared(n), SharedRows(n), "domain", [Text("example.com")]) == Shared(n)
  {
    SharedAre(n);
    SharedIndexed(n);
    var bindings, rows, value := Shared(n), SharedRows(n), Text("example.com");
    forall x | x in bindings ensures Hit(x, rows, "domain", [value]) {
      var i :| 0 <= i < n && bindings[i] == x;
      assert value in [value] && Row(x.id, "domain", value) in rows;
    }
    AllHit(bindings, rows, "domain", [value]);
  }

  lemma SharedBeyondLimit(n: nat, b: Binding)
    requires n > LOOKUP_LIMIT && |Shared(n)| == n && b == Shared(n)[n - 1]
    ensures b !in Looked(Shared(n), SharedRows(n), "domain", [Text("example.com")])
  {
    SharedHits(n);
    SharedIndexed(n);
    forall i | 0 <= i < LOOKUP_LIMIT ensures Shared(n)[..LOOKUP_LIMIT][i] != b {
      assert Shared(n)[i].id != Shared(n)[n - 1].id;
    }
  }

  /** With more than twenty bindings on one domain a covering binding is not returned. */
  lemma LookupMissesBeyondLimit(n: nat, b: Binding)
    requires n > 20 && |Shared(n)| == n && b == Shared(n)[n - 1]
    ensures Scanned(Shared(n), "domain", Text("example.com"), b)
    ensures !Found(Shared(n), SharedRows(n), "domain", Text("example.com"), b)
  {
    SharedAre(n);
    SharedBeyondLimit(n, b);
    assert "domain" in Kinds("domain") && Covers(b, "domain", Text("example.com"));
    forall k | k in Kinds("domain") && Covers(b, k, Text("example.com")) ensures k == "domain" {}
  }

  // ---------- indexing ----------

  class BindingIndex {
    var rows: set<Row>

    /** Replace the rows of a binding by one per component. */
    method IndexBinding(b: Binding)
      modifies this
      ensures rows == (set r | r in old(rows) && r.binding != b.id) + RowsOf(b)
    {
      rows := set r | r in rows && r.binding != b.id;
      ghost var kept := rows;
      var todo := b.components.Keys;
      while todo != {}
        invariant todo <= b.components.Keys
        invariant rows == kept + set k | k in b.components.Keys - todo :: Row(b.id, k, b.components[k])
        decreases |todo|
      {
        var k :| k in todo;
        rows := rows + {Row(b.id, k, b.components[k])};
        todo := todo - {k};
      }
      assert b.components.Keys - {} == b.components.Keys;
    }
  }

  /** Indexing one more binding keeps the index of the others. */
  lemma IndexingKeeps(bindings: seq<Binding>, rows: set<Row>, b: Binding)
    requires Indexed(bindings, rows) && forall x :: x in bindings ==> x.id != b.id
    ensures Indexed([b] + bindings, (set r | r in rows && r.binding != b.id) + RowsOf(b))
  {
    var after, all := (set r | r in rows && r.binding != b.id) + RowsOf(b), [b] + bindings;
    forall x, k, v | x in all ensures Row(x.id, k, v) in after <==> k in x.components && x.components[k] == v {}
    forall i, j | 0 <= i < j < |all| ensures all[i].id != all[j].id {
      if i == 0 { assert bindings[j - 1] in bindings; }
    }
  }
}
