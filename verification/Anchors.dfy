/** Binding anchors: the groups of domains, addresses or machine identities a license may be used on.
    Hashing is taken to be injective, so rows hold the values themselves. Registration is specified on a
    table with one anchor per license, kind and value; the stored rows are proved to be such a table. */
module Anchors {
  import opened Basics
  import opened Money

  datatype Key = Key(license: Id, kind: string, value: string)

  datatype Anchor = Anchor(group: Id, active: bool)

  /** A stored row. */
  datatype Row = Row(id: Id, key: Key, anchor: Anchor)

  type Table = map<Key, Anchor>

  /** A normalized binding: the value in use is one of the values to register. */
  datatype Binding = Binding(kind: string, value: string, values: seq<string>)

  predicate BindingOk(b: Binding) { b.value in b.values }

  predicate ActiveIn(t: Table, k: Key, group: Id) { k in t && t[k].active && t[k].group == group }

  /** Groups with at least one active anchor: `COUNT(DISTINCT group_id)` counts these. */
  function ActiveGroups(t: Table, lid: Id): set<Id> {
    set k | k in t && k.license == lid && t[k].active :: t[k].group
  }

  // ---------- registration ----------

  /** Insert or take over the row of each value. */
  function Upsert(t: Table, lid: Id, kind: string, values: seq<string>, group: Id): Table {
    if values == [] then t
    else
      Upsert(t, lid, kind, values[..|values| - 1], group)[Key(lid, kind, values[|values| - 1]) := Anchor(group, true)]
  }

  /** `rule` is the first enabled license rule matching a domain or address; it stands in for a group. */
  function EnsureGroup(t: Table, lid: Id, maxGroups: int, b: Binding, rule: Option<Id>, newGroup: Id)
      : Outcome<(Table, Id)>
  {
    if rule.Some? && b.kind in {"domain", "ip"} then Ok((t, rule.value))
    else
      var own := Key(lid, b.kind, b.value);
      if own in t && t[own].active then
        if forall v :: v in b.values ==> ActiveIn(t, Key(lid, b.kind, v), t[own].group)
        then Ok((t, t[own].group)) else Err("BINDING_MISMATCH")
      else if |ActiveGroups(t, lid)| >= maxGroups then Err("BINDING_LIMIT_EXCEEDED")
      else Ok((Upsert(t, lid, b.kind, b.values, newGroup), newGroup))
  }

  /** Mark every active anchor of a license replaced. */
  function Retire(t: Table, lid: Id): Table {
    map k | k in t :: if k.license == lid && t[k].active then t[k].(active := false) else t[k]
  }

  /** Replace the bindings of a license by one group. */
  function Rebind(t: Table, lid: Id, maxGroups: int, b: Binding, rule: Option<Id>, newGroup: Id): Outcome<(Table, Id)> {
    EnsureGroup(Retire(t, lid), lid, maxGroups, b, rule, newGroup)
  }

  // ---------- what registration guarantees ----------

  lemma {:induction false} UpsertRows(t: Table, lid: Id, kind: string, values: seq<string>, group: Id)
    ensures var u := Upsert(t, lid, kind, values, group);
      && (forall v :: v in values ==> ActiveIn(u, Key(lid, kind, v), group))
      && (forall k :: k in t || (k.license == lid && k.kind == kind && k.value in values) <==> k in u)
      && (forall k :: k in t && !(k.license == lid && k.kind == kind && k.value in values) ==> u[k] == t[k])
  {
    if values != [] {
      var init, last := values[..|values| - 1], values[|values| - 1];
      assert values == init + [last];
      UpsertRows(t, lid, kind, init, group);
    }
  }

  lemma UpsertGroups(t: Table, lid: Id, kind: string, values: seq<string>, group: Id, l: Id)
    ensures var u := Upsert(t, lid, kind, values, group);
      && ActiveGroups(u, l) <= (if l == lid then ActiveGroups(t, l) + {group} else ActiveGroups(t, l))
      && (l != lid ==> ActiveGroups(u, l) == ActiveGroups(t, l))
  {
    UpsertRows(t, lid, kind, values, group);
    var u := Upsert(t, lid, kind, values, group);
    forall g | g in ActiveGroups(u, l) ensures g in ActiveGroups(t, l) || (l == lid && g == group) {
      var k :| k in u && k.license == l && u[k].active && u[k].group == g;
      if !(k.license == lid && k.kind == kind && k.value in values) { assert k in t; }
    }
    if l != lid {
      forall g | g in ActiveGroups(t, l) ensures g in ActiveGroups(u, l) {
        var k :| k in t && k.license == l && t[k].active && t[k].group == g;
        assert k in u && u[k] == t[k];
      }
    }
  }

  /** The requested values are active in a group, whatever they were before, and everything else is as it was. */
  ghost predicate Registered(t: Table, u: Table, lid: Id, b: Binding, group: Id) {
    forall k: Key ::
      if k.license == lid && k.kind == b.kind && k.value in b.values then k in u && u[k] == Anchor(group, true)
      else (k in u <==> k in t) && (k in t ==> u[k] == t[k])
  }

  /** Outside the rule case success puts every requested value in the returned group, and refusals
      happen exactly when the value's group lacks a requested one, or no group is left. */
  lemma EnsureGroupGuarantees(t: Table, lid: Id, maxGroups: int, b: Binding, rule: Option<Id>, newGroup: Id)
    requires BindingOk(b) && !(rule.Some? && b.kind in {"domain", "ip"})
    ensures var r, own := EnsureGroup(t, lid, maxGroups, b, rule, newGroup), Key(lid, b.kind, b.value);
      var bound := own in t && t[own].active;
      && (r.Ok? ==> forall v :: v in b.values ==> ActiveIn(r.value.0, Key(lid, b.kind, v), r.value.1))
      && (r.Ok? && bound ==> r.value == (t, t[own].group))
      && (r.Ok? && !bound ==> r.value.1 == newGroup && Registered(t, r.value.0, lid, b, newGroup))
      && (r == Err("BINDING_MISMATCH") <==>
            bound && exists v :: v in b.values && !ActiveIn(t, Key(lid, b.kind, v), t[own].group))
      && (r == Err("BINDING_LIMIT_EXCEEDED") <==> !bound && |ActiveGroups(t, lid)| >= maxGroups)
  {
    UpsertRows(t, lid, b.kind, b.values, newGroup);
  }

  /** A rule that matches a domain or address stands in for a group, and nothing is registered. */
  lemma RuleStandsIn(t: Table, lid: Id, maxGroups: int, b: Binding, rule: Id, newGroup: Id)
    ensures b.kind == "domain" || b.kind == "ip" ==>
      EnsureGroup(t, lid, maxGroups, b, Some(rule), newGroup) == Ok((t, rule))
    ensures b.kind != "domain" && b.kind != "ip" ==>
      EnsureGroup(t, lid, maxGroups, b, Some(rule), newGroup) == EnsureGroup(t, lid, maxGroups, b, None, newGroup)
  {}

  /** Registering again changes nothing and finds the same group. */
  lemma EnsureGroupTwice(t: Table, lid: Id, maxGroups: int, b: Binding, rule: Option<Id>, newGroup: Id, other: Id)
    requires BindingOk(b) && EnsureGroup(t, lid, maxGroups, b, rule, newGroup).Ok?
    ensures var r := EnsureGroup(t, lid, maxGroups, b, rule, newGroup).value;
      EnsureGroup(r.0, lid, maxGroups, b, rule, other) == Ok(r)
  {
    if !(rule.Some? && b.kind in {"domain", "ip"}) {
      EnsureGroupGuarantees(t, lid, maxGroups, b, rule, newGroup);
    }
  }

  lemma RetireGroups(t: Table, lid: Id, l: Id)
    ensures ActiveGroups(Retire(t, lid), l) == if l == lid then {} else ActiveGroups(t, l)
  {
    var u := Retire(t, lid);
    if l != lid {
      forall g | g in ActiveGroups(t, l) ensures g in ActiveGroups(u, l) {
        var k :| k in t && k.license == l && t[k].active && t[k].group == g;
        assert k in u && u[k] == t[k];
      }
      forall g | g in ActiveGroups(u, l) ensures g in ActiveGroups(t, l) {
        var k :| k in u && k.license == l && u[k].active && u[k].group == g;
        assert k in t && u[k] == t[k];
      }
    }
  }

  /** A rebind never runs out of groups and leaves exactly the requested values bound, in one group. */
  lemma RebindLeavesOneGroup(t: Table, lid: Id, maxGroups: int, b: Binding, rule: Option<Id>, newGroup: Id)
    requires BindingOk(b) && maxGroups >= 1 && !(rule.Some? && b.kind in {"domain", "ip"})
    ensures var r := Rebind(t, lid, maxGroups, b, rule, newGroup);
      && r.Ok? && r.value.1 == newGroup && ActiveGroups(r.value.0, lid) == {newGroup}
      && (forall k :: k in r.value.0 && k.license == lid && r.value.0[k].active
           <==> k.license == lid && k.kind == b.kind && k.value in b.values)
      && (forall l :: l != lid ==> ActiveGroups(r.value.0, l) == ActiveGroups(t, l))
  {
    var retired := Retire(t, lid);
    RetireGroups(t, lid, lid);
    assert !(Key(lid, b.kind, b.value) in retired && retired[Key(lid, b.kind, b.value)].active);
    UpsertRows(retired, lid, b.kind, b.values, newGroup);
    UpsertGroups(retired, lid, b.kind, b.values, newGroup, lid);
    var u := Upsert(retired, lid, b.kind, b.values, newGroup);
    assert ActiveIn(u, Key(lid, b.kind, b.value), newGroup);
    assert newGroup in ActiveGroups(u, lid);
    forall l | l != lid ensures ActiveGroups(u, l) == ActiveGroups(t, l) {
      RetireGroups(t, lid, l);
      UpsertGroups(retired, lid, b.kind, b.values, newGroup, l);
    }
  }

  // ---------- rows ----------

  /** The first row for a license, kind and value, as a query with limit 1 returns it. */
  function IndexOf(rows: seq<Row>, k: Key): (i: nat)
    ensures i <= |rows| && (i < |rows| ==> rows[i].key == k) && (forall j :: 0 <= j < i ==> rows[j].key != k)
  {
    if rows == [] || rows[0].key == k then 0 else 1 + IndexOf(rows[1..], k)
  }

  /** How many active rows a license, kind, value and group has. */
  function CountActive(rows: seq<Row>, k: Key, group: Id): nat {
    if rows == [] then 0
    else
      var last := rows[|rows| - 1];
      CountActive(rows[..|rows| - 1], k, group) + if last.key == k && last.anchor == Anchor(group, true) then 1 else 0
  }

  function RowGroups(rows: seq<Row>, lid: Id): set<Id> {
    set i | 0 <= i < |rows| && rows[i].key.license == lid && rows[i].anchor.active :: rows[i].anchor.group
  }

  predicate IdTaken(rows: seq<Row>, id: Id) { exists i :: 0 <= i < |rows| && rows[i].id == id }

  /** Save over the row found, which keeps its id, or insert a row with a drawn id. */
  function Put(rows: seq<Row>, k: Key, group: Id, id: Id): Option<seq<Row>> {
    var i := IndexOf(rows, k);
    if i < |rows| then Some(rows[i := Row(rows[i].id, k, Anchor(group, true))])
    else if IdTaken(rows, id) then None
    else Some(rows + [Row(id, k, Anchor(group, true))])
  }

  function PutAll(rows: seq<Row>, lid: Id, kind: string, values: seq<string>, group: Id, ids: seq<Id>): Option<seq<Row>>
    requires |ids| == |values|
  {
    if values == [] then Some(rows)
    else
      var n := |values| - 1;
      match PutAll(rows, lid, kind, values[..n], group, ids[..n])
      case None => None
      case Some(before) => Put(before, Key(lid, kind, values[n]), group, ids[n])
  }

  function EnsureRows(rows: seq<Row>, lid: Id, maxGroups: int, b: Binding, rule: Option<Id>, newGroup: Id, ids: seq<Id>)
      : Outcome<(seq<Row>, Id)>
    requires |ids| == |b.values|
  {
    if rule.Some? && b.kind in {"domain", "ip"} then Ok((rows, rule.value))
    else
      var i := IndexOf(rows, Key(lid, b.kind, b.value));
      if i < |rows| && rows[i].anchor.active then
        if forall v :: v in b.values ==> CountActive(rows, Key(lid, b.kind, v), rows[i].anchor.group) == 1
        then Ok((rows, rows[i].anchor.group)) else Err("BINDING_MISMATCH")
      else if |RowGroups(rows, lid)| >= maxGroups then Err("BINDING_LIMIT_EXCEEDED")
      else
        match PutAll(rows, lid, b.kind, b.values, newGroup, ids)
        case None => Err("UNIQUE_VIOLATION")
        case Some(after) => Ok((after, newGroup))
  }

  function RetireRow(r: Row, lid: Id): Row {
    if r.key.license == lid && r.anchor.active then r.(anchor := r.anchor.(active := false)) else r
  }

  function RetireRows(rows: seq<Row>, lid: Id): (r: seq<Row>)
    ensures |r| == |rows| && forall i :: 0 <= i < |rows| ==> r[i] == RetireRow(rows[i], lid)
  {
    if rows == [] then [] else RetireRows(rows[..|rows| - 1], lid) + [RetireRow(rows[|rows| - 1], lid)]
  }

  function RebindRows(rows: seq<Row>, lid: Id, maxGroups: int, b: Binding, rule: Option<Id>, newGroup: Id, ids: seq<Id>)
      : Outcome<(seq<Row>, Id)>
    requires |ids| == |b.values|
  {
    EnsureRows(RetireRows(rows, lid), lid, maxGroups, b, rule, newGroup, ids)
  }

  // ---------- rows and table ----------

  /** No two rows share an id, and no two stand for the same license, kind and value. */
  ghost predicate Unique(rows: seq<Row>) {
    forall i, j :: 0 <= i < j < |rows| ==> rows[i].id != rows[j].id && rows[i].key != rows[j].key
  }

  /** The table the rows stand for: the first row of a key decides. */
  function View(rows: seq<Row>): Table {
    if rows == [] then map[] else View(rows[1..])[rows[0].key := rows[0].anchor]
  }

  lemma {:induction false} FirstRowIs(rows: seq<Row>, k: Key)
    ensures k in View(rows) <==> IndexOf(rows, k) < |rows|
    ensures k in View(rows) ==> View(rows)[k] == rows[IndexOf(rows, k)].anchor
  {
    if rows != [] && rows[0].key != k { FirstRowIs(rows[1..], k); }
  }

  lemma IndexIs(rows: seq<Row>, k: Key, i: nat)
    requires i <= |rows| && (i < |rows| ==> rows[i].key == k) && forall j :: 0 <= j < i ==> rows[j].key != k
    ensures IndexOf(rows, k) == i
  {}

  lemma RowInView(rows: seq<Row>, i: nat)
    requires Unique(rows) && i < |rows|
    ensures rows[i].key in View(rows) && View(rows)[rows[i].key] == rows[i].anchor
  {
    IndexIs(rows, rows[i].key, i);
    FirstRowIs(rows, rows[i].key);
  }

  lemma {:induction false} NoneCounted(rows: seq<Row>, k: Key, group: Id)
    requires forall i :: 0 <= i < |rows| ==> rows[i].key != k
    ensures CountActive(rows, k, group) == 0
  {
    if rows != [] { NoneCounted(rows[..|rows| - 1], k, group); }
  }

  lemma {:induction false} CountKey(rows: seq<Row>, k: Key, group: Id, i: nat)
    requires Unique(rows) && i < |rows| && rows[i].key == k
    ensures CountActive(rows, k, group) == if rows[i].anchor == Anchor(group, true) then 1 else 0
  {
    var n := |rows| - 1;
    if i == n { NoneCounted(rows[..n], k, group); } else { CountKey(rows[..n], k, group, i); }
  }

  /** The count that registration tests is one exactly when the table has the anchor. */
  lemma CountIsOne(rows: seq<Row>, k: Key, group: Id)
    requires Unique(rows)
    ensures CountActive(rows, k, group) == if ActiveIn(View(rows), k, group) then 1 else 0
  {
    FirstRowIs(rows, k);
    var i := IndexOf(rows, k);
    if i < |rows| { CountKey(rows, k, group, i); } else { NoneCounted(rows, k, group); }
  }

  lemma RowGroupsAre(rows: seq<Row>, lid: Id)
    requires Unique(rows)
    ensures RowGroups(rows, lid) == ActiveGroups(View(rows), lid)
  {
    var t := View(rows);
    forall g | g in ActiveGroups(t, lid) ensures g in RowGroups(rows, lid) {
      var k :| k in t && k.license == lid && t[k].active && t[k].group == g;
      FirstRowIs(rows, k);
    }
    forall g | g in RowGroups(rows, lid) ensures g in ActiveGroups(t, lid) {
      var i :| 0 <= i < |rows| && rows[i].key.license == lid && rows[i].anchor.active && rows[i].anchor.group == g;
      RowInView(rows, i);
    }
  }

  lemma PutUnique(rows: seq<Row>, k: Key, group: Id, id: Id)
    requires Unique(rows) && Put(rows, k, group, id).Some?
    ensures Unique(Put(rows, k, group, id).value)
  {}

  lemma PutView(rows: seq<Row>, k: Key, group: Id, id: Id)
    requires Put(rows, k, group, id).Some?
    ensures View(Put(rows, k, group, id).value) == View(rows)[k := Anchor(group, true)]
  {
    var after := Put(rows, k, group, id).value;
    forall x
      ensures x in View(after) <==> x in View(rows) || x == k
      ensures x in View(after) ==> View(after)[x] == if x == k then Anchor(group, true) else View(rows)[x]
    {
      FirstRowIs(rows, x);
      FirstRowIs(after, x);
      IndexIs(after, x, if x == k then IndexOf(rows, k) else if x in View(rows) then IndexOf(rows, x) else |after|);
    }
  }

  /** Rows keep their ids and what they stand for, and none is deleted. */
  ghost predicate RowsStay(rows: seq<Row>, after: seq<Row>) {
    |rows| <= |after| && forall i :: 0 <= i < |rows| ==> after[i].id == rows[i].id && after[i].key == rows[i].key
  }

  lemma {:induction false} PutAllRefines(rows: seq<Row>, lid: Id, kind: string, values: seq<string>, group: Id,
                                         ids: seq<Id>)
    requires Unique(rows) && |ids| == |values| && PutAll(rows, lid, kind, values, group, ids).Some?
    ensures var after := PutAll(rows, lid, kind, values, group, ids).value;
      Unique(after) && RowsStay(rows, after) && View(after) == Upsert(View(rows), lid, kind, values, group)
  {
    if values != [] {
      var n := |values| - 1;
      PutAllRefines(rows, lid, kind, values[..n], group, ids[..n]);
      var before := PutAll(rows, lid, kind, values[..n], group, ids[..n]).value;
      PutUnique(before, Key(lid, kind, values[n]), group, ids[n]);
      PutView(before, Key(lid, kind, values[n]), group, ids[n]);
    }
  }

  /** Registration on rows is registration on the table, and it keeps rows unique without leaning on a
      constraint of the database: only a drawn id that is taken makes an insertion fail. */
  lemma EnsureRowsRefines(rows: seq<Row>, lid: Id, maxGroups: int, b: Binding, rule: Option<Id>, newGroup: Id,
                          ids: seq<Id>)
    requires Unique(rows) && |ids| == |b.values|
    ensures var r := EnsureRows(rows, lid, maxGroups, b, rule, newGroup, ids);
      var spec := EnsureGroup(View(rows), lid, maxGroups, b, rule, newGroup);
      && (r.Ok? ==> Unique(r.value.0) && RowsStay(rows, r.value.0) && spec == Ok((View(r.value.0), r.value.1)))
      && (r.Err? ==> if r.code == "UNIQUE_VIOLATION" then spec.Ok? else spec == Err(r.code))
  {
    FirstRowIs(rows, Key(lid, b.kind, b.value));
    RowGroupsAre(rows, lid);
    forall k, group ensures CountActive(rows, k, group) == if ActiveIn(View(rows), k, group) then 1 else 0 {
      CountIsOne(rows, k, group);
    }
    if PutAll(rows, lid, b.kind, b.values, newGroup, ids).Some? {
      PutAllRefines(rows, lid, b.kind, b.values, newGroup, ids);
    }
  }

  lemma RetireView(rows: seq<Row>, lid: Id)
    ensures View(RetireRows(rows, lid)) == Retire(View(rows), lid)
  {
    var after := RetireRows(rows, lid);
    forall k
      ensures k in View(after) <==> k in View(rows)
      ensures k in View(after) ==> View(after)[k] == Retire(View(rows), lid)[k]
    {
      FirstRowIs(rows, k);
      FirstRowIs(after, k);
      IndexIs(after, k, IndexOf(rows, k));
    }
  }

  lemma RetireRefines(rows: seq<Row>, lid: Id)
    requires Unique(rows)
    ensures var after := RetireRows(rows, lid);
      Unique(after) && RowsStay(rows, after) && View(after) == Retire(View(rows), lid)
  {
    RetireView(rows, lid);
  }

  // ---------- runs ----------

  datatype Step =
    | Register(lid: Id, binding: Binding, rule: Option<Id>, newGroup: Id, ids: seq<Id>)
    | Replace(lid: Id, binding: Binding, rule: Option<Id>, newGroup: Id, ids: seq<Id>)

  /** `limits` gives the number of groups each license may have. */
  function Next(limits: map<Id, int>, rows: seq<Row>, s: Step): seq<Row> {
    if s.lid !in limits || |s.ids| != |s.binding.values| then rows
    else
      var r := if s.Register? then EnsureRows(rows, s.lid, limits[s.lid], s.binding, s.rule, s.newGroup, s.ids)
               else RebindRows(rows, s.lid, limits[s.lid], s.binding, s.rule, s.newGroup, s.ids);
      if r.Ok? then r.value.0 else rows
  }

  function Run(limits: map<Id, int>, steps: seq<Step>): seq<Row> {
    if steps == [] then [] else Next(limits, Run(limits, steps[..|steps| - 1]), steps[|steps| - 1])
  }

  lemma NextUnique(limits: map<Id, int>, rows: seq<Row>, s: Step)
    requires Unique(rows)
    ensures Unique(Next(limits, rows, s)) && RowsStay(rows, Next(limits, rows, s))
  {
    if s.lid in limits && |s.ids| == |s.binding.values| {
      RetireRefines(rows, s.lid);
      var from := if s.Register? then rows else RetireRows(rows, s.lid);
      EnsureRowsRefines(from, s.lid, limits[s.lid], s.binding, s.rule, s.newGroup, s.ids);
    }
  }

  /** Drawn ids that are new and all different. */
  ghost predicate FreshIds(rows: seq<Row>, ids: seq<Id>) {
    Distinct(ids) && forall i :: 0 <= i < |ids| ==> !IdTaken(rows, ids[i])
  }

  lemma {:induction false} PutAllFresh(rows: seq<Row>, lid: Id, kind: string, values: seq<string>, group: Id,
                                       ids: seq<Id>)
    requires |ids| == |values| && FreshIds(rows, ids)
    ensures var r := PutAll(rows, lid, kind, values, group, ids);
      r.Some? && forall id :: IdTaken(r.value, id) ==> IdTaken(rows, id) || id in ids
  {
    if values != [] {
      var n := |values| - 1;
      PutAllFresh(rows, lid, kind, values[..n], group, ids[..n]);
      var before := PutAll(rows, lid, kind, values[..n], group, ids[..n]).value;
      assert ids[n] !in ids[..n] && !IdTaken(before, ids[n]);
      var after := Put(before, Key(lid, kind, values[n]), group, ids[n]).value;
      forall id | IdTaken(after, id) ensures IdTaken(rows, id) || id in ids {
        var i :| 0 <= i < |after| && after[i].id == id;
        if i < |before| { assert before[i].id == id; }
      }
    }
  }

  /** With ids that are new, registration on rows succeeds whenever it does on the table they stand for. */
  lemma EnsureRowsIs(rows: seq<Row>, lid: Id, maxGroups: int, b: Binding, rule: Option<Id>, newGroup: Id, ids: seq<Id>)
    requires Unique(rows) && |ids| == |b.values| && FreshIds(rows, ids)
    ensures var r := EnsureRows(rows, lid, maxGroups, b, rule, newGroup, ids);
      var spec := EnsureGroup(View(rows), lid, maxGroups, b, rule, newGroup);
      r.Ok? == spec.Ok? && (r.Ok? ==> View(r.value.0) == spec.value.0 && r.value.1 == spec.value.1)
  {
    EnsureRowsRefines(rows, lid, maxGroups, b, rule, newGroup, ids);
    PutAllFresh(rows, lid, b.kind, b.values, newGroup, ids);
    NeverTaken(rows, lid, maxGroups, b, rule, newGroup, ids);
  }

  lemma NeverTaken(rows: seq<Row>, lid: Id, maxGroups: int, b: Binding, rule: Option<Id>, newGroup: Id, ids: seq<Id>)
    requires |ids| == |b.values| && PutAll(rows, lid, b.kind, b.values, newGroup, ids).Some?
    ensures EnsureRows(rows, lid, maxGroups, b, rule, newGroup, ids) != Err("UNIQUE_VIOLATION")
  {
    assert "BINDING_MISMATCH"[0] != "UNIQUE_VIOLATION"[0] && "BINDING_LIMIT_EXCEEDED"[0] != "UNIQUE_VIOLATION"[0];
  }

  lemma FreshRetired(rows: seq<Row>, lid: Id, ids: seq<Id>)
    requires FreshIds(rows, ids)
    ensures FreshIds(RetireRows(rows, lid), ids)
  {
    var after := RetireRows(rows, lid);
    forall i | 0 <= i < |after| ensures after[i].id == rows[i].id {}
  }

  /** A step on rows is the step on the table they stand for. */
  lemma NextIs(limits: map<Id, int>, rows: seq<Row>, s: Step)
    requires Unique(rows) && s.lid in limits && |s.ids| == |s.binding.values| && FreshIds(rows, s.ids)
    ensures var t := View(rows);
      var spec := if s.Register? then EnsureGroup(t, s.lid, limits[s.lid], s.binding, s.rule, s.newGroup)
                  else Rebind(t, s.lid, limits[s.lid], s.binding, s.rule, s.newGroup);
      View(Next(limits, rows, s)) == if spec.Ok? then spec.value.0 else t
  {
    RetireRefines(rows, s.lid);
    FreshRetired(rows, s.lid, s.ids);
    EnsureRowsIs(if s.Register? then rows else RetireRows(rows, s.lid), s.lid, limits[s.lid], s.binding, s.rule,
      s.newGroup, s.ids);
  }

  /** In every run each license, kind and value has at most one row, with an id of its own; rows are never
      deleted and never stand for something else. */
  lemma {:induction false} OneRowPerValue(limits: map<Id, int>, steps: seq<Step>, n: nat)
    requires n <= |steps|
    ensures Unique(Run(limits, steps)) && RowsStay(Run(limits, steps[..n]), Run(limits, steps))
  {
    if steps == [] {
      assert steps[..n] == steps;
    } else {
      var init := steps[..|steps| - 1];
      OneRowPerValue(limits, init, Min(n, |init|));
      NextUnique(limits, Run(limits, init), steps[|steps| - 1]);
      if n == |steps| { assert steps[..n] == steps; } else { assert init[..n] == steps[..n]; }
    }
  }

  lemma OneMoreAtMost(before: set<Id>, after: set<Id>, x: Id)
    requires after <= before + {x}
    ensures |after| <= |before| + 1
  {
    SmallerSet(after, before + {x});
  }

  lemma EnsureKeepsLimit(t: Table, lid: Id, maxGroups: int, b: Binding, rule: Option<Id>, newGroup: Id, l: Id)
    requires EnsureGroup(t, lid, maxGroups, b, rule, newGroup).Ok?
    ensures var u := EnsureGroup(t, lid, maxGroups, b, rule, newGroup).value.0;
      if l == lid then |ActiveGroups(u, l)| <= |ActiveGroups(t, l)| || |ActiveGroups(u, l)| <= maxGroups
      else ActiveGroups(u, l) == ActiveGroups(t, l)
  {
    UpsertGroups(t, lid, b.kind, b.values, newGroup, l);
    var u := EnsureGroup(t, lid, maxGroups, b, rule, newGroup).value.0;
    if u != t && l == lid { OneMoreAtMost(ActiveGroups(t, l), ActiveGroups(u, l), newGroup); }
  }

  lemma NextWithinLimit(limits: map<Id, int>, rows: seq<Row>, s: Step, l: Id)
    requires Unique(rows) && l in limits && limits[l] >= 1 && |ActiveGroups(View(rows), l)| <= limits[l]
    ensures |ActiveGroups(View(Next(limits, rows, s)), l)| <= limits[l]
  {
    if s.lid in limits && |s.ids| == |s.binding.values| {
      RetireRefines(rows, s.lid);
      RetireGroups(View(rows), s.lid, l);
      var from := if s.Register? then rows else RetireRows(rows, s.lid);
      EnsureRowsRefines(from, s.lid, limits[s.lid], s.binding, s.rule, s.newGroup, s.ids);
      if EnsureRows(from, s.lid, limits[s.lid], s.binding, s.rule, s.newGroup, s.ids).Ok? {
        EnsureKeepsLimit(View(from), s.lid, limits[s.lid], s.binding, s.rule, s.newGroup, l);
      }
    }
  }

  /** In every run no license ever has more active groups than its terms allow. */
  lemma {:induction false} GroupsWithinLimit(limits: map<Id, int>, steps: seq<Step>, l: Id)
    requires l in limits && limits[l] >= 1
    ensures |RowGroups(Run(limits, steps), l)| <= limits[l]
  {
    OneRowPerValue(limits, steps, |steps|);
    RowGroupsAre(Run(limits, steps), l);
    if steps != [] {
      var init := steps[..|steps| - 1];
      GroupsWithinLimit(limits, init, l);
      OneRowPerValue(limits, init, |init|);
      RowGroupsAre(Run(limits, init), l);
      NextWithinLimit(limits, Run(limits, init), steps[|steps| - 1], l);
    }
  }

  // ---------- the service ----------

  class AnchorStore {
    var rows: seq<Row>

    method FindRow(k: Key) returns (i: nat)
      ensures i == IndexOf(rows, k)
    {
      i := 0;
      while i < |rows| && rows[i].key != k
        invariant 0 <= i <= |rows| && IndexOf(rows, k) == i + IndexOf(rows[i..], k)
      {
        assert rows[i..][0] == rows[i] && rows[i..][1..] == rows[i + 1..];
        i := i + 1;
      }
    }

    method CountRows(k: Key, group: Id) returns (n: nat)
      ensures n == CountActive(rows, k, group)
    {
      n := 0;
      var i := 0;
      while i < |rows|
        invariant 0 <= i <= |rows| && n == CountActive(rows[..i], k, group)
      {
        assert rows[..i + 1][..i] == rows[..i];
        if rows[i].key == k && rows[i].anchor.group == group && rows[i].anchor.active { n := n + 1; }
        i := i + 1;
      }
      assert rows[..|rows|] == rows;
    }

    /** Find the row and save over it, or insert one. */
    method SaveAnchor(k: Key, group: Id, id: Id) returns (ok: bool)
      modifies this
      ensures ok == Put(old(rows), k, group, id).Some?
      ensures rows == if ok then Put(old(rows), k, group, id).value else old(rows)
    {
      var anchor := Row(id, k, Anchor(group, true));
      var i := FindRow(k);
      if i < |rows| {
        anchor := anchor.(id := rows[i].id);
        rows := rows[i := anchor];
      } else {
        if IdTaken(rows, id) { return false; }
        rows := rows + [anchor];
      }
      return true;
    }

    /** The loop over the requested values; the transaction is rolled back when an insertion fails. */
    method SaveAnchors(lid: Id, b: Binding, group: Id, ids: seq<Id>) returns (ok: bool)
      requires |ids| == |b.values|
      modifies this
      ensures var after := PutAll(old(rows), lid, b.kind, b.values, group, ids);
        ok == after.Some? && rows == if ok then after.value else old(rows)
    {
      var saved, i := rows, 0;
      ok := true;
      while i < |b.values|
        invariant 0 <= i <= |b.values|
        invariant PutAll(saved, lid, b.kind, b.values[..i], group, ids[..i]) == Some(rows)
      {
        PutOneMore(saved, lid, b.kind, b.values, group, ids, i);
        ok := SaveAnchor(Key(lid, b.kind, b.values[i]), group, ids[i]);
        if !ok {
          FailsOn(saved, lid, b.kind, b.values, group, ids, i + 1);
          rows := saved;
          return;
        }
        i := i + 1;
      }
      assert b.values[..|b.values|] == b.values && ids[..|ids|] == ids;
    }

    method Register(lid: Id, maxGroups: int, b: Binding, rule: Option<Id>, newGroup: Id, ids: seq<Id>)
        returns (r: Outcome<Id>)
      requires |ids| == |b.values|
      modifies this
      ensures var after := EnsureRows(old(rows), lid, maxGroups, b, rule, newGroup, ids);
        && rows == (if after.Ok? then after.value.0 else old(rows))
        && r == (if after.Ok? then Ok(after.value.1) else Err(after.code))
    {
      if rule.Some? && b.kind in {"domain", "ip"} { return Ok(rule.value); }
      var own := FindRow(Key(lid, b.kind, b.value));
      if own < |rows| && rows[own].anchor.active {
        var group, i := rows[own].anchor.group, 0;
        while i < |b.values|
          invariant 0 <= i <= |b.values| && rows == old(rows)
          invariant forall j :: 0 <= j < i ==> CountActive(rows, Key(lid, b.kind, b.values[j]), group) == 1
        {
          var found := CountRows(Key(lid, b.kind, b.values[i]), group);
          if found != 1 { return Err("BINDING_MISMATCH"); }
          i := i + 1;
        }
        return Ok(group);
      }
      if |RowGroups(rows, lid)| >= maxGroups { return Err("BINDING_LIMIT_EXCEEDED"); }
      var ok := SaveAnchors(lid, b, newGroup, ids);
      r := if ok then Ok(newGroup) else Err("UNIQUE_VIOLATION");
    }

    method Replace(lid: Id, maxGroups: int, b: Binding, rule: Option<Id>, newGroup: Id, ids: seq<Id>)
        returns (r: Outcome<Id>)
      requires |ids| == |b.values|
      modifies this
      ensures var after := RebindRows(old(rows), lid, maxGroups, b, rule, newGroup, ids);
        && rows == (if after.Ok? then after.value.0 else old(rows))
        && r == (if after.Ok? then Ok(after.value.1) else Err(after.code))
    {
      var saved := rows;
      rows := RetireRows(rows, lid);
      r := Register(lid, maxGroups, b, rule, newGroup, ids);
      if r.Err? { rows := saved; }
    }
  }

  lemma PutOneMore(rows: seq<Row>, lid: Id, kind: string, values: seq<string>, group: Id, ids: seq<Id>, i: nat)
    requires |ids| == |values| && i < |values|
    ensures PutAll(rows, lid, kind, values[..i + 1], group, ids[..i + 1])
      == match PutAll(rows, lid, kind, values[..i], group, ids[..i])
         case None => None
         case Some(before) => Put(before, Key(lid, kind, values[i]), group, ids[i])
  {
    assert values[..i + 1][..i] == values[..i] && ids[..i + 1][..i] == ids[..i];
  }

  lemma {:induction false} FailsOn(rows: seq<Row>, lid: Id, kind: string, values: seq<string>, group: Id, ids: seq<Id>,
                                   n: nat)
    requires |ids| == |values| && n <= |values| && PutAll(rows, lid, kind, values[..n], group, ids[..n]).None?
    ensures PutAll(rows, lid, kind, values, group, ids).None?
  {
    if n == |values| {
      assert values[..n] == values && ids[..n] == ids;
    } else {
      var m := |values| - 1;
      assert values[..m][..n] == values[..n] && ids[..m][..n] == ids[..n];
      FailsOn(rows, lid, kind, values[..m], group, ids[..m], n);
    }
  }
}
