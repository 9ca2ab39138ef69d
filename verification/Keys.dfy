/** Signing keys of one application: signing, rotation, acceptance of tokens and the published set. */
module Keys {
  import opened Basics

  /** Keys are numbered by version. A key holds its private part until it is rotated away, and records
      the latest expiry of any token it signed. */
  datatype Key = Key(active: bool, hasPrivate: bool, acceptUntil: Option<Time>, maxIssued: Option<Time>, created: Time)

  datatype Ring = Ring(app: Id, overlapSeconds: nat, current: nat, keys: map<nat, Key>)

  function Create(app: Id, overlapSeconds: nat, now: Time): Ring {
    Ring(app, overlapSeconds, 1, map[1 := Key(true, true, None, None, now)])
  }

  // ---------- transactions ----------

  /** Sign a token that expires at `expiry` seconds and raise the key's high-water mark. */
  function Sign(r: Ring, issuedAt: int, expiry: int): Option<Ring> {
    if r.current !in r.keys then None
    else
      var k := r.keys[r.current];
      if !k.active || !k.hasPrivate || expiry <= issuedAt then None
      else if k.maxIssued.None? || k.maxIssued.value < Seconds(expiry)
      then Some(r.(keys := r.keys[r.current := k.(maxIssued := Some(Seconds(expiry)))]))
      else Some(r)
  }

  function RetireAt(r: Ring, k: Key, immediate: bool, now: Time): Time {
    var until := now + Seconds(r.overlapSeconds);
    if immediate then now
    else if k.maxIssued.Some? && k.maxIssued.value > until then k.maxIssued.value
    else until
  }

  function Rotate(r: Ring, immediate: bool, now: Time): Option<Ring> {
    if r.current !in r.keys || r.current + 1 in r.keys then None
    else
      var was := r.keys[r.current];
      var retired := was.(active := false, hasPrivate := false, acceptUntil := Some(RetireAt(r, was, immediate, now)));
      Some(r.(current := r.current + 1,
              keys := r.keys[r.current := retired][r.current + 1 := Key(true, true, None, None, now)]))
  }

  /** Saving the application changes its policy and keeps the current key. */
  function SaveApplication(r: Ring, overlapSeconds: nat): Ring { r.(overlapSeconds := overlapSeconds) }

  // ---------- acceptance and publication ----------

  predicate Accepts(r: Ring, v: nat, t: Time) {
    v in r.keys && (r.keys[v].active || (r.keys[v].acceptUntil.Some? && t < r.keys[v].acceptUntil.value))
  }

  function Decimal(n: nat): string {
    if n < 10 then [['0', '1', '2', '3', '4', '5', '6', '7', '8', '9'][n]] else Decimal(n / 10) + Decimal(n % 10)
  }

  function Kid(app: Id, v: nat): Id { app + ".v" + Decimal(v) }

  /** The order of a query: newest first, then by id. */
  predicate Precedes(r: Ring, a: nat, b: nat)
    requires a in r.keys && b in r.keys
  {
    r.keys[a].created > r.keys[b].created
      || (r.keys[a].created == r.keys[b].created && IdLess(Kid(r.app, a), Kid(r.app, b)))
  }

  /** The key query asks for at most this many rows. */
  const PAGE := 1000

  /** `rows` is what an unlimited query returns. */
  ghost predicate IsQuery(r: Ring, rows: seq<nat>) {
    && Distinct(rows) && (forall v :: v in rows <==> v in r.keys)
    && forall i, j :: 0 <= i < j < |rows| ==> Precedes(r, rows[i], rows[j])
  }

  ghost function Ahead(r: Ring, v: nat): set<nat>
    requires v in r.keys
  {
    set j | j in r.keys && Precedes(r, j, v)
  }

  /** The published set: live keys among the first page of the query. */
  method PublicKeys(r: Ring, rows: seq<nat>, t: Time) returns (published: seq<nat>)
    requires IsQuery(r, rows)
    ensures forall v :: v in published <==> Accepts(r, v, t) && |Ahead(r, v)| < 1000
    ensures Distinct(published)
  {
    var page := rows[..Min(PAGE, |rows|)];
    published := [];
    var i := 0;
    while i < |page|
      invariant 0 <= i <= |page| && Distinct(published)
      invariant forall v :: v in published <==> v in page[..i] && Accepts(r, v, t)
    {
      assert page[..i + 1] == page[..i] + [page[i]];
      var key := r.keys[page[i]];
      assert page[i] !in page[..i];
      if key.active || (key.acceptUntil.Some? && t < key.acceptUntil.value) { published := published + [page[i]]; }
      i := i + 1;
    }
    assert page[..|page|] == page;
    forall v | v in r.keys ensures v in page <==> |Ahead(r, v)| < PAGE { FirstPage(r, rows, v); }
  }

  lemma {:induction false} IdLessAsymmetric(a: Id, b: Id)
    requires IdLess(a, b)
    ensures !IdLess(b, a)
  {
    if a != "" && a[0] == b[0] { IdLessAsymmetric(a[1..], b[1..]); }
  }

  lemma PrecedesAsymmetric(r: Ring, a: nat, b: nat)
    requires a in r.keys && b in r.keys && Precedes(r, a, b)
    ensures !Precedes(r, b, a)
  {
    if r.keys[a].created == r.keys[b].created { IdLessAsymmetric(Kid(r.app, a), Kid(r.app, b)); }
  }

  /** A key is on the first page exactly when fewer keys than a page come before it. */
  lemma FirstPage(r: Ring, rows: seq<nat>, v: nat)
    requires IsQuery(r, rows) && v in r.keys
    ensures v in rows[..Min(PAGE, |rows|)] <==> |Ahead(r, v)| < PAGE
  {
    var i :| 0 <= i < |rows| && rows[i] == v;
    forall j ensures j in rows[..i] <==> j in Ahead(r, v) {
      if j in rows[..i] {
        var k :| 0 <= k < i && rows[k] == j;
      }
      if j in Ahead(r, v) {
        var k :| 0 <= k < |rows| && rows[k] == j;
        PrecedesAsymmetric(r, j, v);
      }
    }
    DistinctSize(rows[..i], Ahead(r, v));
    var page := rows[..Min(PAGE, |rows|)];
    if i < PAGE { assert page[i] == v; }
    if v in page {
      var k :| 0 <= k < |page| && page[k] == v;
      assert rows[k] == v;
    }
  }

  // ---------- what the transactions do ----------

  /** A token is signed iff the current key is there, active and has its private part, and the token lasts; the key's
      mark becomes the latest expiry it signed, and nothing else changes. */
  lemma SignIff(r: Ring, issuedAt: int, expiry: int)
    ensures var after := Sign(r, issuedAt, expiry);
      && (after.Some? <==>
            r.current in r.keys && r.keys[r.current].active && r.keys[r.current].hasPrivate && issuedAt < expiry)
      && (after.Some? ==>
            && r.current in after.value.keys
            && after.value == r.(keys := r.keys[r.current := after.value.keys[r.current]])
            && var (k, mark) := (r.keys[r.current], after.value.keys[r.current].maxIssued);
            && after.value.keys[r.current] == k.(maxIssued := mark)
            && mark.Some? && mark.value >= expiry * 1_000_000_000
            && (k.maxIssued.Some? ==> mark.value >= k.maxIssued.value)
            && (mark == k.maxIssued || mark.value == expiry * 1_000_000_000))
  {}

  /** Rotation puts a new active key after the current one, which loses its private part and stays acceptable up to
      the later of the overlap and its last token's expiry, or not at all when it is to go at once. */
  lemma RotateGives(r: Ring, immediate: bool, now: Time)
    ensures var after := Rotate(r, immediate, now);
      && (after.Some? <==> r.current in r.keys && r.current + 1 !in r.keys)
      && (after.Some? ==>
            && r.current in after.value.keys
            && after.value == r.(current := r.current + 1,
                 keys := r.keys[r.current := after.value.keys[r.current]]
                         [r.current + 1 := Key(true, true, None, None, now)])
            && var (k, was) := (r.keys[r.current], after.value.keys[r.current]);
            && was == Key(false, false, was.acceptUntil, k.maxIssued, k.created) && was.acceptUntil.Some?
            && var overlap := now + r.overlapSeconds * 1_000_000_000;
            if immediate then was.acceptUntil.value == now
            else
              && was.acceptUntil.value >= overlap
              && (k.maxIssued.Some? ==> was.acceptUntil.value >= k.maxIssued.value)
              && (was.acceptUntil.value == overlap || was.acceptUntil == k.maxIssued))
  {}

  /** A key is accepted as long as it is active, and then up to its end. */
  lemma AcceptsIff(r: Ring, v: nat, t: Time)
    requires v in r.keys && (r.keys[v].active || r.keys[v].acceptUntil.Some?)
    ensures Accepts(r, v, t) <==> r.keys[v].active || t < r.keys[v].acceptUntil.value
  {}

  // ---------- runs ----------

  datatype Step =
    | DoSign(expiry: int)
    | DoRotate(immediate: bool)
    | DoSave(overlapSeconds: nat)

  /** A ring with the tokens it signed, as key version and expiry, and the keys that were retired at once. */
  datatype Traced = Traced(ring: Ring, issued: set<(nat, int)>, atOnce: set<nat>, clock: Time)

  function Advance(t: Traced, s: Step, now: Time): Traced {
    match s
    case DoSign(expiry) =>
      var r := Sign(t.ring, Unix(now), expiry);
      if r.Some? then Traced(r.value, t.issued + {(t.ring.current, expiry)}, t.atOnce, now) else t.(clock := now)
    case DoRotate(immediate) =>
      var r := Rotate(t.ring, immediate, now);
      if r.Some? then Traced(r.value, t.issued, if immediate then t.atOnce + {t.ring.current} else t.atOnce, now)
      else t.(clock := now)
    case DoSave(overlap) => Traced(SaveApplication(t.ring, overlap), t.issued, t.atOnce, now)
  }

  function Run(start: Ring, began: Time, steps: seq<(Step, Time)>): Traced {
    if steps == [] then Traced(start, {}, {}, began)
    else Advance(Run(start, began, steps[..|steps| - 1]), steps[|steps| - 1].0, steps[|steps| - 1].1)
  }

  ghost predicate ClockForward(began: Time, steps: seq<(Step, Time)>) {
    && (forall i :: 0 <= i < |steps| ==> began <= steps[i].1)
    && (forall i, j :: 0 <= i < j < |steps| ==> steps[i].1 <= steps[j].1)
  }

  /** The current key is the newest and the only active one, and holds the private part. */
  ghost predicate RingOk(r: Ring) {
    && (forall v :: v in r.keys <==> 1 <= v <= r.current)
    && (forall v :: v in r.keys ==>
         (r.keys[v].active <==> v == r.current) && (r.keys[v].hasPrivate <==> v == r.current))
    && (forall v :: v in r.keys && v != r.current ==> r.keys[v].acceptUntil.Some?)
    && 1 <= r.current
  }

  /** Every token is below its key's high-water mark. */
  ghost predicate IssuedCovered(r: Ring, issued: set<(nat, int)>) {
    forall i :: i in issued ==>
      i.0 in r.keys && r.keys[i.0].maxIssued.Some? && Seconds(i.1) <= r.keys[i.0].maxIssued.value
  }

  /** Keys not retired at once are accepted up to their high-water mark. */
  ghost predicate RetiredCovered(r: Ring, atOnce: set<nat>) {
    forall v :: v in r.keys && v != r.current && v !in atOnce && r.keys[v].maxIssued.Some? ==>
      r.keys[v].acceptUntil.Some? && r.keys[v].maxIssued.value <= r.keys[v].acceptUntil.value
  }

  ghost predicate AtOnceRetired(r: Ring, atOnce: set<nat>, clock: Time) {
    forall v :: v in atOnce ==>
      v in r.keys && v != r.current && r.keys[v].acceptUntil.Some? && r.keys[v].acceptUntil.value <= clock
  }

  ghost predicate TokensCovered(t: Traced) {
    IssuedCovered(t.ring, t.issued) && RetiredCovered(t.ring, t.atOnce) && AtOnceRetired(t.ring, t.atOnce, t.clock)
  }

  lemma AdvanceKeeps(t: Traced, s: Step, now: Time)
    requires RingOk(t.ring) && TokensCovered(t) && t.clock <= now
    ensures RingOk(Advance(t, s, now).ring) && TokensCovered(Advance(t, s, now))
  {
    match s
    case DoSign(_) => SignKeeps(t, s, now);
    case DoRotate(_) => RotateKeeps(t, s, now);
    case DoSave(_) =>
  }

  lemma SignKeeps(t: Traced, s: Step, now: Time)
    requires RingOk(t.ring) && TokensCovered(t) && t.clock <= now && s.DoSign?
    ensures RingOk(Advance(t, s, now).ring) && TokensCovered(Advance(t, s, now))
  {}

  lemma RotateKeeps(t: Traced, s: Step, now: Time)
    requires RingOk(t.ring) && TokensCovered(t) && t.clock <= now && s.DoRotate?
    ensures RingOk(Advance(t, s, now).ring) && TokensCovered(Advance(t, s, now))
  {
    RotateKeepsRing(t.ring, s.immediate, now);
    RotateCovers(t.ring, s.immediate, t.atOnce, now);
    RotateKeepsIssued(t.ring, t.issued, s.immediate, now);
  }

  lemma RotateKeepsIssued(r: Ring, issued: set<(nat, int)>, immediate: bool, now: Time)
    requires RingOk(r) && IssuedCovered(r, issued)
    ensures Rotate(r, immediate, now).Some? && IssuedCovered(Rotate(r, immediate, now).value, issued)
  {}

  lemma RotateCovers(r: Ring, immediate: bool, atOnce: set<nat>, now: Time)
    requires RingOk(r) && RetiredCovered(r, atOnce)
    ensures Rotate(r, immediate, now).Some?
    ensures RetiredCovered(Rotate(r, immediate, now).value, if immediate then atOnce + {r.current} else atOnce)
  {}

  lemma RotateKeepsRing(r: Ring, immediate: bool, now: Time)
    requires RingOk(r)
    ensures Rotate(r, immediate, now).Some? && RingOk(Rotate(r, immediate, now).value)
  {}

  lemma {:induction false} RunKeeps(app: Id, overlap: nat, began: Time, steps: seq<(Step, Time)>)
    requires ClockForward(began, steps)
    ensures var t := Run(Create(app, overlap, began), began, steps);
      RingOk(t.ring) && TokensCovered(t) && t.clock == if steps == [] then began else steps[|steps| - 1].1
  {
    if steps != [] {
      var init := steps[..|steps| - 1];
      RunKeeps(app, overlap, began, init);
      if init != [] { assert init[|init| - 1].1 <= steps[|steps| - 1].1; }
      AdvanceKeeps(Run(Create(app, overlap, began), began, init), steps[|steps| - 1].0, steps[|steps| - 1].1);
    }
  }

  /** A key that is no longer current never changes again. */
  lemma {:induction false} RetiredStays(app: Id, overlap: nat, began: Time, steps: seq<(Step, Time)>, n: nat, v: nat)
    requires ClockForward(began, steps) && n <= |steps|
    requires var r := Run(Create(app, overlap, began), began, steps[..n]).ring; v in r.keys && v != r.current
    ensures var (r, later) := (Run(Create(app, overlap, began), began, steps[..n]).ring,
        Run(Create(app, overlap, began), began, steps).ring);
      v in later.keys && v < later.current && later.keys[v] == r.keys[v]
  {
    if n == |steps| {
      assert steps[..n] == steps;
      RunKeeps(app, overlap, began, steps);
    } else {
      var init := steps[..|steps| - 1];
      assert init[..n] == steps[..n];
      RetiredStays(app, overlap, began, init, n, v);
      RunKeeps(app, overlap, began, init);
    }
  }

  /** In every run exactly one key is active, the current one, and signing and rotating never fail for
      want of a key. */
  lemma OneActiveKey(app: Id, overlap: nat, began: Time, steps: seq<(Step, Time)>, issuedAt: int, expiry: int,
                     now: Time)
    requires ClockForward(began, steps) && issuedAt < expiry
    ensures var r := Run(Create(app, overlap, began), began, steps).ring;
      && (set v | v in r.keys && r.keys[v].active) == {r.current}
      && Sign(r, issuedAt, expiry).Some? && Rotate(r, true, now).Some? && Rotate(r, false, now).Some?
  {
    RunKeeps(app, overlap, began, steps);
  }

  /** In every run, a token that has not expired names an accepted key, however many rotations followed,
      unless that key was retired at once; and then the key is refused from that moment on. */
  lemma TokensStayAcceptable(app: Id, overlap: nat, began: Time, steps: seq<(Step, Time)>, token: (nat, int), t: Time)
    requires ClockForward(began, steps) && token in Run(Create(app, overlap, began), began, steps).issued
    requires Run(Create(app, overlap, began), began, steps).clock <= t
    ensures var s := Run(Create(app, overlap, began), began, steps);
      if token.0 in s.atOnce then !Accepts(s.ring, token.0, t)
      else Unix(t) < token.1 ==> Accepts(s.ring, token.0, t)
  {
    RunKeeps(app, overlap, began, steps);
  }

  ghost function Versions(n: nat): (r: set<nat>)
    ensures |r| == n && forall v :: v in r <==> 1 <= v <= n
  {
    if n == 0 then {} else Versions(n - 1) + {n}
  }

  lemma NotAheadOfItself(r: Ring, v: nat)
    requires v in r.keys
    ensures !Precedes(r, v, v)
  {
    if Precedes(r, v, v) { PrecedesAsymmetric(r, v, v); }
  }

  lemma KeysAhead(r: Ring, v: nat)
    requires RingOk(r) && v in r.keys
    ensures |Ahead(r, v)| <= r.current - 1
  {
    NotAheadOfItself(r, v);
    SmallerSet(Ahead(r, v), Versions(r.current) - {v});
  }

  /** What a client needs to check a token by itself: its key is accepted and on the published page. */
  ghost predicate Published(r: Ring, v: nat, t: Time) {
    Accepts(r, v, t) && |Ahead(r, v)| < PAGE
  }

  /** An unexpired token's key is published exactly when fewer than a page of keys precede it; up to a
      thousand versions that is always so. */
  lemma PublishedIff(app: Id, overlap: nat, began: Time, steps: seq<(Step, Time)>, token: (nat, int), t: Time)
    requires ClockForward(began, steps) && token in Run(Create(app, overlap, began), began, steps).issued
    requires Run(Create(app, overlap, began), began, steps).clock <= t && Unix(t) < token.1
    requires token.0 !in Run(Create(app, overlap, began), began, steps).atOnce
    ensures var r := Run(Create(app, overlap, began), began, steps).ring;
      && token.0 in r.keys
      && (Published(r, token.0, t) <==> |Ahead(r, token.0)| < 1000)
      && (r.current <= 1000 ==> Published(r, token.0, t))
  {
    RunKeeps(app, overlap, began, steps);
    TokensStayAcceptable(app, overlap, began, steps, token, t);
    KeysAhead(Run(Create(app, overlap, began), began, steps).ring, token.0);
  }

  // ---------- the page in terms of rotations ----------

  /** Every rotation happens later than the one before it, and the first one after the application was created. */
  ghost predicate RotationsApart(began: Time, steps: seq<(Step, Time)>) {
    && (forall i :: 0 <= i < |steps| && steps[i].0.DoRotate? ==> began < steps[i].1)
    && (forall i, j :: 0 <= i < j < |steps| && steps[i].0.DoRotate? && steps[j].0.DoRotate? ==> steps[i].1 < steps[j].1)
  }

  /** Later versions were created later. */
  ghost predicate CreatedRises(r: Ring) {
    forall a, b :: a in r.keys && b in r.keys && a < b ==> r.keys[a].created < r.keys[b].created
  }

  /** Every key was created with the application or by some rotation of the run. */
  ghost predicate CreatedBy(r: Ring, began: Time, steps: seq<(Step, Time)>) {
    forall v :: v in r.keys ==>
      r.keys[v].created == began
      || exists i :: 0 <= i < |steps| && steps[i].0.DoRotate? && steps[i].1 == r.keys[v].created
  }

  lemma RotateCreated(r: Ring, immediate: bool, now: Time)
    requires RingOk(r) && CreatedRises(r) && forall v :: v in r.keys ==> r.keys[v].created < now
    ensures Rotate(r, immediate, now).Some?
    ensures var after := Rotate(r, immediate, now).value;
      && CreatedRises(after)
      && forall v :: v in after.keys ==>
           after.keys[v].created == if v in r.keys then r.keys[v].created else now
  {}

  lemma AdvanceCreated(t: Traced, s: Step, now: Time)
    requires RingOk(t.ring) && CreatedRises(t.ring)
    requires s.DoRotate? ==> forall v :: v in t.ring.keys ==> t.ring.keys[v].created < now
    ensures var after := Advance(t, s, now).ring;
      && CreatedRises(after)
      && forall v :: v in after.keys ==>
           if v in t.ring.keys then after.keys[v].created == t.ring.keys[v].created
           else s.DoRotate? && after.keys[v].created == now
  {
    match s
    case DoSign(_) =>
    case DoRotate(immediate) => RotateCreated(t.ring, immediate, now);
    case DoSave(_) =>
  }

  lemma {:induction false} RunCreated(app: Id, overlap: nat, began: Time, steps: seq<(Step, Time)>)
    requires ClockForward(began, steps) && RotationsApart(began, steps)
    ensures var r := Run(Create(app, overlap, began), began, steps).ring;
      CreatedRises(r) && CreatedBy(r, began, steps)
  {
    if steps != [] {
      var n := |steps| - 1;
      var init, last := steps[..n], steps[n];
      RunCreated(app, overlap, began, init);
      RunKeeps(app, overlap, began, init);
      var t := Run(Create(app, overlap, began), began, init);
      AdvanceCreated(t, last.0, last.1);
      var r := Advance(t, last.0, last.1).ring;
      forall v | v in r.keys && r.keys[v].created != began
        ensures exists i :: 0 <= i < |steps| && steps[i].0.DoRotate? && steps[i].1 == r.keys[v].created
      {
        if v in t.ring.keys {
          var i :| 0 <= i < n && init[i].0.DoRotate? && init[i].1 == t.ring.keys[v].created;
          assert steps[i].0.DoRotate?;
        } else {
          assert steps[n].0.DoRotate?;
        }
      }
    }
  }

  /** When versions were created one after the other, the keys ahead of a key are the later versions. */
  lemma AheadAreLater(r: Ring, v: nat)
    requires RingOk(r) && CreatedRises(r) && v in r.keys
    ensures |Ahead(r, v)| == r.current - v
  {
    NotAheadOfItself(r, v);
    assert Ahead(r, v) == Versions(r.current) - Versions(v);
    assert Versions(v) <= Versions(r.current);
  }

  /** With rotations at different instants, an unexpired token's key is published iff fewer than a thousand
      rotations followed it. */
  lemma PublishedByAge(app: Id, overlap: nat, began: Time, steps: seq<(Step, Time)>, token: (nat, int), t: Time)
    requires ClockForward(began, steps) && RotationsApart(began, steps)
    requires token in Run(Create(app, overlap, began), began, steps).issued
    requires Run(Create(app, overlap, began), began, steps).clock <= t && Unix(t) < token.1
    requires token.0 !in Run(Create(app, overlap, began), began, steps).atOnce
    ensures var r := Run(Create(app, overlap, began), began, steps).ring;
      && 1 <= token.0 <= r.current
      && (Published(r, token.0, t) <==> r.current - token.0 < 1000)
  {
    RunKeeps(app, overlap, began, steps);
    RunCreated(app, overlap, began, steps);
    PublishedIff(app, overlap, began, steps, token, t);
    AheadAreLater(Run(Create(app, overlap, began), began, steps).ring, token.0);
  }

  // ---------- a run that pushes a live key off the page ----------

  /** One token for a day, then `n` rotations one nanosecond apart. */
  function Busy(n: nat): seq<(Step, Time)> {
    if n == 0 then [(DoSign(86400), 0)] else Busy(n - 1) + [(DoRotate(false), n)]
  }

  lemma {:induction false} BusyClock(n: nat)
    ensures |Busy(n)| == n + 1 && ClockForward(0, Busy(n)) && forall i :: 0 <= i <= n ==> Busy(n)[i].1 == i
  {
    if n > 0 { BusyClock(n - 1); }
  }

  lemma BusyStep(n: nat)
    requires n > 0
    ensures Run(Create("app", 0, 0), 0, Busy(n))
      == Advance(Run(Create("app", 0, 0), 0, Busy(n - 1)), DoRotate(false), n)
  {
    assert Busy(n)[..|Busy(n)| - 1] == Busy(n - 1);
  }

  ghost predicate BusyAfter(t: Traced, n: nat) {
    && t.ring.current == n + 1 && t.issued == {(1, 86400)} && t.atOnce == {}
    && (forall v :: v in t.ring.keys <==> 1 <= v <= n + 1)
    && (forall v :: v in t.ring.keys ==> t.ring.keys[v].created == v - 1)
  }

  lemma BusyRotates(t: Traced, n: nat)
    requires n > 0 && BusyAfter(t, n - 1)
    ensures BusyAfter(Advance(t, DoRotate(false), n), n)
  {}

  lemma {:induction false} BusyRing(n: nat)
    ensures BusyAfter(Run(Create("app", 0, 0), 0, Busy(n)), n)
  {
    if n == 0 {
      assert Busy(0)[..0] == [];
    } else {
      BusyRing(n - 1);
      BusyStep(n);
      BusyRotates(Run(Create("app", 0, 0), 0, Busy(n - 1)), n);
    }
  }

  lemma OldestIsLast(r: Ring, n: nat)
    requires forall v :: v in r.keys <==> 1 <= v <= n + 1
    requires forall v :: v in r.keys ==> r.keys[v].created == v - 1
    ensures |Ahead(r, 1)| == n
  {
    NotAheadOfItself(r, 1);
    assert Ahead(r, 1) == Versions(n + 1) - {1};
  }

  /** A thousand or more rotations within the life of a token leave its key accepted but not published:
      a client that verifies by the published set refuses the token. */
  lemma RotationsUnpublish(n: nat)
    requires 1000 <= n && Unix(n) < 86400
    ensures var s := Run(Create("app", 0, 0), 0, Busy(n));
      && (1, 86400) in s.issued && 1 !in s.atOnce && s.clock == n
      && Accepts(s.ring, 1, n) && !Published(s.ring, 1, n)
  {
    BusyClock(n);
    RunKeeps("app", 0, 0, Busy(n));
    BusyRing(n);
    OldestIsLast(Run(Create("app", 0, 0), 0, Busy(n)).ring, n);
    TokensStayAcceptable("app", 0, 0, Busy(n), (1, 86400), n);
  }

  // ---------- the service ----------

  class KeyRing {
    var app: Id
    var overlapSeconds: nat
    var current: nat
    var keys: map<nat, Key>

    function Snapshot(): Ring
      reads this
    {
      Ring(app, overlapSeconds, current, keys)
    }

    method SignClaims(issuedAt: int, expiry: int) returns (ok: bool)
      modifies `keys
      ensures var after := Sign(old(Snapshot()), issuedAt, expiry);
        ok == after.Some? && Snapshot() == if ok then after.value else old(Snapshot())
    {
      if current !in keys { return false; }
      var key := keys[current];
      if !key.active || !key.hasPrivate { return false; }
      if expiry <= issuedAt { return false; }
      var until := Seconds(expiry);
      if key.maxIssued.None? || key.maxIssued.value < until {
        keys := keys[current := key.(maxIssued := Some(until))];
      }
      return true;
    }

    method RotateSigningKey(immediate: bool, now: Time) returns (ok: bool)
      modifies `keys, `current
      ensures var after := Rotate(old(Snapshot()), immediate, now);
        ok == after.Some? && Snapshot() == if ok then after.value else old(Snapshot())
    {
      if current !in keys || current + 1 in keys { return false; }
      var retired := keys[current];
      var until := now + Seconds(overlapSeconds);
      if retired.maxIssued.Some? && retired.maxIssued.value > until { until := retired.maxIssued.value; }
      if immediate { until := now; }
      retired := retired.(active := false, acceptUntil := Some(until));
      retired := retired.(hasPrivate := false);
      keys := keys[current := retired];
      current := current + 1;
      keys := keys[current := Key(true, true, None, None, now)];
      return true;
    }

    method AcceptKey(v: nat, t: Time) returns (ok: bool)
      ensures ok == Accepts(Snapshot(), v, t)
    {
      if v !in keys { return false; }
      return keys[v].active || (keys[v].acceptUntil.Some? && t < keys[v].acceptUntil.value);
    }
  }
}
