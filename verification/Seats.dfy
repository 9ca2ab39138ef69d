/** Installations of an application and the seats they hold: activation, heartbeats, leases, offline
    borrowing, release, deactivation, rebinding and owner transfer. */
module Seats {
  import opened Basics
  import opened Money

  datatype Reason = ClientRelease | Administrative | CustomerDisabled

  datatype Standing = Running | Stopped(at: Time, reason: Reason)

  datatype Activation = Activation(
    license: Id, key: string, session: string, standing: Standing, lease: Option<Time>, borrowed: bool)

  /** The quota of a license, fixed by its terms, its owner, and the rebinds so far. A negative rebind limit
      is no limit. */
  datatype Quota = Quota(
    floating: bool, maxSeats: int, maxActivations: int, rebindLimit: int, cooldownSeconds: int,
    owner: string, rebindsUsed: nat, lastRebindAt: Option<Time>)

  /** The card a customer claims a license with. */
  datatype ClaimCard = ClaimCard(activates: bool, revoked: bool, redeemUntil: Option<Time>)

  /** The lease part of the verification policy. */
  datatype Leasing = Leasing(leaseSeconds: int, maxBorrowSeconds: int)

  /** `rows` lists the activation rows in the order in which a query returns them. */
  datatype Site = Site(quotas: map<Id, Quota>, acts: map<Id, Activation>, rows: seq<Id>)

  // ---------- queries ----------

  predicate LeaseLive(a: Activation, t: Time) { a.lease.Some? && t < a.lease.value }

  /** The filter `ActiveAt`: not deactivated, and the lease absent or later. */
  predicate ActiveAt(a: Activation, t: Time) {
    a.standing.Running? && (a.lease.None? || t < a.lease.value)
  }

  predicate LiveBorrow(a: Activation, t: Time) { a.borrowed && LeaseLive(a, t) }

  /** The conditions under which rows are queried: `LeaseOnly` and `Borrowed` narrow `ActiveAt`. */
  datatype Filter = Active | LeaseOnly | Borrowed

  predicate Passes(f: Filter, a: Activation, t: Time) {
    match f
    case Active => ActiveAt(a, t)
    case LeaseOnly => a.standing.Running? && LeaseLive(a, t)
    case Borrowed => ActiveAt(a, t) && a.borrowed
  }

  /** Rows of a license that satisfy a filter. */
  function Matching(rows: seq<Id>, acts: map<Id, Activation>, lid: Id, f: Filter, t: Time): (r: seq<Id>)
    ensures |r| <= |rows|
    ensures forall x :: x in r <==> x in rows && x in acts && acts[x].license == lid && Passes(f, acts[x], t)
  {
    if rows == [] then []
    else
      var rest := Matching(rows[1..], acts, lid, f, t);
      assert forall x :: x in rows <==> x == rows[0] || x in rows[1..];
      if rows[0] in acts && acts[rows[0]].license == lid && Passes(f, acts[rows[0]], t) then [rows[0]] + rest else rest
  }

  function ActiveRows(s: Site, lid: Id, t: Time): seq<Id> { Matching(s.rows, s.acts, lid, Active, t) }

  function LeasedRows(s: Site, lid: Id, t: Time): seq<Id> { Matching(s.rows, s.acts, lid, LeaseOnly, t) }

  function HeldRows(s: Site, lid: Id, t: Time): seq<Id> { Matching(s.rows, s.acts, lid, Borrowed, t) }

  function FindOwn(rows: seq<Id>, acts: map<Id, Activation>, lid: Id, key: string, session: string): (r: Option<Id>)
    ensures r.Some? ==> r.value in rows && r.value in acts && Own(acts[r.value], lid, key, session)
    ensures r.None? ==> forall x :: x in rows && x in acts ==> !Own(acts[x], lid, key, session)
  {
    if rows == [] then None
    else if rows[0] in acts && Own(acts[rows[0]], lid, key, session) then Some(rows[0])
    else
      assert forall x :: x in rows <==> x == rows[0] || x in rows[1..];
      FindOwn(rows[1..], acts, lid, key, session)
  }

  predicate Own(a: Activation, lid: Id, key: string, session: string) {
    a.license == lid && a.key == key && a.session == session
  }

  /** How many of the listed rows are not `id`. */
  function Others(rows: seq<Id>, id: Id): nat {
    if rows == [] then 0 else Others(rows[..|rows| - 1], id) + (if rows[|rows| - 1] != id then 1 else 0)
  }

  /** A query returns at most this many rows. */
  const FIND_LIMIT := 10000

  // ---------- leases ----------

  function ExtendLease(p: Leasing, deadline: Option<Time>, a: Activation, borrow: int, now: Time): Outcome<Activation> {
    if borrow != 0 && (borrow < 1 || p.maxBorrowSeconds == 0 || borrow > p.maxBorrowSeconds) then Err("INVALID_REQUEST")
    else
      var wanted := now + Seconds(if borrow != 0 then borrow else p.leaseSeconds);
      var until := if deadline.Some? && deadline.value < wanted then deadline.value else wanted;
      if now >= until then Err("LICENSE_EXPIRED") else Ok(a.(borrowed := borrow != 0, lease := Some(until)))
  }

  // ---------- transactions ----------

  function AddLicense(s: Site, lid: Id, q: Quota): Outcome<Site> {
    if lid in s.quotas then Err("UNIQUE_VIOLATION")
    else if q.floating && q.maxSeats < 1 then Err("INVALID_REQUEST")
    else if q.maxActivations < 1 || q.maxActivations > 1000 || q.maxSeats < 0 || q.maxSeats > 10000
      then Err("INVALID_REQUEST")
    else if q.rebindLimit < -1 || q.rebindLimit > 10000 || q.cooldownSeconds < 0
            || q.cooldownSeconds > 3650 * 86400 then Err("INVALID_REQUEST")
    else Ok(s.(quotas := s.quotas[lid := q.(rebindsUsed := 0, lastRebindAt := None)]))
  }

  /** `admitted` stands for the credential, usability, binding, anchor and token checks around it. */
  function Activate(s: Site, lid: Id, key: string, session: string, borrow: int, newId: Id, admitted: bool,
                    p: Leasing, deadline: Option<Time>, now: Time): Outcome<Site>
  {
    if lid !in s.quotas || !admitted then Err("REFUSED")
    else
      var q, found := s.quotas[lid], FindOwn(s.rows, s.acts, lid, key, session);
      var id := if found.Some? then found.value else newId;
      var a := if found.Some? then s.acts[id] else Activation(lid, key, session, Running, None, false);
      var active := ActiveRows(s, lid, now);
      var others := Others(active[..Min(FIND_LIMIT, |active|)], id);
      if others >= (if q.floating then q.maxSeats else q.maxActivations) then Err("SEAT_EXCEEDED")
      else if q.floating && LiveBorrow(a, now) && borrow == 0 then Err("SEAT_BORROWED")
      else
        match if q.floating then ExtendLease(p, deadline, a, borrow, now) else Ok(a)
        case Err(code) => Err(code)
        case Ok(b) =>
          if found.None? && id in s.acts then Err("UNIQUE_VIOLATION")
          else Ok(s.(acts := s.acts[id := b.(standing := Running)],
                     rows := if found.Some? then s.rows else [id] + s.rows))
  }

  function Release(s: Site, id: Id, now: Time): Outcome<Site> {
    if id !in s.acts then Err("ACTIVATION_INVALID")
    else
      var a := s.acts[id];
      if a.standing.Stopped? && a.standing.reason != ClientRelease then Err("ACTIVATION_DEACTIVATED")
      else if LiveBorrow(a, now) then Err("BORROWED_SEAT_HELD")
      else Ok(s.(acts := s.acts[id := a.(standing := Stopped(now, ClientRelease), lease := None, borrowed := false)]))
  }

  /** The activation a heartbeat saves: a live borrow is kept whole, anything else extends the lease. */
  function Refreshed(s: Site, a: Activation, reacquiring: bool, p: Leasing, deadline: Option<Time>, now: Time)
      : Outcome<Activation>
    requires a.license in s.quotas
  {
    var q := s.quotas[a.license];
    if reacquiring && !q.floating && |ActiveRows(s, a.license, now)| >= q.maxActivations
      then Err("ACTIVATION_LIMIT_EXCEEDED")
    else if !q.floating || LiveBorrow(a, now) then Ok(a)
    else if !LeaseLive(a, now) && |LeasedRows(s, a.license, now)| >= q.maxSeats then Err("SEAT_EXCEEDED")
    else ExtendLease(p, deadline, a, 0, now)
  }

  /** A verification, consumption or renewal by the installation; a released one takes its seat back. */
  function Verify(s: Site, id: Id, admitted: bool, p: Leasing, deadline: Option<Time>, now: Time): Outcome<Site> {
    if id !in s.acts || s.acts[id].license !in s.quotas then Err("ACTIVATION_INVALID")
    else
      var a := s.acts[id];
      var reacquiring := a.standing.Stopped?;
      if reacquiring && a.standing.reason != ClientRelease then Err("ACTIVATION_DEACTIVATED")
      else if !admitted then Err("REFUSED")
      else
        var from := if reacquiring then a.(standing := Running, lease := None, borrowed := false) else a;
        match Refreshed(s, from, reacquiring, p, deadline, now)
        case Err(code) => Err(code)
        case Ok(b) => Ok(s.(acts := s.acts[id := b]))
  }

  function Deactivate(s: Site, id: Id, reason: Reason, now: Time): Outcome<Site> {
    if id !in s.acts then Err("NOT_FOUND")
    else if LiveBorrow(s.acts[id], now) then Err("BORROWED_SEAT_HELD")
    else Ok(s.(acts := s.acts[id := s.acts[id].(standing := Stopped(now, reason))]))
  }

  function DeactivateAll(acts: map<Id, Activation>, lid: Id, now: Time): map<Id, Activation> {
    map x | x in acts ::
      if acts[x].license == lid && acts[x].standing.Running? then acts[x].(standing := Stopped(now, Administrative))
        else acts[x]
  }

  /** A customer's own rebinds are limited in number and spaced out. */
  predicate MayRebind(q: Quota, now: Time) {
    && q.rebindLimit != 0 && (q.rebindLimit > 0 ==> q.rebindsUsed < q.rebindLimit)
    && (q.lastRebindAt.Some? ==> now >= q.lastRebindAt.value + Seconds(q.cooldownSeconds))
  }

  function Rebound(q: Quota, now: Time): Quota { q.(rebindsUsed := q.rebindsUsed + 1, lastRebindAt := Some(now)) }

  /** A rebind by an administrator or, with a user, by a customer; `admitted` stands for the checks of the license
      and of the new binding. */
  function Rebind(s: Site, lid: Id, customer: Option<string>, admitted: bool, now: Time): Outcome<Site> {
    if lid !in s.quotas || (customer.Some? && customer.value != s.quotas[lid].owner) then Err("NOT_FOUND")
    else if !admitted then Err("REFUSED")
    else if customer.Some? && !MayRebind(s.quotas[lid], now) then Err("REBIND_REFUSED")
    else if |HeldRows(s, lid, now)| > 0 then Err("BORROWED_SEAT_HELD")
    else Ok(s.(acts := DeactivateAll(s.acts, lid, now), quotas := s.quotas[lid := Rebound(s.quotas[lid], now)]))
  }

  function AssignOwner(s: Site, lid: Id, user: string, transferAllowed: bool, now: Time): Outcome<Site> {
    if user == "" then Err("INVALID_REQUEST")
    else if lid !in s.quotas then Err("NOT_FOUND")
    else
      var q := s.quotas[lid];
      var moves := q.owner != "" && q.owner != user;
      if moves && !transferAllowed then Err("OWNER_TRANSFER_DISABLED")
      else if moves && |HeldRows(s, lid, now)| > 0 then Err("BORROWED_SEAT_HELD")
      else Ok(s.(acts := if moves then DeactivateAll(s.acts, lid, now) else s.acts,
                 quotas := s.quotas[lid := q.(owner := user)]))
  }

  /** A customer takes an unowned license by the activation card bound to it. */
  function ClaimLicense(s: Site, lid: Id, user: string, card: Option<ClaimCard>, now: Time): Outcome<Site> {
    if card.None? || !card.value.activates || card.value.revoked then Err("CARD_INVALID")
    else if card.value.redeemUntil.Some? && now >= card.value.redeemUntil.value then Err("CARD_EXPIRED")
    else if lid !in s.quotas then Err("NOT_FOUND")
    else
      var q := s.quotas[lid];
      if q.owner != "" && q.owner != user then Err("LICENSE_ALREADY_OWNED")
      else Ok(s.(quotas := s.quotas[lid := q.(owner := user)]))
  }

  datatype Step =
    | DoAddLicense(lid: Id, quota: Quota)
    | DoActivate(lid: Id, key: string, session: string, borrow: int, newId: Id, admitted: bool, policy: Leasing,
      deadline: Option<Time>)
    | DoVerify(id: Id, admitted: bool, policy: Leasing, deadline: Option<Time>)
    | DoRelease(id: Id)
    | DoDeactivate(id: Id, reason: Reason)
    | DoRebind(lid: Id, customer: Option<string>, admitted: bool)
    | DoAssignOwner(lid: Id, user: string, transferAllowed: bool)
    | DoClaimLicense(lid: Id, user: string, card: Option<ClaimCard>)

  function Transact(s: Site, step: Step, now: Time): Outcome<Site> {
    match step
    case DoAddLicense(lid, q) => AddLicense(s, lid, q)
    case DoActivate(lid, key, session, borrow, newId, admitted, p, deadline) =>
      Activate(s, lid, key, session, borrow, newId, admitted, p, deadline, now)
    case DoVerify(id, admitted, p, deadline) => Verify(s, id, admitted, p, deadline, now)
    case DoRelease(id) => Release(s, id, now)
    case DoDeactivate(id, reason) => Deactivate(s, id, reason, now)
    case DoRebind(lid, customer, admitted) => Rebind(s, lid, customer, admitted, now)
    case DoAssignOwner(lid, user, allowed) => AssignOwner(s, lid, user, allowed, now)
    case DoClaimLicense(lid, user, card) => ClaimLicense(s, lid, user, card, now)
  }

  function Next(s: Site, step: Step, now: Time): Site { Commit(s, Transact(s, step, now)) }

  /** An installation's own row is one of the same license, key and session, if there is any. */
  lemma FindOwnIff(rows: seq<Id>, acts: map<Id, Activation>, lid: Id, key: string, session: string)
    ensures var r := FindOwn(rows, acts, lid, key, session);
      && (r.Some? <==> exists x :: x in rows && x in acts && acts[x].license == lid && acts[x].key == key
                                   && acts[x].session == session)
      && (r.Some? ==> r.value in acts && acts[r.value].license == lid && acts[r.value].key == key
                      && acts[r.value].session == session)
  {}

  // ---------- the seat budget ----------

  /** The installations that occupy a seat of a license at an instant. */
  ghost function Occupants(s: Site, lid: Id, t: Time): set<Id>
  {
    set x | x in s.acts && s.acts[x].license == lid && ActiveAt(s.acts[x], t)
  }

  function Budget(q: Quota): int { if q.floating then q.maxSeats else q.maxActivations }

  ghost predicate RowsOk(s: Site) {
    && Distinct(s.rows) && (forall x :: x in s.rows <==> x in s.acts)
    && (forall x :: x in s.acts ==> s.acts[x].license in s.quotas)
    && (forall x, y :: x in s.acts && y in s.acts && x != y ==>
         !Own(s.acts[y], s.acts[x].license, s.acts[x].key, s.acts[x].session))
  }

  /** A running installation has a lease exactly when its license is floating; only leases are borrowed. */
  predicate ShapeOk(q: Quota, a: Activation) {
    && (a.standing.Running? ==> (a.lease.Some? <==> q.floating))
    && (!q.floating ==> a.lease.None?) && (a.borrowed ==> q.floating)
  }

  predicate QuotaOk(q: Quota) { 1 <= Budget(q) <= FIND_LIMIT }

  ghost predicate QuotasOk(s: Site) { forall l :: l in s.quotas ==> QuotaOk(s.quotas[l]) }

  ghost predicate ShapesOk(s: Site) {
    forall x {:trigger s.acts[x]} :: x in s.acts ==>
      s.acts[x].license in s.quotas && ShapeOk(s.quotas[s.acts[x].license], s.acts[x])
  }

  ghost predicate BudgetsOk(s: Site, t: Time) {
    forall l {:trigger Occupants(s, l, t)} :: l in s.quotas ==> |Occupants(s, l, t)| <= Budget(s.quotas[l])
  }

  ghost predicate SiteOk(s: Site, clock: Time) {
    RowsOk(s) && QuotasOk(s) && ShapesOk(s) && BudgetsOk(s, clock)
  }

  lemma {:induction false} MatchingDistinct(rows: seq<Id>, acts: map<Id, Activation>, lid: Id, f: Filter, t: Time)
    requires Distinct(rows)
    ensures Distinct(Matching(rows, acts, lid, f, t))
  {
    if rows != [] {
      var tail := rows[1..];
      forall i, j | 0 <= i < j < |tail| ensures tail[i] != tail[j] { assert rows[i + 1] != rows[j + 1]; }
      MatchingDistinct(tail, acts, lid, f, t);
      var rest := Matching(tail, acts, lid, f, t);
      forall j | 0 <= j < |rest| ensures rest[j] != rows[0] {
        assert rest[j] in tail;
        var k :| 0 <= k < |tail| && tail[k] == rest[j];
        assert rows[0] != rows[k + 1];
      }
    }
  }

  /** The query lists exactly the occupants, so it is never cut off within the budget. */
  lemma ActiveRowsCount(s: Site, lid: Id, t: Time)
    requires RowsOk(s)
    ensures |ActiveRows(s, lid, t)| == |Occupants(s, lid, t)| && Distinct(ActiveRows(s, lid, t))
    ensures forall x :: x in ActiveRows(s, lid, t) <==> x in Occupants(s, lid, t)
  {
    MatchingDistinct(s.rows, s.acts, lid, Active, t);
    DistinctSize(ActiveRows(s, lid, t), Occupants(s, lid, t));
  }

  lemma LeasedRowsCount(s: Site, lid: Id, t: Time)
    requires SiteOk(s, t) && lid in s.quotas && s.quotas[lid].floating
    ensures |LeasedRows(s, lid, t)| == |Occupants(s, lid, t)|
  {
    MatchingDistinct(s.rows, s.acts, lid, LeaseOnly, t);
    DistinctSize(LeasedRows(s, lid, t), Occupants(s, lid, t));
  }

  lemma {:induction false} OthersCount(rows: seq<Id>, id: Id)
    requires Distinct(rows)
    ensures Others(rows, id) == if id in rows then |rows| - 1 else |rows|
  {
    if rows != [] {
      var init, last := rows[..|rows| - 1], rows[|rows| - 1];
      assert rows == init + [last];
      OthersCount(init, id);
      assert last !in init;
    }
  }

  lemma OthersAre(s: Site, lid: Id, id: Id, now: Time)
    requires SiteOk(s, now) && lid in s.quotas
    ensures var active := ActiveRows(s, lid, now);
      Others(active[..Min(FIND_LIMIT, |active|)], id) == |Occupants(s, lid, now) - {id}|
  {
    ActiveRowsCount(s, lid, now);
    var active, occupied := ActiveRows(s, lid, now), Occupants(s, lid, now);
    assert |occupied| <= Budget(s.quotas[lid]) && QuotaOk(s.quotas[lid]);
    assert active[..Min(FIND_LIMIT, |active|)] == active;
    OthersCount(active, id);
    WithoutOne(occupied, id);
  }

  lemma WithoutOne(s: set<Id>, x: Id)
    ensures |s - {x}| == if x in s then |s| - 1 else |s|
  {
    if x !in s { assert s - {x} == s; }
  }

  /** Time alone only frees seats. */
  lemma TimeFrees(s: Site, clock: Time, now: Time)
    requires SiteOk(s, clock) && clock <= now
    ensures SiteOk(s, now)
  {
    forall l | l in s.quotas ensures |Occupants(s, l, now)| <= Budget(s.quotas[l]) {
      SmallerSet(Occupants(s, l, now), Occupants(s, l, clock));
    }
  }

  lemma OccupantsAfter(s: Site, after: Site, id: Id, a: Activation, l: Id, t: Time)
    requires after.acts == s.acts[id := a] && (id in s.acts ==> s.acts[id].license == a.license)
    ensures Occupants(after, l, t)
      == if l != a.license then Occupants(s, l, t)
         else if ActiveAt(a, t) then (Occupants(s, l, t) - {id}) + {id} else Occupants(s, l, t) - {id}
  {}

  lemma BudgetsAfter(s: Site, after: Site, id: Id, a: Activation, t: Time)
    requires BudgetsOk(s, t) && after.acts == s.acts[id := a] && (id in s.acts ==> s.acts[id].license == a.license)
    requires after.quotas == s.quotas && a.license in s.quotas
    requires ActiveAt(a, t) ==> |Occupants(s, a.license, t) - {id}| < Budget(s.quotas[a.license])
    ensures BudgetsOk(after, t)
  {
    forall l | l in s.quotas ensures |Occupants(after, l, t)| <= Budget(s.quotas[l]) {
      OccupantsAfter(s, after, id, a, l, t);
      WithoutOne(Occupants(s, l, t), id);
    }
  }

  /** Replacing one row of an installation that now has its seat, or has none. */
  lemma RowChangeKeeps(s: Site, id: Id, a: Activation, now: Time)
    requires SiteOk(s, now) && id in s.acts && Own(a, s.acts[id].license, s.acts[id].key, s.acts[id].session)
    requires a.license in s.quotas && ShapeOk(s.quotas[a.license], a)
    requires ActiveAt(a, now) ==> |Occupants(s, a.license, now) - {id}| < Budget(s.quotas[a.license])
    ensures SiteOk(s.(acts := s.acts[id := a]), now)
  {
    var after := s.(acts := s.acts[id := a]);
    assert RowsOk(after);
    assert ShapesOk(after);
    BudgetsAfter(s, after, id, a, now);
  }

  lemma NewRowOk(s: Site, id: Id, a: Activation)
    requires RowsOk(s) && id !in s.acts && a.license in s.quotas
    requires forall x :: x in s.acts ==> !Own(s.acts[x], a.license, a.key, a.session)
    ensures RowsOk(s.(acts := s.acts[id := a], rows := [id] + s.rows))
  {
    var after := s.(acts := s.acts[id := a], rows := [id] + s.rows);
    forall i, j | 0 <= i < j < |after.rows| ensures after.rows[i] != after.rows[j] {
      assert s.rows[j - 1] in s.rows;
    }
  }

  lemma NewRowKeeps(s: Site, id: Id, a: Activation, now: Time)
    requires SiteOk(s, now) && id !in s.acts && a.license in s.quotas && ShapeOk(s.quotas[a.license], a)
    requires forall x :: x in s.acts ==> !Own(s.acts[x], a.license, a.key, a.session)
    requires ActiveAt(a, now) ==> |Occupants(s, a.license, now) - {id}| < Budget(s.quotas[a.license])
    ensures SiteOk(s.(acts := s.acts[id := a], rows := [id] + s.rows), now)
  {
    var after := s.(acts := s.acts[id := a], rows := [id] + s.rows);
    NewRowOk(s, id, a);
    assert ShapesOk(after);
    BudgetsAfter(s, after, id, a, now);
  }

  /** A lease of so many seconds can be had: the borrow is within the policy, and time is left. */
  predicate LeaseToHave(p: Leasing, deadline: Option<Time>, borrow: int, now: Time) {
    && (borrow == 0 || 1 <= borrow <= p.maxBorrowSeconds)
    && 0 < Asked(p, borrow) && (deadline.Some? ==> now < deadline.value)
  }

  /** The seconds asked for: those of the borrow, or the policy's lease. */
  function Asked(p: Leasing, borrow: int): int { if borrow != 0 then borrow else p.leaseSeconds }

  /** A lease is extended iff there is one to have, and then to the end of the time asked for or to the deadline,
      whichever comes first. */
  lemma ExtendLeaseGives(p: Leasing, deadline: Option<Time>, a: Activation, borrow: int, now: Time)
    ensures ExtendLease(p, deadline, a, borrow, now).Ok? <==> LeaseToHave(p, deadline, borrow, now)
    ensures ExtendLease(p, deadline, a, borrow, now).Ok? ==>
      var b := ExtendLease(p, deadline, a, borrow, now).value;
      && b == a.(borrowed := borrow != 0, lease := b.lease) && LeaseLive(b, now)
      && Earliest(b.lease.value, now + Asked(p, borrow) * 1_000_000_000, {deadline})
  {}

  lemma ActivateKeeps(s: Site, lid: Id, key: string, session: string, borrow: int, newId: Id, admitted: bool,
                      p: Leasing, deadline: Option<Time>, now: Time)
    requires SiteOk(s, now) && Activate(s, lid, key, session, borrow, newId, admitted, p, deadline, now).Ok?
    ensures SiteOk(Activate(s, lid, key, session, borrow, newId, admitted, p, deadline, now).value, now)
  {
    var q, found := s.quotas[lid], FindOwn(s.rows, s.acts, lid, key, session);
    var id := if found.Some? then found.value else newId;
    var a := if found.Some? then s.acts[id] else Activation(lid, key, session, Running, None, false);
    var b := (if q.floating then ExtendLease(p, deadline, a, borrow, now) else Ok(a)).value;
    OthersAre(s, lid, id, now);
    if q.floating { ExtendLeaseGives(p, deadline, a, borrow, now); }
    if found.Some? {
      RowChangeKeeps(s, id, b.(standing := Running), now);
    } else {
      NewRowKeeps(s, id, b.(standing := Running), now);
    }
  }

  /** An admitted installation gets its seat exactly when the others leave room, it is not holding a
      borrowed seat it does not borrow anew, and the lease has time to run. */
  lemma SeatGrantedIff(s: Site, lid: Id, key: string, session: string, borrow: int, newId: Id,
                       p: Leasing, deadline: Option<Time>, now: Time)
    requires SiteOk(s, now) && lid in s.quotas && newId !in s.acts
    ensures var q, found := s.quotas[lid], FindOwn(s.rows, s.acts, lid, key, session);
      var own := if found.Some? then found.value else newId;
      var a := if found.Some? then s.acts[own] else Activation(lid, key, session, Running, None, false);
      Activate(s, lid, key, session, borrow, newId, true, p, deadline, now).Ok?
      <==> |Occupants(s, lid, now) - {own}| < Budget(q)
           && (q.floating ==> !(LiveBorrow(a, now) && borrow == 0) && LeaseToHave(p, deadline, borrow, now))
  {
    var found := FindOwn(s.rows, s.acts, lid, key, session);
    var own := if found.Some? then found.value else newId;
    var a := if found.Some? then s.acts[own] else Activation(lid, key, session, Running, None, false);
    OthersAre(s, lid, own, now);
    ExtendLeaseGives(p, deadline, a, borrow, now);
  }

  /** The seat granted: the installation runs, on a floating license with a lease that ends with the time asked for
      or the deadline, and no other installation changes. */
  lemma SeatGranted(s: Site, lid: Id, key: string, session: string, borrow: int, newId: Id, admitted: bool,
                    p: Leasing, deadline: Option<Time>, now: Time)
    requires SiteOk(s, now) && Activate(s, lid, key, session, borrow, newId, admitted, p, deadline, now).Ok?
    ensures var after := Activate(s, lid, key, session, borrow, newId, admitted, p, deadline, now).value;
      var found := FindOwn(s.rows, s.acts, lid, key, session);
      var own := if found.Some? then found.value else newId;
      && admitted && lid in s.quotas && own in after.acts
      && after == s.(acts := s.acts[own := after.acts[own]], rows := after.rows)
      && after.rows == (if found.Some? then s.rows else [newId] + s.rows)
      && Own(after.acts[own], lid, key, session) && after.acts[own].standing == Running
      && (s.quotas[lid].floating ==>
            && after.acts[own].borrowed == (borrow != 0) && after.acts[own].lease.Some?
            && Earliest(after.acts[own].lease.value, now + Asked(p, borrow) * 1_000_000_000, {deadline}))
      && (!s.quotas[lid].floating ==> after.acts[own].lease.None? && !after.acts[own].borrowed)
  {
    var q, found := s.quotas[lid], FindOwn(s.rows, s.acts, lid, key, session);
    var a := if found.Some? then s.acts[found.value] else Activation(lid, key, session, Running, None, false);
    if q.floating { ExtendLeaseGives(p, deadline, a, borrow, now); }
  }

  /** The installation a heartbeat starts from: a released one comes back without a lease. */
  function Resumed(a: Activation): Activation {
    if a.standing.Stopped? then a.(standing := Running, lease := None, borrowed := false) else a
  }

  /** A heartbeat goes through iff the installation is admitted, was not deactivated from outside, and finds a seat
      when it needs one: a released one always, on a floating license also one whose lease ran out. */
  lemma HeartbeatIff(s: Site, id: Id, admitted: bool, p: Leasing, deadline: Option<Time>, now: Time)
    requires SiteOk(s, now) && id in s.acts
    ensures var (a, q) := (s.acts[id], s.quotas[s.acts[id].license]);
      var held := |Occupants(s, a.license, now)|;
      Verify(s, id, admitted, p, deadline, now).Ok? <==>
        && admitted && (a.standing.Stopped? ==> a.standing.reason == ClientRelease)
        && if !q.floating then a.standing.Stopped? ==> held < q.maxActivations
           else if a.standing.Running? && LiveBorrow(a, now) then true
           else (a.standing.Stopped? || !LeaseLive(a, now) ==> held < q.maxSeats) && LeaseToHave(p, deadline, 0, now)
  {
    var stored := s.acts[id];
    var a := Resumed(stored);
    ActiveRowsCount(s, a.license, now);
    if s.quotas[a.license].floating { LeasedRowsCount(s, a.license, now); }
    ExtendLeaseGives(p, deadline, a, 0, now);
  }

  /** What a heartbeat saves: a live borrow whole, on a floating license a lease of the policy's length cut at the
      deadline, otherwise the installation running without a lease; no other installation changes. */
  lemma HeartbeatGives(s: Site, id: Id, admitted: bool, p: Leasing, deadline: Option<Time>, now: Time)
    requires SiteOk(s, now) && Verify(s, id, admitted, p, deadline, now).Ok?
    ensures var after := Verify(s, id, admitted, p, deadline, now).value;
      var (a, b) := (s.acts[id], after.acts[id]);
      && after == s.(acts := s.acts[id := b]) && Own(b, a.license, a.key, a.session) && b.standing == Running
      && if !s.quotas[a.license].floating then b.lease.None? && !b.borrowed
         else if a.standing.Running? && LiveBorrow(a, now) then b == a
         else !b.borrowed && b.lease.Some? && Earliest(b.lease.value, now + p.leaseSeconds * 1_000_000_000, {deadline})
  {
    var stored := s.acts[id];
    var a := Resumed(stored);
    if s.quotas[a.license].floating { ExtendLeaseGives(p, deadline, a, 0, now); }
  }

  /** The installation stands stopped for that reason, its seat is free, and no other installation changes. */
  ghost predicate Stops(s: Site, after: Site, id: Id, now: Time, reason: Reason)
    requires id in s.acts
  {
    && id in after.acts && after == s.(acts := s.acts[id := after.acts[id]])
    && after.acts[id].standing == Stopped(now, reason)
    && Own(after.acts[id], s.acts[id].license, s.acts[id].key, s.acts[id].session)
    && forall l, t :: Occupants(after, l, t) == Occupants(s, l, t) - {id}
  }

  /** A release goes through iff the seat is not borrowed and live and no one else deactivated the installation. */
  lemma ReleaseFrees(s: Site, id: Id, now: Time)
    requires SiteOk(s, now) && id in s.acts
    ensures var a := s.acts[id];
      Release(s, id, now).Ok? <==>
        && (a.standing.Stopped? ==> a.standing.reason == ClientRelease)
        && !(a.borrowed && a.lease.Some? && now < a.lease.value)
    ensures Release(s, id, now).Ok? ==>
      && Stops(s, Release(s, id, now).value, id, now, ClientRelease)
      && Release(s, id, now).value.acts[id].lease.None?
  {
    if Release(s, id, now).Ok? { StoppedIsFree(s, Release(s, id, now).value, id, now, ClientRelease); }
  }

  /** A deactivation goes through iff the seat is not borrowed and live. */
  lemma DeactivateFrees(s: Site, id: Id, reason: Reason, now: Time)
    requires SiteOk(s, now) && id in s.acts
    ensures var a := s.acts[id];
      Deactivate(s, id, reason, now).Ok? <==> !(a.borrowed && a.lease.Some? && now < a.lease.value)
    ensures Deactivate(s, id, reason, now).Ok? ==> Stops(s, Deactivate(s, id, reason, now).value, id, now, reason)
  {
    if Deactivate(s, id, reason, now).Ok? { StoppedIsFree(s, Deactivate(s, id, reason, now).value, id, now, reason); }
  }

  lemma StoppedIsFree(s: Site, after: Site, id: Id, now: Time, reason: Reason)
    requires id in s.acts && id in after.acts && after == s.(acts := s.acts[id := after.acts[id]])
    requires after.acts[id].standing == Stopped(now, reason)
    requires Own(after.acts[id], s.acts[id].license, s.acts[id].key, s.acts[id].session)
    ensures Stops(s, after, id, now, reason)
  {
    forall l, t ensures Occupants(after, l, t) == Occupants(s, l, t) - {id} {
      OccupantsAfter(s, after, id, after.acts[id], l, t);
    }
  }

  /** No installation of the license runs any more; the others are as they were. */
  ghost predicate Cleared(s: Site, after: Site, lid: Id, now: Time) {
    && after.rows == s.rows && after.acts.Keys == s.acts.Keys
    && forall x :: x in s.acts ==>
         after.acts[x] == if s.acts[x].license == lid && s.acts[x].standing.Running?
                          then s.acts[x].(standing := Stopped(now, Administrative)) else s.acts[x]
  }

  /** Some installation of the license holds a live borrowed seat. */
  ghost predicate BorrowHeld(s: Site, lid: Id, now: Time) {
    exists x :: x in s.acts && s.acts[x].license == lid && s.acts[x].standing.Running? && LiveBorrow(s.acts[x], now)
  }

  lemma HeldIff(s: Site, lid: Id, now: Time)
    requires RowsOk(s) && ShapesOk(s)
    ensures |HeldRows(s, lid, now)| > 0 <==> BorrowHeld(s, lid, now)
  {
    var held := HeldRows(s, lid, now);
    if |held| > 0 {
      assert held[0] in held && Passes(Borrowed, s.acts[held[0]], now);
      assert LiveBorrow(s.acts[held[0]], now);
    }
    if BorrowHeld(s, lid, now) {
      var x :| x in s.acts && s.acts[x].license == lid && s.acts[x].standing.Running? && LiveBorrow(s.acts[x], now);
      HeldBlocks(s, x, now);
    }
  }

  /** A rebind stops every installation of the license, iff none holds a borrowed seat and, for a customer, the
      license is its own and may be rebound. */
  lemma RebindClears(s: Site, lid: Id, customer: Option<string>, admitted: bool, now: Time)
    requires SiteOk(s, now) && lid in s.quotas
    ensures var q := s.quotas[lid];
      Rebind(s, lid, customer, admitted, now).Ok? <==>
        && admitted && !BorrowHeld(s, lid, now)
        && (customer.Some? ==>
              && customer.value == q.owner && q.rebindLimit != 0 && (q.rebindLimit < 0 || q.rebindsUsed < q.rebindLimit)
              && (q.lastRebindAt.Some? ==> q.lastRebindAt.value + q.cooldownSeconds * 1_000_000_000 <= now))
    ensures Rebind(s, lid, customer, admitted, now).Ok? ==>
      Cleared(s, Rebind(s, lid, customer, admitted, now).value, lid, now)
  {
    HeldIff(s, lid, now);
  }

  /** An owner is set iff the license is unowned or the user's already, or a transfer is allowed and no borrowed seat
      is held; a transfer stops every installation. */
  lemma AssignOwnerIff(s: Site, lid: Id, user: string, transferAllowed: bool, now: Time)
    requires SiteOk(s, now) && lid in s.quotas
    ensures var moves := s.quotas[lid].owner != "" && s.quotas[lid].owner != user;
      && (AssignOwner(s, lid, user, transferAllowed, now).Ok? <==>
            user != "" && (moves ==> transferAllowed && !BorrowHeld(s, lid, now)))
      && (AssignOwner(s, lid, user, transferAllowed, now).Ok? ==>
            var after := AssignOwner(s, lid, user, transferAllowed, now).value;
            && lid in after.quotas && after.quotas == s.quotas[lid := after.quotas[lid]]
            && after.quotas[lid] == s.quotas[lid].(owner := user)
            && if moves then Cleared(s, after, lid, now) else after.acts == s.acts && after.rows == s.rows)
  {
    HeldIff(s, lid, now);
  }

  /** A claim goes through iff the card is an unrevoked activation card in time and the license is unowned or the
      user's already. */
  lemma ClaimIff(s: Site, lid: Id, user: string, card: Option<ClaimCard>, now: Time)
    requires lid in s.quotas
    ensures ClaimLicense(s, lid, user, card, now).Ok? <==>
      && card.Some? && card.value.activates && !card.value.revoked
      && (card.value.redeemUntil.Some? ==> now < card.value.redeemUntil.value)
      && s.quotas[lid].owner in {"", user}
    ensures ClaimLicense(s, lid, user, card, now).Ok? ==>
      ClaimLicense(s, lid, user, card, now).value == s.(quotas := s.quotas[lid := s.quotas[lid].(owner := user)])
  {}

  lemma VerifyKeeps(s: Site, id: Id, admitted: bool, p: Leasing, deadline: Option<Time>, now: Time)
    requires SiteOk(s, now) && Verify(s, id, admitted, p, deadline, now).Ok?
    ensures SiteOk(Verify(s, id, admitted, p, deadline, now).value, now)
  {
    var stored := s.acts[id];
    var lid, reacquiring := stored.license, stored.standing.Stopped?;
    var q := s.quotas[lid];
    var a := if reacquiring then stored.(standing := Running, lease := None, borrowed := false) else stored;
    var b := Refreshed(s, a, reacquiring, p, deadline, now).value;
    ActiveRowsCount(s, lid, now);
    if q.floating { LeasedRowsCount(s, lid, now); }
    if q.floating && !LiveBorrow(a, now) { ExtendLeaseGives(p, deadline, a, 0, now); }
    if id in Occupants(s, lid, now) {
      assert |Occupants(s, lid, now) - {id}| == |Occupants(s, lid, now)| - 1;
    } else {
      assert Occupants(s, lid, now) - {id} == Occupants(s, lid, now);
    }
    RowChangeKeeps(s, id, b, now);
  }

  ghost predicate SameQuotas(a: map<Id, Quota>, b: map<Id, Quota>) {
    && a.Keys == b.Keys
    && forall l :: l in a ==>
         b[l] == a[l].(owner := b[l].owner, rebindsUsed := b[l].rebindsUsed, lastRebindAt := b[l].lastRebindAt)
  }

  lemma LicenseChangeKeeps(s: Site, quotas: map<Id, Quota>, now: Time)
    requires SiteOk(s, now) && SameQuotas(s.quotas, quotas)
    ensures SiteOk(s.(quotas := quotas), now)
  {
    var after := s.(quotas := quotas);
    assert ShapesOk(after);
    forall l | l in quotas ensures |Occupants(after, l, now)| <= Budget(quotas[l]) {
      assert Occupants(after, l, now) == Occupants(s, l, now);
    }
  }

  lemma DeactivateAllKeeps(s: Site, lid: Id, now: Time)
    requires SiteOk(s, now)
    ensures SiteOk(s.(acts := DeactivateAll(s.acts, lid, now)), now)
  {
    var after := s.(acts := DeactivateAll(s.acts, lid, now));
    assert RowsOk(after);
    assert ShapesOk(after);
    forall l | l in s.quotas ensures |Occupants(after, l, now)| <= Budget(s.quotas[l]) {
      SmallerSet(Occupants(after, l, now), Occupants(s, l, now));
    }
  }

  /** Stopping a license's installations and changing its owner or rebinds. */
  lemma ClearedKeeps(s: Site, lid: Id, q: Quota, now: Time)
    requires SiteOk(s, now) && lid in s.quotas
    requires q == s.quotas[lid].(owner := q.owner, rebindsUsed := q.rebindsUsed, lastRebindAt := q.lastRebindAt)
    ensures SiteOk(s.(acts := DeactivateAll(s.acts, lid, now), quotas := s.quotas[lid := q]), now)
  {
    DeactivateAllKeeps(s, lid, now);
    LicenseChangeKeeps(s.(acts := DeactivateAll(s.acts, lid, now)), s.quotas[lid := q], now);
  }

  /** The bounds of a quota, and what is recorded of it. */
  lemma AddLicenseIff(s: Site, lid: Id, q: Quota)
    ensures AddLicense(s, lid, q).Ok? <==>
      && lid !in s.quotas && 1 <= q.maxActivations <= 1000 && 0 <= q.maxSeats <= 10000
      && (q.floating ==> 1 <= q.maxSeats)
      && -1 <= q.rebindLimit <= 10000 && 0 <= q.cooldownSeconds <= 3650 * 24 * 60 * 60
    ensures AddLicense(s, lid, q).Ok? ==>
      AddLicense(s, lid, q).value == s.(quotas := s.quotas[lid := q.(rebindsUsed := 0, lastRebindAt := None)])
  {}

  lemma AddLicenseKeeps(s: Site, lid: Id, q: Quota, now: Time)
    requires SiteOk(s, now) && AddLicense(s, lid, q).Ok?
    ensures SiteOk(AddLicense(s, lid, q).value, now)
  {
    var after := AddLicense(s, lid, q).value;
    assert RowsOk(after);
    assert ShapesOk(after);
    forall l | l in after.quotas ensures |Occupants(after, l, now)| <= Budget(after.quotas[l]) {
      assert Occupants(after, l, now) == Occupants(s, l, now);
      if l == lid { assert Occupants(s, l, now) == {}; }
    }
  }

  /** No transaction oversells a license. */
  lemma NextKeepsSite(s: Site, step: Step, clock: Time, now: Time)
    requires SiteOk(s, clock) && clock <= now
    ensures SiteOk(Next(s, step, now), now)
  {
    TimeFrees(s, clock, now);
    if Transact(s, step, now).Ok? {
      match step
      case DoAddLicense(lid, q) => AddLicenseKeeps(s, lid, q, now);
      case DoActivate(lid, key, session, borrow, newId, admitted, p, deadline) =>
        ActivateKeeps(s, lid, key, session, borrow, newId, admitted, p, deadline, now);
      case DoVerify(id, admitted, p, deadline) => VerifyKeeps(s, id, admitted, p, deadline, now);
      case DoRelease(id) =>
        RowChangeKeeps(s, id, s.acts[id].(standing := Stopped(now, ClientRelease), lease := None, borrowed := false),
          now);
      case DoDeactivate(id, reason) => RowChangeKeeps(s, id, s.acts[id].(standing := Stopped(now, reason)), now);
      case DoRebind(lid, _, _) => ClearedKeeps(s, lid, Rebound(s.quotas[lid], now), now);
      case DoAssignOwner(lid, user, _) =>
        ClearedKeeps(s, lid, s.quotas[lid].(owner := user), now);
        LicenseChangeKeeps(s, s.quotas[lid := s.quotas[lid].(owner := user)], now);
      case DoClaimLicense(lid, user, _) => LicenseChangeKeeps(s, s.quotas[lid := s.quotas[lid].(owner := user)], now);
    }
  }

  // ---------- runs ----------

  function Run(steps: seq<(Step, Time)>): Site {
    if steps == [] then Site(map[], map[], [])
    else Next(Run(steps[..|steps| - 1]), steps[|steps| - 1].0, steps[|steps| - 1].1)
  }

  ghost predicate ClockForward(steps: seq<(Step, Time)>) {
    forall i, j :: 0 <= i <= j < |steps| ==> steps[i].1 <= steps[j].1
  }

  lemma {:induction false} RunOk(steps: seq<(Step, Time)>, now: Time)
    requires ClockForward(steps) && (steps != [] ==> steps[|steps| - 1].1 <= now)
    ensures SiteOk(Run(steps), now)
  {
    if steps != [] {
      var init, last := steps[..|steps| - 1], steps[|steps| - 1];
      RunOk(init, last.1);
      NextKeepsSite(Run(init), last.0, last.1, last.1);
      TimeFrees(Run(steps), last.1, now);
    }
  }

  ghost function LiveLeases(s: Site, lid: Id, t: Time): set<Id> {
    set x | x in s.acts && s.acts[x].license == lid && s.acts[x].standing.Running? && LeaseLive(s.acts[x], t)
  }

  ghost function NotDeactivated(s: Site, lid: Id): set<Id> {
    set x | x in s.acts && s.acts[x].license == lid && s.acts[x].standing.Running?
  }

  /** At every instant of every run a floating license has at most `MaxSeats` live leases and any other
      license at most `MaxActivations` installations that are not deactivated. */
  lemma SeatsNeverOversold(steps: seq<(Step, Time)>, now: Time, lid: Id)
    requires ClockForward(steps) && (steps != [] ==> steps[|steps| - 1].1 <= now)
    requires lid in Run(steps).quotas
    ensures var q := Run(steps).quotas[lid];
      if q.floating then |LiveLeases(Run(steps), lid, now)| <= q.maxSeats
      else |NotDeactivated(Run(steps), lid)| <= q.maxActivations
  {
    RunOk(steps, now);
    var s := Run(steps);
    SmallerSet(LiveLeases(s, lid, now), Occupants(s, lid, now));
    if !s.quotas[lid].floating {
      assert NotDeactivated(s, lid) == Occupants(s, lid, now);
    }
  }

  // ---------- borrowed seats ----------

  predicate Reborrows(step: Step, a: Activation) {
    step.DoActivate? && Own(a, step.lid, step.key, step.session) && step.borrow != 0
  }

  lemma FindOwnIs(s: Site, x: Id)
    requires RowsOk(s) && x in s.acts
    ensures FindOwn(s.rows, s.acts, s.acts[x].license, s.acts[x].key, s.acts[x].session) == Some(x)
  {}

  lemma HeldBlocks(s: Site, x: Id, now: Time)
    requires RowsOk(s) && x in s.acts && s.acts[x].standing.Running? && LiveBorrow(s.acts[x], now)
    ensures |HeldRows(s, s.acts[x].license, now)| > 0
  {
    assert x in HeldRows(s, s.acts[x].license, now);
  }

  lemma ActivateKeepsBorrow(s: Site, step: Step, now: Time, x: Id)
    requires SiteOk(s, now) && x in s.acts && s.acts[x].standing.Running? && LiveBorrow(s.acts[x], now)
      && step.DoActivate?
    ensures x in Next(s, step, now).acts
    ensures !Reborrows(step, s.acts[x]) ==> Next(s, step, now).acts[x] == s.acts[x]
    ensures Next(s, step, now).acts[x].standing.Running? && LiveBorrow(Next(s, step, now).acts[x], now)
  {
    if Transact(s, step, now).Ok? {
      var q, found := s.quotas[step.lid], FindOwn(s.rows, s.acts, step.lid, step.key, step.session);
      var id := if found.Some? then found.value else step.newId;
      FindOwnIs(s, x);
      if id == x && q.floating { ExtendLeaseGives(step.policy, step.deadline, s.acts[x], step.borrow, now); }
    }
  }

  /** While a borrowed lease is recorded as live, no transaction frees the seat or moves its end; only a
      new borrow by the same installation session replaces it, by another live borrowed lease. */
  lemma NextKeepsBorrow(s: Site, step: Step, clock: Time, now: Time, x: Id)
    requires SiteOk(s, clock) && clock <= now
    requires x in s.acts && s.acts[x].standing.Running? && LiveBorrow(s.acts[x], now)
    ensures x in Next(s, step, now).acts
    ensures !Reborrows(step, s.acts[x]) ==> Next(s, step, now).acts[x] == s.acts[x]
    ensures Next(s, step, now).acts[x].standing.Running? && LiveBorrow(Next(s, step, now).acts[x], now)
  {
    TimeFrees(s, clock, now);
    HeldBlocks(s, x, now);
    if step.DoActivate? {
      ActivateKeepsBorrow(s, step, now, x);
    } else {
      OthersKeepBorrow(s, step, now, x);
    }
  }

  lemma OthersKeepBorrow(s: Site, step: Step, now: Time, x: Id)
    requires x in s.acts && s.acts[x].standing.Running? && LiveBorrow(s.acts[x], now) && !step.DoActivate?
    requires |HeldRows(s, s.acts[x].license, now)| > 0
    ensures x in Next(s, step, now).acts && Next(s, step, now).acts[x] == s.acts[x]
  {
    match step
    case DoVerify(id, admitted, p, deadline) =>
    case DoRelease(id) =>
    case DoDeactivate(id, reason) =>
    case DoRebind(lid, _, _) =>
    case DoAssignOwner(lid, _, _) =>
    case DoAddLicense(_, _) =>
    case DoClaimLicense(_, _, _) =>
  }

  /** Over a run: a seat borrowed until `end` is untouched by everything that happens before `end`,
      short of a new borrow by the same session. */
  lemma {:induction false} BorrowOutlastsRuns(steps: seq<(Step, Time)>, n: nat, x: Id)
    requires ClockForward(steps) && n < |steps| && x in Run(steps[..n]).acts
    requires var a := Run(steps[..n]).acts[x];
      a.standing.Running? && a.borrowed && LeaseLive(a, steps[|steps| - 1].1)
    requires forall i :: n <= i < |steps| ==> !Reborrows(steps[i].0, Run(steps[..n]).acts[x])
    ensures x in Run(steps).acts && Run(steps).acts[x] == Run(steps[..n]).acts[x]
  {
    var init, last := steps[..|steps| - 1], steps[|steps| - 1];
    assert init[..n] == steps[..n];
    if n < |init| {
      assert steps[|init| - 1].1 <= last.1;
      BorrowOutlastsRuns(init, n, x);
    } else {
      assert init == steps[..n];
    }
    RunOk(init, last.1);
    NextKeepsBorrow(Run(init), last.0, last.1, last.1, x);
  }

  // ---------- owners ----------

  /** A license's owner is replaced only by an allowed transfer, which leaves no installation running and no
      borrowed seat behind. */
  lemma OwnerReplacedOnlyByTransfer(s: Site, step: Step, clock: Time, now: Time, lid: Id)
    requires SiteOk(s, clock) && clock <= now && lid in s.quotas && s.quotas[lid].owner != ""
    ensures lid in Next(s, step, now).quotas
    ensures Next(s, step, now).quotas[lid].owner != s.quotas[lid].owner ==>
      && step.DoAssignOwner? && step.lid == lid && step.transferAllowed
         && Next(s, step, now).quotas[lid].owner == step.user
      && NotDeactivated(Next(s, step, now), lid) == {}
      && forall x :: x in s.acts && s.acts[x].license == lid && s.acts[x].standing.Running? ==>
         !LiveBorrow(s.acts[x], now)
  {
    forall x | x in s.acts && s.acts[x].license == lid && s.acts[x].standing.Running? && LiveBorrow(s.acts[x], now)
      ensures |HeldRows(s, lid, now)| > 0
    {
      HeldBlocks(s, x, now);
    }
  }

  // ---------- a customer's own rebinds ----------

  /** Step `i` of a run rebound the license. */
  predicate Rebinds(steps: seq<(Step, Time)>, i: nat, lid: Id)
    requires i < |steps|
  {
    steps[i].0.DoRebind? && steps[i].0.lid == lid && Transact(Run(steps[..i]), steps[i].0, steps[i].1).Ok?
  }

  function RebindCount(steps: seq<(Step, Time)>, lid: Id): nat {
    if steps == [] then 0
    else RebindCount(steps[..|steps| - 1], lid) + if Rebinds(steps, |steps| - 1, lid) then 1 else 0
  }

  /** The license row counts the rebinds and has the time of the last; its terms are as they were. */
  lemma NextCountsRebinds(s: Site, step: Step, now: Time, lid: Id)
    ensures lid in s.quotas ==>
      && lid in Next(s, step, now).quotas
      && var (q, r) := (s.quotas[lid], Next(s, step, now).quotas[lid]);
         && r == q.(owner := r.owner, rebindsUsed := r.rebindsUsed, lastRebindAt := r.lastRebindAt)
         && if step.DoRebind? && step.lid == lid && Transact(s, step, now).Ok?
            then r.rebindsUsed == q.rebindsUsed + 1 && r.lastRebindAt == Some(now)
            else r.rebindsUsed == q.rebindsUsed && r.lastRebindAt == q.lastRebindAt
    ensures lid !in s.quotas ==>
      && !(step.DoRebind? && step.lid == lid && Transact(s, step, now).Ok?)
      && (lid in Next(s, step, now).quotas ==> Next(s, step, now).quotas[lid].rebindsUsed == 0)
  {}

  lemma {:induction false} RunCountsRebinds(steps: seq<(Step, Time)>, lid: Id)
    requires ClockForward(steps)
    ensures if lid in Run(steps).quotas then Run(steps).quotas[lid].rebindsUsed == RebindCount(steps, lid)
            else RebindCount(steps, lid) == 0
    ensures forall i :: 0 <= i < |steps| && Rebinds(steps, i, lid) ==>
      && lid in Run(steps).quotas && Run(steps).quotas[lid].lastRebindAt.Some?
      && steps[i].1 <= Run(steps).quotas[lid].lastRebindAt.value
  {
    if steps != [] {
      var n := |steps| - 1;
      var init := steps[..n];
      RunCountsRebinds(init, lid);
      NextCountsRebinds(Run(init), steps[n].0, steps[n].1, lid);
      forall i | 0 <= i < n && Rebinds(steps, i, lid) ensures Rebinds(init, i, lid) { assert init[..i] == steps[..i]; }
    }
  }

  /** In every run a customer rebinds only its own license, only while its terms allow that at all, less often than
      they allow, and not before the cooldown since every earlier rebind has passed. */
  lemma SelfRebindsLimited(steps: seq<(Step, Time)>, n: nat, lid: Id)
    requires ClockForward(steps) && n < |steps| && Rebinds(steps, n, lid) && steps[n].0.customer.Some?
    ensures lid in Run(steps[..n]).quotas
    ensures var q := Run(steps[..n]).quotas[lid];
      && q.owner == steps[n].0.customer.value && q.rebindLimit != 0
      && (q.rebindLimit > 0 ==> RebindCount(steps[..n], lid) < q.rebindLimit)
      && forall m :: 0 <= m < n && Rebinds(steps, m, lid) ==> steps[n].1 >= steps[m].1 + Seconds(q.cooldownSeconds)
  {
    var init := steps[..n];
    RunCountsRebinds(init, lid);
    forall m | 0 <= m < n && Rebinds(steps, m, lid) ensures Rebinds(init, m, lid) { assert init[..m] == steps[..m]; }
  }

  // ---------- the service ----------

  class SeatDesk {
    var quotas: map<Id, Quota>
    var acts: map<Id, Activation>
    var rows: seq<Id>

    function Snapshot(): Site
      reads this
    {
      Site(quotas, acts, rows)
    }

    method CountOthers(active: seq<Id>, id: Id) returns (others: nat)
      ensures others == Others(active, id)
    {
      others := 0;
      var i := 0;
      while i < |active|
        invariant 0 <= i <= |active| && others == Others(active[..i], id)
      {
        assert active[..i + 1][..i] == active[..i];
        if active[i] != id { others := others + 1; }
        i := i + 1;
      }
      assert active[..|active|] == active;
    }

    /** Extend a lease from now on, by the borrow or the policy, up to the deadline. */
    static method Extend(p: Leasing, deadline: Option<Time>, before: Activation, borrow: int, now: Time)
        returns (r: Outcome<Activation>)
      ensures r == ExtendLease(p, deadline, before, borrow, now)
    {
      var a, duration := before.(borrowed := false), p.leaseSeconds;
      if borrow != 0 {
        if borrow < 1 || p.maxBorrowSeconds == 0 || borrow > p.maxBorrowSeconds { return Err("INVALID_REQUEST"); }
        duration := borrow;
        a := a.(borrowed := true);
      }
      var until := now + Seconds(duration);
      if deadline.Some? && deadline.value < until { until := deadline.value; }
      if now >= until { return Err("LICENSE_EXPIRED"); }
      return Ok(a.(lease := Some(until)));
    }

    method Activate(lid: Id, key: string, session: string, borrow: int, newId: Id, admitted: bool,
                    p: Leasing, deadline: Option<Time>, now: Time) returns (ok: bool)
      modifies `acts, `rows
      ensures var after := Transact(old(Snapshot()),
        DoActivate(lid, key, session, borrow, newId, admitted, p, deadline), now);
        Snapshot() == Commit(old(Snapshot()), after) && ok == after.Ok?
    {
      if lid !in quotas || !admitted { return false; }
      var found := FindOwn(rows, acts, lid, key, session);
      var id, a := newId, Activation(lid, key, session, Running, None, false);
      if found.Some? { id, a := found.value, acts[found.value]; }
      var active := ActiveRows(Snapshot(), lid, now);
      var others := CountOthers(active[..Min(FIND_LIMIT, |active|)], id);
      if quotas[lid].floating {
        if others >= quotas[lid].maxSeats { return false; }
        if a.borrowed && a.lease.Some? && now < a.lease.value && borrow == 0 { return false; }
        var extended := Extend(p, deadline, a, borrow, now);
        if extended.Err? { return false; }
        a := extended.value;
      } else {
        if others >= quotas[lid].maxActivations { return false; }
      }
      a := a.(standing := Running);
      if found.None? {
        if id in acts { return false; }
        rows := [id] + rows;
      }
      acts := acts[id := a];
      return true;
    }

    method Verify(id: Id, admitted: bool, p: Leasing, deadline: Option<Time>, now: Time) returns (ok: bool)
      modifies `acts
      ensures var after := Transact(old(Snapshot()), DoVerify(id, admitted, p, deadline), now);
        Snapshot() == Commit(old(Snapshot()), after) && ok == after.Ok?
    {
      if id !in acts || acts[id].license !in quotas { return false; }
      var a, q := acts[id], quotas[acts[id].license];
      var reacquiring := a.standing.Stopped?;
      if reacquiring && a.standing.reason != ClientRelease { return false; }
      if reacquiring { a := a.(standing := Running, lease := None, borrowed := false); }
      if !admitted { return false; }
      if reacquiring && !q.floating {
        var count := |ActiveRows(Snapshot(), a.license, now)|;
        if count >= q.maxActivations { return false; }
      }
      if q.floating && !(a.borrowed && a.lease.Some? && now < a.lease.value) {
        var count := |LeasedRows(Snapshot(), a.license, now)|;
        var own := a.lease.Some? && now < a.lease.value;
        if !own && count >= q.maxSeats { return false; }
        var extended := Extend(p, deadline, a, 0, now);
        if extended.Err? { return false; }
        a := extended.value;
      }
      acts := acts[id := a];
      return true;
    }

    method Release(id: Id, now: Time) returns (ok: bool)
      modifies `acts
      ensures var after := Transact(old(Snapshot()), DoRelease(id), now);
        Snapshot() == Commit(old(Snapshot()), after) && ok == after.Ok?
    {
      if id !in acts { return false; }
      var a := acts[id];
      if a.standing.Stopped? && a.standing.reason != ClientRelease { return false; }
      if a.borrowed && a.lease.Some? && now < a.lease.value { return false; }
      a := a.(standing := Stopped(now, ClientRelease));
      a := a.(lease := None, borrowed := false);
      acts := acts[id := a];
      return true;
    }

    method Deactivate(id: Id, reason: Reason, now: Time) returns (ok: bool)
      modifies `acts
      ensures var after := Transact(old(Snapshot()), DoDeactivate(id, reason), now);
        Snapshot() == Commit(old(Snapshot()), after) && ok == after.Ok?
    {
      if id !in acts { return false; }
      if acts[id].borrowed && acts[id].lease.Some? && now < acts[id].lease.value { return false; }
      acts := acts[id := acts[id].(standing := Stopped(now, reason))];
      return true;
    }

    method Rebind(lid: Id, customer: Option<string>, admitted: bool, now: Time) returns (ok: bool)
      modifies `acts, `quotas
      ensures var after := Transact(old(Snapshot()), DoRebind(lid, customer, admitted), now);
        Snapshot() == Commit(old(Snapshot()), after) && ok == after.Ok?
    {
      if lid !in quotas { return false; }
      var q := quotas[lid];
      if customer.Some? && q.owner != customer.value { return false; }
      if !admitted { return false; }
      if customer.Some? {
        if q.rebindLimit == 0 || (q.rebindLimit > 0 && q.rebindsUsed >= q.rebindLimit) { return false; }
        if q.lastRebindAt.Some? && now < q.lastRebindAt.value + Seconds(q.cooldownSeconds) { return false; }
      }
      var held := |HeldRows(Snapshot(), lid, now)|;
      if held > 0 { return false; }
      acts := DeactivateAll(acts, lid, now);
      q := q.(rebindsUsed := q.rebindsUsed + 1);
      q := q.(lastRebindAt := Some(now));
      quotas := quotas[lid := q];
      return true;
    }

    method ClaimLicense(lid: Id, user: string, card: Option<ClaimCard>, now: Time) returns (ok: bool)
      modifies `quotas
      ensures var after := Transact(old(Snapshot()), DoClaimLicense(lid, user, card), now);
        Snapshot() == Commit(old(Snapshot()), after) && ok == after.Ok?
    {
      if card.None? || !card.value.activates || card.value.revoked { return false; }
      if card.value.redeemUntil.Some? && now >= card.value.redeemUntil.value { return false; }
      if lid !in quotas { return false; }
      var q := quotas[lid];
      if q.owner != "" && q.owner != user { return false; }
      if q.owner == user {
        assert quotas[lid := q.(owner := user)] == quotas;
        return true;
      }
      quotas := quotas[lid := q.(owner := user)];
      return true;
    }

    method AssignOwner(lid: Id, user: string, transferAllowed: bool, now: Time) returns (ok: bool)
      modifies `acts, `quotas
      ensures var after := Transact(old(Snapshot()), DoAssignOwner(lid, user, transferAllowed), now);
        Snapshot() == Commit(old(Snapshot()), after) && ok == after.Ok?
    {
      if user == "" || lid !in quotas { return false; }
      var q := quotas[lid];
      if q.owner != "" && q.owner != user {
        if !transferAllowed { return false; }
        var held := |HeldRows(Snapshot(), lid, now)|;
        if held > 0 { return false; }
        acts := DeactivateAll(acts, lid, now);
      }
      quotas := quotas[lid := q.(owner := user)];
      return true;
    }
  }
}
