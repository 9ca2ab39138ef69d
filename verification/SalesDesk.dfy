/** The sales service as it runs: transactions that read, change and save rows one at a time, each
    proved to leave exactly the tables its specification gives, or the tables as they were. */
module SalesDesk {
  import opened Basics
  import opened Ledger
  import opened Money
  import opened SalesModel
  import opened SalesInvariants
  import opened SalesHistory
  import opened SalesRefunds

  function Refusal(r: Outcome<Db>): Option<string> { if r.Err? then Some(r.code) else None }

  /** One page of a paged query. */
  function Page<T>(rows: seq<T>, limit: nat, offset: nat): (page: seq<T>) {
    rows[Min(offset, |rows|)..Min(offset + limit, |rows|)]
  }

  // ---------- one more unit of an order ----------

  predicate NewTag(db: Db, o: Order, tags: seq<Tag>, i: nat)
    requires i < |tags|
  {
    && tags[i].license !in db.licenses && (forall j :: 0 <= j < i ==> tags[j].license != tags[i].license)
    && (o.distribute ==>
          && tags[i].card !in db.cards && !HashTaken(db.cards, tags[i].keyHash)
          && forall j :: 0 <= j < i ==> tags[j].card != tags[i].card && tags[j].keyHash != tags[i].keyHash)
  }

  lemma InsertableStep(db: Db, o: Order, tags: seq<Tag>, i: nat)
    requires i < |tags| && Insertable(db, o, tags[..i])
    ensures Insertable(db, o, tags[..i + 1]) <==> NewTag(db, o, tags, i)
    ensures Insertable(db, o, tags) ==> Insertable(db, o, tags[..i + 1])
  {
    var t := tags[..i + 1];
    assert forall j :: 0 <= j < i ==> t[j] == tags[..i][j];
    assert t[i] == tags[i];
  }

  lemma IdsStep(tags: seq<Tag>, i: nat)
    requires i < |tags|
    ensures LicenseIds(tags[..i + 1]) == LicenseIds(tags[..i]) + [tags[i].license]
    ensures CardIds(tags[..i + 1]) == CardIds(tags[..i]) + [tags[i].card]
  {
    assert tags[..i + 1][..i] == tags[..i];
  }

  lemma LicenseRowsStep(oid: Id, o: Order, tags: seq<Tag>, i: nat, now: Time)
    requires i < |tags|
    ensures LicenseRows(oid, o, LicenseIds(tags[..i + 1]), now)
      == LicenseRows(oid, o, LicenseIds(tags[..i]), now)[tags[i].license := NewLicense(oid, o, now)]
    ensures forall x :: x in LicenseRows(oid, o, LicenseIds(tags[..i]), now) <==>
      exists j :: 0 <= j < i && tags[j].license == x
  {
    IdsStep(tags, i);
    var ids := LicenseIds(tags[..i]);
    forall x ensures x in ids <==> exists j :: 0 <= j < i && tags[j].license == x {
      if j :| 0 <= j < i && tags[j].license == x { assert ids[j] == x; }
    }
  }

  lemma HashTakenInEither(a: map<Id, Card>, b: map<Id, Card>, hash: string)
    requires forall c :: c in b ==> c !in a
    ensures HashTaken(a + b, hash) <==> HashTaken(a, hash) || HashTaken(b, hash)
  {
    if c :| c in a && a[c].keyHash == hash { assert (a + b)[c].keyHash == hash; }
    if c :| c in b && b[c].keyHash == hash { assert (a + b)[c].keyHash == hash; }
  }

  lemma IssuedHashTaken(o: Order, tags: seq<Tag>, hash: string)
    requires forall i, j :: 0 <= i < j < |tags| ==> tags[i].card != tags[j].card
    ensures HashTaken(IssuedCards(o, tags), hash) <==> exists j :: 0 <= j < |tags| && tags[j].keyHash == hash
  {
    IssuedCardsAre(o, tags);
    if j :| 0 <= j < |tags| && tags[j].keyHash == hash { assert IssuedCards(o, tags)[tags[j].card].keyHash == hash; }
  }

  lemma CardRowsStep(db: Db, o: Order, tags: seq<Tag>, i: nat)
    requires i < |tags| && o.distribute && Insertable(db, o, tags[..i])
    ensures var cards := db.cards + IssuedCards(o, tags[..i]);
      && (tags[i].card in cards <==> tags[i].card in db.cards || exists j :: 0 <= j < i && tags[j].card == tags[i].card)
      && (HashTaken(cards, tags[i].keyHash) <==>
            HashTaken(db.cards, tags[i].keyHash) || exists j :: 0 <= j < i && tags[j].keyHash == tags[i].keyHash)
  {
    var t := tags[..i];
    assert forall j :: 0 <= j < i ==> t[j] == tags[j];
    IssuedCardsAre(o, t);
    IssuedHashTaken(o, t, tags[i].keyHash);
    HashTakenInEither(db.cards, IssuedCards(o, t), tags[i].keyHash);
    if j :| 0 <= j < i && tags[j].card == tags[i].card { assert t[j].card in IssuedCards(o, t); }
  }

  predicate Room(licenses: map<Id, License>, cards: map<Id, Card>, o: Order, tag: Tag) {
    tag.license !in licenses && (o.distribute ==> tag.card !in cards && !HashTaken(cards, tag.keyHash))
  }

  function CardsSoFar(db: Db, o: Order, tags: seq<Tag>): map<Id, Card> {
    if o.distribute then db.cards + IssuedCards(o, tags) else db.cards
  }

  function LicensesSoFar(db: Db, oid: Id, o: Order, tags: seq<Tag>, now: Time): map<Id, License> {
    db.licenses + LicenseRows(oid, o, LicenseIds(tags), now)
  }

  lemma LicenseRoom(db: Db, oid: Id, o: Order, tags: seq<Tag>, i: nat, now: Time)
    requires i < |tags|
    ensures tags[i].license !in LicensesSoFar(db, oid, o, tags[..i], now)
      <==> tags[i].license !in db.licenses && forall j :: 0 <= j < i ==> tags[j].license != tags[i].license
  {
    LicenseRowsStep(oid, o, tags, i, now);
  }

  /** Inserting unit `i` succeeds exactly when the first `i + 1` units fit. */
  lemma RoomForUnit(db: Db, oid: Id, o: Order, tags: seq<Tag>, i: nat, now: Time)
    requires i < |tags| && Insertable(db, o, tags[..i])
    ensures Insertable(db, o, tags) ==> Insertable(db, o, tags[..i + 1])
    ensures Room(LicensesSoFar(db, oid, o, tags[..i], now), CardsSoFar(db, o, tags[..i]), o, tags[i])
      <==> Insertable(db, o, tags[..i + 1])
  {
    InsertableStep(db, o, tags, i);
    LicenseRoom(db, oid, o, tags, i, now);
    if o.distribute { CardRowsStep(db, o, tags, i); }
  }

  lemma PlusUpdate<T>(a: map<Id, T>, b: map<Id, T>, k: Id, v: T)
    ensures a + b[k := v] == (a + b)[k := v]
  {}

  /** The rows unit `i` adds. */
  lemma UnitRows(db: Db, oid: Id, o: Order, tags: seq<Tag>, i: nat, now: Time)
    requires i < |tags|
    ensures LicensesSoFar(db, oid, o, tags[..i + 1], now)
      == LicensesSoFar(db, oid, o, tags[..i], now)[tags[i].license := NewLicense(oid, o, now)]
    ensures o.distribute ==>
      CardsSoFar(db, o, tags[..i + 1]) == CardsSoFar(db, o, tags[..i])[tags[i].card := NewCard(o, tags[i])]
  {
    LicenseRowsStep(oid, o, tags, i, now);
    assert tags[..i + 1][..i] == tags[..i];
    PlusUpdate(db.licenses, LicenseRows(oid, o, LicenseIds(tags[..i]), now), tags[i].license, NewLicense(oid, o, now));
    PlusUpdate(db.cards, IssuedCards(o, tags[..i]), tags[i].card, NewCard(o, tags[i]));
  }

  /** The tables with the first `i` units of an order inserted. */
  ghost predicate UnitsIn(db: Db, oid: Id, o: Order, tags: seq<Tag>, i: nat, now: Time, after: Db, ids: seq<Id>) {
    && i <= |tags| && Insertable(db, o, tags[..i]) && ids == LicenseIds(tags[..i])
    && after.licenses == LicensesSoFar(db, oid, o, tags[..i], now)
    && after.cards == CardsSoFar(db, o, tags[..i])
    && after.cardRows == if o.distribute then db.cardRows + CardIds(tags[..i]) else db.cardRows
  }

  /** The tables after the rows of one unit. */
  ghost predicate UnitAdded(before: Db, after: Db, oid: Id, o: Order, tag: Tag, now: Time) {
    && after.licenses == before.licenses[tag.license := NewLicense(oid, o, now)]
    && after.cards == (if o.distribute then before.cards[tag.card := NewCard(o, tag)] else before.cards)
    && after.cardRows == (if o.distribute then before.cardRows + [tag.card] else before.cardRows)
  }

  lemma NoUnits(db: Db, oid: Id, o: Order, tags: seq<Tag>, now: Time)
    ensures UnitsIn(db, oid, o, tags, 0, now, db, [])
  {
    assert tags[..0] == [];
    assert db.licenses + LicenseRows(oid, o, [], now) == db.licenses;
  }

  lemma NextUnit(db: Db, oid: Id, o: Order, tags: seq<Tag>, i: nat, now: Time, mid: Db, after: Db, ids: seq<Id>)
    requires i < |tags| && UnitsIn(db, oid, o, tags, i, now, mid, ids)
    ensures !Room(mid.licenses, mid.cards, o, tags[i]) ==> !Insertable(db, o, tags)
    ensures Room(mid.licenses, mid.cards, o, tags[i]) && UnitAdded(mid, after, oid, o, tags[i], now)
      ==> UnitsIn(db, oid, o, tags, i + 1, now, after, ids + [tags[i].license])
  {
    RoomForUnit(db, oid, o, tags, i, now);
    if Room(mid.licenses, mid.cards, o, tags[i]) && UnitAdded(mid, after, oid, o, tags[i], now) {
      AddedRows(db, oid, o, tags, i, now, mid, after, ids);
    }
  }

  lemma AddedRows(db: Db, oid: Id, o: Order, tags: seq<Tag>, i: nat, now: Time, mid: Db, after: Db, ids: seq<Id>)
    requires i < |tags| && UnitsIn(db, oid, o, tags, i, now, mid, ids) && UnitAdded(mid, after, oid, o, tags[i], now)
    requires Insertable(db, o, tags[..i + 1])
    ensures UnitsIn(db, oid, o, tags, i + 1, now, after, ids + [tags[i].license])
  {
    UnitRows(db, oid, o, tags, i, now);
    IdsStep(tags, i);
    if o.distribute { AppendedRow(db.cardRows, CardIds(tags[..i]), tags[i].card); }
  }

  lemma AppendedRow(rows: seq<Id>, ids: seq<Id>, id: Id)
    ensures rows + ids + [id] == rows + (ids + [id])
  {}

  lemma AllUnits(db: Db, oid: Id, o: Order, tags: seq<Tag>, now: Time, after: Db, ids: seq<Id>)
    requires UnitsIn(db, oid, o, tags, |tags|, now, after, ids)
    ensures Insertable(db, o, tags) && ids == LicenseIds(tags)
    ensures after.licenses == LicensesSoFar(db, oid, o, tags, now) && after.cards == CardsSoFar(db, o, tags)
    ensures after.cardRows == if o.distribute then db.cardRows + CardIds(tags) else db.cardRows
  {
    assert tags[..|tags|] == tags;
  }

  // ---------- the service ----------

  class Desk {
    var app: App
    var plans: map<Id, Plan>
    var licenses: map<Id, License>
    var cards: map<Id, Card>
    var cardRows: seq<Id>
    var orders: map<Id, Order>
    var receipts: map<(Id, string), Receipt>
    var books: Books

    function Snapshot(): Db
      reads this
    {
      Db(app, plans, licenses, cards, cardRows, orders, receipts, books)
    }

    /** Roll the transaction back. */
    method Restore(saved: Db)
      modifies this
      ensures Snapshot() == saved
    {
      app, plans, licenses, cards := saved.app, saved.plans, saved.licenses, saved.cards;
      cardRows, orders, receipts, books := saved.cardRows, saved.orders, saved.receipts, saved.books;
    }

    // ---------- issuing ----------

    /** Insert the license row and the card row of one unit, unless a key is taken. */
    method InsertUnit(oid: Id, o: Order, tag: Tag, now: Time) returns (ok: bool)
      modifies `licenses, `cards, `cardRows
      ensures ok == Room(old(licenses), old(cards), o, tag)
      ensures ok ==> UnitAdded(old(Snapshot()), Snapshot(), oid, o, tag, now)
    {
      var l := License(o.plan, oid, Active, o.terms.model, o.terms.renewalTargets, o.purpose != Activate, false,
        FreshDates(o.terms));
      if !l.renewalOnly && o.terms.startsOnIssue { l := l.(dates := Start(l.dates, now)); }
      if tag.license in licenses { return false; }
      licenses := licenses[tag.license := l];
      if o.distribute {
        if tag.card in cards || HashTaken(cards, tag.keyHash) { return false; }
        cards := cards[tag.card := NewCard(o, tag)];
        cardRows := cardRows + [tag.card];
      }
      return true;
    }

    /** Insert the license and card rows of an order; fails on the first key already taken. */
    method InsertUnits(oid: Id, o: Order, tags: seq<Tag>, now: Time) returns (ok: bool, ids: seq<Id>)
      modifies `licenses, `cards, `cardRows
      ensures ok <==> Insertable(old(Snapshot()), o, tags)
      ensures ok ==>
        && ids == LicenseIds(tags)
        && licenses == LicensesSoFar(old(Snapshot()), oid, o, tags, now)
        && cards == CardsSoFar(old(Snapshot()), o, tags)
        && cardRows == (if o.distribute then old(cardRows) + CardIds(tags) else old(cardRows))
    {
      ghost var before := Snapshot();
      NoUnits(before, oid, o, tags, now);
      ids := [];
      var i := 0;
      while i < |tags|
        invariant UnitsIn(before, oid, o, tags, i, now, Snapshot(), ids)
      {
        ghost var mid := Snapshot();
        ok := InsertUnit(oid, o, tags[i], now);
        NextUnit(before, oid, o, tags, i, now, mid, Snapshot(), ids);
        if !ok { return; }
        ids := ids + [tags[i].license];
        i := i + 1;
      }
      AllUnits(before, oid, o, tags, now, Snapshot(), ids);
      ok := true;
    }

    method IssueOrder(oid: Id, tags: seq<Tag>, now: Time) returns (code: Option<string>)
      requires oid in orders && |tags| == orders[oid].quantity
      modifies this
      ensures Snapshot() == Commit(old(Snapshot()), SalesModel.IssueOrder(old(Snapshot()), oid, tags, now))
      ensures code == Refusal(SalesModel.IssueOrder(old(Snapshot()), oid, tags, now))
    {
      var saved, o := Snapshot(), orders[oid];
      if o.status != Pending { return Some("ORDER_ALREADY_CONFIRMED"); }
      if !app.active { return Some("APPLICATION_DISABLED"); }
      if NormalizeTerms(app, o.terms).Err? { return Some("INVALID_REQUEST"); }
      if o.redeemUntil.Some? && now >= o.redeemUntil.value { return Some("INVALID_REQUEST"); }
      var ok, ids := InsertUnits(oid, o, tags, now);
      if !ok {
        Restore(saved);
        return Some("UNIQUE_VIOLATION");
      }
      orders := orders[oid := Confirm(o, ids)];
      return None;
    }

    method CreateSale(oid: Id, s: Sale, custom: Option<Terms>, confirmed: bool, tags: seq<Tag>, now: Time)
        returns (code: Option<string>)
      requires |tags| == s.quantity
      modifies this
      ensures Snapshot() == Commit(old(Snapshot()),
        SalesModel.CreateSale(old(Snapshot()), oid, s, custom, confirmed, tags, now))
      ensures code == Refusal(SalesModel.CreateSale(old(Snapshot()), oid, s, custom, confirmed, tags, now))
    {
      if !ValidSale(s) { return Some("INVALID_REQUEST"); }
      if confirmed && Blank(s.reason) { return Some("INVALID_REQUEST"); }
      if s.plan !in plans { return Some("NOT_FOUND"); }
      if !plans[s.plan].enabled { return Some("PLAN_DISABLED"); }
      var terms := NormalizeTerms(app, if custom.Some? then custom.value else plans[s.plan].terms);
      if terms.Err? { return Some(terms.code); }
      if oid in orders { return Some("UNIQUE_VIOLATION"); }
      var saved := Snapshot();
      orders := orders[oid := PendingOrder(s, terms.value, None, 0, None, "")];
      if confirmed {
        code := IssueOrder(oid, tags, now);
        if code.Some? { Restore(saved); }
      } else {
        code := None;
      }
    }

    method ConfirmSale(oid: Id, tags: seq<Tag>, now: Time) returns (code: Option<string>)
      modifies this
      ensures Snapshot() == Commit(old(Snapshot()), SalesModel.ConfirmSale(old(Snapshot()), oid, tags, now))
      ensures code == Refusal(SalesModel.ConfirmSale(old(Snapshot()), oid, tags, now))
    {
      if oid !in orders { return Some("NOT_FOUND"); }
      if |tags| != orders[oid].quantity { return Some("BAD_DRAW"); }
      code := IssueOrder(oid, tags, now);
    }

    // ---------- activation and renewal ----------

    method ActivateLicense(lid: Id, admitted: bool, now: Time) returns (code: Option<string>)
      modifies `licenses
      ensures Snapshot() == Commit(old(Snapshot()), SalesModel.ActivateLicense(old(Snapshot()), lid, admitted, now))
      ensures code == Refusal(SalesModel.ActivateLicense(old(Snapshot()), lid, admitted, now))
    {
      if lid !in licenses { return Some("NOT_FOUND"); }
      var l := licenses[lid];
      var usable := CheckUsable(app, l, now);
      if usable.Err? { return Some(usable.code); }
      if !admitted { return Some("REFUSED"); }
      var d := l.dates;
      if d.activatedAt.None? {
        d := d.(activatedAt := Some(now));
        if !d.perpetual { d := d.(baseExpiresAt := Some(now + Days(d.baseDays))); }
        d := d.(baseUpdatesUntil := Some(now + Days(d.baseUpdateDays)));
        if !d.perpetual { d := d.(expiresAt := Some(now + Days(d.durationDays))); }
        d := d.(updatesUntil := Some(now + Days(d.updateDays)));
      }
      licenses := licenses[lid := l.(dates := d)];
      return None;
    }

    method ActivateWithCard(hash: string, admitted: bool, now: Time) returns (code: Option<string>)
      modifies `licenses, `cards
      ensures Snapshot() == Commit(old(Snapshot()), SalesModel.ActivateWithCard(old(Snapshot()), hash, admitted, now))
      ensures code == Refusal(SalesModel.ActivateWithCard(old(Snapshot()), hash, admitted, now))
    {
      var found := FindByHash(cardRows, cards, hash);
      if found.None? { return Some("CARD_INVALID"); }
      var c := cards[found.value];
      if c.status == CardRevoked { return Some("CARD_REVOKED"); }
      if c.purpose != Activate { return Some("INVALID_REQUEST"); }
      if c.redeemUntil.Some? && now >= c.redeemUntil.value { return Some("CARD_EXPIRED"); }
      code := ActivateLicense(c.bound, admitted, now);
      if code.None? {
        c := c.(status := Used);
        if c.usedAt.None? { c := c.(usedAt := Some(now)); }
        cards := cards[found.value := c];
      }
    }

    /** The card to renew with, or why there is none. */
    method FindRenewalCard(lid: Id, hash: string, now: Time) returns (r: Outcome<Id>)
      ensures r == RenewalCard(Snapshot(), lid, hash, now)
    {
      if lid !in licenses { return Err("NOT_FOUND"); }
      var l := licenses[lid];
      if l.renewalOnly { return Err("LICENSE_RENEWAL_ONLY"); }
      if !app.active { return Err("APPLICATION_DISABLED"); }
      if l.model !in app.models { return Err("MODEL_DISABLED"); }
      if l.status == Revoked || l.status == Suspended { return Err("LICENSE_UNUSABLE"); }
      var found := FindByHash(cardRows, cards, hash);
      if found.None? { return Err("CARD_INVALID"); }
      var c := cards[found.value];
      if l.updatesBlocked && c.purpose == RenewUpdates { return Err("UPDATES_BLOCKED"); }
      if SpentOn(c, lid) { return Ok(found.value); }
      if c.status != Unused || c.purpose == Activate || (c.redeemUntil.Some? && now >= c.redeemUntil.value) {
        return Err("CARD_UNUSABLE");
      }
      if c.bound !in licenses { return Err("NOT_FOUND"); }
      var refusal := RenewalRefusal(l, lid, c, licenses[c.bound], now);
      return if refusal.Some? then Err(refusal.value) else Ok(found.value);
    }

    method RedeemRenewal(lid: Id, hash: string, now: Time) returns (code: Option<string>)
      modifies `licenses, `cards
      ensures Snapshot() == Commit(old(Snapshot()), SalesModel.RedeemRenewal(old(Snapshot()), lid, hash, now))
      ensures code == Refusal(SalesModel.RedeemRenewal(old(Snapshot()), lid, hash, now))
    {
      var found := FindRenewalCard(lid, hash, now);
      if found.Err? { return Some(found.code); }
      if !SpentOn(cards[found.value], lid) { SpendCard(lid, found.value, now); }
      return None;
    }

    /** Renew the license, mark the card used and revoke its source. */
    method SpendCard(lid: Id, cid: Id, now: Time)
      requires lid in licenses && cid in cards && cards[cid].bound in licenses && cards[cid].purpose != Activate
      requires cards[cid].bound != lid
      modifies `licenses, `cards
      ensures Snapshot() == Redemption(old(Snapshot()), lid, cid, now)
    {
      var c := cards[cid];
      var source := licenses[c.bound];
      var l := Renewed(licenses[lid], c.purpose, source.dates, now);
      cards := cards[cid := c.(status := Used, redeemed := Some(lid), usedAt := Some(now))];
      licenses := licenses[c.bound := source.(status := Revoked)];
      licenses := licenses[lid := l];
    }

    /** The renewed license: more days before activation, a later date afterwards. */
    static method Renewed(target: License, purpose: Purpose, source: Dates, now: Time) returns (l: License)
      requires purpose != Activate
      ensures l == target.(
        dates := Redeem(target.dates,
          Credit("", now, purpose, if purpose == RenewUsage then source.durationDays else source.updateDays)),
        status := if purpose == RenewUsage && target.status == Expired then Active else target.status)
    {
      l := target;
      var d := l.dates;
      if purpose == RenewUsage {
        if d.activatedAt.None? {
          d := d.(durationDays := d.durationDays + source.durationDays);
        } else {
          var base := now;
          if d.expiresAt.Some? && d.expiresAt.value > base { base := d.expiresAt.value; }
          d := d.(expiresAt := Some(base + Days(source.durationDays)));
        }
        if l.status == Expired { l := l.(status := Active); }
      } else {
        if d.activatedAt.None? {
          d := d.(updateDays := d.updateDays + source.updateDays);
        } else {
          var base := now;
          if d.updatesUntil.Some? && d.updatesUntil.value > base { base := d.updatesUntil.value; }
          d := d.(updatesUntil := Some(base + Days(source.updateDays)));
        }
      }
      l := l.(dates := d);
    }

    // ---------- the rebuild ----------

    /** Rows of cards redeemed by a license, a page at a time. */
    method FindRedeemed(lid: Id, limit: nat, offset: nat) returns (page: seq<Id>)
      ensures page == Page(RedeemedRows(cardRows, cards, lid), limit, offset)
    {
      page := Page(RedeemedRows(cardRows, cards, lid), limit, offset);
    }

    method AllRedeemed(lid: Id) returns (found: seq<Id>)
      ensures found == RedeemedRows(cardRows, cards, lid)
    {
      ghost var rows := RedeemedRows(cardRows, cards, lid);
      found := [];
      var offset, more := 0, true;
      while more
        invariant 0 <= offset && found == rows[..Min(offset, |rows|)] && (!more ==> found == rows)
        decreases more, |rows| + 1000 - offset
      {
        var page := FindRedeemed(lid, 1000, offset);
        found := found + page;
        more := |page| == 1000;
        offset := offset + 1000;
      }
    }

    /** Where an insertion sort by use time, then by id, puts the next card. */
    method FindSlot(sorted: seq<Id>, c: Id) returns (k: nat)
      requires UseSorted(cards, sorted) && c in cards && cards[c].usedAt.Some?
      ensures k <= |sorted| && UseSorted(cards, sorted[..k] + [c] + sorted[k..])
    {
      k := |sorted|;
      while k > 0 && UsedBefore(cards, c, sorted[k - 1])
        invariant 0 <= k <= |sorted|
        invariant forall j :: k <= j < |sorted| ==>
          sorted[j] in cards && cards[c].usedAt.value <= cards[sorted[j]].usedAt.value
      {
        assert sorted[k - 1] in sorted;
        k := k - 1;
      }
      if k > 0 { assert sorted[k - 1] in sorted; }
      InsertAt(cards, sorted, c, k);
    }

    method SortCards(found: seq<Id>) returns (sorted: seq<Id>)
      requires forall x :: x in found ==> x in cards && cards[x].usedAt.Some?
      ensures multiset(sorted) == multiset(found) && UseSorted(cards, sorted)
    {
      sorted := [];
      var i := 0;
      while i < |found|
        invariant 0 <= i <= |found| && multiset(sorted) == multiset(found[..i]) && UseSorted(cards, sorted)
      {
        assert found[..i + 1] == found[..i] + [found[i]];
        assert found[i] in found;
        var k := FindSlot(sorted, found[i]);
        assert sorted == sorted[..k] + sorted[k..];
        sorted := sorted[..k] + [found[i]] + sorted[k..];
        i := i + 1;
      }
      assert found[..|found|] == found;
    }

    /** One turn of the rebuild: days before activation, an extended date afterwards. */
    static method AddCredit(before: Dates, c: Credit) returns (d: Dates)
      ensures d == Apply(before, c)
    {
      d := before;
      var at := c.usedAt;
      var beforeActivation := d.activatedAt.None? || at < d.activatedAt.value;
      if d.activatedAt.Some? && beforeActivation { at := d.activatedAt.value; }
      match c.purpose {
        case Activate =>
        case RenewUsage =>
          if beforeActivation { d := d.(durationDays := d.durationDays + c.days); }
          if d.activatedAt.Some? { d := d.(expiresAt := Extend(d.expiresAt, at, c.days)); }
        case RenewUpdates =>
          if beforeActivation { d := d.(updateDays := d.updateDays + c.days); }
          if d.activatedAt.Some? { d := d.(updatesUntil := Extend(d.updatesUntil, at, c.days)); }
      }
    }

    /** Apply the credits of the listed cards in turn, leaving out refunded ones. */
    method FoldCards(base: Dates, sorted: seq<Id>) returns (d: Dates)
      requires forall x :: x in sorted ==> x in cards && cards[x].usedAt.Some?
      ensures d == ApplyAll(base, CreditsOf(licenses, cards, sorted))
    {
      d := base;
      var i := 0;
      assert CreditsOf(licenses, cards, sorted[..0]) == [];
      while i < |sorted|
        invariant 0 <= i <= |sorted| && forall x :: x in sorted[..i] ==> x in cards
        invariant d == ApplyAll(base, CreditsOf(licenses, cards, sorted[..i]))
      {
        var id := sorted[i];
        assert sorted[..i + 1][..i] == sorted[..i] && id in sorted;
        if cards[id].usedAt.Some? && cards[id].refundedAt.None? {
          ghost var cs := CreditsOf(licenses, cards, sorted[..i]);
          var c := CreditOf(licenses, cards, id);
          assert (cs + [c])[..|cs|] == cs;
          d := AddCredit(d, c);
        }
        i := i + 1;
      }
      assert sorted[..|sorted|] == sorted;
    }

    method RecomputeRenewals(lid: Id)
      requires lid in licenses && Rebuildable(licenses, cards, cardRows, lid)
      modifies `licenses
      ensures licenses
        == old(licenses)[lid := old(licenses)[lid].(dates := Recomputed(old(licenses), cards, cardRows, lid))]
    {
      var l := licenses[lid];
      var found := AllRedeemed(lid);
      var sorted := SortCards(found);
      var d := l.dates;
      d := d.(durationDays := d.baseDays);
      d := d.(updateDays := d.baseUpdateDays);
      d := d.(expiresAt := d.baseExpiresAt);
      d := d.(updatesUntil := d.baseUpdatesUntil);
      assert d == ResetToBase(l.dates);
      d := FoldCards(d, sorted);
      RecomputeAnyOrder(licenses, cards, cardRows, lid, sorted);
      licenses := licenses[lid := l.(dates := d)];
    }

    // ---------- refunds ----------

    method RevokeLicenses(ids: seq<Id>)
      requires forall id :: id in ids ==> id in licenses
      modifies `licenses
      ensures licenses == RevokedLicenses(old(licenses), ids)
    {
      ghost var before := licenses;
      var i := 0;
      while i < |ids|
        invariant 0 <= i <= |ids| && licenses.Keys == before.Keys
        invariant forall id :: id in before ==>
          licenses[id] == if id in ids[..i] then before[id].(status := Revoked) else before[id]
      {
        assert ids[..i + 1] == ids[..i] + [ids[i]];
        licenses := licenses[ids[i] := licenses[ids[i]].(status := Revoked)];
        i := i + 1;
      }
      assert ids[..|ids|] == ids;
      SameMap(licenses, RevokedLicenses(before, ids));
    }

    method FindBound(source: Id) returns (found: seq<Id>)
      requires forall c :: c in cardRows <==> c in cards
      ensures forall c :: c in found <==> c in cards && cards[c].bound == source
    {
      found := [];
      var i := 0;
      while i < |cardRows|
        invariant 0 <= i <= |cardRows|
        invariant forall c :: c in found <==> c in cardRows[..i] && cards[c].bound == source
      {
        assert cardRows[..i + 1] == cardRows[..i] + [cardRows[i]];
        assert cardRows[i] in cardRows;
        if cards[cardRows[i]].bound == source { found := found + [cardRows[i]]; }
        i := i + 1;
      }
      assert cardRows[..|cardRows|] == cardRows;
    }

    /** Refund the cards behind one license; `hit` are the licenses they were redeemed on. */
    method RefundCardsOf(source: Id, now: Time) returns (hit: set<Id>)
      requires forall c :: c in cardRows <==> c in cards
      modifies `cards
      ensures cards.Keys == old(cards).Keys
      ensures forall c :: c in cards ==>
        cards[c] == if old(cards)[c].bound == source
          then old(cards)[c].(refundedAt := Some(now), status := CardRevoked) else old(cards)[c]
      ensures forall t :: t in hit <==>
        exists c :: c in old(cards) && old(cards)[c].bound == source && old(cards)[c].redeemed == Some(t)
    {
      ghost var before := cards;
      hit := {};
      var found := FindBound(source);
      var i := 0;
      while i < |found|
        invariant 0 <= i <= |found| && cards.Keys == before.Keys
        invariant forall c :: c in before ==>
          cards[c] == if c in found[..i] then before[c].(refundedAt := Some(now), status := CardRevoked) else before[c]
        invariant forall t :: t in hit <==> exists c :: c in found[..i] && before[c].redeemed == Some(t)
      {
        var id := found[i];
        assert found[..i + 1] == found[..i] + [id];
        assert id in found;
        var card := cards[id];
        card := card.(refundedAt := Some(now));
        card := card.(status := CardRevoked);
        cards := cards[id := card];
        if card.redeemed.Some? { hit := hit + {card.redeemed.value}; }
        i := i + 1;
      }
      assert found[..|found|] == found;
    }

    method RefundCards(sources: seq<Id>, now: Time) returns (affected: set<Id>)
      requires forall c :: c in cardRows <==> c in cards
      modifies `cards
      ensures cards == RefundedCards(old(cards), sources, now)
      ensures forall t :: t in affected <==> Affected(cards, sources, t)
    {
      ghost var before := cards;
      affected := {};
      var i := 0;
      while i < |sources|
        invariant 0 <= i <= |sources| && cards.Keys == before.Keys
        invariant forall c :: c in before ==>
          cards[c] == if before[c].bound in sources[..i]
            then before[c].(refundedAt := Some(now), status := CardRevoked) else before[c]
        invariant forall t :: t in affected <==>
          exists c :: c in before && before[c].bound in sources[..i] && before[c].redeemed == Some(t)
      {
        assert sources[..i + 1] == sources[..i] + [sources[i]];
        var hit := RefundCardsOf(sources[i], now);
        affected := affected + hit;
        i := i + 1;
      }
      assert sources[..|sources|] == sources;
      SameMap(cards, RefundedCards(before, sources, now));
      forall t ensures t in affected <==> Affected(cards, sources, t) {
        if c :| c in before && before[c].bound in sources && before[c].redeemed == Some(t) {
          assert c in cards && cards[c].bound in sources && cards[c].redeemed == Some(t);
        }
      }
    }

    /** Rebuild every affected license; the order does not matter. */
    method ReconcileAll(affected: set<Id>)
      requires forall t :: t in affected ==> t in licenses && Rebuildable(licenses, cards, cardRows, t)
      requires forall c :: c in cards && cards[c].redeemed.Some? ==> cards[c].bound !in affected
      modifies `licenses
      ensures licenses.Keys == old(licenses).Keys
      ensures forall id :: id in licenses ==>
        licenses[id] == if id in affected
          then old(licenses)[id].(dates := Recomputed(old(licenses), cards, cardRows, id)) else old(licenses)[id]
    {
      ghost var before := licenses;
      var todo := affected;
      while todo != {}
        invariant todo <= affected && licenses.Keys == before.Keys
        invariant forall id :: id in before ==>
          licenses[id] == if id in affected - todo then before[id].(dates := Recomputed(before, cards, cardRows, id))
            else before[id]
        decreases |todo|
      {
        var t :| t in todo;
        OthersRebuilt(before, licenses, cards, cardRows, affected, t);
        RecomputeRenewals(t);
        todo := todo - {t};
      }
    }

    method RefundOrder(oid: Id, now: Time) returns (code: Option<string>)
      requires Tables(Snapshot()) && oid in orders
      modifies this
      ensures Snapshot() == Commit(old(Snapshot()), SalesModel.RefundOrder(old(Snapshot()), oid, now))
      ensures code == Refusal(SalesModel.RefundOrder(old(Snapshot()), oid, now))
    {
      var saved, o := Snapshot(), orders[oid];
      if o.status == Refunded { return None; }
      if o.status != Confirmed { return Some("ORDER_NOT_CONFIRMED"); }
      RefundRows(oid, now);
      code := None;
      if o.agent.Some? {
        var posted := PostRefund(books, app.id, o.agent.value, oid, o.cost);
        if posted.Err? {
          Restore(saved);
          return Some(posted.code);
        }
        books := posted.value;
      }
    }

    /** Mark the order refunded, revoke its licenses and cards, and rebuild every license a card was redeemed on. */
    method RefundRows(oid: Id, now: Time)
      requires Tables(Snapshot()) && oid in orders && orders[oid].status == Confirmed
      modifies `orders, `licenses, `cards
      ensures Snapshot() == RefundedRows(old(Snapshot()), oid, now)
    {
      ghost var saved := Snapshot();
      var o := orders[oid];
      orders := orders[oid := o.(status := Refunded)];
      assert OrderOk(saved, oid);
      RevokeLicenses(o.licenses);
      ghost var revoked := licenses;
      var affected := RefundCards(o.licenses, now);
      ReadyToReconcile(saved, oid, now, affected);
      ReconcileAll(affected);
      AllReconciled(revoked, cards, cardRows, o.licenses, affected, licenses);
    }

    // ---------- signed sales events ----------

    method ReceiveSale(channel: Id, event: string, bodyHash: string, proof: Signing, e: SaleEvent, now: Time)
        returns (code: Option<string>)
      requires Tables(Snapshot())
      modifies this
      ensures Snapshot() == Commit(old(Snapshot()),
        SalesModel.ReceiveSale(old(Snapshot()), channel, event, bodyHash, proof, e, now))
      ensures code == Refusal(SalesModel.ReceiveSale(old(Snapshot()), channel, event, bodyHash, proof, e, now))
    {
      if event == "" || |event| > 190 { return Some("INVALID_REQUEST"); }
      if proof.readAt - Seconds(proof.stamp) > Seconds(120) { return Some("REQUEST_EXPIRED"); }
      if Seconds(proof.stamp) - proof.readAt > Seconds(120) { return Some("REQUEST_EXPIRED"); }
      if !proof.enabled { return Some("CHANNEL_DISABLED"); }
      if !proof.valid { return Some("SIGNATURE_INVALID"); }
      if (channel, event) in receipts {
        return if receipts[(channel, event)].bodyHash != bodyHash then Some("IDEMPOTENCY_CONFLICT") else None;
      }
      match e {
        case PaymentRefunded(original) => code := ReceiveRefund(channel, event, bodyHash, proof, original, now);
        case PaymentConfirmed(s, planAllowed, oid, tags) =>
          code := ReceivePayment(channel, event, bodyHash, proof, s, planAllowed, oid, tags, now);
      }
    }

    method ReceiveRefund(channel: Id, event: string, bodyHash: string, proof: Signing, original: string, now: Time)
        returns (code: Option<string>)
      requires Tables(Snapshot()) && (channel, event) !in receipts && event != "" && |event| <= 190
      requires SigningRefusal(proof).None?
      modifies this
      ensures var after := SalesModel.ReceiveSale(old(Snapshot()), channel, event, bodyHash, proof,
        PaymentRefunded(original), now);
        Snapshot() == Commit(old(Snapshot()), after) && code == Refusal(after)
    {
      var found := set oid | oid in orders && orders[oid].channel == Some(channel) && orders[oid].external == original;
      assert found == ChannelOrders(Snapshot(), channel, original);
      if |found| != 1 { return Some("INVALID_REQUEST"); }
      var oid :| oid in found;
      OnlyOne(found, oid);
      code := RefundOrder(oid, now);
      if code.None? { receipts := receipts[(channel, event) := Receipt(bodyHash, oid)]; }
    }

    method ReceivePayment(channel: Id, event: string, bodyHash: string, proof: Signing, s: Sale, planAllowed: bool,
                          oid: Id, tags: seq<Tag>, now: Time)
        returns (code: Option<string>)
      requires (channel, event) !in receipts && event != "" && |event| <= 190 && SigningRefusal(proof).None?
      modifies this
      ensures var after := SalesModel.ReceiveSale(old(Snapshot()), channel, event, bodyHash, proof,
                                                  PaymentConfirmed(s, planAllowed, oid, tags), now);
        Snapshot() == Commit(old(Snapshot()), after) && code == Refusal(after)
    {
      if !ValidSale(s) || |tags| != s.quantity { return Some("INVALID_REQUEST"); }
      if !planAllowed { return Some("PLAN_NOT_GRANTED"); }
      if s.plan !in plans { return Some("NOT_FOUND"); }
      if !plans[s.plan].enabled { return Some("PLAN_DISABLED"); }
      if oid in orders { return Some("UNIQUE_VIOLATION"); }
      var saved := Snapshot();
      orders := orders[oid := PendingOrder(s, plans[s.plan].terms, None, 0, Some(channel), event)];
      code := IssueOrder(oid, tags, now);
      if code.Some? {
        Restore(saved);
      } else {
        orders := orders[oid := Kept(orders[oid])];
        receipts := receipts[(channel, event) := Receipt(bodyHash, oid)];
      }
    }

    // ---------- agents ----------

    method AgentSale(agent: Id, active: bool, request: string, fingerprint: string, s: Sale, grant: Option<Grant>,
                     expected: int, oid: Id, tags: seq<Tag>, now: Time) returns (code: Option<string>)
      modifies this
      ensures var after := SalesModel.AgentSale(old(Snapshot()), agent, active, request, fingerprint, s, grant,
        expected, oid, tags, now);
        Snapshot() == Commit(old(Snapshot()), after) && code == Refusal(after)
    {
      if |request| < 8 || |request| > 128 || !ValidSale(s) || !s.distribute || s.redeemUntil.Some?
        || |tags| != s.quantity
      {
        return Some("INVALID_REQUEST");
      }
      var row := Lookup(books.entries, Application(app.id), agent, request);
      if row.Some? { return if row.value.fingerprint != fingerprint then Some("IDEMPOTENCY_CONFLICT") else None; }
      if grant.None? { return Some("AGENT_PLAN_NOT_GRANTED"); }
      if s.plan !in plans { return Some("NOT_FOUND"); }
      if !app.active || !plans[s.plan].enabled || !grant.value.usable || !active
        || NormalizeTerms(app, plans[s.plan].terms).Err?
      {
        return Some("AGENT_PLAN_NOT_GRANTED");
      }
      if s.quantity > grant.value.maxBatch { return Some("BATCH_LIMIT_EXCEEDED"); }
      if expected != grant.value.unitCost { return Some("PRICE_CHANGED"); }
      if oid in orders { return Some("UNIQUE_VIOLATION"); }
      code := SettleAgentSale(agent, active, request, fingerprint, s, grant.value.unitCost * s.quantity, oid, tags,
        now);
    }

    /** Debit the account, issue the order and record the money event. */
    method SettleAgentSale(agent: Id, active: bool, request: string, fingerprint: string, s: Sale, cost: int,
                           oid: Id, tags: seq<Tag>, now: Time) returns (code: Option<string>)
      requires s.plan in plans && oid !in orders && |tags| == s.quantity
      modifies this
      ensures var db := old(Snapshot());
        var books := PostIssue(db.books, db.app.id, agent, active, oid, request, fingerprint, cost);
        var o := PendingOrder(s, db.plans[s.plan].terms, Some(agent), cost, None, request);
        var issued := SalesModel.IssueOrder(db.(orders := db.orders[oid := o]), oid, tags, now);
        var after := if books.Err? then Err(books.code) else if issued.Err? then Err(issued.code)
          else Ok(issued.value.(books := books.value));
        Snapshot() == Commit(db, after) && code == Refusal(after)
    {
      var saved := Snapshot();
      var posted := PostIssue(books, app.id, agent, active, oid, request, fingerprint, cost);
      if posted.Err? { return Some(posted.code); }
      orders := orders[oid := PendingOrder(s, plans[s.plan].terms, Some(agent), cost, None, request)];
      code := IssueOrder(oid, tags, now);
      if code.Some? {
        Restore(saved);
      } else {
        books := posted.value;
      }
    }

    // ---------- administration ----------

    method SetLicenseStatus(lid: Id, status: LicenseStatus) returns (code: Option<string>)
      modifies `licenses
      ensures Snapshot() == Commit(old(Snapshot()), SalesModel.SetLicenseStatus(old(Snapshot()), lid, status))
      ensures code == Refusal(SalesModel.SetLicenseStatus(old(Snapshot()), lid, status))
    {
      if lid !in licenses { return Some("NOT_FOUND"); }
      if licenses[lid].status == Revoked && status != Revoked { return Some("REVOCATION_FINAL"); }
      licenses := licenses[lid := licenses[lid].(status := status)];
      return None;
    }

    method RevokeCard(cid: Id) returns (code: Option<string>)
      modifies `cards
      ensures Snapshot() == Commit(old(Snapshot()), SalesModel.RevokeCard(old(Snapshot()), cid))
      ensures code == Refusal(SalesModel.RevokeCard(old(Snapshot()), cid))
    {
      if cid !in cards { return Some("NOT_FOUND"); }
      cards := cards[cid := cards[cid].(status := CardRevoked)];
      return None;
    }
  }

  // ---------- facts the methods use ----------

  lemma InsertAt(cards: map<Id, Card>, s: seq<Id>, x: Id, k: nat)
    requires UseSorted(cards, s) && k <= |s| && x in cards && cards[x].usedAt.Some?
    requires forall j :: k <= j < |s| ==> s[j] in cards && cards[x].usedAt.value <= cards[s[j]].usedAt.value
    requires k > 0 ==> s[k - 1] in cards && !UsedBefore(cards, x, s[k - 1])
    ensures UseSorted(cards, s[..k] + [x] + s[k..])
  {
    var front, back := s[..k], s[k..];
    forall y | y in front ensures y in cards && cards[y].usedAt.Some? && cards[y].usedAt.value <= cards[x].usedAt.value
    {
      var i :| 0 <= i < k && front[i] == y;
      assert s[i] in s && s[k - 1] in s;
    }
    forall y | y in back ensures y in cards && cards[y].usedAt.Some? && cards[x].usedAt.value <= cards[y].usedAt.value {
      var i :| 0 <= i < |back| && back[i] == y;
      assert s[k + i] in s;
    }
    SortedSlices(cards, s, k);
    AppendKeepsSorted(cards, front, x);
    SortedConcat(cards, front + [x], back);
  }

  lemma SortedSlices(cards: map<Id, Card>, s: seq<Id>, k: nat)
    requires UseSorted(cards, s) && k <= |s|
    ensures UseSorted(cards, s[..k]) && UseSorted(cards, s[k..])
  {
    assert forall x :: x in s[..k] ==> x in s;
    assert forall x :: x in s[k..] ==> x in s;
  }

  lemma SortedConcat(cards: map<Id, Card>, a: seq<Id>, b: seq<Id>)
    requires UseSorted(cards, a) && UseSorted(cards, b)
    requires forall i, j :: 0 <= i < |a| && 0 <= j < |b| ==>
      a[i] in cards && b[j] in cards && cards[a[i]].usedAt.Some? && cards[b[j]].usedAt.Some?
    requires a != [] && forall y :: y in b ==>
      y in cards && cards[y].usedAt.Some? && cards[a[|a| - 1]].usedAt.value <= cards[y].usedAt.value
    ensures UseSorted(cards, a + b)
  {
    forall i, j | 0 <= i < j < |a + b| ensures cards[(a + b)[i]].usedAt.value <= cards[(a + b)[j]].usedAt.value {
      if i < |a| <= j {
        assert b[j - |a|] in b;
        assert cards[a[i]].usedAt.value <= cards[a[|a| - 1]].usedAt.value;
      }
    }
  }

  lemma OnlyOne(s: set<Id>, x: Id)
    requires |s| == 1 && x in s
    ensures Only(s) == x
  {
    assert |s - {x}| == 0;
    assert s == {x};
  }

  /** Rebuilding other licenses first does not change what a rebuild reads. */
  lemma OthersRebuilt(before: map<Id, License>, licenses: map<Id, License>, cards: map<Id, Card>, rows: seq<Id>,
                      affected: set<Id>, t: Id)
    requires t in affected && t in before && licenses.Keys == before.Keys && licenses[t] == before[t]
    requires forall id :: id in before && id !in affected ==> licenses[id] == before[id]
    requires forall c :: c in cards && cards[c].redeemed.Some? ==> cards[c].bound !in affected
    requires Rebuildable(before, cards, rows, t)
    ensures Rebuildable(licenses, cards, rows, t)
    ensures Recomputed(licenses, cards, rows, t) == Recomputed(before, cards, rows, t)
  {
    forall c | c in cards && cards[c].redeemed == Some(t)
      ensures DaysOf(licenses, cards[c]) == DaysOf(before, cards[c]) {}
    RecomputedReads(licenses, cards, before, cards, rows, t);
  }

  lemma AllReconciled(before: map<Id, License>, cards: map<Id, Card>, rows: seq<Id>, sources: seq<Id>,
                      affected: set<Id>, after: map<Id, License>)
    requires forall t :: t in affected <==> Affected(cards, sources, t)
    requires after.Keys == before.Keys
    requires forall id :: id in after ==>
      after[id] == if id in affected then before[id].(dates := Recomputed(before, cards, rows, id)) else before[id]
    ensures after == Reconcile(before, cards, rows, sources)
  {
    SameMap(after, Reconcile(before, cards, rows, sources));
  }

  lemma RowsRebuildable(db: Db, sources: seq<Id>, now: Time, t: Id)
    requires Tables(db)
    ensures Rebuildable(RevokedLicenses(db.licenses, sources), RefundedCards(db.cards, sources, now), db.cardRows, t)
  {
    var cards, licenses := RefundedCards(db.cards, sources, now), RevokedLicenses(db.licenses, sources);
    forall d | d in cards && cards[d].redeemed == Some(t)
      ensures cards[d].usedAt.Some? && DaysOf(licenses, cards[d]) >= 0
    {
      assert CardOk(db, d);
    }
  }

  lemma ReadyToReconcile(db: Db, oid: Id, now: Time, affected: set<Id>)
    requires Tables(db) && oid in db.orders
    requires forall t :: t in affected <==>
      Affected(RefundedCards(db.cards, db.orders[oid].licenses, now), db.orders[oid].licenses, t)
    ensures
      var sources := db.orders[oid].licenses;
      var cards, licenses := RefundedCards(db.cards, sources, now), RevokedLicenses(db.licenses, sources);
      && (forall t :: t in affected ==> t in licenses && Rebuildable(licenses, cards, db.cardRows, t))
      && (forall c :: c in cards && cards[c].redeemed.Some? ==> cards[c].bound !in affected)
  {
    var sources := db.orders[oid].licenses;
    var cards, licenses := RefundedCards(db.cards, sources, now), RevokedLicenses(db.licenses, sources);
    forall t | t in affected ensures t in licenses && !licenses[t].renewalOnly
      && Rebuildable(licenses, cards, db.cardRows, t)
    {
      var c :| c in cards && cards[c].bound in sources && cards[c].redeemed == Some(t);
      assert CardOk(db, c);
      RowsRebuildable(db, sources, now, t);
    }
    forall c | c in cards && cards[c].redeemed.Some? ensures cards[c].bound !in affected {
      assert CardOk(db, c);
    }
  }
}
