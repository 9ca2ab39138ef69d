/** What every transaction keeps of the sales tables, and what holds after every run. */
module SalesInvariants {
  import opened Basics
  import opened Ledger
  import opened Money
  import opened SalesModel

  // ---------- well-formed tables ----------

  predicate TermsOk(t: Terms) {
    && (t.perpetual || 1 <= t.durationDays <= 36500) && 0 <= t.updateDays <= 36500
    && (t.model == Perpetual ==> t.perpetual && t.durationDays == 0) && (t.model == Subscription ==> !t.perpetual)
  }

  ghost predicate RowsOk(db: Db) {
    Distinct(db.cardRows) && forall c :: c in db.cardRows <==> c in db.cards
  }

  ghost predicate CardOk(db: Db, cid: Id)
    requires cid in db.cards
  {
    var c := db.cards[cid];
    && c.bound in db.licenses && db.licenses[c.bound].order in db.orders
    && (c.purpose != Activate <==> db.licenses[c.bound].renewalOnly)
    && CardOfOrder(c, db.orders[db.licenses[c.bound].order])
    && (c.usedAt.Some? && c.redeemUntil.Some? ==> c.usedAt.value < c.redeemUntil.value)
    && (c.status == Unused ==> c.usedAt.None? && c.refundedAt.None?)
    && (c.usedAt.Some? && c.purpose == Activate ==> db.licenses[c.bound].dates.activatedAt.Some?)
    && (c.redeemed.Some? ==> c.usedAt.Some?)
    && (c.usedAt.Some? && c.purpose != Activate ==> c.redeemed.Some?)
    && (c.redeemed.Some? ==> RedeemedOk(db, c))
    && (c.refundedAt.Some? <==> db.orders[db.licenses[c.bound].order].status == Refunded)
    && (c.refundedAt.Some? ==> c.status == CardRevoked)
  }

  /** A card serves the purpose its order was placed for, up to the order's deadline; the order of a webhook does not
      keep them. */
  predicate CardOfOrder(c: Card, o: Order) {
    o.distribute && (o.channel.None? ==> c.purpose == o.purpose && c.redeemUntil == o.redeemUntil)
  }

  /** A license has the terms of its order. */
  predicate TermsOfOrder(l: License, o: Order) {
    && l.plan == o.plan && l.model == o.terms.model && l.renewalTargets == o.terms.renewalTargets
    && l.dates.perpetual == o.terms.perpetual
    && l.dates.baseDays == o.terms.durationDays && l.dates.baseUpdateDays == o.terms.updateDays
  }

  /** The base dates lie the base days after activation. */
  predicate BasedOnActivation(d: Dates) {
    d.activatedAt.Some? ==>
      && d.baseUpdatesUntil == Some(d.activatedAt.value + Days(d.baseUpdateDays))
      && d.baseExpiresAt == if d.perpetual then None else Some(d.activatedAt.value + Days(d.baseDays))
  }

  /** A spent renewal card: its source license is revoked, and the license it renewed is of the same model
      and of a plan the source may renew. */
  ghost predicate RedeemedOk(db: Db, c: Card)
    requires c.redeemed.Some? && c.bound in db.licenses
  {
    && c.purpose != Activate
    && c.redeemed.value in db.licenses
    && !db.licenses[c.redeemed.value].renewalOnly
    && db.licenses[c.bound].status == Revoked
    && MayRenew(db.licenses[c.bound], db.licenses[c.redeemed.value])
    && DaysOf(db.licenses, c) > 0
    && (db.licenses[c.redeemed.value].dates.perpetual ==> c.purpose != RenewUsage)
  }

  predicate MayRenew(source: License, target: License) {
    source.model == target.model && (source.plan == target.plan || target.plan in source.renewalTargets)
  }

  /** One card per license and key. */
  ghost predicate CardsApart(cards: map<Id, Card>) {
    forall c, d :: c in cards && d in cards && c != d ==>
      cards[c].bound != cards[d].bound && cards[c].keyHash != cards[d].keyHash
  }

  /** The dates of a license as issued. */
  function Birth(d: Dates): Dates {
    Dates(d.perpetual, d.baseDays, d.baseUpdateDays, None, None, None, d.baseDays, d.baseUpdateDays, None, None)
  }

  ghost predicate LicenseOk(db: Db, lid: Id)
    requires lid in db.licenses
  {
    var l := db.licenses[lid];
    && l.order in db.orders && lid in db.orders[l.order].licenses
    && (db.orders[l.order].channel.None? ==> (l.renewalOnly <==> db.orders[l.order].purpose != Activate))
    && (l.renewalOnly ==> l.dates == Birth(l.dates))
    && Born(Birth(l.dates)) && (l.dates.activatedAt.None? ==> l.dates.baseExpiresAt.None?)
    && TermsOfOrder(l, db.orders[l.order]) && BasedOnActivation(l.dates)
    && (db.orders[l.order].status == Refunded ==> l.status == Revoked)
    && (db.orders[l.order].distribute <==> exists c :: c in db.cards && db.cards[c].bound == lid)
  }

  ghost predicate OrderOk(db: Db, oid: Id)
    requires oid in db.orders
  {
    var o := db.orders[oid];
    && TermsOk(o.terms) && 1 <= o.quantity <= 1000 && (o.purpose != Activate ==> o.distribute)
    && (o.status == Pending ==> o.licenses == [])
    && (o.status != Pending ==> |o.licenses| == o.quantity)
    && Distinct(o.licenses)
    && (forall lid :: lid in o.licenses ==> lid in db.licenses && db.licenses[lid].order == oid)
  }

  ghost predicate Tables(db: Db) {
    && RowsOk(db) && CardsApart(db.cards)
    && (forall c {:trigger CardOk(db, c)} :: c in db.cards ==> CardOk(db, c))
    && (forall l {:trigger LicenseOk(db, l)} :: l in db.licenses ==> LicenseOk(db, l))
    && (forall o {:trigger OrderOk(db, o)} :: o in db.orders ==> OrderOk(db, o))
    && (forall p :: p in db.plans ==> TermsOk(db.plans[p].terms))
  }

  /** A channel order is the one its confirmation event was receipted for. */
  ghost predicate ReceiptsOk(db: Db) {
    && (forall o :: o in db.orders && db.orders[o].channel.Some? ==>
          var k := (db.orders[o].channel.value, db.orders[o].external);
          k in db.receipts && db.receipts[k].order == o)
    && (forall k :: k in db.receipts ==> db.receipts[k].order in db.orders)
  }

  // ---------- issuing ----------

  lemma NormalTermsOk(app: App, t: Terms)
    ensures NormalizeTerms(app, t).Ok? ==> TermsOk(NormalizeTerms(app, t).value)
  {}

  /** `after` holds the rows of `db` and those drawn for order `oid`, stated row by row. */
  ghost predicate Issued(db: Db, after: Db, oid: Id, tags: seq<Tag>, now: Time) {
    && oid in db.orders
    && var o := db.orders[oid];
    && o.status == Pending && |tags| == o.quantity
    && after.orders == db.orders[oid := o.(status := Confirmed, licenses := LicenseIds(tags))]
    && after.plans == db.plans && after.receipts == db.receipts && after.books == db.books && after.app == db.app
    && after.cardRows == (if o.distribute then db.cardRows + CardIds(tags) else db.cardRows)
    && IssuedLicenses(db, after, oid, tags, now)
    && (if o.distribute then IssuedCardRows(db, after, o, tags) else after.cards == db.cards)
  }

  ghost predicate IssuedLicenses(db: Db, after: Db, oid: Id, tags: seq<Tag>, now: Time)
    requires oid in db.orders
  {
    && (forall l :: l in db.licenses ==> l in after.licenses && after.licenses[l] == db.licenses[l])
    && (forall l :: l in after.licenses && l !in db.licenses ==>
          after.licenses[l] == NewLicense(oid, db.orders[oid], now) && l in LicenseIds(tags))
    && (forall i :: 0 <= i < |tags| ==> tags[i].license !in db.licenses && tags[i].license in after.licenses)
    && (forall i, j :: 0 <= i < j < |tags| ==> tags[i].license != tags[j].license)
  }

  ghost predicate IssuedCardRows(db: Db, after: Db, o: Order, tags: seq<Tag>) {
    && (forall c :: c in db.cards ==> c in after.cards && after.cards[c] == db.cards[c])
    && (forall c :: c in after.cards && c !in db.cards ==> FromTag(after.cards, o, tags, c))
    && (forall i :: 0 <= i < |tags| ==>
          && tags[i].card !in db.cards && !HashTaken(db.cards, tags[i].keyHash)
          && tags[i].card in after.cards && after.cards[tags[i].card] == NewCard(o, tags[i]))
    && (forall i, j :: 0 <= i < j < |tags| ==> tags[i].card != tags[j].card && tags[i].keyHash != tags[j].keyHash)
  }

  ghost predicate FromTag(cards: map<Id, Card>, o: Order, tags: seq<Tag>, c: Id)
    requires c in cards
  {
    exists i :: 0 <= i < |tags| && tags[i].card == c && cards[c] == NewCard(o, tags[i])
  }

  lemma {:induction false} IssuedCardsAre(o: Order, tags: seq<Tag>)
    requires forall i, j :: 0 <= i < j < |tags| ==> tags[i].card != tags[j].card
    ensures forall j :: 0 <= j < |tags| ==>
      tags[j].card in IssuedCards(o, tags) && IssuedCards(o, tags)[tags[j].card] == NewCard(o, tags[j])
    ensures forall c :: c in IssuedCards(o, tags) ==> exists j :: 0 <= j < |tags| && tags[j].card == c
  {
    if tags != [] {
      var init, last := tags[..|tags| - 1], tags[|tags| - 1];
      assert tags == init + [last];
      IssuedCardsAre(o, init);
      forall c | c in IssuedCards(o, tags) ensures exists j :: 0 <= j < |tags| && tags[j].card == c {
        if c == last.card {
          assert tags[|tags| - 1].card == c;
        } else {
          var j :| 0 <= j < |init| && init[j].card == c;
          assert tags[j].card == c;
        }
      }
    }
  }

  lemma IssuedCardsAreRows(db: Db, after: Db, o: Order, tags: seq<Tag>)
    requires Insertable(db, o, tags) && o.distribute
    requires after.cards == db.cards + IssuedCards(o, tags)
    ensures IssuedCardRows(db, after, o, tags)
  {
    IssuedCardsAre(o, tags);
    var issued := IssuedCards(o, tags);
    forall c | c in after.cards && c !in db.cards ensures FromTag(after.cards, o, tags, c) {
      var i :| 0 <= i < |tags| && tags[i].card == c;
    }
    forall c | c in db.cards ensures c in after.cards && after.cards[c] == db.cards[c] {
      assert c !in issued;
    }
  }

  lemma IssuedLicensesAreRows(db: Db, after: Db, oid: Id, tags: seq<Tag>, now: Time)
    requires oid in db.orders && Insertable(db, db.orders[oid], tags)
    requires after.licenses == db.licenses + LicenseRows(oid, db.orders[oid], LicenseIds(tags), now)
    ensures IssuedLicenses(db, after, oid, tags, now)
  {
    var ids := LicenseIds(tags);
    forall i | 0 <= i < |tags| ensures tags[i].license !in db.licenses && tags[i].license in after.licenses {
      assert ids[i] in ids;
    }
    forall l | l in ids ensures l !in db.licenses {
      var i :| 0 <= i < |tags| && ids[i] == l;
    }
  }

  lemma IssueOrderIssues(db: Db, oid: Id, tags: seq<Tag>, now: Time)
    requires oid in db.orders && db.orders[oid].status == Pending && db.orders[oid].licenses == []
    requires |tags| == db.orders[oid].quantity && Insertable(db, db.orders[oid], tags)
    ensures Issued(db, IssuedDb(db, oid, tags, now), oid, tags, now)
  {
    var after := IssuedDb(db, oid, tags, now);
    IssuedLicensesAreRows(db, after, oid, tags, now);
    IssuedCardsIn(db, after, db.orders[oid], tags);
    AssembleIssued(db, after, oid, tags, now);
  }

  lemma AssembleIssued(db: Db, after: Db, oid: Id, tags: seq<Tag>, now: Time)
    requires oid in db.orders && db.orders[oid].status == Pending && db.orders[oid].licenses == []
      && |tags| == db.orders[oid].quantity
    requires after == db.(licenses := after.licenses, cards := after.cards, cardRows := after.cardRows,
      orders := after.orders)
    requires after.orders == db.orders[oid := Confirm(db.orders[oid], LicenseIds(tags))]
    requires after.cardRows == if db.orders[oid].distribute then db.cardRows + CardIds(tags) else db.cardRows
    requires IssuedLicenses(db, after, oid, tags, now)
    requires if db.orders[oid].distribute then IssuedCardRows(db, after, db.orders[oid], tags)
      else after.cards == db.cards
    ensures Issued(db, after, oid, tags, now)
  {
    ConfirmsEmpty(db.orders[oid], LicenseIds(tags));
  }

  lemma ConfirmsEmpty(o: Order, ids: seq<Id>)
    requires o.licenses == []
    ensures Confirm(o, ids) == o.(status := Confirmed, licenses := ids)
  {
    assert [] + ids == ids;
  }

  lemma IssuedCardsIn(db: Db, after: Db, o: Order, tags: seq<Tag>)
    requires Insertable(db, o, tags)
    requires after.cards == if o.distribute then db.cards + IssuedCards(o, tags) else db.cards
    ensures if o.distribute then IssuedCardRows(db, after, o, tags) else after.cards == db.cards
  {
    if o.distribute { IssuedCardsAreRows(db, after, o, tags); }
  }

  lemma DistinctConcat<T>(a: seq<T>, b: seq<T>)
    requires Distinct(a) && Distinct(b) && forall x :: x in a ==> x !in b
    ensures Distinct(a + b)
  {
    forall i, j | 0 <= i < j < |a + b| ensures (a + b)[i] != (a + b)[j] {
      if i < |a| <= j { assert a[i] in a && b[j - |a|] in b; }
    }
  }

  lemma RowsAfterIssue(db: Db, after: Db, o: Order, tags: seq<Tag>)
    requires RowsOk(db) && IssuedCardRows(db, after, o, tags) && after.cardRows == db.cardRows + CardIds(tags)
    ensures RowsOk(after)
  {
    var ids := CardIds(tags);
    forall i | 0 <= i < |ids| ensures ids[i] !in db.cardRows {
      assert tags[i].card !in db.cards;
    }
    DistinctConcat(db.cardRows, ids);
    forall c ensures c in after.cardRows <==> c in after.cards {
      if c in ids {
        var i :| 0 <= i < |tags| && ids[i] == c;
      }
      if c in after.cards && c !in db.cards {
        assert FromTag(after.cards, o, tags, c);
        var i :| 0 <= i < |tags| && tags[i].card == c;
        assert ids[i] in ids;
      }
    }
  }

  lemma IssueKeepsRows(db: Db, after: Db, oid: Id, tags: seq<Tag>, now: Time)
    requires RowsOk(db) && Issued(db, after, oid, tags, now)
    ensures RowsOk(after)
  {
    if db.orders[oid].distribute { RowsAfterIssue(db, after, db.orders[oid], tags); }
  }

  lemma IssueKeepsCardsApart(db: Db, after: Db, oid: Id, tags: seq<Tag>, now: Time)
    requires Tables(db) && Issued(db, after, oid, tags, now)
    ensures CardsApart(after.cards)
  {
    if db.orders[oid].distribute {
      forall c, d | c in after.cards && d in after.cards && c != d
        ensures after.cards[c].bound != after.cards[d].bound && after.cards[c].keyHash != after.cards[d].keyHash
      {
        if c !in db.cards {
          NewCardApart(db, after, oid, tags, now, c, d);
        } else if d !in db.cards {
          NewCardApart(db, after, oid, tags, now, d, c);
        }
      }
    }
  }

  lemma NewCardApart(db: Db, after: Db, oid: Id, tags: seq<Tag>, now: Time, c: Id, d: Id)
    requires Tables(db) && Issued(db, after, oid, tags, now) && db.orders[oid].distribute
    requires c in after.cards && d in after.cards && c != d && c !in db.cards
    ensures after.cards[c].bound != after.cards[d].bound && after.cards[c].keyHash != after.cards[d].keyHash
  {
    var o := db.orders[oid];
    assert FromTag(after.cards, o, tags, c);
    var i :| 0 <= i < |tags| && tags[i].card == c && after.cards[c] == NewCard(o, tags[i]);
    if d in db.cards {
      assert CardOk(db, d);
      assert !HashTaken(db.cards, tags[i].keyHash);
    } else {
      assert FromTag(after.cards, o, tags, d);
      var j :| 0 <= j < |tags| && tags[j].card == d && after.cards[d] == NewCard(o, tags[j]);
      assert i < j || j < i;
    }
  }

  lemma IssueKeepsOldCard(db: Db, after: Db, oid: Id, tags: seq<Tag>, now: Time, c: Id)
    requires Tables(db) && Issued(db, after, oid, tags, now) && c in db.cards
    ensures c in after.cards && CardOk(after, c)
  {
    assert CardOk(db, c);
    assert LicenseOk(db, db.cards[c].bound);
  }

  lemma IssueKeepsNewCard(db: Db, after: Db, oid: Id, tags: seq<Tag>, now: Time, c: Id)
    requires Tables(db) && Issued(db, after, oid, tags, now) && c in after.cards && c !in db.cards
    ensures CardOk(after, c)
  {
    var o := db.orders[oid];
    assert FromTag(after.cards, o, tags, c);
    var i :| 0 <= i < |tags| && tags[i].card == c && after.cards[c] == NewCard(o, tags[i]);
    assert tags[i].license in after.licenses && tags[i].license !in db.licenses;
  }

  lemma IssueKeepsOldLicense(db: Db, after: Db, oid: Id, tags: seq<Tag>, now: Time, l: Id)
    requires Tables(db) && Issued(db, after, oid, tags, now) && l in db.licenses
    ensures LicenseOk(after, l)
  {
    var o := db.orders[oid];
    assert LicenseOk(db, l) && OrderOk(db, oid);
    assert db.licenses[l].order != oid;
    if c :| c in db.cards && db.cards[c].bound == l {
      assert after.cards[c].bound == l;
    } else {
      forall c | c in after.cards ensures after.cards[c].bound != l {
        if c !in db.cards { assert FromTag(after.cards, o, tags, c); }
      }
    }
  }

  lemma NewLicenseDates(oid: Id, o: Order, now: Time)
    requires TermsOk(o.terms)
    ensures var l := NewLicense(oid, o, now);
      && (l.renewalOnly <==> o.purpose != Activate)
      && (l.renewalOnly ==> l.dates == Birth(l.dates)) && (l.dates.activatedAt.None? ==> l.dates.baseExpiresAt.None?)
      && Born(Birth(l.dates)) && l.order == oid && l.status == Active
  {}

  lemma NewLicenseTerms(oid: Id, o: Order, now: Time)
    ensures TermsOfOrder(NewLicense(oid, o, now), o.(status := Confirmed)) && TermsOfOrder(NewLicense(oid, o, now), o)
    ensures BasedOnActivation(NewLicense(oid, o, now).dates)
  {}

  lemma NewLicenseCarded(db: Db, after: Db, oid: Id, tags: seq<Tag>, now: Time, l: Id)
    requires Tables(db) && Issued(db, after, oid, tags, now) && l in after.licenses && l !in db.licenses
    ensures db.orders[oid].distribute <==> exists c :: c in after.cards && after.cards[c].bound == l
  {
    if db.orders[oid].distribute {
      var i :| 0 <= i < |tags| && LicenseIds(tags)[i] == l;
      assert after.cards[tags[i].card].bound == l;
    } else {
      forall c | c in after.cards ensures after.cards[c].bound != l { assert CardOk(db, c); }
    }
  }

  lemma IssueKeepsNewLicense(db: Db, after: Db, oid: Id, tags: seq<Tag>, now: Time, l: Id)
    requires Tables(db) && Issued(db, after, oid, tags, now) && l in after.licenses && l !in db.licenses
    ensures LicenseOk(after, l)
  {
    assert OrderOk(db, oid);
    NewLicenseDates(oid, db.orders[oid], now);
    NewLicenseTerms(oid, db.orders[oid], now);
    NewLicenseCarded(db, after, oid, tags, now, l);
  }

  lemma IssueKeepsLicenses(db: Db, after: Db, oid: Id, tags: seq<Tag>, now: Time, l: Id)
    requires Tables(db) && Issued(db, after, oid, tags, now) && l in after.licenses
    ensures LicenseOk(after, l)
  {
    if l in db.licenses {
      IssueKeepsOldLicense(db, after, oid, tags, now, l);
    } else {
      IssueKeepsNewLicense(db, after, oid, tags, now, l);
    }
  }

  lemma IssueKeepsOrders(db: Db, after: Db, oid: Id, tags: seq<Tag>, now: Time, x: Id)
    requires Tables(db) && Issued(db, after, oid, tags, now) && x in after.orders
    ensures OrderOk(after, x)
  {
    assert OrderOk(db, x);
    if x == oid {
      forall l | l in LicenseIds(tags) ensures l in after.licenses && after.licenses[l].order == oid {
        var i :| 0 <= i < |tags| && LicenseIds(tags)[i] == l;
        assert tags[i].license == l;
      }
    }
  }

  lemma IssuedKeeps(db: Db, after: Db, oid: Id, tags: seq<Tag>, now: Time)
    requires Tables(db) && Issued(db, after, oid, tags, now)
    ensures Tables(after)
  {
    IssueKeepsRows(db, after, oid, tags, now);
    IssueKeepsCardsApart(db, after, oid, tags, now);
    forall c | c in after.cards ensures CardOk(after, c) {
      if c in db.cards {
        IssueKeepsOldCard(db, after, oid, tags, now, c);
      } else {
        IssueKeepsNewCard(db, after, oid, tags, now, c);
      }
    }
    forall l | l in after.licenses ensures LicenseOk(after, l) { IssueKeepsLicenses(db, after, oid, tags, now, l); }
    forall o | o in after.orders ensures OrderOk(after, o) { IssueKeepsOrders(db, after, oid, tags, now, o); }
  }

  lemma IssueKeeps(db: Db, oid: Id, tags: seq<Tag>, now: Time)
    requires Tables(db) && oid in db.orders && |tags| == db.orders[oid].quantity
    ensures Tables(Commit(db, IssueOrder(db, oid, tags, now)))
  {
    if IssueOrder(db, oid, tags, now).Ok? {
      assert OrderOk(db, oid);
      IssueOrderIssues(db, oid, tags, now);
      IssuedKeeps(db, IssuedDb(db, oid, tags, now), oid, tags, now);
    }
  }

  /** An order row is new, or replaced by one that only forgets the purpose and deadline of a channel order's cards. */
  ghost predicate NewOrKept(db: Db, oid: Id, o: Order) {
    oid in db.orders ==> db.orders[oid].channel.Some? && o == Kept(db.orders[oid])
  }

  lemma OrderChangeKeepsCard(db: Db, oid: Id, o: Order, c: Id)
    requires c in db.cards && CardOk(db, c) && NewOrKept(db, oid, o)
    ensures CardOk(db.(orders := db.orders[oid := o]), c)
  {}

  lemma OrderChangeKeepsLicense(db: Db, oid: Id, o: Order, l: Id)
    requires l in db.licenses && LicenseOk(db, l) && NewOrKept(db, oid, o)
    ensures LicenseOk(db.(orders := db.orders[oid := o]), l)
  {}

  lemma OrderChangeKeeps(db: Db, oid: Id, o: Order)
    requires Tables(db) && NewOrKept(db, oid, o) && OrderOk(db.(orders := db.orders[oid := o]), oid)
    ensures Tables(db.(orders := db.orders[oid := o]))
  {
    var after := db.(orders := db.orders[oid := o]);
    forall c | c in after.cards ensures CardOk(after, c) { OrderChangeKeepsCard(db, oid, o, c); }
    forall l | l in after.licenses ensures LicenseOk(after, l) { OrderChangeKeepsLicense(db, oid, o, l); }
    forall x | x in after.orders ensures OrderOk(after, x) { if x != oid { assert OrderOk(db, x); } }
  }

  lemma PlaceKeeps(db: Db, oid: Id, o: Order)
    requires Tables(db) && oid !in db.orders && TermsOk(o.terms) && o.status == Pending && o.licenses == []
    requires 1 <= o.quantity <= 1000 && (o.purpose != Activate ==> o.distribute)
    ensures Tables(db.(orders := db.orders[oid := o]))
  {
    OrderChangeKeeps(db, oid, o);
  }

  // ---------- changes of single rows ----------

  /** A license row replaced by one with the same identity and base terms. */
  predicate SameLicense(a: License, b: License) {
    && a.order == b.order && a.renewalOnly == b.renewalOnly && Birth(a.dates) == Birth(b.dates)
    && a.plan == b.plan && a.model == b.model && a.renewalTargets == b.renewalTargets
    && (a.dates.activatedAt.Some? ==> b.dates.activatedAt.Some?)
    && (a.renewalOnly ==> a.dates == b.dates)
    && (BasedOnActivation(a.dates) ==> BasedOnActivation(b.dates))
    && (a.dates.activatedAt.None? && a.dates.baseExpiresAt.None? ==>
          b.dates.activatedAt.None? ==> b.dates.baseExpiresAt.None?)
    && (a.status == Revoked ==> b.status == Revoked)
  }

  lemma LicenseChangeKeepsCard(db: Db, lid: Id, l: License, c: Id)
    requires lid in db.licenses && SameLicense(db.licenses[lid], l) && c in db.cards && CardOk(db, c)
    ensures CardOk(db.(licenses := db.licenses[lid := l]), c)
  {
    assert l.dates.perpetual == Birth(l.dates).perpetual == db.licenses[lid].dates.perpetual;
    LicenseChangeKeepsDays(db, lid, l, db.cards[c]);
  }

  lemma LicenseChangeKeepsDays(db: Db, lid: Id, l: License, card: Card)
    requires lid in db.licenses && SameLicense(db.licenses[lid], l)
    requires card.purpose != Activate && card.bound in db.licenses ==> db.licenses[card.bound].renewalOnly
    ensures card.purpose != Activate ==> DaysOf(db.licenses[lid := l], card) == DaysOf(db.licenses, card)
  {}

  lemma LicenseChangeKeepsLicense(db: Db, lid: Id, l: License, x: Id)
    requires lid in db.licenses && SameLicense(db.licenses[lid], l) && x in db.licenses && LicenseOk(db, x)
    ensures LicenseOk(db.(licenses := db.licenses[lid := l]), x)
  {}

  lemma LicenseChangeKeeps(db: Db, lid: Id, l: License)
    requires Tables(db) && lid in db.licenses && SameLicense(db.licenses[lid], l)
    ensures Tables(db.(licenses := db.licenses[lid := l]))
  {
    var after := db.(licenses := db.licenses[lid := l]);
    forall c | c in after.cards ensures CardOk(after, c) { LicenseChangeKeepsCard(db, lid, l, c); }
    forall x | x in after.licenses ensures LicenseOk(after, x) { LicenseChangeKeepsLicense(db, lid, l, x); }
    forall x | x in after.orders ensures OrderOk(after, x) { assert OrderOk(db, x); }
  }

  /** A card row replaced by one with the same identity that is itself well-formed. */
  lemma CardChangeKeeps(db: Db, cid: Id, card: Card)
    requires Tables(db) && cid in db.cards
    requires card.keyHash == db.cards[cid].keyHash && card.bound == db.cards[cid].bound
    requires CardOk(db.(cards := db.cards[cid := card]), cid)
    ensures Tables(db.(cards := db.cards[cid := card]))
  {
    var after := db.(cards := db.cards[cid := card]);
    CardChangeKeepsApart(db, cid, card);
    forall c | c in after.cards ensures CardOk(after, c) { if c != cid { CardChangeKeepsCard(db, cid, card, c); } }
    forall l | l in after.licenses ensures LicenseOk(after, l) { CardChangeKeepsLicense(db, cid, card, l); }
    forall x | x in after.orders ensures OrderOk(after, x) { assert OrderOk(db, x); }
  }

  lemma CardChangeKeepsApart(db: Db, cid: Id, card: Card)
    requires RowsOk(db) && CardsApart(db.cards) && cid in db.cards
    requires card.keyHash == db.cards[cid].keyHash && card.bound == db.cards[cid].bound
    ensures RowsOk(db.(cards := db.cards[cid := card])) && CardsApart(db.cards[cid := card])
  {}

  lemma CardChangeKeepsCard(db: Db, cid: Id, card: Card, c: Id)
    requires cid in db.cards && c in db.cards && c != cid && CardOk(db, c)
    ensures CardOk(db.(cards := db.cards[cid := card]), c)
  {}

  lemma CardChangeKeepsLicense(db: Db, cid: Id, card: Card, l: Id)
    requires cid in db.cards && card.bound == db.cards[cid].bound && l in db.licenses && LicenseOk(db, l)
    ensures LicenseOk(db.(cards := db.cards[cid := card]), l)
  {
    var after := db.(cards := db.cards[cid := card]);
    forall c | c in db.cards ensures c in after.cards && after.cards[c].bound == db.cards[c].bound {}
    if c :| c in db.cards && db.cards[c].bound == l { assert after.cards[c].bound == l; }
  }

  lemma StartKeepsBirth(d: Dates, now: Time)
    ensures Birth(Start(d, now)) == Birth(d)
    ensures BasedOnActivation(d) && (d.activatedAt.None? ==> d.baseExpiresAt.None?)
      ==> BasedOnActivation(Start(d, now))
  {}

  lemma ActivateKeeps(db: Db, lid: Id, admitted: bool, now: Time)
    requires Tables(db)
    ensures Tables(Commit(db, ActivateLicense(db, lid, admitted, now)))
  {
    if ActivateLicense(db, lid, admitted, now).Ok? {
      var l := db.licenses[lid];
      assert LicenseOk(db, lid);
      StartKeepsBirth(l.dates, now);
      LicenseChangeKeeps(db, lid, l.(dates := Start(l.dates, now)));
    }
  }

  lemma ActivateWithCardKeeps(db: Db, hash: string, admitted: bool, now: Time)
    requires Tables(db)
    ensures Tables(Commit(db, ActivateWithCard(db, hash, admitted, now)))
  {
    if ActivateWithCard(db, hash, admitted, now).Ok? {
      var cid := FindByHash(db.cardRows, db.cards, hash).value;
      var c := db.cards[cid];
      ActivateKeeps(db, c.bound, admitted, now);
      var mid := ActivateLicense(db, c.bound, admitted, now).value;
      assert CardOk(mid, cid);
      CardChangeKeeps(mid, cid, c.(status := Used, usedAt := if c.usedAt.None? then Some(now) else c.usedAt));
    }
  }

  lemma RedeemKeepsBirth(d: Dates, c: Credit)
    ensures Birth(Redeem(d, c)) == Birth(d) && Redeem(d, c).activatedAt == d.activatedAt
  {}

  /** The licenses after a redemption, before the card is marked. */
  lemma RenewedKeeps(db: Db, lid: Id, cid: Id, now: Time, late: Db)
    requires Tables(db) && lid in db.licenses && cid in db.cards && db.cards[cid].bound in db.licenses
    requires !db.licenses[lid].renewalOnly && db.licenses[lid].status != Revoked && db.cards[cid].bound != lid
    requires late == db.(licenses := Redemption(db, lid, cid, now).licenses)
    ensures Tables(late) && late.licenses[db.cards[cid].bound].status == Revoked
    ensures Birth(late.licenses[lid].dates) == Birth(db.licenses[lid].dates)
  {
    var l, c := db.licenses[lid], db.cards[cid];
    var source := db.licenses[c.bound];
    var credit := Credit(cid, now, c.purpose, DaysOf(db.licenses, c));
    RedeemKeepsBirth(l.dates, credit);
    LicenseChangeKeeps(db, c.bound, source.(status := Revoked));
    var mid := db.(licenses := db.licenses[c.bound := source.(status := Revoked)]);
    var renewed := l.(dates := Redeem(l.dates, credit),
                      status := if c.purpose == RenewUsage && l.status == Expired then Active else l.status);
    RenewedSame(l, renewed, credit);
    LicenseChangeKeeps(mid, lid, renewed);
  }

  lemma RenewedSame(l: License, renewed: License, c: Credit)
    requires !l.renewalOnly && l.status != Revoked
    requires renewed == l.(dates := Redeem(l.dates, c), status := renewed.status)
    ensures SameLicense(l, renewed)
  {
    RedeemKeepsBirth(l.dates, c);
  }

  lemma RedemptionKeeps(db: Db, lid: Id, cid: Id, now: Time)
    requires Tables(db) && lid in db.licenses && cid in db.cards && db.cards[cid].bound in db.licenses
    requires !db.licenses[lid].renewalOnly && db.licenses[lid].status !in {Revoked, Suspended}
    requires db.cards[cid].status == Unused && db.cards[cid].purpose != Activate
    requires db.cards[cid].redeemUntil.Some? ==> now < db.cards[cid].redeemUntil.value
    requires RenewalRefusal(db.licenses[lid], lid, db.cards[cid], db.licenses[db.cards[cid].bound], now).None?
    ensures Tables(Redemption(db, lid, cid, now))
  {
    var c := db.cards[cid];
    var late := db.(licenses := Redemption(db, lid, cid, now).licenses);
    assert CardOk(db, cid);
    RenewedKeeps(db, lid, cid, now, late);
    assert CardOk(late, cid);
    var used := c.(status := Used, redeemed := Some(lid), usedAt := Some(now));
    assert late.licenses[lid].dates.perpetual == Birth(late.licenses[lid].dates).perpetual
      == db.licenses[lid].dates.perpetual;
    CardChangeKeeps(late, cid, used);
  }

  lemma RedeemKeeps(db: Db, lid: Id, hash: string, now: Time)
    requires Tables(db)
    ensures Tables(Commit(db, RedeemRenewal(db, lid, hash, now)))
  {
    var r := RedeemRenewal(db, lid, hash, now);
    if r.Ok? {
      var cid := FindByHash(db.cardRows, db.cards, hash).value;
      if !(db.cards[cid].status == Used && db.cards[cid].redeemed == Some(lid)) {
        RedemptionKeeps(db, lid, cid, now);
      }
    }
  }

  lemma RevokeCardKeeps(db: Db, cid: Id)
    requires Tables(db)
    ensures Tables(Commit(db, RevokeCard(db, cid)))
  {
    if cid in db.cards {
      assert CardOk(db, cid);
      CardChangeKeeps(db, cid, db.cards[cid].(status := CardRevoked));
    }
  }

  // ---------- refunds ----------

  lemma RecomputedKeepsBirth(licenses: map<Id, License>, cards: map<Id, Card>, rows: seq<Id>, lid: Id)
    requires lid in licenses
    ensures var d := Recomputed(licenses, cards, rows, lid);
      Birth(d) == Birth(licenses[lid].dates) && ResetToBase(d) == ResetToBase(licenses[lid].dates)
  {
    var cs := CreditsOf(licenses, cards, SortByUse(RedeemedRows(rows, cards, lid), cards));
    ApplyAllKeeps(ResetToBase(licenses[lid].dates), cs);
  }

  ghost predicate RefundedTo(db: Db, after: Db, oid: Id, now: Time) {
    && oid in db.orders && db.orders[oid].status == Confirmed
    && after.orders == db.orders[oid := db.orders[oid].(status := Refunded)]
    && after.plans == db.plans && after.app == db.app && after.cardRows == db.cardRows
    && after.cards == RefundedCards(db.cards, db.orders[oid].licenses, now)
    && var sources := db.orders[oid].licenses;
       after.licenses == Reconcile(RevokedLicenses(db.licenses, sources), after.cards, db.cardRows, sources)
  }

  lemma RefundOrderRefunds(db: Db, oid: Id, now: Time)
    requires oid in db.orders && RefundOrder(db, oid, now).Ok? && db.orders[oid].status != Refunded
    ensures RefundedTo(db, RefundOrder(db, oid, now).value, oid, now)
  {}

  /** A license belongs to an order iff the order lists it. */
  lemma OrderOwns(db: Db, oid: Id, lid: Id)
    requires Tables(db) && oid in db.orders && lid in db.licenses
    ensures lid in db.orders[oid].licenses <==> db.licenses[lid].order == oid
  {
    assert LicenseOk(db, lid) && OrderOk(db, oid);
  }

  lemma ReconciledLicense(licenses: map<Id, License>, cards: map<Id, Card>, rows: seq<Id>, sources: seq<Id>, lid: Id)
    requires lid in licenses
    ensures var revoked := RevokedLicenses(licenses, sources);
      var l := Reconcile(revoked, cards, rows, sources)[lid];
      && l == licenses[lid].(status := if lid in sources then Revoked else licenses[lid].status, dates := l.dates)
      && Birth(l.dates) == Birth(licenses[lid].dates) && ResetToBase(l.dates) == ResetToBase(licenses[lid].dates)
      && (!Affected(cards, sources, lid) ==> l.dates == licenses[lid].dates)
  {
    RecomputedKeepsBirth(RevokedLicenses(licenses, sources), cards, rows, lid);
  }

  /** Renewals go to licenses that are not for renewal themselves. */
  lemma RenewalOnlyUnaffected(db: Db, after: Db, oid: Id, now: Time, lid: Id)
    requires Tables(db) && RefundedTo(db, after, oid, now) && lid in db.licenses && db.licenses[lid].renewalOnly
    ensures !Affected(after.cards, db.orders[oid].licenses, lid)
  {
    var sources := db.orders[oid].licenses;
    forall c | c in after.cards && after.cards[c].bound in sources ensures after.cards[c].redeemed != Some(lid) {
      assert CardOk(db, c);
    }
  }

  /** What a refund does to one license. */
  lemma RefundedLicense(db: Db, after: Db, oid: Id, now: Time, lid: Id)
    requires Tables(db) && RefundedTo(db, after, oid, now) && lid in db.licenses
    ensures lid in after.licenses
    ensures var (a, b) := (db.licenses[lid], after.licenses[lid]);
      && b == a.(status := if a.order == oid then Revoked else a.status, dates := b.dates)
      && Birth(b.dates) == Birth(a.dates) && ResetToBase(b.dates) == ResetToBase(a.dates)
      && (!Affected(after.cards, db.orders[oid].licenses, lid) ==> b.dates == a.dates)
      && (a.renewalOnly ==> b.dates == a.dates)
  {
    OrderOwns(db, oid, lid);
    ReconciledLicense(db.licenses, after.cards, db.cardRows, db.orders[oid].licenses, lid);
    if db.licenses[lid].renewalOnly { RenewalOnlyUnaffected(db, after, oid, now, lid); }
  }

  lemma RefundedCardIs(db: Db, after: Db, oid: Id, now: Time, c: Id)
    requires Tables(db) && RefundedTo(db, after, oid, now) && c in db.cards
    ensures c in after.cards
    ensures db.cards[c].bound in db.licenses
    ensures after.cards[c] == if db.licenses[db.cards[c].bound].order == oid
                              then db.cards[c].(refundedAt := Some(now), status := CardRevoked) else db.cards[c]
  {
    assert CardOk(db, c);
    OrderOwns(db, oid, db.cards[c].bound);
  }

  lemma RefundKeepsRedeemed(db: Db, after: Db, oid: Id, now: Time, c: Id)
    requires Tables(db) && RefundedTo(db, after, oid, now) && c in db.cards && db.cards[c].redeemed.Some?
    ensures c in after.cards && after.cards[c].redeemed.Some? && after.cards[c].bound in after.licenses
      && RedeemedOk(after, after.cards[c])
  {
    assert CardOk(db, c);
    var card := db.cards[c];
    var t := card.redeemed.value;
    RefundedCardIs(db, after, oid, now, c);
    RefundedLicense(db, after, oid, now, card.bound);
    RefundedLicense(db, after, oid, now, t);
    assert after.licenses[t].dates.perpetual == Birth(after.licenses[t].dates).perpetual
      == db.licenses[t].dates.perpetual;
  }

  lemma RefundKeepsCard(db: Db, after: Db, oid: Id, now: Time, c: Id)
    requires Tables(db) && RefundedTo(db, after, oid, now) && c in db.cards
    ensures CardOk(after, c)
  {
    assert CardOk(db, c);
    RefundedCardIs(db, after, oid, now, c);
    RefundedLicense(db, after, oid, now, db.cards[c].bound);
    assert after.licenses[db.cards[c].bound].dates.activatedAt
      == ResetToBase(after.licenses[db.cards[c].bound].dates).activatedAt;
    if db.cards[c].redeemed.Some? { RefundKeepsRedeemed(db, after, oid, now, c); }
  }

  lemma SameBase(a: Dates, b: Dates)
    requires Birth(a) == Birth(b) && ResetToBase(a) == ResetToBase(b)
    ensures BasedOnActivation(a) <==> BasedOnActivation(b)
    ensures a.activatedAt == b.activatedAt && a.baseExpiresAt == b.baseExpiresAt && a.perpetual == b.perpetual
      && a.baseDays == b.baseDays && a.baseUpdateDays == b.baseUpdateDays
  {
    assert ResetToBase(a).activatedAt == a.activatedAt && ResetToBase(b).activatedAt == b.activatedAt;
    assert ResetToBase(a).baseExpiresAt == a.baseExpiresAt && ResetToBase(b).baseExpiresAt == b.baseExpiresAt;
    assert ResetToBase(a).baseUpdatesUntil == a.baseUpdatesUntil
      && ResetToBase(b).baseUpdatesUntil == b.baseUpdatesUntil;
  }

  lemma RefundKeepsCarded(db: Db, after: Db, oid: Id, now: Time, l: Id)
    requires Tables(db) && RefundedTo(db, after, oid, now)
    ensures (exists c :: c in db.cards && db.cards[c].bound == l)
      <==> (exists c :: c in after.cards && after.cards[c].bound == l)
  {
    if c :| c in db.cards && db.cards[c].bound == l {
      RefundedCardIs(db, after, oid, now, c);
      assert after.cards[c].bound == l;
    } else {
      forall c | c in after.cards ensures after.cards[c].bound != l { assert c in db.cards; }
    }
  }

  lemma RefundKeepsLicense(db: Db, after: Db, oid: Id, now: Time, l: Id)
    requires Tables(db) && RefundedTo(db, after, oid, now) && l in db.licenses
    ensures LicenseOk(after, l)
  {
    assert LicenseOk(db, l);
    RefundedLicense(db, after, oid, now, l);
    SameBase(db.licenses[l].dates, after.licenses[l].dates);
    RefundKeepsCarded(db, after, oid, now, l);
  }

  lemma RefundKeepsOrder(db: Db, after: Db, oid: Id, now: Time, o: Id)
    requires Tables(db) && RefundedTo(db, after, oid, now) && o in db.orders
    ensures OrderOk(after, o)
  {
    assert OrderOk(db, o);
    forall l | l in db.orders[o].licenses ensures l in after.licenses && after.licenses[l].order == o {
      RefundedLicense(db, after, oid, now, l);
    }
  }

  lemma RefundKeepsCardsApart(db: Db, after: Db, oid: Id, now: Time)
    requires CardsApart(db.cards) && RefundedTo(db, after, oid, now)
    ensures CardsApart(after.cards)
  {
    forall c | c in after.cards
      ensures c in db.cards && after.cards[c].bound == db.cards[c].bound
        && after.cards[c].keyHash == db.cards[c].keyHash {}
  }

  lemma RefundedKeeps(db: Db, after: Db, oid: Id, now: Time)
    requires Tables(db) && RefundedTo(db, after, oid, now)
    ensures Tables(after)
  {
    RefundKeepsCardsApart(db, after, oid, now);
    forall c | c in after.cards ensures CardOk(after, c) { RefundKeepsCard(db, after, oid, now, c); }
    forall l | l in after.licenses ensures LicenseOk(after, l) { RefundKeepsLicense(db, after, oid, now, l); }
    forall o | o in after.orders ensures OrderOk(after, o) { RefundKeepsOrder(db, after, oid, now, o); }
  }

  lemma RefundKeeps(db: Db, oid: Id, now: Time)
    requires Tables(db) && oid in db.orders
    ensures Tables(Commit(db, RefundOrder(db, oid, now)))
  {
    if RefundOrder(db, oid, now).Ok? && db.orders[oid].status != Refunded {
      RefundOrderRefunds(db, oid, now);
      RefundedKeeps(db, RefundOrder(db, oid, now).value, oid, now);
    }
  }

  // ---------- every transaction ----------

  lemma SideTables(db: Db, after: Db)
    requires Tables(db) && (forall p :: p in after.plans ==> TermsOk(after.plans[p].terms))
    requires after == db.(app := after.app, plans := after.plans, receipts := after.receipts, books := after.books)
    ensures Tables(after)
  {
    forall c | c in after.cards ensures CardOk(after, c) { assert CardOk(db, c); }
    forall l | l in after.licenses ensures LicenseOk(after, l) { assert LicenseOk(db, l); }
    forall o | o in after.orders ensures OrderOk(after, o) { assert OrderOk(db, o); }
  }

  lemma CreateSaleKeeps(db: Db, oid: Id, s: Sale, custom: Option<Terms>, confirmed: bool, tags: seq<Tag>, now: Time)
    requires Tables(db) && |tags| == s.quantity
    ensures Tables(Commit(db, CreateSale(db, oid, s, custom, confirmed, tags, now)))
  {
    if CreateSale(db, oid, s, custom, confirmed, tags, now).Ok? {
      var t := if custom.Some? then custom.value else db.plans[s.plan].terms;
      NormalTermsOk(db.app, t);
      var o := PendingOrder(s, NormalizeTerms(db.app, t).value, None, 0, None, "");
      PlaceKeeps(db, oid, o);
      if confirmed { IssueKeeps(db.(orders := db.orders[oid := o]), oid, tags, now); }
    }
  }

  lemma AgentSaleKeeps(db: Db, agent: Id, active: bool, request: string, fp: string, s: Sale, grant: Option<Grant>,
                       expected: int, oid: Id, tags: seq<Tag>, now: Time)
    requires Tables(db)
    ensures Tables(Commit(db, AgentSale(db, agent, active, request, fp, s, grant, expected, oid, tags, now)))
  {
    var r := AgentSale(db, agent, active, request, fp, s, grant, expected, oid, tags, now);
    if r.Ok? && Lookup(db.books.entries, Application(db.app.id), agent, request).None? {
      var o := PendingOrder(s, db.plans[s.plan].terms, Some(agent), grant.value.unitCost * s.quantity, None, request);
      PlaceKeeps(db, oid, o);
      var placed := db.(orders := db.orders[oid := o]);
      IssueKeeps(placed, oid, tags, now);
      SideTables(IssueOrder(placed, oid, tags, now).value, r.value);
    }
  }

  lemma ReceiveSaleKeeps(db: Db, channel: Id, event: string, bodyHash: string, proof: Signing, e: SaleEvent, now: Time)
    requires Tables(db)
    ensures Tables(Commit(db, ReceiveSale(db, channel, event, bodyHash, proof, e, now)))
  {
    var r := ReceiveSale(db, channel, event, bodyHash, proof, e, now);
    if r.Ok? && (channel, event) !in db.receipts {
      match e
      case PaymentRefunded(original) =>
        var oid := Only(ChannelOrders(db, channel, original));
        RefundKeeps(db, oid, now);
        SideTables(RefundOrder(db, oid, now).value, r.value);
      case PaymentConfirmed(s, planAllowed, oid, tags) =>
        var o := PendingOrder(s, db.plans[s.plan].terms, None, 0, Some(channel), event);
        PlaceKeeps(db, oid, o);
        var placed := db.(orders := db.orders[oid := o]);
        IssueKeeps(placed, oid, tags, now);
        IssueIs(placed, oid, tags, now);
        IssuedDbWrites(placed, oid, tags, now);
        var issued := IssueOrder(placed, oid, tags, now).value;
        KeptKeeps(issued, oid);
        SideTables(issued.(orders := issued.orders[oid := Kept(issued.orders[oid])]), r.value);
    }
  }

  lemma KeptKeeps(db: Db, oid: Id)
    requires Tables(db) && oid in db.orders && db.orders[oid].channel.Some?
    ensures Tables(db.(orders := db.orders[oid := Kept(db.orders[oid])]))
  {
    assert OrderOk(db, oid);
    OrderChangeKeeps(db, oid, Kept(db.orders[oid]));
  }

  lemma SavePlanKeeps(db: Db, pid: Id, enabled: bool, terms: Terms)
    requires Tables(db)
    ensures Tables(Commit(db, SavePlan(db, pid, enabled, terms)))
  {
    if SavePlan(db, pid, enabled, terms).Ok? {
      NormalTermsOk(db.app, terms);
      SideTables(db, SavePlan(db, pid, enabled, terms).value);
    }
  }

  lemma SideKeepsTables(db: Db, s: Step, now: Time)
    requires Tables(db) && (s.SaveApp? || s.DoSavePlan? || s.Elsewhere?)
    ensures Tables(Next(db, s, now))
  {
    match s
    case SaveApp(app) => SideTables(db, Next(db, s, now));
    case DoSavePlan(pid, enabled, terms) => SavePlanKeeps(db, pid, enabled, terms);
    case Elsewhere(op) => SideTables(db, Next(db, s, now));
  }

  lemma RowKeepsTables(db: Db, s: Step, now: Time)
    requires Tables(db) && (s.DoSetStatus? || s.DoBlockUpdates?)
    ensures Tables(Next(db, s, now))
  {
    match s
    case DoSetStatus(lid, status) =>
      if SetLicenseStatus(db, lid, status).Ok? {
        assert LicenseOk(db, lid);
        LicenseChangeKeeps(db, lid, db.licenses[lid].(status := status));
      }
    case DoBlockUpdates(lid, blocked) =>
      if lid in db.licenses {
        assert LicenseOk(db, lid);
        LicenseChangeKeeps(db, lid, db.licenses[lid].(updatesBlocked := blocked));
      }
  }

  /** Every transaction keeps the tables well-formed. */
  lemma NextKeepsTables(db: Db, s: Step, now: Time)
    requires Tables(db)
    ensures Tables(Next(db, s, now))
  {
    match s
    case DoCreateSale(oid, sale, custom, confirmed, tags) =>
      if |tags| == sale.quantity { CreateSaleKeeps(db, oid, sale, custom, confirmed, tags, now); }
    case DoConfirmSale(oid, tags) =>
      if oid in db.orders && |tags| == db.orders[oid].quantity { IssueKeeps(db, oid, tags, now); }
    case DoReceiveSale(channel, event, bodyHash, proof, body) =>
      ReceiveSaleKeeps(db, channel, event, bodyHash, proof, body, now);
    case DoAgentSale(agent, active, request, fp, sale, grant, expected, oid, tags) =>
      AgentSaleKeeps(db, agent, active, request, fp, sale, grant, expected, oid, tags, now);
    case DoRefund(oid) => if oid in db.orders { RefundKeeps(db, oid, now); }
    case DoActivate(lid, admitted) => ActivateKeeps(db, lid, admitted, now);
    case DoActivateWithCard(hash, admitted) => ActivateWithCardKeeps(db, hash, admitted, now);
    case DoRedeem(lid, hash) => RedeemKeeps(db, lid, hash, now);
    case DoRevokeCard(cid) => RevokeCardKeeps(db, cid);
    case DoSetStatus(_, _) => RowKeepsTables(db, s, now);
    case DoBlockUpdates(_, _) => RowKeepsTables(db, s, now);
    case _ => SideKeepsTables(db, s, now);
  }

  /** A replayed channel event changes nothing; other contents under the same id are refused. */
  lemma ChannelEventOnce(db: Db, channel: Id, event: string, bodyHash: string, proof: Signing, e: SaleEvent, now: Time,
                         bodyHash': string, proof': Signing, e': SaleEvent, now': Time)
    requires ReceiveSale(db, channel, event, bodyHash, proof, e, now).Ok? && SigningRefusal(proof').None?
    ensures var after := ReceiveSale(db, channel, event, bodyHash, proof, e, now).value;
      ReceiveSale(after, channel, event, bodyHash', proof', e', now')
      == if bodyHash' == after.receipts[(channel, event)].bodyHash then Ok(after) else Err("IDEMPOTENCY_CONFLICT")
  {}

  /** One-way lifecycles: revoked licenses stay revoked, card and order status only advance, and a
      redeemed card stays with its license and use time. */
  ghost predicate Forward(db: Db, after: Db) {
    && LicensesForward(db.licenses, after.licenses)
    && CardsForward(db.cards, after.cards)
    && OrdersForward(db.orders, after.orders)
  }

  ghost predicate LicensesForward(a: map<Id, License>, b: map<Id, License>) {
    forall l :: l in a ==> l in b && LicenseForward(a[l], b[l])
  }

  /** A license keeps its order, plan, model and kind, and the instant it was started at. */
  predicate LicenseForward(a: License, b: License) {
    && (a.status == Revoked ==> b.status == Revoked)
    && b.order == a.order && b.plan == a.plan && b.model == a.model
    && b.renewalTargets == a.renewalTargets && b.renewalOnly == a.renewalOnly
    && (a.dates.activatedAt.Some? ==> b.dates.activatedAt == a.dates.activatedAt)
  }

  ghost predicate CardsForward(a: map<Id, Card>, b: map<Id, Card>) {
    forall c :: c in a ==> c in b && CardForward(a[c], b[c])
  }

  ghost predicate OrdersForward(a: map<Id, Order>, b: map<Id, Order>) {
    forall o :: o in a ==> o in b && OrderForward(a[o], b[o])
  }

  function CardRank(s: CardStatus): nat { match s case Unused => 0 case Used => 1 case CardRevoked => 2 }

  function OrderRank(s: OrderStatus): nat { match s case Pending => 0 case Confirmed => 1 case Refunded => 2 }

  predicate CardForward(a: Card, b: Card) {
    && CardRank(a.status) <= CardRank(b.status)
    && a.bound == b.bound && a.purpose == b.purpose && a.keyHash == b.keyHash
    && (a.redeemed.Some? ==> b.redeemed == a.redeemed && b.usedAt == a.usedAt)
    && (a.usedAt.Some? ==> b.usedAt == a.usedAt)
    && (a.refundedAt.Some? ==> b.refundedAt.Some?)
  }

  predicate OrderForward(a: Order, b: Order) {
    && OrderRank(a.status) <= OrderRank(b.status)
    && a == b.(status := a.status, licenses := a.licenses)
    && (a.status != Pending ==> a.licenses == b.licenses)
  }

  lemma IssueForward(db: Db, oid: Id, tags: seq<Tag>, now: Time)
    requires oid in db.orders && db.orders[oid].licenses == [] && |tags| == db.orders[oid].quantity
    ensures Forward(db, Commit(db, IssueOrder(db, oid, tags, now)))
  {
    if IssueOrder(db, oid, tags, now).Ok? {
      IssueOrderIssues(db, oid, tags, now);
      IssuedForward(db, IssuedDb(db, oid, tags, now), oid, tags, now);
    }
  }

  lemma IssuedForward(db: Db, after: Db, oid: Id, tags: seq<Tag>, now: Time)
    requires Issued(db, after, oid, tags, now) && db.orders[oid].licenses == []
    ensures Forward(db, after)
  {}

  lemma PlacedForward(db: Db, oid: Id, o: Order, after: Db)
    requires oid !in db.orders && Forward(db.(orders := db.orders[oid := o]), after)
    ensures Forward(db, after)
  {
    forall x | x in db.orders ensures x in after.orders && OrderForward(db.orders[x], after.orders[x]) {
      assert x in db.orders[oid := o];
    }
  }

  lemma SideForward(db: Db, mid: Db, after: Db)
    requires Forward(db, mid) && after.licenses == mid.licenses && after.cards == mid.cards
      && after.orders == mid.orders
    ensures Forward(db, after)
  {}

  lemma CardChangeForward(db: Db, cid: Id, c: Card)
    requires cid in db.cards && CardForward(db.cards[cid], c)
    ensures Forward(db, db.(cards := db.cards[cid := c]))
  {}

  lemma LicenseChangeForward(db: Db, lid: Id, l: License)
    requires lid in db.licenses && LicenseForward(db.licenses[lid], l)
    ensures Forward(db, db.(licenses := db.licenses[lid := l]))
  {}

  lemma RedemptionForward(db: Db, lid: Id, cid: Id, now: Time)
    requires lid in db.licenses && cid in db.cards && db.cards[cid].bound in db.licenses && CardOk(db, cid)
    requires db.licenses[lid].status != Revoked && db.cards[cid].status == Unused
    ensures Forward(db, Redemption(db, lid, cid, now))
  {
    assert CardForward(db.cards[cid], Redemption(db, lid, cid, now).cards[cid]);
  }

  lemma RedeemForward(db: Db, lid: Id, hash: string, now: Time)
    requires Tables(db)
    ensures Forward(db, Commit(db, RedeemRenewal(db, lid, hash, now)))
  {
    var r := RedeemRenewal(db, lid, hash, now);
    if r.Ok? {
      var cid := FindByHash(db.cardRows, db.cards, hash).value;
      if !(db.cards[cid].status == Used && db.cards[cid].redeemed == Some(lid)) {
        assert CardOk(db, cid);
        RedemptionForward(db, lid, cid, now);
      }
    }
  }

  lemma RefundForward(db: Db, oid: Id, now: Time)
    requires Tables(db) && oid in db.orders
    ensures Forward(db, Commit(db, RefundOrder(db, oid, now)))
  {
    if RefundOrder(db, oid, now).Ok? && db.orders[oid].status != Refunded {
      var after := RefundOrder(db, oid, now).value;
      RefundOrderRefunds(db, oid, now);
      RefundedForward(db, after, oid, now);
    }
  }

  lemma RefundedForward(db: Db, after: Db, oid: Id, now: Time)
    requires Tables(db) && RefundedTo(db, after, oid, now)
    ensures Forward(db, after)
  {
    RefundedLicensesForward(db, after, oid, now);
    RefundedCardsForward(db, after, oid, now);
  }

  lemma RefundedLicensesForward(db: Db, after: Db, oid: Id, now: Time)
    requires Tables(db) && RefundedTo(db, after, oid, now)
    ensures LicensesForward(db.licenses, after.licenses)
  {
    forall l | l in db.licenses
      ensures l in after.licenses && LicenseForward(db.licenses[l], after.licenses[l])
    {
      RefundedLicense(db, after, oid, now, l);
      SameBase(db.licenses[l].dates, after.licenses[l].dates);
    }
  }

  lemma RefundedCardsForward(db: Db, after: Db, oid: Id, now: Time)
    requires Tables(db) && RefundedTo(db, after, oid, now)
    ensures CardsForward(db.cards, after.cards)
  {
    forall c | c in db.cards ensures c in after.cards && CardForward(db.cards[c], after.cards[c]) {
      RefundedCardIs(db, after, oid, now, c);
    }
  }

  lemma CreateSaleForward(db: Db, oid: Id, s: Sale, custom: Option<Terms>, confirmed: bool, tags: seq<Tag>, now: Time)
    requires |tags| == s.quantity
    ensures Forward(db, Commit(db, CreateSale(db, oid, s, custom, confirmed, tags, now)))
  {
    var r := CreateSale(db, oid, s, custom, confirmed, tags, now);
    if r.Ok? {
      var t := if custom.Some? then custom.value else db.plans[s.plan].terms;
      var o := PendingOrder(s, NormalizeTerms(db.app, t).value, None, 0, None, "");
      var placed := db.(orders := db.orders[oid := o]);
      if confirmed {
        assert r == IssueOrder(placed, oid, tags, now);
        IssueForward(placed, oid, tags, now);
        PlacedForward(db, oid, o, r.value);
      }
    }
  }

  lemma AgentSaleForward(db: Db, agent: Id, active: bool, request: string, fp: string, s: Sale, grant: Option<Grant>,
                         expected: int, oid: Id, tags: seq<Tag>, now: Time)
    ensures Forward(db, Commit(db, AgentSale(db, agent, active, request, fp, s, grant, expected, oid, tags, now)))
  {
    var r := AgentSale(db, agent, active, request, fp, s, grant, expected, oid, tags, now);
    if r.Ok? && Lookup(db.books.entries, Application(db.app.id), agent, request).None? {
      var o := PendingOrder(s, db.plans[s.plan].terms, Some(agent), grant.value.unitCost * s.quantity, None, request);
      var placed := db.(orders := db.orders[oid := o]);
      var issued := IssueOrder(placed, oid, tags, now);
      IssueForward(placed, oid, tags, now);
      PlacedForward(db, oid, o, issued.value);
      SideForward(db, issued.value, r.value);
    }
  }

  lemma ReceiveForward(db: Db, channel: Id, event: string, bodyHash: string, proof: Signing, body: SaleEvent,
                       now: Time)
    requires Tables(db)
    ensures Forward(db, Commit(db, ReceiveSale(db, channel, event, bodyHash, proof, body, now)))
  {
    var r := ReceiveSale(db, channel, event, bodyHash, proof, body, now);
    if r.Ok? && (channel, event) !in db.receipts {
      match body
      case PaymentRefunded(original) =>
        var oid := Only(ChannelOrders(db, channel, original));
        RefundForward(db, oid, now);
        SideForward(db, RefundOrder(db, oid, now).value, r.value);
      case PaymentConfirmed(sale, planAllowed, oid, tags) =>
        var o := PendingOrder(sale, db.plans[sale.plan].terms, None, 0, Some(channel), event);
        var placed := db.(orders := db.orders[oid := o]);
        IssueForward(placed, oid, tags, now);
        PlacedForward(db, oid, o, IssueOrder(placed, oid, tags, now).value);
        KeptForward(db, IssueOrder(placed, oid, tags, now).value, r.value, oid);
    }
  }

  lemma KeptForward(db: Db, issued: Db, after: Db, oid: Id)
    requires Forward(db, issued) && oid !in db.orders && oid in issued.orders
    requires after.licenses == issued.licenses && after.cards == issued.cards
    requires after.orders == issued.orders[oid := Kept(issued.orders[oid])]
    ensures Forward(db, after)
  {}

  lemma ForwardTransitive(a: Db, b: Db, c: Db)
    requires Forward(a, b) && Forward(b, c)
    ensures Forward(a, c)
  {}

  lemma ActivateCardForward(db: Db, hash: string, admitted: bool, now: Time)
    requires Tables(db)
    ensures Forward(db, Commit(db, ActivateWithCard(db, hash, admitted, now)))
  {
    var r := ActivateWithCard(db, hash, admitted, now);
    if r.Ok? {
      var cid := FindByHash(db.cardRows, db.cards, hash).value;
      var c := db.cards[cid];
      var mid := ActivateLicense(db, c.bound, admitted, now).value;
      var l := db.licenses[c.bound];
      LicenseChangeForward(db, c.bound, l.(dates := Start(l.dates, now)));
      assert CardOk(db, cid);
      CardChangeForward(mid, cid, c.(status := Used, usedAt := if c.usedAt.None? then Some(now) else c.usedAt));
      ForwardTransitive(db, mid, r.value);
    }
  }

  lemma SideStepsForward(db: Db, s: Step, now: Time)
    requires s.SaveApp? || s.DoSavePlan? || s.Elsewhere?
    ensures Forward(db, Next(db, s, now))
  {
    SideStepsKeepRows(db, s, now);
    SameForward(db, db);
    SideForward(db, db, Next(db, s, now));
  }

  lemma SideStepsKeepRows(db: Db, s: Step, now: Time)
    requires s.SaveApp? || s.DoSavePlan? || s.Elsewhere?
    ensures var after := Next(db, s, now);
      && after.licenses == db.licenses && after.cards == db.cards && after.orders == db.orders
      && after.receipts == db.receipts
  {}

  lemma SameForward(db: Db, after: Db)
    requires after == db
    ensures Forward(db, after)
  {}

  lemma ActivateForward(db: Db, lid: Id, admitted: bool, now: Time)
    ensures Forward(db, Commit(db, ActivateLicense(db, lid, admitted, now)))
  {
    SameForward(db, db);
    if ActivateLicense(db, lid, admitted, now).Ok? {
      LicenseChangeForward(db, lid, db.licenses[lid].(dates := Start(db.licenses[lid].dates, now)));
    }
  }

  lemma SetStatusForward(db: Db, lid: Id, status: LicenseStatus)
    ensures Forward(db, Commit(db, SetLicenseStatus(db, lid, status)))
  {
    SameForward(db, db);
    if SetLicenseStatus(db, lid, status).Ok? { LicenseChangeForward(db, lid, db.licenses[lid].(status := status)); }
  }

  lemma BlockUpdatesForward(db: Db, lid: Id, blocked: bool)
    ensures Forward(db, Commit(db, BlockUpdates(db, lid, blocked)))
  {
    SameForward(db, db);
    if lid in db.licenses { LicenseChangeForward(db, lid, db.licenses[lid].(updatesBlocked := blocked)); }
  }

  lemma RevokeCardForward(db: Db, cid: Id)
    ensures Forward(db, Commit(db, RevokeCard(db, cid)))
  {
    SameForward(db, db);
    if cid in db.cards { CardChangeForward(db, cid, db.cards[cid].(status := CardRevoked)); }
  }

  lemma LicenseStepsForward(db: Db, s: Step, now: Time)
    requires s.DoActivate? || s.DoSetStatus? || s.DoBlockUpdates?
    ensures Forward(db, Next(db, s, now))
  {
    match s
    case DoActivate(lid, admitted) => ActivateForward(db, lid, admitted, now);
    case DoSetStatus(lid, status) => SetStatusForward(db, lid, status);
    case DoBlockUpdates(lid, blocked) => BlockUpdatesForward(db, lid, blocked);
  }

  lemma CardStepsForward(db: Db, s: Step, now: Time)
    requires Tables(db) && (s.DoRevokeCard? || s.DoRedeem? || s.DoActivateWithCard?)
    ensures Forward(db, Next(db, s, now))
  {
    match s
    case DoRedeem(lid, hash) => RedeemForward(db, lid, hash, now);
    case DoActivateWithCard(hash, admitted) => ActivateCardForward(db, hash, admitted, now);
    case DoRevokeCard(cid) => RevokeCardForward(db, cid);
  }

  lemma DeskSalesForward(db: Db, s: Step, now: Time)
    requires Tables(db) && (s.DoCreateSale? || s.DoConfirmSale? || s.DoAgentSale?)
    ensures Forward(db, Next(db, s, now))
  {
    match s
    case DoCreateSale(oid, sale, custom, confirmed, tags) =>
      SameForward(db, db);
      if |tags| == sale.quantity { CreateSaleForward(db, oid, sale, custom, confirmed, tags, now); }
    case DoConfirmSale(oid, tags) => ConfirmSaleForward(db, oid, tags, now);
    case DoAgentSale(agent, active, request, fp, sale, grant, expected, oid, tags) =>
      AgentSaleForward(db, agent, active, request, fp, sale, grant, expected, oid, tags, now);
  }

  lemma OrderStepsForward(db: Db, s: Step, now: Time)
    requires Tables(db) && (s.DoReceiveSale? || s.DoRefund?)
    ensures Forward(db, Next(db, s, now))
  {
    match s
    case DoReceiveSale(channel, event, bodyHash, proof, body) =>
      ReceiveForward(db, channel, event, bodyHash, proof, body, now);
    case DoRefund(oid) =>
      SameForward(db, db);
      if oid in db.orders { RefundForward(db, oid, now); }
  }

  lemma ConfirmSaleForward(db: Db, oid: Id, tags: seq<Tag>, now: Time)
    requires Tables(db)
    ensures Forward(db, Commit(db, ConfirmSale(db, oid, tags, now)))
  {
    SameForward(db, db);
    if oid in db.orders && |tags| == db.orders[oid].quantity && db.orders[oid].status == Pending {
      assert OrderOk(db, oid);
      IssueForward(db, oid, tags, now);
    }
  }

  /** No transaction moves a lifecycle backwards. */
  lemma NextForward(db: Db, s: Step, now: Time)
    requires Tables(db)
    ensures Forward(db, Next(db, s, now))
  {
    if s.DoCreateSale? || s.DoConfirmSale? || s.DoAgentSale? {
      DeskSalesForward(db, s, now);
    } else if s.DoReceiveSale? || s.DoRefund? {
      OrderStepsForward(db, s, now);
    } else if s.DoRevokeCard? || s.DoRedeem? || s.DoActivateWithCard? {
      CardStepsForward(db, s, now);
    } else if s.DoActivate? || s.DoSetStatus? || s.DoBlockUpdates? {
      LicenseStepsForward(db, s, now);
    } else {
      SideStepsForward(db, s, now);
    }
  }

  // ---------- channel events ----------

  /** Orders other than a new one keep their channel, and a new channel order is receipted. */
  lemma ReceiptsFrame(db: Db, after: Db)
    requires ReceiptsOk(db) && Forward(db, after)
    requires forall k :: k in db.receipts ==> k in after.receipts && after.receipts[k] == db.receipts[k]
    requires forall k :: k in after.receipts && k !in db.receipts ==> after.receipts[k].order in after.orders
    requires forall o :: o in after.orders && o !in db.orders && after.orders[o].channel.Some? ==>
      var k := (after.orders[o].channel.value, after.orders[o].external);
      k in after.receipts && after.receipts[k].order == o
    ensures ReceiptsOk(after)
  {}

  ghost predicate NoChannelAdded(db: Db, after: Db) {
    && after.receipts == db.receipts
    && forall o :: o in after.orders && o !in db.orders ==> after.orders[o].channel.None?
  }

  /** Issuing and refunding leave order channels, order ids and receipts alone. */
  ghost predicate SameChannels(db: Db, after: Db) {
    && after.receipts == db.receipts && after.orders.Keys == db.orders.Keys
    && forall o :: o in db.orders ==>
       after.orders[o].channel == db.orders[o].channel && after.orders[o].external == db.orders[o].external
  }

  lemma IssueIs(db: Db, oid: Id, tags: seq<Tag>, now: Time)
    requires oid in db.orders && |tags| == db.orders[oid].quantity && IssueOrder(db, oid, tags, now).Ok?
    ensures Insertable(db, db.orders[oid], tags)
    ensures IssueOrder(db, oid, tags, now) == Ok(IssuedDb(db, oid, tags, now))
  {}

  lemma IssuedDbWrites(db: Db, oid: Id, tags: seq<Tag>, now: Time)
    requires oid in db.orders && Insertable(db, db.orders[oid], tags)
    ensures var after := IssuedDb(db, oid, tags, now);
      && after.orders == db.orders[oid := Confirm(db.orders[oid], LicenseIds(tags))]
      && after.receipts == db.receipts && after.books == db.books && after.app == db.app && after.plans == db.plans
  {}

  lemma IssueSameChannels(db: Db, oid: Id, tags: seq<Tag>, now: Time)
    requires oid in db.orders && |tags| == db.orders[oid].quantity
    ensures SameChannels(db, Commit(db, IssueOrder(db, oid, tags, now)))
  {
    if IssueOrder(db, oid, tags, now).Ok? {
      IssueIs(db, oid, tags, now);
      IssuedDbWrites(db, oid, tags, now);
    }
  }

  lemma RefundSameChannels(db: Db, oid: Id, now: Time)
    requires oid in db.orders
    ensures SameChannels(db, Commit(db, RefundOrder(db, oid, now)))
  {}

  lemma CreateSaleAddsNoChannel(db: Db, oid: Id, s: Sale, custom: Option<Terms>, confirmed: bool, tags: seq<Tag>,
                                now: Time)
    requires |tags| == s.quantity
    ensures NoChannelAdded(db, Commit(db, CreateSale(db, oid, s, custom, confirmed, tags, now)))
  {
    var r := CreateSale(db, oid, s, custom, confirmed, tags, now);
    if r.Ok? {
      var t := if custom.Some? then custom.value else db.plans[s.plan].terms;
      var placed := db.(orders := db.orders[oid := PendingOrder(s, NormalizeTerms(db.app, t).value, None, 0, None,
        "")]);
      IssueSameChannels(placed, oid, tags, now);
    }
  }

  lemma AgentSaleAddsNoChannel(db: Db, agent: Id, active: bool, request: string, fp: string, s: Sale,
                               grant: Option<Grant>, expected: int, oid: Id, tags: seq<Tag>, now: Time)
    ensures NoChannelAdded(db,
      Commit(db, AgentSale(db, agent, active, request, fp, s, grant, expected, oid, tags, now)))
  {
    var r := AgentSale(db, agent, active, request, fp, s, grant, expected, oid, tags, now);
    if r.Ok? && Lookup(db.books.entries, Application(db.app.id), agent, request).None? {
      var o := PendingOrder(s, db.plans[s.plan].terms, Some(agent), grant.value.unitCost * s.quantity, None, request);
      IssueSameChannels(db.(orders := db.orders[oid := o]), oid, tags, now);
    }
  }

  lemma SalesAddNoChannel(db: Db, s: Step, now: Time)
    requires s.DoCreateSale? || s.DoAgentSale? || s.DoConfirmSale? || s.DoRefund?
    ensures NoChannelAdded(db, Next(db, s, now))
  {
    match s
    case DoCreateSale(oid, sale, custom, confirmed, tags) =>
      if |tags| == sale.quantity { CreateSaleAddsNoChannel(db, oid, sale, custom, confirmed, tags, now); }
    case DoAgentSale(agent, active, request, fp, sale, grant, expected, oid, tags) =>
      AgentSaleAddsNoChannel(db, agent, active, request, fp, sale, grant, expected, oid, tags, now);
    case DoConfirmSale(oid, tags) =>
      if oid in db.orders && |tags| == db.orders[oid].quantity { IssueSameChannels(db, oid, tags, now); }
    case DoRefund(oid) => if oid in db.orders { RefundSameChannels(db, oid, now); }
  }

  lemma RedeemLeavesOrders(db: Db, lid: Id, hash: string, now: Time)
    requires RedeemRenewal(db, lid, hash, now).Ok?
    ensures var after := RedeemRenewal(db, lid, hash, now).value;
      after.orders == db.orders && after.receipts == db.receipts
  {}

  lemma CardActivationLeavesOrders(db: Db, hash: string, admitted: bool, now: Time)
    requires ActivateWithCard(db, hash, admitted, now).Ok?
    ensures var after := ActivateWithCard(db, hash, admitted, now).value;
      after.orders == db.orders && after.receipts == db.receipts
  {}

  lemma RowsLeaveOrders(db: Db, s: Step, now: Time)
    requires s.DoActivate? || s.DoSetStatus? || s.DoRevokeCard? || s.DoBlockUpdates?
    ensures Next(db, s, now).orders == db.orders && Next(db, s, now).receipts == db.receipts
  {
    match s
    case DoActivate(_, _) =>
    case DoSetStatus(_, _) =>
    case DoRevokeCard(_) =>
    case DoBlockUpdates(_, _) =>
  }

  lemma OthersLeaveOrders(db: Db, s: Step, now: Time)
    requires !s.DoReceiveSale? && !s.DoCreateSale? && !s.DoAgentSale? && !s.DoConfirmSale? && !s.DoRefund?
    ensures Next(db, s, now).orders == db.orders && Next(db, s, now).receipts == db.receipts
  {
    match s
    case DoRedeem(lid, hash) => if RedeemRenewal(db, lid, hash, now).Ok? { RedeemLeavesOrders(db, lid, hash, now); }
    case DoActivateWithCard(hash, admitted) =>
      if ActivateWithCard(db, hash, admitted, now).Ok? { CardActivationLeavesOrders(db, hash, admitted, now); }
    case SaveApp(_) => SideStepsKeepRows(db, s, now);
    case DoSavePlan(_, _, _) => SideStepsKeepRows(db, s, now);
    case Elsewhere(_) => SideStepsKeepRows(db, s, now);
    case _ => RowsLeaveOrders(db, s, now);
  }

  lemma RefundReceipted(db: Db, channel: Id, event: string, bodyHash: string, proof: Signing, original: string,
                        now: Time)
    requires ReceiptsOk(db) && (channel, event) !in db.receipts
    requires ReceiveSale(db, channel, event, bodyHash, proof, PaymentRefunded(original), now).Ok?
    ensures var after := ReceiveSale(db, channel, event, bodyHash, proof, PaymentRefunded(original), now).value;
      && ReceiptsOk(after)
      && forall k :: k in db.receipts ==> k in after.receipts && after.receipts[k] == db.receipts[k]
  {
    var oid := Only(ChannelOrders(db, channel, original));
    var mid := RefundOrder(db, oid, now).value;
    var after := ReceiveSale(db, channel, event, bodyHash, proof, PaymentRefunded(original), now).value;
    RefundSameChannels(db, oid, now);
    ReceiptAdded(db, mid, after, (channel, event), Receipt(bodyHash, oid));
  }

  lemma KeptSameChannels(db: Db, issued: Db, oid: Id)
    requires SameChannels(db, issued) && oid in issued.orders
    ensures SameChannels(db, issued.(orders := issued.orders[oid := Kept(issued.orders[oid])]))
  {}

  lemma PaymentReceipted(db: Db, channel: Id, event: string, bodyHash: string, proof: Signing, body: SaleEvent,
                         now: Time)
    requires ReceiptsOk(db) && (channel, event) !in db.receipts && body.PaymentConfirmed?
    requires ReceiveSale(db, channel, event, bodyHash, proof, body, now).Ok?
    ensures var after := ReceiveSale(db, channel, event, bodyHash, proof, body, now).value;
      && ReceiptsOk(after)
      && forall k :: k in db.receipts ==> k in after.receipts && after.receipts[k] == db.receipts[k]
  {
    var after, oid := ReceiveSale(db, channel, event, bodyHash, proof, body, now).value, body.oid;
    var o := PendingOrder(body.sale, db.plans[body.sale.plan].terms, None, 0, Some(channel), event);
    var placed := db.(orders := db.orders[oid := o]);
    IssueSameChannels(placed, oid, body.tags, now);
    var issued := IssueOrder(placed, oid, body.tags, now).value;
    var kept := issued.(orders := issued.orders[oid := Kept(issued.orders[oid])]);
    KeptSameChannels(placed, issued, oid);
    ReceiptAdded(placed, kept, after, (channel, event), Receipt(bodyHash, oid));
  }

  lemma ReceiveKeepsReceipts(db: Db, channel: Id, event: string, bodyHash: string, proof: Signing, body: SaleEvent,
                             now: Time)
    requires ReceiptsOk(db)
    ensures var after := Commit(db, ReceiveSale(db, channel, event, bodyHash, proof, body, now));
      && ReceiptsOk(after)
      && forall k :: k in db.receipts ==> k in after.receipts && after.receipts[k] == db.receipts[k]
  {
    var r := ReceiveSale(db, channel, event, bodyHash, proof, body, now);
    if r.Ok? && (channel, event) !in db.receipts {
      if body.PaymentRefunded? {
        RefundReceipted(db, channel, event, bodyHash, proof, body.original, now);
      } else {
        PaymentReceipted(db, channel, event, bodyHash, proof, body, now);
      }
    }
  }

  /** Adding the receipt that the one channel order without receipt, if any, was waiting for. */
  lemma ReceiptAdded(placed: Db, mid: Db, after: Db, k: (Id, string), r: Receipt)
    requires SameChannels(placed, mid) && after == mid.(receipts := mid.receipts[k := r])
    requires k !in placed.receipts && r.order in placed.orders
    requires forall x :: x in placed.receipts ==> placed.receipts[x].order in placed.orders
    requires forall o :: o in placed.orders && placed.orders[o].channel.Some? ==>
      var key := (placed.orders[o].channel.value, placed.orders[o].external);
      (key in placed.receipts && placed.receipts[key].order == o) || (key == k && o == r.order)
    ensures ReceiptsOk(after)
    ensures forall x :: x in placed.receipts ==> x in after.receipts && after.receipts[x] == placed.receipts[x]
  {}

  /** Each channel event leads to at most one order, ever: receipts and channel orders match. */
  lemma NextKeepsReceipts(db: Db, s: Step, now: Time)
    requires Tables(db) && ReceiptsOk(db)
    ensures ReceiptsOk(Next(db, s, now))
    ensures forall k :: k in db.receipts ==>
      k in Next(db, s, now).receipts && Next(db, s, now).receipts[k] == db.receipts[k]
  {
    if s.DoReceiveSale? {
      ReceiveKeepsReceipts(db, s.channel, s.event, s.bodyHash, s.proof, s.body, now);
    } else {
      if s.DoCreateSale? || s.DoAgentSale? || s.DoConfirmSale? || s.DoRefund? {
        SalesAddNoChannel(db, s, now);
      } else {
        OthersLeaveOrders(db, s, now);
      }
      NextForward(db, s, now);
      ReceiptsFrame(db, Next(db, s, now));
    }
  }
}
