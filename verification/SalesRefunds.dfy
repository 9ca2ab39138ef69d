/** When a refund goes through, when two refunds commute, and that a refund never moves a date later. */
module SalesRefunds {
  import opened Basics
  import opened Ledger
  import opened Money
  import opened SalesModel
  import opened SalesInvariants
  import opened SalesHistory
  import opened SalesRuns

  // ---------- what the rebuild depends on ----------

  ghost predicate SameUses(a: map<Id, Card>, b: map<Id, Card>) {
    a.Keys == b.Keys && forall c :: c in a ==>
      a[c].redeemed == b[c].redeemed && a[c].usedAt == b[c].usedAt && a[c].purpose == b[c].purpose
  }

  lemma {:induction false} SameRedeemedRows(rows: seq<Id>, a: map<Id, Card>, b: map<Id, Card>, lid: Id)
    requires SameUses(a, b)
    ensures RedeemedRows(rows, a, lid) == RedeemedRows(rows, b, lid)
  {
    if rows != [] { SameRedeemedRows(rows[..|rows| - 1], a, b, lid); }
  }

  lemma {:induction false} SameInsert(sorted: seq<Id>, a: map<Id, Card>, b: map<Id, Card>, c: Id)
    requires SameUses(a, b) && c in a && forall x :: x in sorted ==> x in a
    ensures InsertSorted(sorted, a, c) == InsertSorted(sorted, b, c)
  {
    if sorted != [] {
      assert sorted[|sorted| - 1] in sorted;
      SameInsert(sorted[..|sorted| - 1], a, b, c);
    }
  }

  lemma {:induction false} SameSort(rows: seq<Id>, a: map<Id, Card>, b: map<Id, Card>)
    requires SameUses(a, b) && forall x :: x in rows ==> x in a
    ensures SortByUse(rows, a) == SortByUse(rows, b)
  {
    if rows != [] {
      assert rows[|rows| - 1] in rows;
      SameSort(rows[..|rows| - 1], a, b);
      SameInsert(SortByUse(rows[..|rows| - 1], a), a, b, rows[|rows| - 1]);
    }
  }

  ghost predicate SameCredit(la: map<Id, License>, a: map<Id, Card>, lb: map<Id, License>, b: map<Id, Card>, c: Id)
    requires c in a && c in b
  {
    (a[c].refundedAt.Some? <==> b[c].refundedAt.Some?) && DaysOf(la, a[c]) == DaysOf(lb, b[c])
  }

  lemma {:induction false} SameCreditsOf(la: map<Id, License>, a: map<Id, Card>, lb: map<Id, License>, b: map<Id, Card>,
                                         ids: seq<Id>)
    requires SameUses(a, b) && forall c :: c in ids ==> c in a && SameCredit(la, a, lb, b, c)
    ensures CreditsOf(la, a, ids) == CreditsOf(lb, b, ids)
  {
    if ids != [] {
      assert ids[|ids| - 1] in ids;
      SameCreditsOf(la, a, lb, b, ids[..|ids| - 1]);
    }
  }

  /** The rebuild reads the base dates and the redeemed cards' uses, refunds and days; nothing else. */
  lemma RecomputedReads(la: map<Id, License>, a: map<Id, Card>, lb: map<Id, License>, b: map<Id, Card>, rows: seq<Id>,
                        lid: Id)
    requires lid in la && lid in lb && ResetToBase(la[lid].dates) == ResetToBase(lb[lid].dates) && SameUses(a, b)
    requires forall c :: c in a && a[c].redeemed == Some(lid) ==> SameCredit(la, a, lb, b, c)
    ensures Recomputed(la, a, rows, lid) == Recomputed(lb, b, rows, lid)
  {
    var ids := RedeemedRows(rows, a, lid);
    SameRedeemedRows(rows, a, b, lid);
    SameSort(ids, a, b);
    forall c | c in SortByUse(ids, a) ensures c in a && SameCredit(la, a, lb, b, c) {
      assert c in multiset(ids);
    }
    SameCreditsOf(la, a, lb, b, SortByUse(ids, a));
  }

  // ---------- one refund ----------

  lemma AffectedByRefund(db: Db, after: Db, oid: Id, now: Time, sources: seq<Id>, lid: Id)
    requires Tables(db) && RefundedTo(db, after, oid, now)
    ensures Affected(after.cards, sources, lid) <==> Affected(db.cards, sources, lid)
    ensures SameUses(db.cards, after.cards)
  {
    forall c | c in db.cards ensures after.cards[c].bound == db.cards[c].bound
      && after.cards[c].redeemed == db.cards[c].redeemed
    {
      RefundedCardIs(db, after, oid, now, c);
    }
    if Affected(db.cards, sources, lid) {
      var c :| c in db.cards && db.cards[c].bound in sources && db.cards[c].redeemed == Some(lid);
      assert c in after.cards && after.cards[c].bound in sources && after.cards[c].redeemed == Some(lid);
    }
  }

  /** Sources of renewals keep their days through a refund. */
  lemma RefundKeepsDays(db: Db, after: Db, oid: Id, now: Time, c: Id)
    requires Tables(db) && RefundedTo(db, after, oid, now) && c in db.cards && db.cards[c].redeemed.Some?
    ensures c in after.cards && DaysOf(after.licenses, after.cards[c]) == DaysOf(db.licenses, db.cards[c])
  {
    assert CardOk(db, c);
    RefundedCardIs(db, after, oid, now, c);
    RefundedLicense(db, after, oid, now, db.cards[c].bound);
  }

  /** The dates after a refund, in terms of the licenses before it. */
  lemma RefundedDates(db: Db, after: Db, oid: Id, now: Time, lid: Id)
    requires Tables(db) && RefundedTo(db, after, oid, now) && lid in db.licenses
    ensures lid in after.licenses
    ensures after.licenses[lid].dates
      == if Affected(db.cards, db.orders[oid].licenses, lid)
         then Recomputed(db.licenses, after.cards, db.cardRows, lid) else db.licenses[lid].dates
  {
    var sources := db.orders[oid].licenses;
    AffectedByRefund(db, after, oid, now, sources, lid);
    RefundedLicense(db, after, oid, now, lid);
    RevokedRecomputes(db.licenses, after.cards, db.cardRows, sources, lid);
  }

  /** Revoking licenses does not change what the rebuild reads. */
  lemma RevokedRecomputes(licenses: map<Id, License>, cards: map<Id, Card>, rows: seq<Id>, sources: seq<Id>, lid: Id)
    requires lid in licenses
    ensures Recomputed(RevokedLicenses(licenses, sources), cards, rows, lid) == Recomputed(licenses, cards, rows, lid)
  {
    var revoked := RevokedLicenses(licenses, sources);
    forall c | c in cards ensures SameCredit(licenses, cards, revoked, cards, c) {}
    RecomputedReads(licenses, cards, revoked, cards, rows, lid);
  }

  // ---------- two refunds ----------

  /** Both orders of refunding two orders: `x` then `xb`, and `y` then `ya`. */
  ghost predicate BothWays(db: Db, x: Db, xb: Db, y: Db, ya: Db, a: Id, b: Id, now: Time) {
    && Tables(db) && Tables(x) && Tables(y) && a != b
    && RefundedTo(db, x, a, now) && RefundedTo(x, xb, b, now)
    && RefundedTo(db, y, b, now) && RefundedTo(y, ya, a, now)
  }

  lemma TwoRefundsCard(db: Db, x: Db, xb: Db, a: Id, b: Id, now: Time, c: Id)
    requires Tables(db) && Tables(x) && RefundedTo(db, x, a, now) && RefundedTo(x, xb, b, now) && c in db.cards
    ensures db.cards[c].bound in db.licenses && c in xb.cards
    ensures var order := db.licenses[db.cards[c].bound].order;
      xb.cards[c] == if order == a || order == b then db.cards[c].(refundedAt := Some(now), status := CardRevoked)
        else db.cards[c]
  {
    RefundedCardIs(db, x, a, now, c);
    RefundedLicense(db, x, a, now, db.cards[c].bound);
    RefundedCardIs(x, xb, b, now, c);
  }

  lemma RefundKeys(db: Db, after: Db, oid: Id, now: Time)
    requires RefundedTo(db, after, oid, now)
    ensures after.licenses.Keys == db.licenses.Keys && after.cards.Keys == db.cards.Keys
  {}

  lemma SameMap<T>(a: map<Id, T>, b: map<Id, T>)
    requires a.Keys == b.Keys && forall k :: k in a ==> a[k] == b[k]
    ensures a == b
  {}

  lemma BothWaysKeys(db: Db, x: Db, xb: Db, y: Db, ya: Db, a: Id, b: Id, now: Time)
    requires BothWays(db, x, xb, y, ya, a, b, now)
    ensures xb.licenses.Keys == db.licenses.Keys == ya.licenses.Keys && xb.cards.Keys == db.cards.Keys == ya.cards.Keys
    ensures xb.orders == ya.orders
  {
    RefundKeys(db, x, a, now);
    RefundKeys(x, xb, b, now);
    RefundKeys(db, y, b, now);
    RefundKeys(y, ya, a, now);
  }

  lemma BothWaysCard(db: Db, x: Db, xb: Db, y: Db, ya: Db, a: Id, b: Id, now: Time, c: Id)
    requires BothWays(db, x, xb, y, ya, a, b, now) && c in db.cards
    ensures c in xb.cards && c in ya.cards && xb.cards[c] == ya.cards[c]
    ensures xb.cards[c] == db.cards[c].(refundedAt := xb.cards[c].refundedAt, status := xb.cards[c].status)
  {
    TwoRefundsCard(db, x, xb, a, b, now, c);
    TwoRefundsCard(db, y, ya, b, a, now, c);
  }

  lemma BothWaysCards(db: Db, x: Db, xb: Db, y: Db, ya: Db, a: Id, b: Id, now: Time)
    requires BothWays(db, x, xb, y, ya, a, b, now)
    ensures xb.cards == ya.cards && SameUses(db.cards, xb.cards)
  {
    BothWaysKeys(db, x, xb, y, ya, a, b, now);
    forall c | c in db.cards
      ensures xb.cards[c] == ya.cards[c]
      ensures xb.cards[c] == db.cards[c].(refundedAt := xb.cards[c].refundedAt, status := xb.cards[c].status)
    {
      BothWaysCard(db, x, xb, y, ya, a, b, now, c);
    }
    SameMap(xb.cards, ya.cards);
  }

  /** A card that no license of `b` is behind is the same before and after the refund of `b`. */
  lemma OtherRefundLeavesCard(x: Db, xb: Db, b: Id, now: Time, lid: Id, c: Id)
    requires Tables(x) && RefundedTo(x, xb, b, now) && c in x.cards && x.cards[c].redeemed == Some(lid)
    requires !Affected(x.cards, x.orders[b].licenses, lid)
    ensures c in xb.cards && xb.cards[c] == x.cards[c]
  {
    RefundedCardIs(x, xb, b, now, c);
    OrderOwns(x, b, x.cards[c].bound);
  }

  lemma BothWaysDays(db: Db, x: Db, xb: Db, y: Db, ya: Db, a: Id, b: Id, now: Time, c: Id)
    requires BothWays(db, x, xb, y, ya, a, b, now) && c in db.cards && db.cards[c].redeemed.Some?
    ensures c in x.cards && c in y.cards && c in xb.cards
    ensures DaysOf(x.licenses, xb.cards[c]) == DaysOf(db.licenses, db.cards[c]) == DaysOf(y.licenses, xb.cards[c])
    ensures DaysOf(db.licenses, x.cards[c]) == DaysOf(db.licenses, db.cards[c]) == DaysOf(db.licenses, y.cards[c])
  {
    RefundKeepsDays(db, x, a, now, c);
    RefundKeepsDays(db, y, b, now, c);
    RefundedCardIs(db, x, a, now, c);
    RefundedCardIs(db, y, b, now, c);
    RefundedCardIs(x, xb, b, now, c);
  }

  lemma SameBase(db: Db, after: Db, oid: Id, now: Time, lid: Id)
    requires Tables(db) && RefundedTo(db, after, oid, now) && lid in db.licenses
    ensures lid in after.licenses && ResetToBase(after.licenses[lid].dates) == ResetToBase(db.licenses[lid].dates)
  {
    RefundedLicense(db, after, oid, now, lid);
  }

  /** The dates a license that the second refund affects ends up with. */
  lemma SecondRefundDates(db: Db, x: Db, xb: Db, a: Id, b: Id, now: Time, lid: Id)
    requires Tables(db) && Tables(x) && a != b && RefundedTo(db, x, a, now) && RefundedTo(x, xb, b, now)
      && lid in db.licenses
    ensures lid in x.licenses && lid in xb.licenses && b in db.orders
    ensures xb.licenses[lid].dates
      == if Affected(db.cards, db.orders[b].licenses, lid)
         then Recomputed(x.licenses, xb.cards, db.cardRows, lid) else x.licenses[lid].dates
  {
    SameBase(db, x, a, now, lid);
    RefundedDates(x, xb, b, now, lid);
    AffectedByRefund(db, x, a, now, db.orders[b].licenses, lid);
  }

  lemma BothAffected(db: Db, x: Db, xb: Db, y: Db, ya: Db, a: Id, b: Id, now: Time, lid: Id)
    requires BothWays(db, x, xb, y, ya, a, b, now) && lid in db.licenses
    requires Affected(db.cards, db.orders[a].licenses, lid) && Affected(db.cards, db.orders[b].licenses, lid)
    ensures lid in xb.licenses && lid in ya.licenses && xb.licenses[lid].dates == ya.licenses[lid].dates
  {
    SecondRefundDates(db, x, xb, a, b, now, lid);
    SecondRefundDates(db, y, ya, b, a, now, lid);
    BothSame(db, x, xb, y, ya, a, b, now, lid);
  }

  lemma BothSame(db: Db, x: Db, xb: Db, y: Db, ya: Db, a: Id, b: Id, now: Time, lid: Id)
    requires BothWays(db, x, xb, y, ya, a, b, now) && lid in db.licenses && lid in x.licenses && lid in y.licenses
    ensures Recomputed(x.licenses, xb.cards, db.cardRows, lid) == Recomputed(y.licenses, ya.cards, db.cardRows, lid)
  {
    SameBase(db, x, a, now, lid);
    SameBase(db, y, b, now, lid);
    BothWaysCards(db, x, xb, y, ya, a, b, now);
    var cards := xb.cards;
    forall c | c in cards && cards[c].redeemed == Some(lid)
      ensures SameCredit(x.licenses, cards, y.licenses, cards, c)
    {
      BothWaysDays(db, x, xb, y, ya, a, b, now, c);
    }
    RecomputedReads(x.licenses, cards, y.licenses, cards, db.cardRows, lid);
  }

  lemma FirstSame(db: Db, x: Db, xb: Db, y: Db, ya: Db, a: Id, b: Id, now: Time, lid: Id)
    requires BothWays(db, x, xb, y, ya, a, b, now) && lid in db.licenses && lid in y.licenses
    requires !Affected(x.cards, x.orders[b].licenses, lid)
    ensures Recomputed(db.licenses, x.cards, db.cardRows, lid) == Recomputed(y.licenses, ya.cards, db.cardRows, lid)
  {
    SameBase(db, y, b, now, lid);
    BothWaysCards(db, x, xb, y, ya, a, b, now);
    forall c | c in x.cards && x.cards[c].redeemed == Some(lid)
      ensures c in xb.cards && SameCredit(db.licenses, x.cards, y.licenses, xb.cards, c)
    {
      FirstSameCredit(db, x, xb, y, ya, a, b, now, lid, c);
    }
    AffectedByRefund(x, xb, b, now, [], lid);
    RecomputedReads(db.licenses, x.cards, y.licenses, xb.cards, db.cardRows, lid);
  }

  lemma FirstSameCredit(db: Db, x: Db, xb: Db, y: Db, ya: Db, a: Id, b: Id, now: Time, lid: Id, c: Id)
    requires BothWays(db, x, xb, y, ya, a, b, now) && c in x.cards && x.cards[c].redeemed == Some(lid)
    requires !Affected(x.cards, x.orders[b].licenses, lid)
    ensures c in xb.cards && SameCredit(db.licenses, x.cards, y.licenses, xb.cards, c)
  {
    RefundedCardIs(db, x, a, now, c);
    BothWaysDays(db, x, xb, y, ya, a, b, now, c);
    OtherRefundLeavesCard(x, xb, b, now, lid, c);
  }

  /** A license only the first refund affects keeps the dates that refund gave it. */
  lemma OnlyFirstAffects(db: Db, x: Db, xb: Db, a: Id, b: Id, now: Time, lid: Id)
    requires Tables(db) && Tables(x) && a != b && RefundedTo(db, x, a, now) && RefundedTo(x, xb, b, now)
      && lid in db.licenses
    requires Affected(db.cards, db.orders[a].licenses, lid) && b in db.orders
      && !Affected(db.cards, db.orders[b].licenses, lid)
    ensures lid in xb.licenses && xb.licenses[lid].dates == Recomputed(db.licenses, x.cards, db.cardRows, lid)
  {
    RefundedDates(db, x, a, now, lid);
    SecondRefundDates(db, x, xb, a, b, now, lid);
  }

  lemma FirstAffected(db: Db, x: Db, xb: Db, y: Db, ya: Db, a: Id, b: Id, now: Time, lid: Id)
    requires BothWays(db, x, xb, y, ya, a, b, now) && lid in db.licenses
    requires Affected(db.cards, db.orders[a].licenses, lid) && !Affected(db.cards, db.orders[b].licenses, lid)
    ensures lid in xb.licenses && lid in ya.licenses && xb.licenses[lid].dates == ya.licenses[lid].dates
  {
    OnlyFirstAffects(db, x, xb, a, b, now, lid);
    SecondRefundDates(db, y, ya, b, a, now, lid);
    StillUnaffected(db, x, a, b, now, lid);
    FirstSame(db, x, xb, y, ya, a, b, now, lid);
  }

  lemma StillUnaffected(db: Db, x: Db, a: Id, b: Id, now: Time, lid: Id)
    requires Tables(db) && RefundedTo(db, x, a, now) && a != b && b in db.orders
      && !Affected(db.cards, db.orders[b].licenses, lid)
    ensures b in x.orders && !Affected(x.cards, x.orders[b].licenses, lid)
  {
    AffectedByRefund(db, x, a, now, db.orders[b].licenses, lid);
  }

  lemma NoneAffected(db: Db, x: Db, xb: Db, a: Id, b: Id, now: Time, lid: Id)
    requires Tables(db) && Tables(x) && RefundedTo(db, x, a, now) && RefundedTo(x, xb, b, now) && lid in db.licenses
    requires !Affected(db.cards, db.orders[a].licenses, lid) && !Affected(db.cards, x.orders[b].licenses, lid)
    ensures lid in xb.licenses && xb.licenses[lid].dates == db.licenses[lid].dates
  {
    AffectedByRefund(db, x, a, now, x.orders[b].licenses, lid);
    RefundedDates(db, x, a, now, lid);
    RefundedDates(x, xb, b, now, lid);
  }

  lemma TwoRefundsStatus(db: Db, x: Db, xb: Db, a: Id, b: Id, now: Time, lid: Id)
    requires Tables(db) && Tables(x) && RefundedTo(db, x, a, now) && RefundedTo(x, xb, b, now) && lid in db.licenses
    ensures lid in xb.licenses
    ensures var l := db.licenses[lid];
      xb.licenses[lid] == l.(dates := xb.licenses[lid].dates, status := if l.order == a || l.order == b then Revoked
        else l.status)
  {
    RefundedLicense(db, x, a, now, lid);
    RefundedLicense(x, xb, b, now, lid);
  }

  lemma SomeAffected(db: Db, x: Db, xb: Db, y: Db, ya: Db, a: Id, b: Id, now: Time, lid: Id)
    requires BothWays(db, x, xb, y, ya, a, b, now) && lid in db.licenses
    requires Affected(db.cards, db.orders[a].licenses, lid)
    ensures lid in xb.licenses && lid in ya.licenses && xb.licenses[lid].dates == ya.licenses[lid].dates
  {
    if Affected(db.cards, db.orders[b].licenses, lid) {
      BothAffected(db, x, xb, y, ya, a, b, now, lid);
    } else {
      FirstAffected(db, x, xb, y, ya, a, b, now, lid);
    }
  }

  lemma BothWaysDates(db: Db, x: Db, xb: Db, y: Db, ya: Db, a: Id, b: Id, now: Time, lid: Id)
    requires BothWays(db, x, xb, y, ya, a, b, now) && lid in db.licenses
    ensures lid in xb.licenses && lid in ya.licenses && xb.licenses[lid].dates == ya.licenses[lid].dates
  {
    if Affected(db.cards, db.orders[a].licenses, lid) {
      SomeAffected(db, x, xb, y, ya, a, b, now, lid);
    } else if Affected(db.cards, db.orders[b].licenses, lid) {
      SomeAffected(db, y, ya, x, xb, b, a, now, lid);
    } else {
      NoneAffected(db, x, xb, a, b, now, lid);
      NoneAffected(db, y, ya, b, a, now, lid);
    }
  }

  lemma BothWaysLicense(db: Db, x: Db, xb: Db, y: Db, ya: Db, a: Id, b: Id, now: Time, lid: Id)
    requires BothWays(db, x, xb, y, ya, a, b, now) && lid in db.licenses
    ensures lid in xb.licenses && lid in ya.licenses && xb.licenses[lid] == ya.licenses[lid]
  {
    BothWaysDates(db, x, xb, y, ya, a, b, now, lid);
    TwoRefundsStatus(db, x, xb, a, b, now, lid);
    TwoRefundsStatus(db, y, ya, b, a, now, lid);
  }

  lemma BothWaysAgree(db: Db, x: Db, xb: Db, y: Db, ya: Db, a: Id, b: Id, now: Time)
    requires BothWays(db, x, xb, y, ya, a, b, now)
    ensures xb.licenses == ya.licenses && xb.cards == ya.cards && xb.orders == ya.orders
  {
    BothWaysKeys(db, x, xb, y, ya, a, b, now);
    BothWaysCards(db, x, xb, y, ya, a, b, now);
    forall l | l in xb.licenses ensures l in ya.licenses && xb.licenses[l] == ya.licenses[l] {
      BothWaysLicense(db, x, xb, y, ya, a, b, now, l);
    }
    SameMap(xb.licenses, ya.licenses);
  }

  // ---------- when a refund goes through ----------

  /** The request key of the order's refund is taken in its agent's ledger. */
  predicate KeyTaken(db: Db, oid: Id)
    requires oid in db.orders
  {
    var o := db.orders[oid];
    o.agent.Some? && Recorded(db.books.entries, Application(db.app.id), o.agent.value, RefundRequest(oid))
  }

  /** An agent's account can take the cost back, and no row has the refund's key yet. */
  predicate Refundable(db: Db, oid: Id)
    requires oid in db.orders
  {
    var o := db.orders[oid];
    o.agent.Some? ==>
      && o.agent.value in db.books.balances
      && 0 <= o.cost <= MAX_MONEY - db.books.balances[o.agent.value]
      && !KeyTaken(db, oid)
  }

  /** A confirmed order is refunded iff its agent's account exists and stays within the cap, its cost is not
      negative, and the request key of the refund is free. */
  lemma RefundIff(db: Db, oid: Id, now: Time)
    requires oid in db.orders && db.orders[oid].status == Confirmed
    ensures RefundOrder(db, oid, now).Ok? <==> Refundable(db, oid)
  {}

  /** Refunding `oid` changes the tables. */
  predicate Effective(db: Db, oid: Id) {
    oid in db.orders && db.orders[oid].status == Confirmed && Refundable(db, oid)
  }

  lemma IdleRefund(db: Db, oid: Id, now: Time)
    requires !Effective(db, oid)
    ensures Next(db, DoRefund(oid), now) == db
  {}

  /** The books after an effective refund. */
  function Credited(db: Db, oid: Id): Books
    requires Effective(db, oid)
  {
    var o, b := db.orders[oid], db.books;
    if o.agent.None? then b
    else
      var balance := b.balances[o.agent.value] + o.cost;
      b.(balances := b.balances[o.agent.value := balance],
         entries := b.entries
           + [Entry(Application(db.app.id), o.agent.value, RefundRequest(oid), Refund, oid, "", o.cost, balance)])
  }

  lemma EffectiveRefund(db: Db, oid: Id, now: Time)
    requires Effective(db, oid)
    ensures var after := Next(db, DoRefund(oid), now);
      && RefundedTo(db, after, oid, now)
      && after == db.(orders := after.orders, licenses := after.licenses, cards := after.cards,
         books := Credited(db, oid))
  {
    RefundIff(db, oid, now);
  }

  /** Two refunds to one account of which each fits under the cap and both together do not. */
  predicate Rivals(db: Db, a: Id, b: Id) {
    && a != b && Effective(db, a) && Effective(db, b)
    && db.orders[a].agent.Some? && db.orders[a].agent == db.orders[b].agent
    && db.orders[a].cost + db.orders[b].cost > MAX_MONEY - db.books.balances[db.orders[a].agent.value]
  }

  /** Two orders of an agent whose balance is below the cap by the dearer of the two. */
  lemma NearCapRivals(db: Db, a: Id, b: Id)
    requires a != b && a in db.orders && b in db.orders && db.orders[a].status == Confirmed == db.orders[b].status
    requires db.orders[a].agent.Some? && db.orders[a].agent == db.orders[b].agent
    requires !KeyTaken(db, a) && !KeyTaken(db, b)
    requires 0 < db.orders[a].cost && 0 < db.orders[b].cost
    requires var agent := db.orders[a].agent.value;
      agent in db.books.balances
      && db.books.balances[agent] == MAX_MONEY - Max(db.orders[a].cost, db.orders[b].cost)
    ensures Rivals(db, a, b)
  {}

  lemma EffectiveAfter(db: Db, a: Id, b: Id, now: Time)
    requires a != b && Effective(db, a)
    ensures Effective(Next(db, DoRefund(a), now), b) <==> Effective(db, b) && !Rivals(db, a, b)
  {
    var x := Next(db, DoRefund(a), now);
    EffectiveRefund(db, a, now);
    assert RefundRequest(a)[7..] == a && RefundRequest(b)[7..] == b;
    if b in db.orders && db.orders[b].agent.Some? {
      var book, agent := Application(db.app.id), db.orders[b].agent.value;
      RecordedAfterRefund(db, a, book, agent, RefundRequest(b));
    }
  }

  lemma RecordedAfterRefund(db: Db, oid: Id, book: Book, agent: Id, request: string)
    requires Effective(db, oid) && request != RefundRequest(oid)
    ensures Recorded(Credited(db, oid).entries, book, agent, request)
      <==> Recorded(db.books.entries, book, agent, request)
  {
    var before, after := db.books.entries, Credited(db, oid).entries;
    if i :| 0 <= i < |before| && SameKey(before[i], book, agent, request) {
      assert after[i] == before[i];
    }
  }

  // ---------- the instant of a refund ----------

  predicate CardAlike(a: Card, b: Card) {
    (a.refundedAt.Some? <==> b.refundedAt.Some?) && b == a.(refundedAt := b.refundedAt)
  }

  ghost predicate CardsAlike(a: map<Id, Card>, b: map<Id, Card>) {
    a.Keys == b.Keys && forall c :: c in a ==> CardAlike(a[c], b[c])
  }

  /** Equal up to the instants at which cards were refunded. */
  ghost predicate Alike(x: Db, y: Db) {
    y == x.(cards := y.cards) && CardsAlike(x.cards, y.cards)
  }

  lemma RefundedCardsAlike(x: Db, y: Db, x': Db, y': Db, oid: Id, s: Time, t: Time)
    requires Tables(x) && Tables(y) && Alike(x, y) && RefundedTo(x, x', oid, s) && RefundedTo(y, y', oid, t)
    ensures CardsAlike(x'.cards, y'.cards)
  {
    forall c | c in x.cards ensures c in x'.cards && c in y'.cards && CardAlike(x'.cards[c], y'.cards[c]) {
      RefundedCardIs(x, x', oid, s, c);
      RefundedCardIs(y, y', oid, t, c);
    }
  }

  lemma RefundedDatesAlike(x: Db, y: Db, x': Db, y': Db, oid: Id, s: Time, t: Time, lid: Id)
    requires Tables(x) && Tables(y) && Alike(x, y) && RefundedTo(x, x', oid, s) && RefundedTo(y, y', oid, t)
    requires lid in x.licenses
    ensures lid in x'.licenses && lid in y'.licenses && x'.licenses[lid].dates == y'.licenses[lid].dates
  {
    RefundedCardsAlike(x, y, x', y', oid, s, t);
    RefundedDates(x, x', oid, s, lid);
    RefundedDates(y, y', oid, t, lid);
    SameAffected(x.cards, y.cards, x.orders[oid].licenses, lid);
    RecomputedAlike(x.licenses, x'.cards, y'.cards, x.cardRows, lid);
  }

  lemma RecomputedAlike(licenses: map<Id, License>, a: map<Id, Card>, b: map<Id, Card>, rows: seq<Id>, lid: Id)
    requires lid in licenses && CardsAlike(a, b)
    ensures Recomputed(licenses, a, rows, lid) == Recomputed(licenses, b, rows, lid)
  {
    forall c | c in a ensures SameCredit(licenses, a, licenses, b, c) { assert CardAlike(a[c], b[c]); }
    RecomputedReads(licenses, a, licenses, b, rows, lid);
  }

  lemma RefundedLicenseAlike(x: Db, y: Db, x': Db, y': Db, oid: Id, s: Time, t: Time, lid: Id)
    requires Tables(x) && Tables(y) && Alike(x, y) && RefundedTo(x, x', oid, s) && RefundedTo(y, y', oid, t)
    requires lid in x.licenses
    ensures lid in x'.licenses && lid in y'.licenses && x'.licenses[lid] == y'.licenses[lid]
  {
    RefundedLicense(x, x', oid, s, lid);
    RefundedLicense(y, y', oid, t, lid);
    RefundedDatesAlike(x, y, x', y', oid, s, t, lid);
  }

  lemma RefundedLicensesAlike(x: Db, y: Db, x': Db, y': Db, oid: Id, s: Time, t: Time)
    requires Tables(x) && Tables(y) && Alike(x, y) && RefundedTo(x, x', oid, s) && RefundedTo(y, y', oid, t)
    ensures x'.licenses == y'.licenses
  {
    RefundKeys(x, x', oid, s);
    RefundKeys(y, y', oid, t);
    forall l | l in x'.licenses ensures l in y'.licenses && x'.licenses[l] == y'.licenses[l] {
      RefundedLicenseAlike(x, y, x', y', oid, s, t, l);
    }
    SameMap(x'.licenses, y'.licenses);
  }

  lemma SameAffected(a: map<Id, Card>, b: map<Id, Card>, sources: seq<Id>, lid: Id)
    requires CardsAlike(a, b)
    ensures Affected(a, sources, lid) <==> Affected(b, sources, lid)
  {
    if c :| c in a && a[c].bound in sources && a[c].redeemed == Some(lid) { assert CardAlike(a[c], b[c]); }
    if c :| c in b && b[c].bound in sources && b[c].redeemed == Some(lid) { assert CardAlike(a[c], b[c]); }
  }

  lemma EffectiveAlike(x: Db, y: Db, x': Db, y': Db, oid: Id, s: Time, t: Time)
    requires Tables(x) && Tables(y) && Alike(x, y) && RefundedTo(x, x', oid, s) && RefundedTo(y, y', oid, t)
    requires Effective(x, oid) && Effective(y, oid)
    requires x' == x.(orders := x'.orders, licenses := x'.licenses, cards := x'.cards, books := Credited(x, oid))
    requires y' == y.(orders := y'.orders, licenses := y'.licenses, cards := y'.cards, books := Credited(y, oid))
    ensures Alike(x', y')
  {
    RefundedCardsAlike(x, y, x', y', oid, s, t);
    RefundedLicensesAlike(x, y, x', y', oid, s, t);
    assert Credited(x, oid) == Credited(y, oid);
  }

  /** The instant at which an order is refunded is seen in the stamps of its cards and nowhere else. */
  lemma RefundAlike(x: Db, y: Db, oid: Id, s: Time, t: Time)
    requires Tables(x) && Tables(y) && Alike(x, y)
    ensures Alike(Next(x, DoRefund(oid), s), Next(y, DoRefund(oid), t))
  {
    if Effective(x, oid) {
      EffectiveRefund(x, oid, s);
      EffectiveRefund(y, oid, t);
      EffectiveAlike(x, y, Next(x, DoRefund(oid), s), Next(y, DoRefund(oid), t), oid, s, t);
    } else {
      IdleRefund(x, oid, s);
      IdleRefund(y, oid, t);
    }
  }

  // ---------- refunds commute ----------

  /** Equal up to the instants stamped on refunded cards and the rows of the ledger; the balances are equal. */
  ghost predicate SameOutcome(x: Db, y: Db) {
    && y == x.(cards := y.cards, books := y.books) && CardsAlike(x.cards, y.cards)
    && y.books == x.books.(entries := y.books.entries)
  }

  lemma SameBalances(db: Db, x: Db, y: Db, a: Id, b: Id)
    requires a != b && Effective(db, a) && Effective(db, b) && Effective(x, b) && Effective(y, a)
    requires x.orders == db.orders[a := db.orders[a].(status := Refunded)] && x.books == Credited(db, a)
    requires y.orders == db.orders[b := db.orders[b].(status := Refunded)] && y.books == Credited(db, b)
    ensures Credited(y, a) == Credited(x, b).(entries := Credited(y, a).entries)
  {}

  lemma RefundsCommuteNow(db: Db, a: Id, b: Id, now: Time)
    requires Tables(db) && a != b && Effective(db, a) && Effective(db, b) && !Rivals(db, a, b)
    ensures SameOutcome(Next(Next(db, DoRefund(a), now), DoRefund(b), now),
                        Next(Next(db, DoRefund(b), now), DoRefund(a), now))
  {
    var x, y := Next(db, DoRefund(a), now), Next(db, DoRefund(b), now);
    EffectiveAfter(db, a, b, now);
    EffectiveAfter(db, b, a, now);
    EffectiveRefund(db, a, now);
    EffectiveRefund(db, b, now);
    EffectiveRefund(x, b, now);
    EffectiveRefund(y, a, now);
    NextKeepsTables(db, DoRefund(a), now);
    NextKeepsTables(db, DoRefund(b), now);
    BothWaysAgree(db, x, Next(x, DoRefund(b), now), y, Next(y, DoRefund(a), now), a, b, now);
    SameBalances(db, x, y, a, b);
  }

  lemma AlikeOutcome(w: Db, x: Db, y: Db, z: Db)
    requires Alike(w, x) && SameOutcome(x, y) && Alike(y, z)
    ensures SameOutcome(w, z)
  {
    forall c | c in w.cards ensures c in z.cards && CardAlike(w.cards[c], z.cards[c]) {
      assert CardAlike(w.cards[c], x.cards[c]) && CardAlike(x.cards[c], y.cards[c])
        && CardAlike(y.cards[c], z.cards[c]);
    }
  }

  lemma BothRefundsCommute(db: Db, a: Id, b: Id, s: Time, t: Time, u: Time, v: Time)
    requires Tables(db) && a != b && Effective(db, a) && Effective(db, b) && !Rivals(db, a, b)
    ensures SameOutcome(Next(Next(db, DoRefund(a), s), DoRefund(b), t), Next(Next(db, DoRefund(b), u), DoRefund(a), v))
  {
    var x, y, y' := Next(db, DoRefund(a), s), Next(db, DoRefund(b), s), Next(db, DoRefund(b), u);
    NextKeepsTables(db, DoRefund(a), s);
    NextKeepsTables(db, DoRefund(b), s);
    NextKeepsTables(db, DoRefund(b), u);
    RefundAlike(x, x, b, t, s);
    RefundsCommuteNow(db, a, b, s);
    RefundAlike(db, db, b, s, u);
    RefundAlike(y, y', a, s, v);
    AlikeOutcome(Next(x, DoRefund(b), t), Next(x, DoRefund(b), s), Next(y, DoRefund(a), s), Next(y', DoRefund(a), v));
  }

  lemma RivalsDiffer(db: Db, a: Id, b: Id, s: Time, t: Time, u: Time, v: Time)
    requires Rivals(db, a, b)
    ensures Next(Next(db, DoRefund(a), s), DoRefund(b), t).orders
      != Next(Next(db, DoRefund(b), u), DoRefund(a), v).orders
  {
    EffectiveAfter(db, a, b, s);
    EffectiveAfter(db, b, a, u);
    EffectiveRefund(db, a, s);
    EffectiveRefund(db, b, u);
    IdleRefund(Next(db, DoRefund(a), s), b, t);
    IdleRefund(Next(db, DoRefund(b), u), a, v);
    assert Next(db, DoRefund(a), s).orders[a].status != Next(db, DoRefund(b), u).orders[a].status;
  }

  lemma IdleAfter(db: Db, a: Id, b: Id, s: Time, t: Time)
    requires a == b || !Effective(db, b)
    ensures Next(Next(db, DoRefund(a), s), DoRefund(b), t) == Next(db, DoRefund(a), s)
  {
    if Effective(db, a) {
      EffectiveRefund(db, a, s);
      if a != b { EffectiveAfter(db, a, b, s); }
    } else {
      IdleRefund(db, a, s);
    }
    IdleRefund(Next(db, DoRefund(a), s), b, t);
  }

  lemma OneRefundCommutes(db: Db, a: Id, b: Id, s: Time, t: Time, u: Time, v: Time)
    requires Tables(db) && (a == b || !Effective(db, b))
    ensures SameOutcome(Next(Next(db, DoRefund(a), s), DoRefund(b), t), Next(Next(db, DoRefund(b), u), DoRefund(a), v))
  {
    IdleAfter(db, a, b, s, t);
    if a == b {
      IdleAfter(db, b, a, u, v);
      RefundAlike(db, db, a, s, u);
    } else {
      IdleRefund(db, b, u);
      RefundAlike(db, db, a, s, v);
    }
  }

  lemma OutcomeSymmetric(x: Db, y: Db)
    requires SameOutcome(x, y)
    ensures SameOutcome(y, x)
  {}

  /** Two refunds in either order, each at its own instant, leave the same licenses, orders and balances and the
      same cards up to the instants stamped on them, if and only if they are not two refunds to one account
      that both fit under the balance cap alone and not together. */
  lemma RefundsCommute(db: Db, a: Id, b: Id, s: Time, t: Time, u: Time, v: Time)
    requires Tables(db)
    ensures SameOutcome(Next(Next(db, DoRefund(a), s), DoRefund(b), t), Next(Next(db, DoRefund(b), u), DoRefund(a), v))
      <==> !Rivals(db, a, b)
  {
    if Rivals(db, a, b) {
      RivalsDiffer(db, a, b, s, t, u, v);
    } else if a == b || !Effective(db, b) {
      OneRefundCommutes(db, a, b, s, t, u, v);
    } else if !Effective(db, a) {
      OneRefundCommutes(db, b, a, u, v, s, t);
      OutcomeSymmetric(Next(Next(db, DoRefund(b), u), DoRefund(a), v), Next(Next(db, DoRefund(a), s), DoRefund(b), t));
    } else {
      BothRefundsCommute(db, a, b, s, t, u, v);
    }
  }

  lemma OneMore(app: App, opening: map<Id, int>, steps: seq<(Step, Time)>, x: (Step, Time))
    ensures DbAfter(app, opening, steps + [x]) == Next(DbAfter(app, opening, steps), x.0, x.1)
  {
    assert (steps + [x])[..|steps|] == steps;
  }

  lemma TwoMore(app: App, opening: map<Id, int>, steps: seq<(Step, Time)>, x: (Step, Time), y: (Step, Time))
    ensures DbAfter(app, opening, steps + [x, y]) == Next(Next(DbAfter(app, opening, steps), x.0, x.1), y.0, y.1)
  {
    assert steps + [x, y] == (steps + [x]) + [y];
    OneMore(app, opening, steps, x);
    OneMore(app, opening, steps + [x], y);
  }

  /** The same at any moment of any run: continuing a run with two refunds in either order. */
  lemma RefundsCommuteInRuns(app: App, opening: map<Id, int>, steps: seq<(Step, Time)>, a: Id, b: Id,
                             s: Time, t: Time, u: Time, v: Time)
    ensures SameOutcome(DbAfter(app, opening, steps + [(DoRefund(a), s), (DoRefund(b), t)]),
                        DbAfter(app, opening, steps + [(DoRefund(b), u), (DoRefund(a), v)]))
      <==> !Rivals(DbAfter(app, opening, steps), a, b)
  {
    RunKeepsTables(app, opening, steps);
    TwoMore(app, opening, steps, (DoRefund(a), s), (DoRefund(b), t));
    TwoMore(app, opening, steps, (DoRefund(b), u), (DoRefund(a), v));
    RefundsCommute(DbAfter(app, opening, steps), a, b, s, t, u, v);
  }

  // ---------- a refund whose request key is taken ----------

  lemma IssueLeavesConfirmed(db: Db, x: Id, tags: seq<Tag>, now: Time, oid: Id)
    requires x in db.orders && |tags| == db.orders[x].quantity && oid in db.orders && db.orders[oid].status == Confirmed
    ensures
      var after := Commit(db, IssueOrder(db, x, tags, now));
      oid in after.orders && after.orders[oid] == db.orders[oid]
  {}

  lemma RefundLeavesOthers(db: Db, x: Id, now: Time, oid: Id)
    requires x in db.orders && oid in db.orders
      && (x != oid || (db.orders[oid].status == Confirmed && !Refundable(db, oid)))
    ensures var after := Commit(db, RefundOrder(db, x, now)); oid in after.orders && after.orders[oid] == db.orders[oid]
  {}

  lemma ReceiveLeaves(db: Db, channel: Id, event: string, bodyHash: string, proof: Signing, body: SaleEvent, now: Time,
                      oid: Id)
    requires oid in db.orders && db.orders[oid].status == Confirmed && !Refundable(db, oid)
    ensures var after := Commit(db, ReceiveSale(db, channel, event, bodyHash, proof, body, now));
      oid in after.orders && after.orders[oid] == db.orders[oid]
  {
    if ReceiveSale(db, channel, event, bodyHash, proof, body, now).Ok? && (channel, event) !in db.receipts {
      match body
      case PaymentRefunded(original) => RefundLeavesOthers(db, Only(ChannelOrders(db, channel, original)), now, oid);
      case PaymentConfirmed(sale, planAllowed, x, tags) =>
        var o := PendingOrder(sale, db.plans[sale.plan].terms, None, 0, Some(channel), event);
        IssueLeavesConfirmed(db.(orders := db.orders[x := o]), x, tags, now, oid);
    }
  }

  lemma CreateSaleLeaves(db: Db, x: Id, s: Sale, custom: Option<Terms>, confirmed: bool, tags: seq<Tag>, now: Time,
                         oid: Id)
    requires |tags| == s.quantity && oid in db.orders && db.orders[oid].status == Confirmed
    ensures var after := Commit(db, CreateSale(db, x, s, custom, confirmed, tags, now));
      oid in after.orders && after.orders[oid] == db.orders[oid]
  {
    if CreateSale(db, x, s, custom, confirmed, tags, now).Ok? {
      var t := if custom.Some? then custom.value else db.plans[s.plan].terms;
      var o := PendingOrder(s, NormalizeTerms(db.app, t).value, None, 0, None, "");
      IssueLeavesConfirmed(db.(orders := db.orders[x := o]), x, tags, now, oid);
    }
  }

  lemma AgentSaleLeaves(db: Db, agent: Id, active: bool, request: string, fp: string, s: Sale, grant: Option<Grant>,
                        expected: int, x: Id, tags: seq<Tag>, now: Time, oid: Id)
    requires oid in db.orders && db.orders[oid].status == Confirmed
    ensures var after := Commit(db, AgentSale(db, agent, active, request, fp, s, grant, expected, x, tags, now));
      oid in after.orders && after.orders[oid] == db.orders[oid]
  {
    if AgentSale(db, agent, active, request, fp, s, grant, expected, x, tags, now).Ok?
      && Lookup(db.books.entries, Application(db.app.id), agent, request).None?
    {
      var o := AgentSaleUnfolds(db, agent, active, request, fp, s, grant, expected, x, tags, now);
      IssueLeavesConfirmed(db.(orders := db.orders[x := o]), x, tags, now, oid);
    }
  }

  /** A confirmed order that cannot be refunded is left alone by every transaction. */
  lemma UnrefundableStays(db: Db, s: Step, now: Time, oid: Id)
    requires oid in db.orders && db.orders[oid].status == Confirmed && !Refundable(db, oid)
    ensures oid in Next(db, s, now).orders && Next(db, s, now).orders[oid] == db.orders[oid]
  {
    match s
    case DoReceiveSale(channel, event, bodyHash, proof, body) =>
      ReceiveLeaves(db, channel, event, bodyHash, proof, body, now, oid);
    case DoRefund(x) => if x in db.orders { RefundLeavesOthers(db, x, now, oid); }
    case DoConfirmSale(x, tags) =>
      if x in db.orders && |tags| == db.orders[x].quantity { IssueLeavesConfirmed(db, x, tags, now, oid); }
    case DoCreateSale(x, sale, custom, confirmed, tags) =>
      if |tags| == sale.quantity { CreateSaleLeaves(db, x, sale, custom, confirmed, tags, now, oid); }
    case DoAgentSale(agent, active, request, fp, sale, grant, expected, x, tags) =>
      AgentSaleLeaves(db, agent, active, request, fp, sale, grant, expected, x, tags, now, oid);
    case _ => OthersLeaveOrders(db, s, now);
  }

  /** Refunds and agents' own requests share one space of request keys: once the key of a confirmed order's
      refund is taken, that order stays confirmed and its refund is refused, whatever happens. */
  lemma {:induction false} TakenKeyBlocksRefund(app: App, opening: map<Id, int>, steps: seq<(Step, Time)>, n: nat,
                                                oid: Id, now: Time)
    requires n <= |steps|
    requires var db := DbAfter(app, opening, steps[..n]);
      oid in db.orders && db.orders[oid].status == Confirmed && KeyTaken(db, oid)
    ensures var db := DbAfter(app, opening, steps);
      && oid in db.orders && db.orders[oid] == DbAfter(app, opening, steps[..n]).orders[oid] && KeyTaken(db, oid)
      && RefundOrder(db, oid, now).Err?
  {
    if n == |steps| {
      assert steps[..n] == steps;
      RefundIff(DbAfter(app, opening, steps), oid, now);
    } else {
      var init, last := steps[..|steps| - 1], steps[|steps| - 1];
      assert init[..n] == steps[..n];
      TakenKeyBlocksRefund(app, opening, init, n, oid, now);
      var db := DbAfter(app, opening, init);
      UnrefundableStays(db, last.0, last.1, oid);
      NextExtendsEntries(db, last.0, last.1);
      NextKeepsAppId(db, last.0, last.1);
      var o := db.orders[oid];
      RecordedStays(db.books.entries, Next(db, last.0, last.1).books.entries, Application(db.app.id), o.agent.value,
        RefundRequest(oid));
      RefundIff(DbAfter(app, opening, steps), oid, now);
    }
  }

  /** A further sale of the order's agent takes that key when its request id is the key. */
  lemma AgentRequestTakesKey(db: Db, s: Step, now: Time, oid: Id)
    requires s.DoAgentSale? && Transact(db, s, now).Ok?
    requires oid in db.orders && db.orders[oid].status == Confirmed && db.orders[oid].agent == Some(s.agent)
    requires s.request == RefundRequest(oid)
    ensures var after := Next(db, s, now);
      oid in after.orders && after.orders[oid].status == Confirmed && KeyTaken(after, oid)
  {
    AgentSaleLeaves(db, s.agent, s.active, s.request, s.fingerprint, s.sale, s.grant, s.expected, s.oid, s.tags, now,
      oid);
    RequestRecorded(db, s, now);
    NextKeepsAppId(db, s, now);
  }

  // ---------- a refund never moves a date later ----------

  lemma {:induction false} EraseTwice(h: seq<Event>, gone: set<Id>, more: set<Id>)
    requires gone <= more
    ensures Erase(Erase(h, gone), more) == Erase(h, more)
  {
    if h != [] {
      var init, e := h[..|h| - 1], h[|h| - 1];
      EraseTwice(init, gone, more);
      var rest := Erase(init, gone);
      assert (rest + [e])[..|rest|] == rest;
    }
  }

  lemma RefundNeverLater(t: Traced, after: Db, oid: Id, now: Time, lid: Id)
    requires Traceable(t) && t.clock <= now && RefundedTo(t.db, after, oid, now) && Tables(after)
      && lid in t.db.licenses
    ensures lid in after.licenses
    ensures NoLater(after.licenses[lid].dates, t.db.licenses[lid].dates)
    ensures after.licenses[lid].dates.activatedAt == t.db.licenses[lid].dates.activatedAt
  {
    var h, d := t.history[lid], t.db.licenses[lid].dates;
    assert Lived(t.db, h, t.clock, lid) && LicenseOk(t.db, lid);
    RefundContinues(t, after, oid, now, lid);
    RefundedLicense(t.db, after, oid, now, lid);
    var gone, more := Gone(t.db.cards), Gone(after.cards);
    forall c | c in gone ensures c in more { RefundedCardIs(t.db, after, oid, now, c); }
    EraseTwice(h, gone, more);
    EraseFacts(Birth(d), h, gone);
    RefundIsErasure(Birth(d), Erase(h, gone), more);
    RefundIsNoLater(Birth(d), Erase(h, gone), more);
    EraseKeepsBase(Birth(d), h, gone);
    EraseKeepsBase(Birth(d), h, more);
    assert ResetToBase(after.licenses[lid].dates).activatedAt == ResetToBase(d).activatedAt;
  }

  /** In every run, a step that refunds an order leaves no license with a later date than before. */
  lemma RefundsShorten(app: App, opening: map<Id, int>, steps: seq<(Step, Time)>, s: Step, now: Time, lid: Id)
    requires ClockForward(steps + [(s, now)]) && (s.DoRefund? || (s.DoReceiveSale? && s.body.PaymentRefunded?))
    requires lid in SalesHistory.Run(app, opening, steps).db.licenses
    ensures var db := SalesHistory.Run(app, opening, steps).db;
      && lid in Next(db, s, now).licenses
      && NoLater(Next(db, s, now).licenses[lid].dates, db.licenses[lid].dates)
  {
    var t := SalesHistory.Run(app, opening, steps);
    ClockSplits(steps, (s, now));
    RunTraceable(app, opening, steps);
    RunClock(app, opening, steps);
    NextKeepsTables(t.db, s, now);
    RefundStepShortens(t, s, now, lid);
  }

  lemma ClockSplits(steps: seq<(Step, Time)>, last: (Step, Time))
    requires ClockForward(steps + [last])
    ensures ClockForward(steps) && 0 <= last.1 && (steps != [] ==> steps[|steps| - 1].1 <= last.1)
  {
    var all := steps + [last];
    assert all[|steps|] == last;
    forall i | 0 <= i < |steps| ensures 0 <= steps[i].1 <= last.1 { assert all[i] == steps[i]; }
    forall i, j | 0 <= i < j < |steps| ensures steps[i].1 <= steps[j].1 {
      assert all[i] == steps[i] && all[j] == steps[j];
    }
  }

  lemma RefundStepShortens(t: Traced, s: Step, now: Time, lid: Id)
    requires Traceable(t) && t.clock <= now && lid in t.db.licenses && Tables(Next(t.db, s, now))
    requires s.DoRefund? || (s.DoReceiveSale? && s.body.PaymentRefunded?)
    ensures lid in Next(t.db, s, now).licenses
    ensures NoLater(Next(t.db, s, now).licenses[lid].dates, t.db.licenses[lid].dates)
  {
    var db, after := t.db, Next(t.db, s, now);
    if Transact(db, s, now).Ok? {
      var replay := s.DoReceiveSale? && (s.channel, s.event) in db.receipts;
      var oid := if s.DoRefund? then s.oid else if replay then ""
        else Only(ChannelOrders(db, s.channel, s.body.original));
      if !replay && db.orders[oid].status != Refunded {
        RefundOrderRefunds(db, oid, now);
        RefundNeverLater(t, after, oid, now, lid);
      }
    }
  }
}
