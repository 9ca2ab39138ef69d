/** What holds after every run of one application's sales: ownership, one-way lifecycles, money per order
    and idempotent requests. */
module SalesRuns {
  import opened Basics
  import opened Ledger
  import opened Money
  import opened SalesModel
  import opened SalesInvariants
  import opened SalesHistory

  ghost function DbAfter(app: App, opening: map<Id, int>, steps: seq<(Step, Time)>): Db {
    SalesHistory.Run(app, opening, steps).db
  }

  lemma {:induction false} RunKeepsTables(app: App, opening: map<Id, int>, steps: seq<(Step, Time)>)
    ensures Tables(DbAfter(app, opening, steps)) && ReceiptsOk(DbAfter(app, opening, steps))
    ensures DbAfter(app, opening, steps).app.id == app.id
  {
    if steps != [] {
      var init, last := steps[..|steps| - 1], steps[|steps| - 1];
      RunKeepsTables(app, opening, init);
      NextKeepsTables(DbAfter(app, opening, init), last.0, last.1);
      NextKeepsReceipts(DbAfter(app, opening, init), last.0, last.1);
      NextKeepsAppId(DbAfter(app, opening, init), last.0, last.1);
    }
  }

  // ---------- lifecycles ----------

  lemma ForwardReflexive(db: Db)
    ensures Forward(db, db)
  {}

  ghost predicate LogGrows(db: Db, after: Db) {
    && after.app.id == db.app.id && db.books.entries <= after.books.entries
    && (forall k :: k in db.receipts ==> k in after.receipts && after.receipts[k] == db.receipts[k])
  }

  /** Between any two moments of a run no lifecycle has moved backwards, and the money ledger and the
      event receipts have only grown. */
  lemma {:induction false} RunForward(app: App, opening: map<Id, int>, steps: seq<(Step, Time)>, n: nat)
    requires n <= |steps|
    ensures Forward(DbAfter(app, opening, steps[..n]), DbAfter(app, opening, steps))
    ensures LogGrows(DbAfter(app, opening, steps[..n]), DbAfter(app, opening, steps))
  {
    if n == |steps| {
      assert steps[..n] == steps;
      ForwardReflexive(DbAfter(app, opening, steps));
    } else {
      var init, last := steps[..|steps| - 1], steps[|steps| - 1];
      RunForward(app, opening, init, n);
      assert init[..n] == steps[..n];
      RunKeepsTables(app, opening, init);
      var db := DbAfter(app, opening, init);
      NextForward(db, last.0, last.1);
      NextKeepsReceipts(db, last.0, last.1);
      NextKeepsAppId(db, last.0, last.1);
      NextExtendsEntries(db, last.0, last.1);
      ForwardTransitive(DbAfter(app, opening, steps[..n]), db, DbAfter(app, opening, steps));
    }
  }

  /** What an order owns at any moment, by status. */
  ghost predicate Owns(db: Db, oid: Id)
    requires oid in db.orders
  {
    var o := db.orders[oid];
    && (o.status == Pending ==> forall l :: l in db.licenses ==> db.licenses[l].order != oid)
    && (o.status != Pending ==>
          && |o.licenses| == o.quantity && Distinct(o.licenses)
          && (forall l :: l in o.licenses <==> l in db.licenses && db.licenses[l].order == oid))
    && (forall c, d :: c in db.cards && d in db.cards && db.cards[c].bound in o.licenses ==>
          db.cards[c].bound == db.cards[d].bound ==> c == d)
    && (o.distribute ==> forall l :: l in o.licenses ==> exists c :: c in db.cards && db.cards[c].bound == l)
    && (o.status == Refunded ==>
          && (forall l :: l in o.licenses ==> l in db.licenses && db.licenses[l].status == Revoked)
          && (forall c :: c in db.cards && db.cards[c].bound in o.licenses ==>
               db.cards[c].status == CardRevoked && db.cards[c].refundedAt.Some?))
  }

  lemma TablesOwn(db: Db, oid: Id)
    requires Tables(db) && oid in db.orders
    ensures Owns(db, oid)
  {
    var o := db.orders[oid];
    assert OrderOk(db, oid);
    forall l | l in db.licenses ensures l in o.licenses <==> db.licenses[l].order == oid { OrderOwns(db, oid, l); }
    forall l | l in o.licenses
      ensures l in db.licenses && (o.distribute ==> exists c :: c in db.cards && db.cards[c].bound == l)
    {
      assert LicenseOk(db, l);
    }
    if o.status == Refunded {
      forall l | l in o.licenses ensures l in db.licenses && db.licenses[l].status == Revoked {
        assert LicenseOk(db, l);
      }
      forall c | c in db.cards && db.cards[c].bound in o.licenses
        ensures db.cards[c].status == CardRevoked && db.cards[c].refundedAt.Some? { assert CardOk(db, c); }
    }
  }

  /** In every run a pending order owns nothing, a confirmed or refunded one owns exactly its quantity
      of distinct licenses with at most one card each; and once refunded it keeps its licenses, which
      stay revoked with their cards whatever happens later. */
  lemma OrdersOverRuns(app: App, opening: map<Id, int>, steps: seq<(Step, Time)>, n: nat, oid: Id)
    requires n <= |steps| && oid in DbAfter(app, opening, steps[..n]).orders
    ensures Owns(DbAfter(app, opening, steps[..n]), oid)
    ensures var earlier, later := DbAfter(app, opening, steps[..n]), DbAfter(app, opening, steps);
      && oid in later.orders && OrderRank(earlier.orders[oid].status) <= OrderRank(later.orders[oid].status)
      && (earlier.orders[oid].status != Pending ==> later.orders[oid].licenses == earlier.orders[oid].licenses)
      && Owns(later, oid)
  {
    RunKeepsTables(app, opening, steps[..n]);
    RunKeepsTables(app, opening, steps);
    RunForward(app, opening, steps, n);
    TablesOwn(DbAfter(app, opening, steps[..n]), oid);
    TablesOwn(DbAfter(app, opening, steps), oid);
  }

  /** Revocation is final, and a card only moves from unused to used to revoked, keeping the license
      and the instant it was redeemed with. */
  lemma StatusOverRuns(app: App, opening: map<Id, int>, steps: seq<(Step, Time)>, n: nat)
    requires n <= |steps|
    ensures var earlier, later := DbAfter(app, opening, steps[..n]), DbAfter(app, opening, steps);
      && (forall l :: l in earlier.licenses && earlier.licenses[l].status == Revoked ==>
            l in later.licenses && later.licenses[l].status == Revoked)
      && (forall c :: c in earlier.cards ==> c in later.cards && CardForward(earlier.cards[c], later.cards[c]))
  {
    RunForward(app, opening, steps, n);
  }

  /** A channel event confirms at most one order over a run, and once received it changes nothing. */
  lemma ChannelEventsOverRuns(app: App, opening: map<Id, int>, steps: seq<(Step, Time)>, n: nat,
                              channel: Id, event: string, bodyHash: string, proof: Signing, body: SaleEvent, now: Time)
    requires n <= |steps| && (channel, event) in DbAfter(app, opening, steps[..n]).receipts
    ensures |ChannelOrders(DbAfter(app, opening, steps), channel, event)| <= 1
    ensures Next(DbAfter(app, opening, steps), DoReceiveSale(channel, event, bodyHash, proof, body), now)
      == DbAfter(app, opening, steps)
  {
    RunForward(app, opening, steps, n);
    RunKeepsTables(app, opening, steps);
    var db := DbAfter(app, opening, steps);
    var x := db.receipts[(channel, event)].order;
    var s := ChannelOrders(db, channel, event);
    forall o | o in s ensures o in {x} {}
    AtMost(s, x);
  }

  lemma AtMost(s: set<Id>, x: Id)
    requires s <= {x}
    ensures |s| <= 1
  {
    if x in s { assert s == {x}; } else { assert s == {}; }
  }

  // ---------- renewal cards ----------

  lemma {:induction false} FindByHashIs(rows: seq<Id>, cards: map<Id, Card>, cid: Id)
    requires CardsApart(cards) && cid in rows && cid in cards
    ensures FindByHash(rows, cards, cards[cid].keyHash) == Some(cid)
  {
    if !(rows[0] in cards && cards[rows[0]].keyHash == cards[cid].keyHash) {
      assert rows == [rows[0]] + rows[1..];
      FindByHashIs(rows[1..], cards, cid);
    }
  }

  /** Once a renewal went through, every later attempt with the same key on any license changes nothing. */
  lemma RenewalRetriesAreNoOps(app: App, opening: map<Id, int>, steps: seq<(Step, Time)>, n: nat,
                               lid: Id, hash: string, other: Id, now: Time)
    requires n < |steps| && steps[n].0 == DoRedeem(lid, hash)
    requires Transact(DbAfter(app, opening, steps[..n]), steps[n].0, steps[n].1).Ok?
    ensures var db := DbAfter(app, opening, steps); Commit(db, RedeemRenewal(db, other, hash, now)) == db
  {
    var before, after := DbAfter(app, opening, steps[..n]), DbAfter(app, opening, steps[..n + 1]);
    assert steps[..n + 1][..n] == steps[..n];
    assert after == Next(before, steps[n].0, steps[n].1);
    RunKeepsTables(app, opening, steps[..n]);
    SpentAfterRedeem(before, lid, hash, steps[n].1);
    RunForward(app, opening, steps, n + 1);
    RunKeepsTables(app, opening, steps);
    var cid := FindByHash(before.cardRows, before.cards, hash).value;
    SpentStays(after.cards, DbAfter(app, opening, steps).cards, cid, lid);
    SpentCardRenewsNothing(DbAfter(app, opening, steps), cid, lid, other, now);
  }

  lemma SpentStays(cards: map<Id, Card>, later: map<Id, Card>, cid: Id, lid: Id)
    requires CardsForward(cards, later) && cid in cards && SpentOn(cards[cid], lid)
    ensures cid in later && later[cid].keyHash == cards[cid].keyHash
    ensures later[cid].status != Unused && later[cid].redeemed == Some(lid)
  {
    assert CardForward(cards[cid], later[cid]);
  }

  lemma SpentCardRenewsNothing(db: Db, cid: Id, lid: Id, other: Id, now: Time)
    requires Tables(db) && cid in db.cards && db.cards[cid].status != Unused && db.cards[cid].redeemed == Some(lid)
    ensures Commit(db, RedeemRenewal(db, other, db.cards[cid].keyHash, now)) == db
  {
    FindByHashIs(db.cardRows, db.cards, cid);
  }

  lemma SpentAfterRedeem(db: Db, lid: Id, hash: string, now: Time)
    requires Tables(db) && RedeemRenewal(db, lid, hash, now).Ok?
    ensures var after := RedeemRenewal(db, lid, hash, now).value;
      var found := FindByHash(db.cardRows, db.cards, hash);
      && found.Some? && found.value in after.cards
      && after.cards[found.value].keyHash == hash && after.cards[found.value].status == Used
      && after.cards[found.value].redeemed == Some(lid)
  {}

  /** The latest of now and a running date, plus the days bought. */
  ghost predicate ExtendedBy(before: Option<Time>, after: Option<Time>, now: Time, days: int) {
    && after.Some?
    && (if before.Some? && before.value > now then after.value - before.value == Days(days)
         else after.value - now == Days(days))
  }

  /** A first renewal moves one date (or, before activation, one day counter) of one license, by the days the
      source license grants; it spends the card, revokes the source and touches nothing else. */
  lemma RenewalTouchesOnly(db: Db, lid: Id, hash: string, now: Time)
    requires Tables(db) && RedeemRenewal(db, lid, hash, now).Ok?
    requires db.cards[FindByHash(db.cardRows, db.cards, hash).value].status == Unused
    ensures var after := RedeemRenewal(db, lid, hash, now).value;
      var cid := FindByHash(db.cardRows, db.cards, hash).value;
      var c := db.cards[cid];
      && after == db.(cards := after.cards, licenses := after.licenses)
      && after.cards == db.cards[cid := c.(status := Used, redeemed := Some(lid), usedAt := Some(now))]
      && c.bound != lid && c.bound in db.licenses && lid in after.licenses
      && after.licenses == db.licenses[c.bound := db.licenses[c.bound].(status := Revoked)][lid := after.licenses[lid]]
      && after.licenses[lid] == db.licenses[lid].(
           dates := after.licenses[lid].dates,
           status := if c.purpose == RenewUsage && db.licenses[lid].status == Expired then Active
             else db.licenses[lid].status)
      && var (d, e, source) := (db.licenses[lid].dates, after.licenses[lid].dates, db.licenses[c.bound].dates);
      if c.purpose == RenewUsage then
        if d.activatedAt.Some?
          then ExtendedBy(d.expiresAt, e.expiresAt, now, source.durationDays) && e == d.(expiresAt := e.expiresAt)
        else e == d.(durationDays := d.durationDays + source.durationDays)
      else
        if d.activatedAt.Some?
          then ExtendedBy(d.updatesUntil, e.updatesUntil, now, source.updateDays)
            && e == d.(updatesUntil := e.updatesUntil)
        else e == d.(updateDays := d.updateDays + source.updateDays)
  {
    assert CardOk(db, FindByHash(db.cardRows, db.cards, hash).value);
  }

  /** Over a run a card is credited to at most one license, at most once. */
  lemma CardCreditedOnce(app: App, opening: map<Id, int>, steps: seq<(Step, Time)>, a: Id, b: Id, i: nat, j: nat)
    requires ClockForward(steps)
    requires var t := SalesHistory.Run(app, opening, steps);
      && a in t.history && b in t.history && i < |Credits(t.history[a])| && j < |Credits(t.history[b])|
      && Credits(t.history[a])[i].card == Credits(t.history[b])[j].card
    ensures a == b && i == j
  {
    RunTraceable(app, opening, steps);
    var t := SalesHistory.Run(app, opening, steps);
    assert Lived(t.db, t.history[a], t.clock, a) && Lived(t.db, t.history[b], t.clock, b);
    assert InHistory(t.db, a, Credits(t.history[a])[i]) && InHistory(t.db, b, Credits(t.history[b])[j]);
  }

  // ---------- money per order ----------

  /** The amounts an application's ledger records for one order. */
  function Net(entries: seq<Entry>, app: Id, oid: Id): int {
    if entries == [] then 0
    else
      var e := entries[|entries| - 1];
      Net(entries[..|entries| - 1], app, oid) + (if e.book == Application(app) && e.order == oid then e.amount else 0)
  }

  lemma NetAppend(entries: seq<Entry>, e: Entry, app: Id, oid: Id)
    ensures Net(entries + [e], app, oid)
      == Net(entries, app, oid) + (if e.book == Application(app) && e.order == oid then e.amount else 0)
  {
    assert (entries + [e])[..|entries|] == entries;
  }

  function Owed(o: Order): int { if o.agent.Some? && o.status == Confirmed then -o.cost else 0 }

  ghost predicate OrderMoneyOk(db: Db, oid: Id)
    requires oid in db.orders
  {
    && Net(db.books.entries, db.app.id, oid) == Owed(db.orders[oid])
    && (db.orders[oid].agent.Some? ==> db.orders[oid].status != Pending)
  }

  ghost predicate EntriesOwned(db: Db) {
    forall e :: e in db.books.entries && e.book == Application(db.app.id) ==> e.order in db.orders
  }

  ghost predicate MoneyOk(db: Db) {
    && EntriesOwned(db)
    && forall o {:trigger OrderMoneyOk(db, o)} :: o in db.orders ==> OrderMoneyOk(db, o)
  }

  lemma {:induction false} NobodysNet(entries: seq<Entry>, app: Id, oid: Id)
    requires forall e :: e in entries && e.book == Application(app) ==> e.order != oid
    ensures Net(entries, app, oid) == 0
  {
    if entries != [] {
      assert entries[|entries| - 1] in entries;
      NobodysNet(entries[..|entries| - 1], app, oid);
    }
  }

  predicate SameDebt(a: Order, b: Order) {
    Owed(b) == Owed(a) && b.agent == a.agent && (b.agent.Some? ==> b.status != Pending)
  }

  /** Orders keep agent and cost, and none changes what it owes. */
  ghost predicate SameDebts(db: Db, after: Db) {
    && after.app.id == db.app.id && after.books.entries == db.books.entries
    && (forall o :: o in db.orders ==> o in after.orders && SameDebt(db.orders[o], after.orders[o]))
    && (forall o :: o in after.orders && o !in db.orders ==> after.orders[o].agent.None?)
  }

  lemma SameDebtsKeep(db: Db, after: Db)
    requires MoneyOk(db) && SameDebts(db, after)
    ensures MoneyOk(after)
  {
    forall o | o in after.orders ensures OrderMoneyOk(after, o) {
      if o in db.orders {
        assert OrderMoneyOk(db, o);
      } else {
        NobodysNet(db.books.entries, db.app.id, o);
      }
    }
  }

  lemma SameOrdersKeep(db: Db, after: Db)
    requires MoneyOk(db) && after.app.id == db.app.id && after.books.entries == db.books.entries
      && after.orders == db.orders
    ensures MoneyOk(after)
  {
    forall o | o in after.orders ensures OrderMoneyOk(after, o) { assert OrderMoneyOk(db, o); }
  }

  /** A row of another book leaves every order's sum alone. */
  lemma ForeignRowKeeps(db: Db, after: Db, e: Entry)
    requires MoneyOk(db) && after.app.id == db.app.id && after.orders == db.orders
    requires after.books.entries == db.books.entries + [e] && e.book != Application(db.app.id)
    ensures MoneyOk(after)
  {
    forall o | o in after.orders ensures OrderMoneyOk(after, o) {
      NetAppend(db.books.entries, e, db.app.id, o);
      assert OrderMoneyOk(db, o);
    }
  }

  /** The row of an order that just became confirmed or refunded. */
  lemma OwnRowKeeps(db: Db, after: Db, oid: Id, e: Entry)
    requires MoneyOk(db) && after.app.id == db.app.id && oid in after.orders && after.orders[oid].status != Pending
    requires forall o :: o in after.orders && o != oid ==> o in db.orders && after.orders[o] == db.orders[o]
    requires forall o :: o in db.orders ==> o in after.orders
    requires after.books.entries == db.books.entries + [e] && e.book == Application(db.app.id) && e.order == oid
    requires e.amount == Owed(after.orders[oid]) - (if oid in db.orders then Owed(db.orders[oid]) else 0)
    ensures MoneyOk(after)
  {
    forall o | o in after.orders ensures OrderMoneyOk(after, o) {
      NetAppend(db.books.entries, e, db.app.id, o);
      if o in db.orders { assert OrderMoneyOk(db, o); } else { NobodysNet(db.books.entries, db.app.id, o); }
    }
  }

  function BookOf(op: Op): Book {
    match op
    case OpIssue(app, _, _, _, _, _, _) => Application(app)
    case OpRefund(app, _, _, _) => Application(app)
    case OpAdjust(_, _, _, _, _) => Platform
    case OpPackage(_, _, _, _, _, _, _, _) => Platform
  }

  lemma PerformAppends(b: Books, op: Op)
    requires Perform(b, op).Ok?
    ensures var after := Perform(b, op).value;
      after.entries == b.entries || exists e :: after.entries == b.entries + [e] && e.book == BookOf(op)
  {
    var after := Perform(b, op).value;
    if after.entries != b.entries {
      var e := after.entries[|b.entries|];
      assert after.entries == b.entries + [e];
    }
  }

  lemma ElsewhereKeepsMoney(db: Db, op: Op, now: Time)
    requires MoneyOk(db)
    ensures MoneyOk(Next(db, Elsewhere(op), now))
  {
    var after := Next(db, Elsewhere(op), now);
    if Foreign(db, op) && Perform(db.books, op).Ok? {
      PerformAppends(db.books, op);
      if after.books.entries == db.books.entries {
        SameOrdersKeep(db, after);
      } else {
        var e :| after.books.entries == db.books.entries + [e] && e.book == BookOf(op);
        ForeignRowKeeps(db, after, e);
      }
    }
  }

  lemma IssueKeepsDebts(db: Db, oid: Id, tags: seq<Tag>, now: Time)
    requires oid in db.orders && |tags| == db.orders[oid].quantity && db.orders[oid].agent.None?
    requires forall o :: o in db.orders && db.orders[o].agent.Some? ==> db.orders[o].status != Pending
    ensures SameDebts(db, Commit(db, IssueOrder(db, oid, tags, now)))
  {}

  lemma PlacedDebts(db: Db, oid: Id, o: Order, after: Db)
    requires oid !in db.orders && o.agent.None? && SameDebts(db.(orders := db.orders[oid := o]), after)
    ensures SameDebts(db, after)
  {
    forall x | x in db.orders ensures x in db.orders[oid := o] && db.orders[oid := o][x] == db.orders[x] {}
    assert oid in db.orders[oid := o];
  }

  ghost predicate AgentsPaid(db: Db) {
    forall o :: o in db.orders && db.orders[o].agent.Some? ==> db.orders[o].status != Pending
  }

  lemma MoneyOkPaid(db: Db)
    requires MoneyOk(db)
    ensures AgentsPaid(db)
  {
    forall o | o in db.orders && db.orders[o].agent.Some? ensures db.orders[o].status != Pending {
      assert OrderMoneyOk(db, o);
    }
  }

  lemma CreateSaleKeepsMoney(db: Db, oid: Id, s: Sale, custom: Option<Terms>, confirmed: bool, tags: seq<Tag>,
                             now: Time)
    requires |tags| == s.quantity && MoneyOk(db)
    ensures MoneyOk(Commit(db, CreateSale(db, oid, s, custom, confirmed, tags, now)))
  {
    var r := CreateSale(db, oid, s, custom, confirmed, tags, now);
    MoneyOkPaid(db);
    if r.Ok? {
      var t := if custom.Some? then custom.value else db.plans[s.plan].terms;
      var o := PendingOrder(s, NormalizeTerms(db.app, t).value, None, 0, None, "");
      var placed := db.(orders := db.orders[oid := o]);
      if confirmed { IssueKeepsDebts(placed, oid, tags, now); PlacedDebts(db, oid, o, r.value); }
      SameDebtsKeep(db, r.value);
    }
  }

  lemma ConfirmSaleKeepsMoney(db: Db, oid: Id, tags: seq<Tag>, now: Time)
    requires MoneyOk(db)
    ensures MoneyOk(Commit(db, ConfirmSale(db, oid, tags, now)))
  {
    MoneyOkPaid(db);
    if ConfirmSale(db, oid, tags, now).Ok? {
      IssueKeepsDebts(db, oid, tags, now);
      SameDebtsKeep(db, ConfirmSale(db, oid, tags, now).value);
    }
  }

  /** The one order and the one ledger row a new agent sale adds. */
  ghost predicate SoldTo(db: Db, after: Db, oid: Id, e: Entry) {
    && after.app.id == db.app.id && oid !in db.orders && oid in after.orders
    && after.orders == db.orders[oid := after.orders[oid]]
    && after.orders[oid].status == Confirmed && after.orders[oid].agent.Some?
    && after.books.entries == db.books.entries + [e]
    && e.book == Application(db.app.id) && e.order == oid && e.amount == -after.orders[oid].cost
  }

  lemma AgentSaleUnfolds(db: Db, agent: Id, active: bool, request: string, fp: string, s: Sale, grant: Option<Grant>,
                         expected: int, oid: Id, tags: seq<Tag>, now: Time) returns (o: Order)
    requires Lookup(db.books.entries, Application(db.app.id), agent, request).None?
    requires AgentSale(db, agent, active, request, fp, s, grant, expected, oid, tags, now).Ok?
    ensures oid !in db.orders && |tags| == s.quantity && s.plan in db.plans && ValidSale(s)
    ensures o == Order(s.plan, s.quantity, Pending, db.plans[s.plan].terms, true, s.purpose, None, [], Some(agent),
                       expected * s.quantity, None, request)
    ensures var issued := IssueOrder(db.(orders := db.orders[oid := o]), oid, tags, now);
      var books := PostIssue(db.books, db.app.id, agent, active, oid, request, fp, o.cost);
      issued.Ok? && books.Ok? && AgentSale(db, agent, active, request, fp, s, grant, expected, oid, tags, now).value
      == issued.value.(books := books.value)
  {
    o := PendingOrder(s, db.plans[s.plan].terms, Some(agent), grant.value.unitCost * s.quantity, None, request);
  }

  lemma IssuedSale(db: Db, oid: Id, o: Order, tags: seq<Tag>, now: Time, agent: Id, active: bool, request: string,
                   fp: string, after: Db)
      returns (e: Entry)
    requires oid !in db.orders && o.agent == Some(agent) && o.quantity == |tags| && o.status == Pending
    requires var issued := IssueOrder(db.(orders := db.orders[oid := o]), oid, tags, now);
      var books := PostIssue(db.books, db.app.id, agent, active, oid, request, fp, o.cost);
      issued.Ok? && books.Ok? && after == issued.value.(books := books.value)
    ensures SoldTo(db, after, oid, e)
  {
    e := Entry(Application(db.app.id), agent, request, Issue, oid, fp, -o.cost, db.books.balances[agent] - o.cost);
    IssueConfirms(db.(orders := db.orders[oid := o]), oid, tags, now);
    assert db.orders[oid := o][oid := after.orders[oid]] == db.orders[oid := after.orders[oid]];
  }

  lemma AgentSaleSells(db: Db, agent: Id, active: bool, request: string, fp: string, s: Sale, grant: Option<Grant>,
                       expected: int, oid: Id, tags: seq<Tag>, now: Time) returns (e: Entry)
    requires Lookup(db.books.entries, Application(db.app.id), agent, request).None?
    requires AgentSale(db, agent, active, request, fp, s, grant, expected, oid, tags, now).Ok?
    ensures SoldTo(db, AgentSale(db, agent, active, request, fp, s, grant, expected, oid, tags, now).value, oid, e)
  {
    var o := AgentSaleUnfolds(db, agent, active, request, fp, s, grant, expected, oid, tags, now);
    var after := AgentSale(db, agent, active, request, fp, s, grant, expected, oid, tags, now).value;
    e := IssuedSale(db, oid, o, tags, now, agent, active, request, fp, after);
  }

  lemma AgentSaleKeepsMoney(db: Db, agent: Id, active: bool, request: string, fp: string, s: Sale, grant: Option<Grant>,
                            expected: int, oid: Id, tags: seq<Tag>, now: Time)
    requires MoneyOk(db)
    ensures MoneyOk(Commit(db, AgentSale(db, agent, active, request, fp, s, grant, expected, oid, tags, now)))
  {
    var r := AgentSale(db, agent, active, request, fp, s, grant, expected, oid, tags, now);
    if r.Ok? && Lookup(db.books.entries, Application(db.app.id), agent, request).None? {
      var e := AgentSaleSells(db, agent, active, request, fp, s, grant, expected, oid, tags, now);
      OwnRowKeeps(db, r.value, oid, e);
    }
  }

  lemma IssueConfirms(db: Db, oid: Id, tags: seq<Tag>, now: Time)
    requires oid in db.orders && |tags| == db.orders[oid].quantity && IssueOrder(db, oid, tags, now).Ok?
    ensures var after := IssueOrder(db, oid, tags, now).value;
      && after.app == db.app && oid in after.orders && after.orders == db.orders[oid := after.orders[oid]]
      && after.orders[oid] == db.orders[oid].(status := Confirmed, licenses := after.orders[oid].licenses)
  {
    IssueIs(db, oid, tags, now);
    IssuedDbWrites(db, oid, tags, now);
  }

  lemma RefundKeepsMoney(db: Db, oid: Id, now: Time)
    requires MoneyOk(db) && oid in db.orders
    ensures MoneyOk(Commit(db, RefundOrder(db, oid, now)))
  {
    var r := RefundOrder(db, oid, now);
    if r.Ok? && db.orders[oid].status != Refunded {
      MoneyOkPaid(db);
      var o := db.orders[oid];
      if o.agent.None? {
        SameDebtsKeep(db, r.value);
      } else {
        var e := Entry(Application(db.app.id), o.agent.value, RefundRequest(oid), Refund, oid, "", o.cost,
          db.books.balances[o.agent.value] + o.cost);
        assert r.value.books.entries == db.books.entries + [e];
        OwnRowKeeps(db, r.value, oid, e);
      }
    }
  }

  lemma ReceiveKeepsMoney(db: Db, channel: Id, event: string, bodyHash: string, proof: Signing, body: SaleEvent,
                          now: Time)
    requires MoneyOk(db)
    ensures MoneyOk(Commit(db, ReceiveSale(db, channel, event, bodyHash, proof, body, now)))
  {
    var r := ReceiveSale(db, channel, event, bodyHash, proof, body, now);
    MoneyOkPaid(db);
    if r.Ok? && (channel, event) !in db.receipts {
      match body
      case PaymentRefunded(original) =>
        var oid := Only(ChannelOrders(db, channel, original));
        RefundKeepsMoney(db, oid, now);
        SameOrdersKeep(RefundOrder(db, oid, now).value, r.value);
      case PaymentConfirmed(sale, planAllowed, oid, tags) =>
        var o := PendingOrder(sale, db.plans[sale.plan].terms, None, 0, Some(channel), event);
        var placed := db.(orders := db.orders[oid := o]);
        var issued := IssueOrder(placed, oid, tags, now).value;
        IssueKeepsDebts(placed, oid, tags, now);
        PlacedDebts(db, oid, o, issued);
        SameDebtsKeep(db, issued);
        KeptKeepsMoney(issued, r.value, oid);
    }
  }

  lemma KeptKeepsMoney(db: Db, after: Db, oid: Id)
    requires MoneyOk(db) && oid in db.orders && after.app.id == db.app.id && after.books.entries == db.books.entries
    requires after.orders == db.orders[oid := Kept(db.orders[oid])]
    ensures MoneyOk(after)
  {
    MoneyOkPaid(db);
    SameDebtsKeep(db, after);
  }

  lemma RestLeavesMoney(db: Db, s: Step, now: Time)
    requires s.SaveApp? || s.DoSavePlan? || s.DoActivate? || s.DoActivateWithCard? || s.DoRedeem? || s.DoSetStatus?
             || s.DoRevokeCard? || s.DoBlockUpdates?
    ensures Next(db, s, now).app.id == db.app.id && Next(db, s, now).books == db.books
      && Next(db, s, now).orders == db.orders
  {}

  lemma NextKeepsMoney(db: Db, s: Step, now: Time)
    requires MoneyOk(db)
    ensures MoneyOk(Next(db, s, now))
  {
    match s
    case DoCreateSale(oid, sale, custom, confirmed, tags) =>
      if |tags| == sale.quantity { CreateSaleKeepsMoney(db, oid, sale, custom, confirmed, tags, now); }
    case DoConfirmSale(oid, tags) => ConfirmSaleKeepsMoney(db, oid, tags, now);
    case DoReceiveSale(channel, event, bodyHash, proof, body) =>
      ReceiveKeepsMoney(db, channel, event, bodyHash, proof, body, now);
    case DoAgentSale(agent, active, request, fp, sale, grant, expected, oid, tags) =>
      AgentSaleKeepsMoney(db, agent, active, request, fp, sale, grant, expected, oid, tags, now);
    case DoRefund(oid) => if oid in db.orders { RefundKeepsMoney(db, oid, now); }
    case Elsewhere(op) => ElsewhereKeepsMoney(db, op, now);
    case _ =>
      RestLeavesMoney(db, s, now);
      SameOrdersKeep(db, Next(db, s, now));
  }

  // ---------- the books as a whole ----------

  /** The books change by one account operation or not at all. */
  ghost predicate OneOp(b: Books, after: Books) {
    after == b || exists op :: Perform(b, op) == Ok(after)
  }

  lemma IssueSameBooks(db: Db, oid: Id, tags: seq<Tag>, now: Time)
    requires oid in db.orders && |tags| == db.orders[oid].quantity
    ensures Commit(db, IssueOrder(db, oid, tags, now)).books == db.books
      && Commit(db, IssueOrder(db, oid, tags, now)).app == db.app
  {
    if IssueOrder(db, oid, tags, now).Ok? {
      IssueIs(db, oid, tags, now);
      IssuedDbWrites(db, oid, tags, now);
    }
  }

  lemma RefundOneOp(db: Db, oid: Id, now: Time)
    requires oid in db.orders
    ensures OneOp(db.books, Commit(db, RefundOrder(db, oid, now)).books)
      && Commit(db, RefundOrder(db, oid, now)).app == db.app
  {
    var o := db.orders[oid];
    if RefundOrder(db, oid, now).Ok? && o.status != Refunded && o.agent.Some? {
      assert Perform(db.books, OpRefund(db.app.id, o.agent.value, oid, o.cost))
        == Ok(RefundOrder(db, oid, now).value.books);
    }
  }

  lemma AgentSaleOneOp(db: Db, agent: Id, active: bool, request: string, fp: string, s: Sale, grant: Option<Grant>,
                       expected: int, oid: Id, tags: seq<Tag>, now: Time)
    ensures var after := Commit(db, AgentSale(db, agent, active, request, fp, s, grant, expected, oid, tags, now));
      OneOp(db.books, after.books) && after.app == db.app
  {
    var r := AgentSale(db, agent, active, request, fp, s, grant, expected, oid, tags, now);
    if r.Ok? && Lookup(db.books.entries, Application(db.app.id), agent, request).None? {
      assert Perform(db.books, OpIssue(db.app.id, agent, active, oid, request, fp, grant.value.unitCost * s.quantity))
        == Ok(r.value.books);
    }
  }

  lemma ReceiveOneOp(db: Db, channel: Id, event: string, bodyHash: string, proof: Signing, body: SaleEvent, now: Time)
    ensures var after := Commit(db, ReceiveSale(db, channel, event, bodyHash, proof, body, now));
      OneOp(db.books, after.books) && after.app == db.app
  {
    var r := ReceiveSale(db, channel, event, bodyHash, proof, body, now);
    if r.Ok? && (channel, event) !in db.receipts {
      match body
      case PaymentRefunded(original) => RefundOneOp(db, Only(ChannelOrders(db, channel, original)), now);
      case PaymentConfirmed(sale, planAllowed, oid, tags) =>
        var o := PendingOrder(sale, db.plans[sale.plan].terms, None, 0, Some(channel), event);
        IssueSameBooks(db.(orders := db.orders[oid := o]), oid, tags, now);
    }
  }

  lemma CreateSaleSameBooks(db: Db, oid: Id, s: Sale, custom: Option<Terms>, confirmed: bool, tags: seq<Tag>, now: Time)
    requires |tags| == s.quantity
    ensures
      var after := Commit(db, CreateSale(db, oid, s, custom, confirmed, tags, now));
      after.books == db.books && after.app == db.app
  {
    var r := CreateSale(db, oid, s, custom, confirmed, tags, now);
    if r.Ok? {
      var t := if custom.Some? then custom.value else db.plans[s.plan].terms;
      var o := PendingOrder(s, NormalizeTerms(db.app, t).value, None, 0, None, "");
      IssueSameBooks(db.(orders := db.orders[oid := o]), oid, tags, now);
    }
  }

  lemma NextOneOp(db: Db, s: Step, now: Time)
    ensures OneOp(db.books, Next(db, s, now).books) && Next(db, s, now).app.id == db.app.id
  {
    match s
    case DoCreateSale(oid, sale, custom, confirmed, tags) =>
      if |tags| == sale.quantity { CreateSaleSameBooks(db, oid, sale, custom, confirmed, tags, now); }
    case DoConfirmSale(oid, tags) =>
      if oid in db.orders && |tags| == db.orders[oid].quantity { IssueSameBooks(db, oid, tags, now); }
    case DoReceiveSale(channel, event, bodyHash, proof, body) =>
      ReceiveOneOp(db, channel, event, bodyHash, proof, body, now);
    case DoAgentSale(agent, active, request, fp, sale, grant, expected, oid, tags) =>
      AgentSaleOneOp(db, agent, active, request, fp, sale, grant, expected, oid, tags, now);
    case DoRefund(oid) => if oid in db.orders { RefundOneOp(db, oid, now); }
    case Elsewhere(op) =>
    case _ => RestLeavesMoney(db, s, now);
  }

  lemma NextKeepsAppId(db: Db, s: Step, now: Time)
    ensures Next(db, s, now).app.id == db.app.id
  {
    NextOneOp(db, s, now);
  }

  lemma NextExtendsEntries(db: Db, s: Step, now: Time)
    ensures db.books.entries <= Next(db, s, now).books.entries
  {
    NextOneOp(db, s, now);
    if op :| Perform(db.books, op) == Ok(Next(db, s, now).books) { PerformAppends(db.books, op); }
  }

  /** Over every run: the balances are the opening values plus everything recorded, each row shows the
      running sum, and the application's rows for an order add up to minus its cost while it is
      confirmed and to zero once it is refunded; only agents' orders have rows at all. */
  lemma {:induction false} MoneyOverRuns(app: App, opening: map<Id, int>, steps: seq<(Step, Time)>)
    requires forall agent :: 0 <= BalanceOf(opening, agent) <= MAX_MONEY
    ensures Reconciled(opening, DbAfter(app, opening, steps).books)
    ensures MoneyOk(DbAfter(app, opening, steps))
  {
    if steps != [] {
      var init, last := steps[..|steps| - 1], steps[|steps| - 1];
      MoneyOverRuns(app, opening, init);
      var db := DbAfter(app, opening, init);
      NextKeepsMoney(db, last.0, last.1);
      NextOneOp(db, last.0, last.1);
      var after := Next(db, last.0, last.1).books;
      if after != db.books {
        var op :| Perform(db.books, op) == Ok(after);
        PerformReconciles(opening, db.books, op);
      }
    }
  }

  /** An agent request that went through changes nothing when it is sent again, ever after. */
  lemma AgentRequestOverRuns(app: App, opening: map<Id, int>, steps: seq<(Step, Time)>, n: nat, s: Step, now: Time)
    requires n < |steps| && steps[n].0.DoAgentSale? && s.DoAgentSale?
    requires steps[n].0.agent == s.agent && steps[n].0.request == s.request
    requires Transact(DbAfter(app, opening, steps[..n]), steps[n].0, steps[n].1).Ok?
    ensures Next(DbAfter(app, opening, steps), s, now) == DbAfter(app, opening, steps)
  {
    var before := DbAfter(app, opening, steps[..n]);
    assert steps[..n + 1][..n] == steps[..n];
    var after := DbAfter(app, opening, steps[..n + 1]);
    assert after == Next(before, steps[n].0, steps[n].1);
    NextKeepsAppId(before, steps[n].0, steps[n].1);
    RequestRecorded(before, steps[n].0, steps[n].1);
    RunForward(app, opening, steps, n + 1);
    var later := DbAfter(app, opening, steps);
    RecordedStays(after.books.entries, later.books.entries, Application(after.app.id), s.agent, s.request);
    RecordedRequestChangesNothing(later, s, now);
  }

  lemma RecordedStays(entries: seq<Entry>, later: seq<Entry>, book: Book, agent: Id, request: string)
    requires entries <= later && Recorded(entries, book, agent, request)
    ensures Recorded(later, book, agent, request)
  {
    var i :| 0 <= i < |entries| && SameKey(entries[i], book, agent, request);
    assert later[i] == entries[i];
  }

  lemma RecordedRequestChangesNothing(db: Db, s: Step, now: Time)
    requires s.DoAgentSale? && Recorded(db.books.entries, Application(db.app.id), s.agent, s.request)
    ensures Next(db, s, now) == db
  {}

  lemma RequestRecorded(db: Db, s: Step, now: Time)
    requires s.DoAgentSale? && Transact(db, s, now).Ok?
    ensures Recorded(Next(db, s, now).books.entries, Application(db.app.id), s.agent, s.request)
  {
    var r := Transact(db, s, now).value;
    if Lookup(db.books.entries, Application(db.app.id), s.agent, s.request).None? {
      assert SameKey(r.books.entries[|db.books.entries|], Application(db.app.id), s.agent, s.request);
    }
  }
}
