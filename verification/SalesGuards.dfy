/** When each sales transaction goes through and what it writes, in terms of the rows it reads and the bounds of the
    program, for well-formed tables. */
module SalesGuards {
  import opened Basics
  import opened Ledger
  import opened Money
  import opened SalesModel
  import opened SalesInvariants
  import opened SalesRuns

  // ---------- terms and sales ----------

  /** Terms are accepted iff their model is enabled, at most a hundred years of updates are granted and, unless the
      license is perpetual, between one day and a hundred years of use. */
  lemma TermsAcceptedIff(app: App, t: Terms)
    ensures NormalizeTerms(app, t).Ok? <==>
      && t.model in app.models && 0 <= t.updateDays <= 36500
      && (1 <= t.durationDays <= 36500 || t.model == Perpetual || (t.perpetual && t.model != Subscription))
    ensures NormalizeTerms(app, t).Ok? ==>
      var n := NormalizeTerms(app, t).value;
      && n == t.(perpetual := n.perpetual, durationDays := n.durationDays)
      && (n.perpetual <==> t.model == Perpetual || (t.perpetual && t.model != Subscription))
      && n.durationDays == if t.model == Perpetual then 0 else t.durationDays
  {}

  /** Accepted terms are accepted again unchanged. */
  lemma NormalTermsAgain(app: App, t: Terms)
    requires TermsOk(t)
    ensures NormalizeTerms(app, t) == if t.model in app.models then Ok(t) else Err("INVALID_REQUEST")
  {}

  /** Keys printed by the seller come as one lower-case SHA-256 each, all different. */
  lemma SaleValidIff(s: Sale)
    ensures ValidSale(s) <==>
      && s.plan != "" && 1 <= s.quantity <= 1000 && |s.customer| <= 190 && |s.owner| <= 96
      && 0 <= s.amount <= 1_000_000_000_000
      && (s.distribute || (s.digests == [] && s.purpose == Activate))
      && (s.digests == [] || |s.digests| == s.quantity) && Distinct(s.digests)
      && forall d :: d in s.digests ==> |d| == 64 && forall ch :: ch in d ==> ch in "0123456789abcdef"
  {
    forall i | 0 <= i < |s.digests| ensures s.digests[i] in s.digests {}
    forall d | d in s.digests
      ensures Digest(d) <==> |d| == 64 && forall ch :: ch in d ==> ch in "0123456789abcdef"
    {
      DigestIff(d);
    }
  }

  lemma DigestIff(d: string)
    ensures Digest(d) <==> |d| == 64 && forall ch :: ch in d ==> ch in "0123456789abcdef"
  {
    forall ch: char ensures HexChar(ch) <==> ch in "0123456789abcdef" { HexCharIff(ch); }
    if |d| == 64 && forall ch :: ch in d ==> ch in "0123456789abcdef" {
      forall i | 0 <= i < 64 ensures HexChar(d[i]) { assert d[i] in d; }
    }
  }

  lemma HexCharIff(c: char)
    ensures HexChar(c) <==> c in "0123456789abcdef"
  {
    var hex := "0123456789abcdef";
    if '0' <= c <= '9' { assert hex[c as int - '0' as int] == c; }
    if 'a' <= c <= 'f' { assert hex[c as int - 'a' as int + 10] == c; }
  }

  // ---------- issuing ----------

  /** The deadline, if any, is still ahead. */
  predicate Ahead(deadline: Option<Time>, now: Time) { deadline.None? || now < deadline.value }

  /** The drawn ids, and those of the cards with their keys if any are distributed, are new and all different. */
  ghost predicate KeysFree(db: Db, distribute: bool, tags: seq<Tag>) {
    && Distinct(LicenseIds(tags)) && (forall i :: 0 <= i < |tags| ==> tags[i].license !in db.licenses)
    && (distribute ==>
          && Distinct(CardIds(tags)) && (forall i :: 0 <= i < |tags| ==> tags[i].card !in db.cards)
          && (forall i, j :: 0 <= i < j < |tags| ==> tags[i].keyHash != tags[j].keyHash)
          && (forall i, c :: 0 <= i < |tags| && c in db.cards ==> db.cards[c].keyHash != tags[i].keyHash))
  }

  lemma InsertableIff(db: Db, o: Order, tags: seq<Tag>)
    ensures Insertable(db, o, tags) <==> KeysFree(db, o.distribute, tags)
  {
    var ids, cards := LicenseIds(tags), CardIds(tags);
    forall i, j | 0 <= i < j < |tags|
      ensures ids[i] == tags[i].license && cards[i] == tags[i].card && ids[j] == tags[j].license
        && cards[j] == tags[j].card {}
  }

  /** In well-formed tables an order is issued iff it is pending, the application runs and still has the order's
      model, the cards' deadline is ahead and no key is taken. */
  lemma IssueIff(db: Db, oid: Id, tags: seq<Tag>, now: Time)
    requires Tables(db) && oid in db.orders && |tags| == db.orders[oid].quantity
    ensures IssueOrder(db, oid, tags, now).Ok? <==>
      && db.orders[oid].status == Pending && db.app.active && db.orders[oid].terms.model in db.app.models
      && Ahead(db.orders[oid].redeemUntil, now) && KeysFree(db, db.orders[oid].distribute, tags)
  {
    assert OrderOk(db, oid);
    NormalTermsAgain(db.app, db.orders[oid].terms);
    InsertableIff(db, db.orders[oid], tags);
  }

  /** The dates of a license from its terms: started at an instant, all bounds lie the days of the terms after it. */
  predicate DatesOf(d: Dates, t: Terms, start: Option<Time>) {
    && d.perpetual == t.perpetual && d.activatedAt == start
    && d.baseDays == d.durationDays == t.durationDays && d.baseUpdateDays == d.updateDays == t.updateDays
    && (start.None? || t.perpetual ==> d.expiresAt.None? && d.baseExpiresAt.None?)
    && (start.None? ==> d.updatesUntil.None? && d.baseUpdatesUntil.None?)
    && (start.Some? ==> Lasts(d.updatesUntil, start.value, t.updateDays) && d.baseUpdatesUntil == d.updatesUntil)
    && (start.Some? && !t.perpetual ==>
          Lasts(d.expiresAt, start.value, t.durationDays) && d.baseExpiresAt == d.expiresAt)
  }

  predicate Lasts(until: Option<Time>, from: Time, days: int) {
    until.Some? && until.value - from == days * 24 * 3600 * 1_000_000_000
  }

  /** A license as issued for an order: active, with the order's plan and terms, for renewal only unless the order is
      for activation; it is started at that instant iff it is for activation and its terms start on issue. */
  ghost predicate IssuedFor(l: License, oid: Id, o: Order, now: Time) {
    && l.order == oid && l.plan == o.plan && l.model == o.terms.model && l.renewalTargets == o.terms.renewalTargets
    && l.status == Active && !l.updatesBlocked && (l.renewalOnly <==> o.purpose != Activate)
    && DatesOf(l.dates, o.terms, if o.purpose == Activate && o.terms.startsOnIssue then Some(now) else None)
  }

  lemma NewLicenseIsFor(oid: Id, o: Order, now: Time)
    requires TermsOk(o.terms)
    ensures IssuedFor(NewLicense(oid, o, now), oid, o, now)
  {}

  /** One license per tag is drawn, as issued for the order. */
  ghost predicate LicensesDrawn(db: Db, after: Db, oid: Id, tags: seq<Tag>, now: Time)
    requires oid in db.orders
  {
    && (forall l :: l in after.licenses <==> l in db.licenses || exists i :: 0 <= i < |tags| && tags[i].license == l)
    && (forall l :: l in db.licenses ==> after.licenses[l] == db.licenses[l])
    && (forall i :: 0 <= i < |tags| ==>
          tags[i].license !in db.licenses && IssuedFor(after.licenses[tags[i].license], oid, db.orders[oid], now))
  }

  /** One unused card per tag is drawn, bound to the tag's license, with the order's purpose and deadline. */
  ghost predicate CardsDrawn(db: Db, after: Db, o: Order, tags: seq<Tag>) {
    && (forall c :: c in after.cards <==> c in db.cards || exists i :: 0 <= i < |tags| && tags[i].card == c)
    && (forall c :: c in db.cards ==> after.cards[c] == db.cards[c])
    && (forall i :: 0 <= i < |tags| ==>
          && tags[i].card !in db.cards
          && after.cards[tags[i].card]
             == Card(tags[i].keyHash, o.purpose, Unused, tags[i].license, None, None, None, o.redeemUntil))
  }

  /** Issuing draws the licenses and, when cards are distributed, the cards; the order is confirmed and lists the
      licenses in the order of the tags; nothing else is written. */
  ghost predicate IssuedAs(db: Db, after: Db, oid: Id, tags: seq<Tag>, now: Time)
    requires oid in db.orders
  {
    var o := db.orders[oid];
    && after == db.(licenses := after.licenses, cards := after.cards, cardRows := after.cardRows,
                    orders := after.orders)
    && oid in after.orders
    && after.orders == db.orders[oid := o.(status := Confirmed, licenses := after.orders[oid].licenses)]
    && |after.orders[oid].licenses| == |tags|
    && (forall i :: 0 <= i < |tags| ==> after.orders[oid].licenses[i] == tags[i].license)
    && LicensesDrawn(db, after, oid, tags, now)
    && (if o.distribute then CardsDrawn(db, after, o, tags)
        else after.cards == db.cards && after.cardRows == db.cardRows)
  }

  lemma IssueGives(db: Db, oid: Id, tags: seq<Tag>, now: Time)
    requires Tables(db) && oid in db.orders && |tags| == db.orders[oid].quantity
    requires IssueOrder(db, oid, tags, now).Ok?
    ensures IssuedAs(db, IssueOrder(db, oid, tags, now).value, oid, tags, now)
  {
    assert OrderOk(db, oid);
    IssueIs(db, oid, tags, now);
    var after := IssuedDb(db, oid, tags, now);
    IssueOrderIssues(db, oid, tags, now);
    LicenseRowsDrawn(db, after, oid, tags, now);
    if db.orders[oid].distribute { CardRowsDrawn(db, after, db.orders[oid], tags); }
  }

  lemma LicenseRowsDrawn(db: Db, after: Db, oid: Id, tags: seq<Tag>, now: Time)
    requires oid in db.orders && TermsOk(db.orders[oid].terms) && IssuedLicenses(db, after, oid, tags, now)
    ensures LicensesDrawn(db, after, oid, tags, now)
  {
    NewLicenseIsFor(oid, db.orders[oid], now);
    forall l ensures l in after.licenses <==>
      l in db.licenses || exists i :: 0 <= i < |tags| && tags[i].license == l
    {
      if l in after.licenses && l !in db.licenses {
        var i :| 0 <= i < |tags| && LicenseIds(tags)[i] == l;
        assert tags[i].license == l;
      }
    }
  }

  lemma CardRowsDrawn(db: Db, after: Db, o: Order, tags: seq<Tag>)
    requires IssuedCardRows(db, after, o, tags)
    ensures CardsDrawn(db, after, o, tags)
  {
    forall c ensures c in after.cards <==> c in db.cards || exists i :: 0 <= i < |tags| && tags[i].card == c {
      if c in after.cards && c !in db.cards { assert FromTag(after.cards, o, tags, c); }
    }
  }

  // ---------- placing and confirming sales ----------

  /** Terms an order may be placed with: an enabled model and days within a century. */
  predicate Acceptable(app: App, t: Terms) {
    && t.model in app.models && 0 <= t.updateDays <= 36500
    && (1 <= t.durationDays <= 36500 || t.model == Perpetual || (t.perpetual && t.model != Subscription))
  }

  /** A placed order is issued at once iff the application runs with its model, the deadline is ahead and no key is
      taken. */
  lemma PlacedIff(db: Db, oid: Id, o: Order, tags: seq<Tag>, now: Time)
    requires Tables(db) && oid !in db.orders && TermsOk(o.terms) && o.status == Pending && o.licenses == []
    requires 1 <= o.quantity <= 1000 && (o.purpose != Activate ==> o.distribute) && |tags| == o.quantity
    ensures IssueOrder(db.(orders := db.orders[oid := o]), oid, tags, now).Ok? <==>
      && db.app.active && o.terms.model in db.app.models && Ahead(o.redeemUntil, now)
      && KeysFree(db, o.distribute, tags)
  {
    var placed := db.(orders := db.orders[oid := o]);
    PlaceKeeps(db, oid, o);
    IssueIff(placed, oid, tags, now);
  }

  /** An operator's sale is placed iff it is valid, its plan is on sale and its terms, custom or the plan's, are
      acceptable; asked to confirm it at once, the sale goes through iff a reason is given as well, the application
      runs, the deadline is ahead and no key is taken. */
  lemma CreateSaleIff(db: Db, oid: Id, s: Sale, custom: Option<Terms>, confirmed: bool, tags: seq<Tag>, now: Time)
    requires Tables(db) && |tags| == s.quantity && oid !in db.orders
    ensures CreateSale(db, oid, s, custom, confirmed, tags, now).Ok? <==>
      && ValidSale(s) && s.plan in db.plans && db.plans[s.plan].enabled
      && Acceptable(db.app, if custom.Some? then custom.value else db.plans[s.plan].terms)
      && (!confirmed || (!Blank(s.reason) && db.app.active && Ahead(s.redeemUntil, now)
                         && KeysFree(db, s.distribute, tags)))
  {
    if ValidSale(s) && s.plan in db.plans {
      var t := if custom.Some? then custom.value else db.plans[s.plan].terms;
      TermsAcceptedIff(db.app, t);
      if NormalizeTerms(db.app, t).Ok? {
        NormalTermsOk(db.app, t);
        var o := PendingOrder(s, NormalizeTerms(db.app, t).value, None, 0, None, "");
        PlacedIff(db, oid, o, tags, now);
      }
    }
  }

  /** The order an operator's sale leaves. */
  function Placed(s: Sale, terms: Terms): Order {
    Order(s.plan, s.quantity, Pending, terms, s.distribute, s.purpose, s.redeemUntil, [], None, 0, None, "")
  }

  lemma CreateSaleGives(db: Db, oid: Id, s: Sale, custom: Option<Terms>, confirmed: bool, tags: seq<Tag>, now: Time)
    requires Tables(db) && |tags| == s.quantity && CreateSale(db, oid, s, custom, confirmed, tags, now).Ok?
    ensures oid !in db.orders && s.plan in db.plans
    ensures
      var t := NormalizeTerms(db.app, if custom.Some? then custom.value else db.plans[s.plan].terms);
      var after := CreateSale(db, oid, s, custom, confirmed, tags, now).value;
      t.Ok? && var placed := db.(orders := db.orders[oid := Placed(s, t.value)]);
      if confirmed then IssuedAs(placed, after, oid, tags, now) else after == placed
  {
    var t := if custom.Some? then custom.value else db.plans[s.plan].terms;
    NormalTermsOk(db.app, t);
    var o := Placed(s, NormalizeTerms(db.app, t).value);
    PlaceKeeps(db, oid, o);
    if confirmed { IssueGives(db.(orders := db.orders[oid := o]), oid, tags, now); }
  }

  // ---------- use and activation ----------

  /** A license may be used iff it is an active one, not for renewal only, its application runs and has its model,
      and its last day and the grace time after it, if it has an end, are not over. */
  predicate Usable(app: App, l: License, now: Time) {
    && !l.renewalOnly && l.status == Active && app.active && l.model in app.models
    && (l.dates.perpetual || l.dates.expiresAt.None?
        || now < l.dates.expiresAt.value + app.graceSeconds * 1_000_000_000)
  }

  lemma UsableIff(app: App, l: License, now: Time)
    ensures CheckUsable(app, l, now).Ok? <==> Usable(app, l, now)
  {}

  /** The license after its activation: started now unless it was before. */
  predicate StartedBy(before: License, after: License, now: Time) {
    && after == before.(dates := after.dates)
    && var d, e := before.dates, after.dates;
    if d.activatedAt.Some? then e == d
    else
      && e.activatedAt == Some(now) && e.perpetual == d.perpetual
      && e.baseDays == d.baseDays && e.baseUpdateDays == d.baseUpdateDays
      && e.durationDays == d.durationDays && e.updateDays == d.updateDays
      && Lasts(e.updatesUntil, now, d.updateDays) && Lasts(e.baseUpdatesUntil, now, d.baseUpdateDays)
      && (if d.perpetual then e.expiresAt == d.expiresAt && e.baseExpiresAt == d.baseExpiresAt
          else Lasts(e.expiresAt, now, d.durationDays) && Lasts(e.baseExpiresAt, now, d.baseDays))
  }

  /** An admitted activation goes through iff the license is usable; it starts it and writes nothing else. */
  lemma ActivateIff(db: Db, lid: Id, admitted: bool, now: Time)
    ensures ActivateLicense(db, lid, admitted, now).Ok? <==>
      lid in db.licenses && admitted && Usable(db.app, db.licenses[lid], now)
    ensures ActivateLicense(db, lid, admitted, now).Ok? ==>
      var after := ActivateLicense(db, lid, admitted, now).value;
      && lid in after.licenses && after == db.(licenses := db.licenses[lid := after.licenses[lid]])
      && StartedBy(db.licenses[lid], after.licenses[lid], now)
  {}

  lemma UnknownKeyFound(rows: seq<Id>, cards: map<Id, Card>, hash: string)
    requires forall c :: c in cards ==> cards[c].keyHash != hash
    ensures FindByHash(rows, cards, hash).None?
  {}

  /** An admitted activation by card goes through iff the card with the key is for activation, not revoked and within
      its deadline, and the license it is bound to is usable; it starts the license and marks the card used, at the
      instant of its first use. */
  lemma ActivateWithCardIff(db: Db, cid: Id, admitted: bool, now: Time)
    requires Tables(db) && cid in db.cards
    ensures var c := db.cards[cid];
      && c.bound in db.licenses
      && (ActivateWithCard(db, c.keyHash, admitted, now).Ok? <==>
            && admitted && c.status != CardRevoked && c.purpose == Activate && Ahead(c.redeemUntil, now)
            && Usable(db.app, db.licenses[c.bound], now))
    ensures var c := db.cards[cid];
      var r := ActivateWithCard(db, c.keyHash, admitted, now);
      r.Ok? ==>
        && c.bound in r.value.licenses && StartedBy(db.licenses[c.bound], r.value.licenses[c.bound], now)
        && r.value == db.(
             licenses := db.licenses[c.bound := r.value.licenses[c.bound]],
             cards := db.cards[cid := c.(status := Used, usedAt := Some(
               if c.usedAt.Some? then c.usedAt.value else now))])
  {
    assert CardOk(db, cid);
    FindByHashIs(db.cardRows, db.cards, cid);
    ActivateIff(db, db.cards[cid].bound, admitted, now);
  }

  lemma UnknownKeyActivates(db: Db, hash: string, admitted: bool, now: Time)
    requires forall c :: c in db.cards ==> db.cards[c].keyHash != hash
    ensures ActivateWithCard(db, hash, admitted, now) == Err("CARD_INVALID")
  {
    UnknownKeyFound(db.cardRows, db.cards, hash);
  }

  // ---------- renewal ----------

  /** The license can take renewals by the card at all. */
  predicate RenewableBy(app: App, l: License, purpose: Purpose) {
    && app.active && l.model in app.models && !l.renewalOnly && (l.status == Active || l.status == Expired)
    && !(l.updatesBlocked && purpose == RenewUpdates)
  }

  /** The days the source brings fit the license: days of use only where both have an end, and before activation a
      century at most in all. */
  predicate RoomFor(target: Dates, source: Dates, purpose: Purpose) {
    if purpose == RenewUsage then
      && !target.perpetual && !source.perpetual && source.durationDays >= 1
      && (target.activatedAt.Some? || target.durationDays + source.durationDays <= 36500)
    else
      source.updateDays >= 1 && (target.activatedAt.Some? || target.updateDays + source.updateDays <= 36500)
  }

  /** The first redemption of a card on a license: it goes through iff the license can be renewed, the card is an
      unused renewal card within its deadline, and the source license bound to it is active, of the same model, of the
      same plan or one that may renew the license's plan, and its days fit. */
  lemma FirstRenewalIff(db: Db, lid: Id, cid: Id, now: Time)
    requires Tables(db) && cid in db.cards && !(db.cards[cid].status == Used && db.cards[cid].redeemed == Some(lid))
    ensures var c := db.cards[cid];
      && c.bound in db.licenses
      && (RedeemRenewal(db, lid, c.keyHash, now).Ok? <==>
            && lid in db.licenses && RenewableBy(db.app, db.licenses[lid], c.purpose)
            && c.status == Unused && c.purpose != Activate && Ahead(c.redeemUntil, now)
            && var l, source := db.licenses[lid], db.licenses[c.bound];
            && source.status == Active && source.model == l.model
            && (source.plan == l.plan || l.plan in source.renewalTargets)
            && RoomFor(l.dates, source.dates, c.purpose))
  {
    assert CardOk(db, cid);
    FindByHashIs(db.cardRows, db.cards, cid);
  }

  /** A card already spent on the license is acknowledged again, whatever its deadline, as long as the license can be
      renewed at all. */
  lemma RenewalRetryIff(db: Db, lid: Id, cid: Id, now: Time)
    requires Tables(db) && cid in db.cards && db.cards[cid].status == Used && db.cards[cid].redeemed == Some(lid)
    ensures lid in db.licenses
    ensures RedeemRenewal(db, lid, db.cards[cid].keyHash, now).Ok? <==>
      RenewableBy(db.app, db.licenses[lid], db.cards[cid].purpose)
    ensures RedeemRenewal(db, lid, db.cards[cid].keyHash, now).Ok? ==>
      RedeemRenewal(db, lid, db.cards[cid].keyHash, now).value == db
  {
    assert CardOk(db, cid);
    FindByHashIs(db.cardRows, db.cards, cid);
  }

  lemma UnknownKeyRenews(db: Db, lid: Id, hash: string, now: Time)
    requires forall c :: c in db.cards ==> db.cards[c].keyHash != hash
    ensures RedeemRenewal(db, lid, hash, now).Err?
  {
    UnknownKeyFound(db.cardRows, db.cards, hash);
  }

  // ---------- single rows and plans ----------

  /** Any status may be set, except that a revoked license stays revoked. */
  lemma SetLicenseStatusIff(db: Db, lid: Id, status: LicenseStatus)
    ensures SetLicenseStatus(db, lid, status).Ok? <==>
      lid in db.licenses && (db.licenses[lid].status == Revoked ==> status == Revoked)
    ensures SetLicenseStatus(db, lid, status).Ok? ==>
      SetLicenseStatus(db, lid, status).value
        == db.(licenses := db.licenses[lid := db.licenses[lid].(status := status)])
  {}

  lemma RevokeCardGives(db: Db, cid: Id)
    ensures RevokeCard(db, cid).Ok? <==> cid in db.cards
    ensures cid in db.cards ==>
      RevokeCard(db, cid).value == db.(cards := db.cards[cid := db.cards[cid].(status := CardRevoked)])
  {}

  lemma BlockUpdatesGives(db: Db, lid: Id, blocked: bool)
    ensures BlockUpdates(db, lid, blocked).Ok? <==> lid in db.licenses
    ensures lid in db.licenses ==>
      BlockUpdates(db, lid, blocked).value
        == db.(licenses := db.licenses[lid := db.licenses[lid].(updatesBlocked := blocked)])
  {}

  /** A plan is saved iff its terms are acceptable, they renew known plans only, and they are the old ones wherever a
      license of the plan exists. */
  lemma SavePlanIff(db: Db, pid: Id, enabled: bool, terms: Terms)
    ensures SavePlan(db, pid, enabled, terms).Ok? <==>
      && Acceptable(db.app, terms) && terms.renewalTargets <= db.plans.Keys
      && (forall l :: l in db.licenses && db.licenses[l].plan == pid && pid in db.plans ==>
            db.plans[pid].terms == NormalizeTerms(db.app, terms).value)
    ensures SavePlan(db, pid, enabled, terms).Ok? ==>
      SavePlan(db, pid, enabled, terms).value
        == db.(plans := db.plans[pid := Plan(enabled, NormalizeTerms(db.app, terms).value)])
  {
    TermsAcceptedIff(db.app, terms);
  }

  /** The plans after a step: as before, but for one that was saved; where it has a license, its terms stay. */
  lemma NextKeepsPlans(db: Db, s: Step, now: Time, pid: Id)
    requires pid in db.plans && exists l :: l in db.licenses && db.licenses[l].plan == pid
    ensures pid in Next(db, s, now).plans && Next(db, s, now).plans[pid].terms == db.plans[pid].terms
  {
    if s.DoSavePlan? {
      SavePlanIff(db, s.pid, s.enabled, s.terms);
    } else {
      OthersLeavePlans(db, s, now);
    }
  }

  lemma IssueLeavesPlans(db: Db, oid: Id, tags: seq<Tag>, now: Time)
    requires oid in db.orders && |tags| == db.orders[oid].quantity
    ensures Commit(db, IssueOrder(db, oid, tags, now)).plans == db.plans
  {
    if IssueOrder(db, oid, tags, now).Ok? {
      IssueIs(db, oid, tags, now);
      IssuedDbWrites(db, oid, tags, now);
    }
  }

  lemma CreateSaleLeavesPlans(db: Db, oid: Id, s: Sale, custom: Option<Terms>, confirmed: bool, tags: seq<Tag>,
                              now: Time)
    requires |tags| == s.quantity
    ensures Commit(db, CreateSale(db, oid, s, custom, confirmed, tags, now)).plans == db.plans
  {
    if CreateSale(db, oid, s, custom, confirmed, tags, now).Ok? {
      var t := if custom.Some? then custom.value else db.plans[s.plan].terms;
      var o := PendingOrder(s, NormalizeTerms(db.app, t).value, None, 0, None, "");
      IssueLeavesPlans(db.(orders := db.orders[oid := o]), oid, tags, now);
    }
  }

  lemma AgentSaleLeavesPlans(db: Db, agent: Id, active: bool, request: string, fp: string, s: Sale,
                             grant: Option<Grant>, expected: int, oid: Id, tags: seq<Tag>, now: Time)
    ensures Commit(db, AgentSale(db, agent, active, request, fp, s, grant, expected, oid, tags, now)).plans == db.plans
  {
    var r := AgentSale(db, agent, active, request, fp, s, grant, expected, oid, tags, now);
    if r.Ok? && !Recorded(db.books.entries, Application(db.app.id), agent, request) {
      var o := AgentSaleUnfolds(db, agent, active, request, fp, s, grant, expected, oid, tags, now);
      IssueLeavesPlans(db.(orders := db.orders[oid := o]), oid, tags, now);
    }
  }

  lemma ReceiveLeavesPlans(db: Db, channel: Id, event: string, bodyHash: string, proof: Signing, e: SaleEvent,
                           now: Time)
    ensures Commit(db, ReceiveSale(db, channel, event, bodyHash, proof, e, now)).plans == db.plans
  {
    var r := ReceiveSale(db, channel, event, bodyHash, proof, e, now);
    if r.Ok? && (channel, event) !in db.receipts && e.PaymentConfirmed? {
      var o := PendingOrder(e.sale, db.plans[e.sale.plan].terms, None, 0, Some(channel), event);
      IssueLeavesPlans(db.(orders := db.orders[e.oid := o]), e.oid, e.tags, now);
    }
  }

  lemma SalesLeavePlans(db: Db, s: Step, now: Time)
    requires s.DoCreateSale? || s.DoConfirmSale? || s.DoReceiveSale? || s.DoAgentSale? || s.DoRefund?
    ensures Next(db, s, now).plans == db.plans
  {
    match s
    case DoCreateSale(oid, sale, custom, confirmed, tags) =>
      if |tags| == sale.quantity { CreateSaleLeavesPlans(db, oid, sale, custom, confirmed, tags, now); }
    case DoConfirmSale(oid, tags) =>
      if oid in db.orders && |tags| == db.orders[oid].quantity { IssueLeavesPlans(db, oid, tags, now); }
    case DoReceiveSale(channel, event, bodyHash, proof, body) =>
      ReceiveLeavesPlans(db, channel, event, bodyHash, proof, body, now);
    case DoAgentSale(agent, active, request, fp, sale, grant, expected, oid, tags) =>
      AgentSaleLeavesPlans(db, agent, active, request, fp, sale, grant, expected, oid, tags, now);
    case DoRefund(_) =>
  }

  lemma OthersLeavePlans(db: Db, s: Step, now: Time)
    requires !s.DoSavePlan?
    ensures Next(db, s, now).plans == db.plans
  {
    if s.DoCreateSale? || s.DoConfirmSale? || s.DoReceiveSale? || s.DoAgentSale? || s.DoRefund? {
      SalesLeavePlans(db, s, now);
    }
  }

  /** Once a license of a plan exists, the plan and its terms stay for the rest of the run. */
  lemma {:induction false} SoldTermsFrozen(app: App, opening: map<Id, int>, steps: seq<(Step, Time)>, n: nat, lid: Id)
    requires n <= |steps| && lid in DbAfter(app, opening, steps[..n]).licenses
    requires DbAfter(app, opening, steps[..n]).licenses[lid].plan in DbAfter(app, opening, steps[..n]).plans
    ensures var earlier, later := DbAfter(app, opening, steps[..n]), DbAfter(app, opening, steps);
      var pid := earlier.licenses[lid].plan;
      pid in later.plans && later.plans[pid].terms == earlier.plans[pid].terms
  {
    if n == |steps| {
      assert steps[..n] == steps;
    } else {
      var init, last := steps[..|steps| - 1], steps[|steps| - 1];
      assert init[..n] == steps[..n];
      SoldTermsFrozen(app, opening, init, n, lid);
      RunForward(app, opening, init, n);
      var earlier, db := DbAfter(app, opening, steps[..n]), DbAfter(app, opening, init);
      assert LicenseForward(earlier.licenses[lid], db.licenses[lid]);
      NextKeepsPlans(db, last.0, last.1, earlier.licenses[lid].plan);
    }
  }

  // ---------- agent sales ----------

  /** A new request of an agent goes through iff the request id has 8 to 128 characters, the sale is a valid one with
      cards and without deadline, the agent holds a usable grant for an enabled plan of an enabled model, the quantity
      is within the grant's batch limit, the price is the one the agent confirmed, and the agent's account holds the
      price of every unit. */
  lemma AgentSaleIff(db: Db, agent: Id, active: bool, request: string, fp: string, s: Sale, grant: Option<Grant>,
                     expected: int, oid: Id, tags: seq<Tag>, now: Time)
    requires Tables(db) && oid !in db.orders && |tags| == s.quantity
    requires !Recorded(db.books.entries, Application(db.app.id), agent, request)
    ensures AgentSale(db, agent, active, request, fp, s, grant, expected, oid, tags, now).Ok? <==>
      && 8 <= |request| <= 128 && ValidSale(s) && s.distribute && s.redeemUntil.None?
      && grant.Some? && grant.value.usable && active && db.app.active
      && s.plan in db.plans && db.plans[s.plan].enabled && db.plans[s.plan].terms.model in db.app.models
      && s.quantity <= grant.value.maxBatch && grant.value.unitCost == expected
      && agent in db.books.balances && 0 <= expected * s.quantity <= db.books.balances[agent]
      && KeysFree(db, true, tags)
  {
    if s.plan in db.plans && ValidSale(s) && s.distribute && grant.Some? {
      NormalTermsAgain(db.app, db.plans[s.plan].terms);
      var o := PendingOrder(s, db.plans[s.plan].terms, Some(agent), grant.value.unitCost * s.quantity, None, request);
      PlacedIff(db, oid, o, tags, now);
    }
  }

  /** An agent's order is paid for: its cost is taken from the agent's balance and recorded negated under the request,
      and it is issued. */
  ghost predicate Charged(db: Db, after: Db, o: Order, oid: Id, request: string, fp: string, tags: seq<Tag>, now: Time)
  {
    && o.agent.Some? && o.agent.value in db.books.balances && oid !in db.orders
    && Booked(db.books, after.books, Entry(Application(db.app.id), o.agent.value, request, Issue, oid, fp, -o.cost,
         db.books.balances[o.agent.value] - o.cost))
    && after.books.packageOrders == db.books.packageOrders
    && IssuedAs(db.(orders := db.orders[oid := o]), after.(books := db.books), oid, tags, now)
  }

  /** A new agent sale that goes through charges the price the agent confirmed for every unit, and issues that
      quantity of licenses and cards of the plan's terms. */
  lemma AgentSaleCharges(db: Db, agent: Id, active: bool, request: string, fp: string, s: Sale, grant: Option<Grant>,
                         expected: int, oid: Id, tags: seq<Tag>, now: Time)
    requires Tables(db) && !Recorded(db.books.entries, Application(db.app.id), agent, request)
    requires AgentSale(db, agent, active, request, fp, s, grant, expected, oid, tags, now).Ok?
    ensures s.plan in db.plans && |tags| == s.quantity
    ensures var o := Order(s.plan, s.quantity, Pending, db.plans[s.plan].terms, true, s.purpose, None, [], Some(agent),
        expected * s.quantity, None, request);
      Charged(db, AgentSale(db, agent, active, request, fp, s, grant, expected, oid, tags, now).value, o, oid,
        request, fp, tags, now)
  {
    var o := AgentSaleUnfolds(db, agent, active, request, fp, s, grant, expected, oid, tags, now);
    var after := AgentSale(db, agent, active, request, fp, s, grant, expected, oid, tags, now).value;
    PlaceKeeps(db, oid, o);
    SettledCharges(db, after, o, oid, agent, active, request, fp, tags, now);
  }

  lemma SettledCharges(db: Db, after: Db, o: Order, oid: Id, agent: Id, active: bool, request: string, fp: string,
                       tags: seq<Tag>, now: Time)
    requires oid !in db.orders && Tables(db.(orders := db.orders[oid := o]))
    requires o.agent == Some(agent) && |tags| == o.quantity
    requires var issued := IssueOrder(db.(orders := db.orders[oid := o]), oid, tags, now);
      var books := PostIssue(db.books, db.app.id, agent, active, oid, request, fp, o.cost);
      issued.Ok? && books.Ok? && after == issued.value.(books := books.value)
    ensures Charged(db, after, o, oid, request, fp, tags, now)
  {
    var placed := db.(orders := db.orders[oid := o]);
    var issued := IssueOrder(placed, oid, tags, now).value;
    PostIssueIff(db.books, db.app.id, agent, active, oid, request, fp, o.cost);
    IssueGives(placed, oid, tags, now);
    IssueLeavesBooks(placed, oid, tags, now);
    PaidAndIssued(db, issued, after, o, oid, agent, request, fp, tags, now);
  }

  lemma PaidAndIssued(db: Db, issued: Db, after: Db, o: Order, oid: Id, agent: Id, request: string, fp: string,
                      tags: seq<Tag>, now: Time)
    requires oid !in db.orders && o.agent == Some(agent) && agent in db.books.balances
    requires IssuedAs(db.(orders := db.orders[oid := o]), issued, oid, tags, now)
    requires issued.books == db.books && after == issued.(books := after.books)
    requires after.books.packageOrders == db.books.packageOrders
    requires Booked(db.books, after.books, Entry(Application(db.app.id), agent, request, Issue, oid, fp, -o.cost,
      db.books.balances[agent] - o.cost))
    ensures Charged(db, after, o, oid, request, fp, tags, now)
  {
    assert after.(books := db.books) == issued;
  }

  lemma IssueLeavesBooks(db: Db, oid: Id, tags: seq<Tag>, now: Time)
    requires oid in db.orders && |tags| == db.orders[oid].quantity && IssueOrder(db, oid, tags, now).Ok?
    ensures IssueOrder(db, oid, tags, now).value.books == db.books
  {
    IssueSameBooks(db, oid, tags, now);
  }

  // ---------- signed sales events ----------

  /** The channel is enabled, the signature valid, and the timestamp at most two minutes from the clock. */
  predicate Signed(p: Signing) {
    && p.enabled && p.valid
    && -120_000_000_000 <= p.readAt - p.stamp * 1_000_000_000 <= 120_000_000_000
  }

  lemma SigningRefusalIff(p: Signing)
    ensures SigningRefusal(p).None? <==> Signed(p)
  {}

  /** A new payment is accepted iff its id has 1 to 190 characters, it is signed, the sale is valid, the channel may
      sell the plan, which is on sale with an enabled model in a running application, the deadline of the cards is
      ahead and no key is taken. */
  lemma ReceivePaymentIff(db: Db, channel: Id, event: string, bodyHash: string, proof: Signing, e: SaleEvent, now: Time)
    requires Tables(db) && (channel, event) !in db.receipts && e.PaymentConfirmed?
    requires e.oid !in db.orders && |e.tags| == e.sale.quantity
    ensures ReceiveSale(db, channel, event, bodyHash, proof, e, now).Ok? <==>
      && 1 <= |event| <= 190 && Signed(proof) && ValidSale(e.sale) && e.planAllowed
      && e.sale.plan in db.plans && db.plans[e.sale.plan].enabled
      && db.app.active && db.plans[e.sale.plan].terms.model in db.app.models
      && Ahead(e.sale.redeemUntil, now) && KeysFree(db, e.sale.distribute, e.tags)
  {
    if ValidSale(e.sale) && e.sale.plan in db.plans {
      var o := PendingOrder(e.sale, db.plans[e.sale.plan].terms, None, 0, Some(channel), event);
      PlacedIff(db, e.oid, o, e.tags, now);
    }
  }

  /** The order of a payment, as it is issued. */
  function Paid(s: Sale, terms: Terms, channel: Id, event: string): Order {
    Order(s.plan, s.quantity, Pending, terms, s.distribute, s.purpose, s.redeemUntil, [], None, 0, Some(channel),
      event)
  }

  /** An accepted payment issues its order with the purpose and deadline of the event, keeps the order without them,
      and is receipted. */
  lemma ReceivePaymentGives(db: Db, channel: Id, event: string, bodyHash: string, proof: Signing, e: SaleEvent,
                            now: Time) returns (issued: Db)
    requires Tables(db) && (channel, event) !in db.receipts && e.PaymentConfirmed?
    requires ReceiveSale(db, channel, event, bodyHash, proof, e, now).Ok?
    ensures e.oid !in db.orders && e.sale.plan in db.plans
    ensures IssuedAs(db.(orders := db.orders[e.oid := Paid(e.sale, db.plans[e.sale.plan].terms, channel, event)]),
      issued, e.oid, e.tags, now)
    ensures ReceiveSale(db, channel, event, bodyHash, proof, e, now).value == issued.(
      orders := issued.orders[e.oid := issued.orders[e.oid].(purpose := Activate, redeemUntil := None)],
      receipts := db.receipts[(channel, event) := Receipt(bodyHash, e.oid)])
  {
    var o := Paid(e.sale, db.plans[e.sale.plan].terms, channel, event);
    var placed := db.(orders := db.orders[e.oid := o]);
    PlaceKeeps(db, e.oid, o);
    IssueGives(placed, e.oid, e.tags, now);
    issued := IssueOrder(placed, e.oid, e.tags, now).value;
  }

  /** A new refund is accepted iff its id has 1 to 190 characters, it is signed, and it names the event of one of the
      channel's orders, which can be refunded; it is that order that is refunded. */
  lemma ReceiveRefundIff(db: Db, channel: Id, event: string, bodyHash: string, proof: Signing, original: string,
                         now: Time)
    requires ReceiptsOk(db) && (channel, event) !in db.receipts
    ensures var r := ReceiveSale(db, channel, event, bodyHash, proof, PaymentRefunded(original), now);
      && (r.Ok? <==> 1 <= |event| <= 190 && Signed(proof) && exists oid ::
            oid in db.orders && db.orders[oid].channel == Some(channel) && db.orders[oid].external == original
            && RefundOrder(db, oid, now).Ok?)
      && forall oid ::
        oid in db.orders && db.orders[oid].channel == Some(channel) && db.orders[oid].external == original && r.Ok?
        ==> r.value == RefundOrder(db, oid, now).value.(
          receipts := db.receipts[(channel, event) := Receipt(bodyHash, oid)])
  {
    var orders := ChannelOrders(db, channel, original);
    forall oid ensures oid in orders <==>
      oid in db.orders && db.orders[oid].channel == Some(channel) && db.orders[oid].external == original {}
    if orders != {} {
      var oid :| oid in orders;
      forall x | x in orders ensures x == oid {}
      assert orders == {oid};
    }
  }

  /** Some step of a run was this event, signed within its window. */
  ghost predicate SignedIn(steps: seq<(Step, Time)>, channel: Id, event: string, bodyHash: string) {
    exists i :: 0 <= i < |steps| && Carries(steps[i].0, channel, event, bodyHash)
  }

  predicate Carries(s: Step, channel: Id, event: string, bodyHash: string) {
    && s.DoReceiveSale? && s.channel == channel && s.event == event && s.bodyHash == bodyHash && Signed(s.proof)
  }

  /** Receipts after a step: those before it and, after a signed event, that of the event. */
  lemma NextReceipts(db: Db, s: Step, now: Time, k: (Id, string))
    requires k in Next(db, s, now).receipts
    ensures (k in db.receipts && Next(db, s, now).receipts[k] == db.receipts[k])
      || Carries(s, k.0, k.1, Next(db, s, now).receipts[k].bodyHash)
  {
    if s.DoReceiveSale? {
      ReceiveReceipts(db, s.channel, s.event, s.bodyHash, s.proof, s.body, now);
    } else if s.DoCreateSale? || s.DoAgentSale? || s.DoConfirmSale? || s.DoRefund? {
      SalesAddNoChannel(db, s, now);
    } else {
      OthersLeaveOrders(db, s, now);
    }
  }

  lemma ReceiveReceipts(db: Db, channel: Id, event: string, bodyHash: string, proof: Signing, e: SaleEvent, now: Time)
    ensures var after := Commit(db, ReceiveSale(db, channel, event, bodyHash, proof, e, now));
      after.receipts == db.receipts
      || (Signed(proof) && exists oid ::
            after.receipts == db.receipts[(channel, event) := Receipt(bodyHash, oid)])
  {
    var r := ReceiveSale(db, channel, event, bodyHash, proof, e, now);
    if r.Ok? && (channel, event) !in db.receipts {
      if e.PaymentConfirmed? {
        var o := PendingOrder(e.sale, db.plans[e.sale.plan].terms, None, 0, Some(channel), event);
        IssueSameChannels(db.(orders := db.orders[e.oid := o]), e.oid, e.tags, now);
        assert r.value.receipts == db.receipts[(channel, event) := Receipt(bodyHash, e.oid)];
      } else {
        var oid := Only(ChannelOrders(db, channel, e.original));
        RefundSameChannels(db, oid, now);
        assert r.value.receipts == db.receipts[(channel, event) := Receipt(bodyHash, oid)];
      }
    }
  }

  /** In every run each recorded sales event was received signed, on an enabled channel, at most two minutes from its
      timestamp, with the contents its receipt names. */
  lemma {:induction false} EventsWereSigned(app: App, opening: map<Id, int>, steps: seq<(Step, Time)>, channel: Id,
                                            event: string)
    requires (channel, event) in DbAfter(app, opening, steps).receipts
    ensures SignedIn(steps, channel, event, DbAfter(app, opening, steps).receipts[(channel, event)].bodyHash)
  {
    if steps != [] {
      var init, last := steps[..|steps| - 1], steps[|steps| - 1];
      var db := DbAfter(app, opening, init);
      NextReceipts(db, last.0, last.1, (channel, event));
      var hash := DbAfter(app, opening, steps).receipts[(channel, event)].bodyHash;
      if Carries(last.0, channel, event, hash) {
        assert Carries(steps[|steps| - 1].0, channel, event, hash);
      } else {
        EventsWereSigned(app, opening, init, channel, event);
        var i :| 0 <= i < |init| && Carries(init[i].0, channel, event, hash);
        assert Carries(steps[i].0, channel, event, hash);
      }
    }
  }

  // ---------- over runs ----------

  /** In every run a license has the plan, model and renewal targets of its order and keeps its base terms, which are
      within their bounds; started, its base dates lie those days after the start. */
  lemma LicenseTermsOverRuns(app: App, opening: map<Id, int>, steps: seq<(Step, Time)>, lid: Id)
    requires lid in DbAfter(app, opening, steps).licenses
    ensures var db := DbAfter(app, opening, steps);
      var l := db.licenses[lid];
      && l.order in db.orders && lid in db.orders[l.order].licenses && db.orders[l.order].status != Pending
      && var (o, d) := (db.orders[l.order], l.dates);
      && l.plan == o.plan && l.model == o.terms.model && l.renewalTargets == o.terms.renewalTargets
      && d.perpetual == o.terms.perpetual && d.baseDays == o.terms.durationDays
      && d.baseUpdateDays == o.terms.updateDays
      && 0 <= d.baseUpdateDays <= 36500 && (d.perpetual || 1 <= d.baseDays <= 36500)
      && (d.activatedAt.Some? ==>
            && Lasts(d.baseUpdatesUntil, d.activatedAt.value, d.baseUpdateDays)
            && (if d.perpetual then d.baseExpiresAt.None?
                else Lasts(d.baseExpiresAt, d.activatedAt.value, d.baseDays)))
  {
    RunKeepsTables(app, opening, steps);
    var db := DbAfter(app, opening, steps);
    assert LicenseOk(db, lid) && OrderOk(db, db.licenses[lid].order);
  }

  /** In every run a card was used before its deadline, if ever; a renewal card then renewed another license, of the
      same model and of the source's plan or one of its targets, and its source is revoked. */
  lemma CardUseOverRuns(app: App, opening: map<Id, int>, steps: seq<(Step, Time)>, cid: Id)
    requires cid in DbAfter(app, opening, steps).cards && DbAfter(app, opening, steps).cards[cid].usedAt.Some?
    ensures var db := DbAfter(app, opening, steps);
      var c := db.cards[cid];
      && (c.redeemUntil.Some? ==> c.usedAt.value < c.redeemUntil.value) && c.status != Unused
      && c.bound in db.licenses
      && var source := db.licenses[c.bound];
      if c.purpose == Activate then c.redeemed.None? && source.dates.activatedAt.Some? && !source.renewalOnly
      else
        && source.renewalOnly && source.status == Revoked
        && c.redeemed.Some? && c.redeemed.value != c.bound && c.redeemed.value in db.licenses
        && var target := db.licenses[c.redeemed.value];
        && target.model == source.model && (target.plan == source.plan || target.plan in source.renewalTargets)
        && (if c.purpose == RenewUsage then source.dates.durationDays >= 1 && !target.dates.perpetual
            else source.dates.updateDays >= 1)
  {
    RunKeepsTables(app, opening, steps);
    assert CardOk(DbAfter(app, opening, steps), cid);
  }
}
