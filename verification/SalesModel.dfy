/** Orders, cards, licenses, refunds and renewals of one application: the tables and what each
    transaction does to them. A transaction that fails leaves every table unchanged. */
module SalesModel {
  import opened Basics
  import opened Ledger
  import opened Money

  datatype Model = Perpetual | Subscription | Floating | Metered

  /** The part of the product terms that sales and renewals read. */
  datatype Terms = Terms(
    model: Model, perpetual: bool, durationDays: int, updateDays: int,
    startsOnIssue: bool, renewalTargets: set<Id>)

  datatype App = App(id: Id, active: bool, models: set<Model>, graceSeconds: nat)

  datatype Plan = Plan(enabled: bool, terms: Terms)

  datatype LicenseStatus = Active | Suspended | Expired | Revoked

  datatype License = License(
    plan: Id, order: Id, status: LicenseStatus, model: Model, renewalTargets: set<Id>,
    renewalOnly: bool, updatesBlocked: bool, dates: Dates)

  datatype CardStatus = Unused | Used | CardRevoked

  datatype Card = Card(
    keyHash: string, purpose: Purpose, status: CardStatus, bound: Id,
    redeemed: Option<Id>, usedAt: Option<Time>, refundedAt: Option<Time>, redeemUntil: Option<Time>)

  datatype OrderStatus = Pending | Confirmed | Refunded

  datatype Order = Order(
    plan: Id, quantity: nat, status: OrderStatus, terms: Terms, distribute: bool, purpose: Purpose,
    redeemUntil: Option<Time>, licenses: seq<Id>, agent: Option<Id>, cost: int, channel: Option<Id>, external: string)

  datatype Receipt = Receipt(bodyHash: string, order: Id)

  /** `cardRows` lists the card rows in the fixed order in which a paged query returns them. */
  datatype Db = Db(
    app: App, plans: map<Id, Plan>, licenses: map<Id, License>, cards: map<Id, Card>, cardRows: seq<Id>,
    orders: map<Id, Order>, receipts: map<(Id, string), Receipt>, books: Books)

  /** Identifiers and key hash drawn for one unit of an order. */
  datatype Tag = Tag(license: Id, card: Id, keyHash: string)

  // ---------- product terms ----------

  function NormalizeTerms(app: App, t: Terms): Outcome<Terms> {
    var u := if t.model == Perpetual then t.(perpetual := true, durationDays := 0)
             else if t.model == Subscription then t.(perpetual := false) else t;
    if t.model !in app.models then Err("INVALID_REQUEST")
    else if !u.perpetual && !(1 <= u.durationDays <= 36500) then Err("INVALID_REQUEST")
    else if !(0 <= u.updateDays <= 36500) then Err("INVALID_REQUEST")
    else Ok(u)
  }

  // ---------- issuing ----------

  function FreshDates(t: Terms): Dates {
    Dates(t.perpetual, t.durationDays, t.updateDays, None, None, None, t.durationDays, t.updateDays, None, None)
  }

  function NewLicense(oid: Id, o: Order, now: Time): License {
    var renewalOnly := o.purpose != Activate;
    var dates := FreshDates(o.terms);
    License(o.plan, oid, Active, o.terms.model, o.terms.renewalTargets, renewalOnly, false,
      if !renewalOnly && o.terms.startsOnIssue then Start(dates, now) else dates)
  }

  function NewCard(o: Order, tag: Tag): Card {
    Card(tag.keyHash, o.purpose, Unused, tag.license, None, None, None, o.redeemUntil)
  }

  function LicenseIds(tags: seq<Tag>): (r: seq<Id>)
    ensures |r| == |tags| && forall i :: 0 <= i < |tags| ==> r[i] == tags[i].license
  {
    if tags == [] then [] else LicenseIds(tags[..|tags| - 1]) + [tags[|tags| - 1].license]
  }

  function CardIds(tags: seq<Tag>): (r: seq<Id>)
    ensures |r| == |tags| && forall i :: 0 <= i < |tags| ==> r[i] == tags[i].card
  {
    if tags == [] then [] else CardIds(tags[..|tags| - 1]) + [tags[|tags| - 1].card]
  }

  predicate HashTaken(cards: map<Id, Card>, hash: string) {
    exists c :: c in cards && cards[c].keyHash == hash
  }

  /** No primary or unique key is violated by inserting these rows. */
  ghost predicate Insertable(db: Db, o: Order, tags: seq<Tag>) {
    && (forall i :: 0 <= i < |tags| ==> tags[i].license !in db.licenses)
    && (forall i, j :: 0 <= i < j < |tags| ==> tags[i].license != tags[j].license)
    && (o.distribute ==>
          && (forall i :: 0 <= i < |tags| ==> tags[i].card !in db.cards && !HashTaken(db.cards, tags[i].keyHash))
          && (forall i, j :: 0 <= i < j < |tags| ==>
               tags[i].card != tags[j].card && tags[i].keyHash != tags[j].keyHash))
  }

  function IssuedCards(o: Order, tags: seq<Tag>): map<Id, Card> {
    if tags == [] then map[]
    else
      var last := tags[|tags| - 1];
      IssuedCards(o, tags[..|tags| - 1])[last.card := NewCard(o, last)]
  }

  function LicenseRows(oid: Id, o: Order, ids: seq<Id>, now: Time): map<Id, License> {
    map id | id in ids :: NewLicense(oid, o, now)
  }

  function Confirm(o: Order, ids: seq<Id>): Order { o.(status := Confirmed, licenses := o.licenses + ids) }

  ghost function IssuedDb(db: Db, oid: Id, tags: seq<Tag>, now: Time): Db
    requires oid in db.orders && Insertable(db, db.orders[oid], tags)
  {
    var o := db.orders[oid];
    db.(
      licenses := db.licenses + LicenseRows(oid, o, LicenseIds(tags), now),
      cards := if o.distribute then db.cards + IssuedCards(o, tags) else db.cards,
      cardRows := if o.distribute then db.cardRows + CardIds(tags) else db.cardRows,
      orders := db.orders[oid := Confirm(o, LicenseIds(tags))])
  }

  /** Confirm a pending order: `quantity` licenses, and a card for each when cards are distributed. */
  ghost function IssueOrder(db: Db, oid: Id, tags: seq<Tag>, now: Time): Outcome<Db>
    requires oid in db.orders && |tags| == db.orders[oid].quantity
  {
    var o := db.orders[oid];
    if o.status != Pending then Err("ORDER_ALREADY_CONFIRMED")
    else if !db.app.active then Err("APPLICATION_DISABLED")
    else if NormalizeTerms(db.app, o.terms).Err? then Err("INVALID_REQUEST")
    else if o.redeemUntil.Some? && now >= o.redeemUntil.value then Err("INVALID_REQUEST")
    else if !Insertable(db, o, tags) then Err("UNIQUE_VIOLATION")
    else Ok(IssuedDb(db, oid, tags, now))
  }

  // ---------- finding cards ----------

  function FindByHash(rows: seq<Id>, cards: map<Id, Card>, hash: string): (r: Option<Id>)
    ensures r.Some? ==> r.value in cards && cards[r.value].keyHash == hash && r.value in rows
  {
    if rows == [] then None
    else if rows[0] in cards && cards[rows[0]].keyHash == hash then Some(rows[0])
    else FindByHash(rows[1..], cards, hash)
  }

  /** Rows of the cards redeemed by a license. */
  function RedeemedRows(rows: seq<Id>, cards: map<Id, Card>, lid: Id): (r: seq<Id>)
    ensures forall c :: c in r <==> c in rows && c in cards && cards[c].redeemed == Some(lid)
  {
    if rows == [] then []
    else
      var rest := RedeemedRows(rows[..|rows| - 1], cards, lid);
      var last := rows[|rows| - 1];
      assert forall c :: c in rows <==> c in rows[..|rows| - 1] || c == last;
      if last in cards && cards[last].redeemed == Some(lid) then rest + [last] else rest
  }

  // ---------- the rebuild ----------

  /** The comparison handed to the sort: unused cards last, then by use time, then by id. */
  predicate UsedBefore(cards: map<Id, Card>, a: Id, b: Id)
    requires a in cards && b in cards
  {
    if cards[a].usedAt.None? then false
    else if cards[b].usedAt.None? then true
    else if cards[a].usedAt == cards[b].usedAt then IdLess(a, b)
    else cards[a].usedAt.value < cards[b].usedAt.value
  }

  function InsertSorted(sorted: seq<Id>, cards: map<Id, Card>, c: Id): (r: seq<Id>)
    requires c in cards && forall x :: x in sorted ==> x in cards
    ensures multiset(r) == multiset(sorted) + multiset{c}
    ensures forall x :: x in r ==> x in cards
  {
    if sorted == [] then [c]
    else
      var last := sorted[|sorted| - 1];
      assert sorted == sorted[..|sorted| - 1] + [last];
      if UsedBefore(cards, c, last) then
        var r := InsertSorted(sorted[..|sorted| - 1], cards, c) + [last];
        assert forall x :: x in r ==> x in multiset(r);
        r
      else sorted + [c]
  }

  function SortByUse(rows: seq<Id>, cards: map<Id, Card>): (r: seq<Id>)
    requires forall x :: x in rows ==> x in cards
    ensures multiset(r) == multiset(rows)
    ensures forall x :: x in r ==> x in cards
  {
    if rows == [] then []
    else
      assert rows == rows[..|rows| - 1] + [rows[|rows| - 1]];
      InsertSorted(SortByUse(rows[..|rows| - 1], cards), cards, rows[|rows| - 1])
  }

  /** The days the card's source license grants for the card's purpose. */
  function DaysOf(licenses: map<Id, License>, card: Card): int {
    if card.bound !in licenses then 0
    else if card.purpose == RenewUsage then licenses[card.bound].dates.durationDays
    else licenses[card.bound].dates.updateDays
  }

  predicate Credited(card: Card) { card.usedAt.Some? && card.refundedAt.None? }

  function CreditOf(licenses: map<Id, License>, cards: map<Id, Card>, c: Id): Credit
    requires c in cards && cards[c].usedAt.Some?
  {
    Credit(c, cards[c].usedAt.value, cards[c].purpose, DaysOf(licenses, cards[c]))
  }

  function CreditsOf(licenses: map<Id, License>, cards: map<Id, Card>, ids: seq<Id>): (r: seq<Credit>)
    requires forall x :: x in ids ==> x in cards
  {
    if ids == [] then []
    else
      var rest := CreditsOf(licenses, cards, ids[..|ids| - 1]);
      var last := ids[|ids| - 1];
      if Credited(cards[last]) then rest + [CreditOf(licenses, cards, last)] else rest
  }

  /** The dates `recomputeRenewals` stores for a license. */
  function Recomputed(licenses: map<Id, License>, cards: map<Id, Card>, rows: seq<Id>, lid: Id): Dates
    requires lid in licenses
  {
    Rebuild(licenses[lid].dates, CreditsOf(licenses, cards, SortByUse(RedeemedRows(rows, cards, lid), cards)))
  }

  // ---------- refund ----------

  function RefundedCards(cards: map<Id, Card>, sources: seq<Id>, now: Time): map<Id, Card> {
    map c | c in cards ::
      if cards[c].bound in sources then cards[c].(refundedAt := Some(now), status := CardRevoked) else cards[c]
  }

  function RevokedLicenses(licenses: map<Id, License>, sources: seq<Id>): map<Id, License> {
    map id | id in licenses :: if id in sources then licenses[id].(status := Revoked) else licenses[id]
  }

  /** Licenses credited by a card bound to one of `sources`. */
  ghost predicate Affected(cards: map<Id, Card>, sources: seq<Id>, lid: Id) {
    exists c :: c in cards && cards[c].bound in sources && cards[c].redeemed == Some(lid)
  }

  ghost function Reconcile(licenses: map<Id, License>, cards: map<Id, Card>, rows: seq<Id>, sources: seq<Id>)
      : map<Id, License>
  {
    map id | id in licenses ::
      if Affected(cards, sources, id)
      then licenses[id].(dates := Recomputed(licenses, cards, rows, id))
      else licenses[id]
  }

  /** Order, licenses and cards after a refund. */
  ghost function RefundedRows(db: Db, oid: Id, now: Time): Db
    requires oid in db.orders
  {
    var o := db.orders[oid];
    var cards := RefundedCards(db.cards, o.licenses, now);
    db.(orders := db.orders[oid := o.(status := Refunded)], cards := cards,
        licenses := Reconcile(RevokedLicenses(db.licenses, o.licenses), cards, db.cardRows, o.licenses))
  }

  ghost function RefundOrder(db: Db, oid: Id, now: Time): Outcome<Db>
    requires oid in db.orders
  {
    var o := db.orders[oid];
    if o.status == Refunded then Ok(db)
    else if o.status != Confirmed then Err("ORDER_NOT_CONFIRMED")
    else if o.agent.None? then Ok(RefundedRows(db, oid, now))
    else
      match PostRefund(db.books, db.app.id, o.agent.value, oid, o.cost)
      case Err(code) => Err(code)
      case Ok(books) => Ok(RefundedRows(db, oid, now).(books := books))
  }

  // ---------- activation and redemption ----------

  function Deadline(app: App, l: License): Option<Time> {
    if l.dates.perpetual || l.dates.expiresAt.None? then None
    else Some(l.dates.expiresAt.value + Seconds(app.graceSeconds))
  }

  function CheckUsable(app: App, l: License, now: Time): Outcome<()> {
    if l.renewalOnly then Err("LICENSE_RENEWAL_ONLY")
    else if !app.active then Err("APPLICATION_DISABLED")
    else if l.status == Suspended then Err("LICENSE_SUSPENDED")
    else if l.status == Revoked then Err("LICENSE_REVOKED")
    else if l.status == Expired then Err("LICENSE_EXPIRED")
    else if Deadline(app, l).Some? && now >= Deadline(app, l).value then Err("LICENSE_EXPIRED")
    else if l.model !in app.models then Err("MODEL_DISABLED")
    else Ok(())
  }

  /** Start a license through an invitation or approved request; `admitted` stands for the binding,
      seat and token checks around it. */
  function ActivateLicense(db: Db, lid: Id, admitted: bool, now: Time): Outcome<Db> {
    if lid !in db.licenses then Err("NOT_FOUND")
    else
      var l := db.licenses[lid];
      match CheckUsable(db.app, l, now)
      case Err(code) => Err(code)
      case Ok(_) =>
        if !admitted then Err("REFUSED")
        else Ok(db.(licenses := db.licenses[lid := l.(dates := Start(l.dates, now))]))
  }

  function ActivateWithCard(db: Db, hash: string, admitted: bool, now: Time): Outcome<Db> {
    match FindByHash(db.cardRows, db.cards, hash)
    case None => Err("CARD_INVALID")
    case Some(cid) =>
      var c := db.cards[cid];
      if c.status == CardRevoked then Err("CARD_REVOKED")
      else if c.purpose != Activate then Err("INVALID_REQUEST")
      else if c.redeemUntil.Some? && now >= c.redeemUntil.value then Err("CARD_EXPIRED")
      else
        match ActivateLicense(db, c.bound, admitted, now)
        case Err(code) => Err(code)
        case Ok(after) =>
          var usedAt := if c.usedAt.None? then Some(now) else c.usedAt;
          Ok(after.(cards := db.cards[cid := c.(status := Used, usedAt := usedAt)]))
  }

  /** Why a card may not renew a license, checked after the license itself. */
  function RenewalRefusal(l: License, lid: Id, c: Card, source: License, now: Time): Option<string> {
    if source.plan != l.plan && l.plan !in source.renewalTargets then Some("RENEWAL_PLAN_INCOMPATIBLE")
    else if source.status != Active then Some("CARD_UNUSABLE")
    else if c.bound == lid || source.model != l.model then Some("INVALID_REQUEST")
    else if c.purpose == RenewUsage then
      if l.dates.perpetual || source.dates.perpetual || source.dates.durationDays <= 0 then Some("INVALID_REQUEST")
      else if l.dates.activatedAt.None? && l.dates.durationDays > 36500 - source.dates.durationDays
        then Some("INVALID_REQUEST")
      else None
    else
      if source.dates.updateDays <= 0 then Some("INVALID_REQUEST")
      else if l.dates.activatedAt.None? && l.dates.updateDays > 36500 - source.dates.updateDays
        then Some("INVALID_REQUEST")
      else None
  }

  /** The card a renewal uses: one already spent on this license, or one that may renew it. */
  function RenewalCard(db: Db, lid: Id, hash: string, now: Time): Outcome<Id> {
    if lid !in db.licenses then Err("NOT_FOUND")
    else
      var l := db.licenses[lid];
      if l.renewalOnly then Err("LICENSE_RENEWAL_ONLY")
      else if !db.app.active then Err("APPLICATION_DISABLED")
      else if l.model !in db.app.models then Err("MODEL_DISABLED")
      else if l.status == Revoked || l.status == Suspended then Err("LICENSE_UNUSABLE")
      else
        match FindByHash(db.cardRows, db.cards, hash)
        case None => Err("CARD_INVALID")
        case Some(cid) =>
          var c := db.cards[cid];
          if l.updatesBlocked && c.purpose == RenewUpdates then Err("UPDATES_BLOCKED")
          else if SpentOn(c, lid) then Ok(cid)
          else if c.status != Unused || c.purpose == Activate || (c.redeemUntil.Some? && now >= c.redeemUntil.value)
          then Err("CARD_UNUSABLE")
          else if c.bound !in db.licenses then Err("NOT_FOUND")
          else
            match RenewalRefusal(l, lid, c, db.licenses[c.bound], now)
            case Some(code) => Err(code)
            case None => Ok(cid)
  }

  predicate SpentOn(c: Card, lid: Id) { c.status == Used && c.redeemed == Some(lid) }

  /** A retry finds the card already spent on this license and changes nothing. */
  function RedeemRenewal(db: Db, lid: Id, hash: string, now: Time): Outcome<Db> {
    match RenewalCard(db, lid, hash, now)
    case Err(code) => Err(code)
    case Ok(cid) => if SpentOn(db.cards[cid], lid) then Ok(db) else Ok(Redemption(db, lid, cid, now))
  }

  function Redemption(db: Db, lid: Id, cid: Id, now: Time): Db
    requires lid in db.licenses && cid in db.cards && db.cards[cid].bound in db.licenses
  {
    var l, c := db.licenses[lid], db.cards[cid];
    var credit := Credit(cid, now, c.purpose, DaysOf(db.licenses, c));
    var renewed := l.(dates := Redeem(l.dates, credit),
                      status := if c.purpose == RenewUsage && l.status == Expired then Active else l.status);
    db.(cards := db.cards[cid := c.(status := Used, redeemed := Some(lid), usedAt := Some(now))],
        licenses := db.licenses[c.bound := db.licenses[c.bound].(status := Revoked)][lid := renewed])
  }

  // ---------- the remaining transactions ----------

  function SetLicenseStatus(db: Db, lid: Id, status: LicenseStatus): Outcome<Db> {
    if lid !in db.licenses then Err("NOT_FOUND")
    else if db.licenses[lid].status == Revoked && status != Revoked then Err("REVOCATION_FINAL")
    else Ok(db.(licenses := db.licenses[lid := db.licenses[lid].(status := status)]))
  }

  function RevokeCard(db: Db, cid: Id): Outcome<Db> {
    if cid !in db.cards then Err("NOT_FOUND")
    else Ok(db.(cards := db.cards[cid := db.cards[cid].(status := CardRevoked)]))
  }

  function BlockUpdates(db: Db, lid: Id, blocked: bool): Outcome<Db> {
    if lid !in db.licenses then Err("NOT_FOUND")
    else Ok(db.(licenses := db.licenses[lid := db.licenses[lid].(updatesBlocked := blocked)]))
  }

  /** Terms of a plan are frozen once a license of it exists. */
  function SavePlan(db: Db, pid: Id, enabled: bool, terms: Terms): Outcome<Db> {
    match NormalizeTerms(db.app, terms)
    case Err(code) => Err(code)
    case Ok(t) =>
      if exists p :: p in t.renewalTargets && p !in db.plans then Err("INVALID_REQUEST")
      else if pid in db.plans && db.plans[pid].terms != t && exists l :: l in db.licenses && db.licenses[l].plan == pid
      then Err("PLAN_TERMS_FROZEN")
      else Ok(db.(plans := db.plans[pid := Plan(enabled, t)]))
  }

  /** What a sale asks for. `digests` are those of keys printed by the seller, if any. */
  datatype Sale = Sale(
    plan: Id, quantity: nat, distribute: bool, purpose: Purpose, redeemUntil: Option<Time>,
    customer: string, owner: Id, amount: int, digests: seq<string>, reason: string)

  predicate HexChar(c: char) { ('0' <= c <= '9') || ('a' <= c <= 'f') }

  predicate Digest(s: string) { |s| == 64 && forall i :: 0 <= i < 64 ==> HexChar(s[i]) }

  predicate ValidSale(s: Sale) {
    && s.plan != "" && 1 <= s.quantity <= 1000 && |s.customer| <= 190 && |s.owner| <= 96
    && 0 <= s.amount <= MAX_MONEY
    && (s.digests != [] ==> s.distribute && |s.digests| == s.quantity)
    && (forall i :: 0 <= i < |s.digests| ==> Digest(s.digests[i]))
    && (forall i, j :: 0 <= i < j < |s.digests| ==> s.digests[i] != s.digests[j])
    && (s.purpose != Activate ==> s.distribute)
  }

  function PendingOrder(s: Sale, terms: Terms, agent: Option<Id>, cost: int, channel: Option<Id>, external: string)
      : Order
  {
    Order(s.plan, s.quantity, Pending, terms, s.distribute, s.purpose, s.redeemUntil, [], agent, cost, channel,
      external)
  }

  ghost function CreateSale(db: Db, oid: Id, s: Sale, custom: Option<Terms>, confirmed: bool, tags: seq<Tag>,
                            now: Time): Outcome<Db>
    requires |tags| == s.quantity
  {
    if !ValidSale(s) || (confirmed && Blank(s.reason)) then Err("INVALID_REQUEST")
    else if s.plan !in db.plans then Err("NOT_FOUND")
    else if !db.plans[s.plan].enabled then Err("PLAN_DISABLED")
    else
      match NormalizeTerms(db.app, if custom.Some? then custom.value else db.plans[s.plan].terms)
      case Err(code) => Err(code)
      case Ok(terms) =>
        if oid in db.orders then Err("UNIQUE_VIOLATION")
        else
          var placed := db.(orders := db.orders[oid := PendingOrder(s, terms, None, 0, None, "")]);
          if confirmed then IssueOrder(placed, oid, tags, now) else Ok(placed)
  }

  ghost function ConfirmSale(db: Db, oid: Id, tags: seq<Tag>, now: Time): Outcome<Db> {
    if oid !in db.orders then Err("NOT_FOUND")
    else if |tags| != db.orders[oid].quantity then Err("BAD_DRAW")
    else IssueOrder(db, oid, tags, now)
  }

  /** Orders of a channel with an external id. */
  ghost function ChannelOrders(db: Db, channel: Id, external: string): set<Id> {
    set oid | oid in db.orders && db.orders[oid].channel == Some(channel) && db.orders[oid].external == external
  }

  /** The member of a singleton. */
  ghost function Only(s: set<Id>): (x: Id)
    requires |s| == 1
    ensures x in s
  {
    var x :| x in s;
    x
  }

  /** A signed sales event: `payment.confirmed` carries a sale, `payment.refunded` the original event.
      See `Signing` for what makes it proof. */
  datatype SaleEvent =
    | PaymentConfirmed(sale: Sale, planAllowed: bool, oid: Id, tags: seq<Tag>)
    | PaymentRefunded(original: string)

  /** The timestamp of an event and the clock reading it is checked at, whether the channel is enabled, and whether
      the signature over timestamp and body is valid. */
  datatype Signing = Signing(stamp: int, readAt: Time, enabled: bool, valid: bool)

  function SigningRefusal(p: Signing): Option<string> {
    if p.readAt - Seconds(p.stamp) > Seconds(120) || Seconds(p.stamp) - p.readAt > Seconds(120)
    then Some("REQUEST_EXPIRED")
    else if !p.enabled then Some("CHANNEL_DISABLED")
    else if !p.valid then Some("SIGNATURE_INVALID")
    else None
  }

  /** Once issued, the order of a webhook is kept without the purpose and deadline of its cards. */
  function Kept(o: Order): Order { o.(purpose := Activate, redeemUntil := None) }

  ghost function Keep(after: Outcome<Db>, oid: Id): Outcome<Db>
    requires after.Ok? ==> oid in after.value.orders
  {
    match after
    case Err(code) => Err(code)
    case Ok(db) => Ok(db.(orders := db.orders[oid := Kept(db.orders[oid])]))
  }

  ghost function ReceiveSale(db: Db, channel: Id, event: string, bodyHash: string, proof: Signing, e: SaleEvent,
                             now: Time): Outcome<Db> {
    if event == "" || |event| > 190 then Err("INVALID_REQUEST")
    else if SigningRefusal(proof).Some? then Err(SigningRefusal(proof).value)
    else if (channel, event) in db.receipts then
      if db.receipts[(channel, event)].bodyHash != bodyHash then Err("IDEMPOTENCY_CONFLICT") else Ok(db)
    else
      match e
      case PaymentRefunded(original) =>
        var orders := ChannelOrders(db, channel, original);
        if |orders| != 1 then Err("INVALID_REQUEST")
        else
          var oid := Only(orders);
          Receive(RefundOrder(db, oid, now), channel, event, bodyHash, oid)
      case PaymentConfirmed(s, planAllowed, oid, tags) =>
        if !ValidSale(s) || |tags| != s.quantity then Err("INVALID_REQUEST")
        else if !planAllowed then Err("PLAN_NOT_GRANTED")
        else if s.plan !in db.plans then Err("NOT_FOUND")
        else if !db.plans[s.plan].enabled then Err("PLAN_DISABLED")
        else if oid in db.orders then Err("UNIQUE_VIOLATION")
        else
          var o := PendingOrder(s, db.plans[s.plan].terms, None, 0, Some(channel), event);
          var issued := IssueOrder(db.(orders := db.orders[oid := o]), oid, tags, now);
          Receive(Keep(issued, oid), channel, event, bodyHash, oid)
  }

  ghost function Receive(after: Outcome<Db>, channel: Id, event: string, bodyHash: string, oid: Id): Outcome<Db> {
    match after
    case Err(code) => Err(code)
    case Ok(db) => Ok(db.(receipts := db.receipts[(channel, event) := Receipt(bodyHash, oid)]))
  }

  /** An agent buying with its balance. `grant` is the agent's grant for the plan, with the batch limit
      and the quoted unit cost; `fingerprint` encodes the whole input. */
  datatype Grant = Grant(maxBatch: int, unitCost: int, usable: bool)

  ghost function AgentSale(db: Db, agent: Id, active: bool, request: string, fingerprint: string, s: Sale,
                           grant: Option<Grant>, expected: int, oid: Id, tags: seq<Tag>, now: Time): Outcome<Db>
  {
    if |request| < 8 || |request| > 128 || !ValidSale(s) || !s.distribute || s.redeemUntil.Some? || |tags| != s.quantity
    then Err("INVALID_REQUEST")
    else
      match Lookup(db.books.entries, Application(db.app.id), agent, request)
      case Some(row) =>
        if row.fingerprint != fingerprint then Err("IDEMPOTENCY_CONFLICT") else Ok(db)
      case None =>
        if grant.None? then Err("AGENT_PLAN_NOT_GRANTED")
        else if s.plan !in db.plans then Err("NOT_FOUND")
        else if !db.app.active || !db.plans[s.plan].enabled || !grant.value.usable || !active
                || NormalizeTerms(db.app, db.plans[s.plan].terms).Err? then Err("AGENT_PLAN_NOT_GRANTED")
        else if s.quantity > grant.value.maxBatch then Err("BATCH_LIMIT_EXCEEDED")
        else if expected != grant.value.unitCost then Err("PRICE_CHANGED")
        else if oid in db.orders then Err("UNIQUE_VIOLATION")
        else
          var cost := grant.value.unitCost * s.quantity;
          match PostIssue(db.books, db.app.id, agent, active, oid, request, fingerprint, cost)
          case Err(code) => Err(code)
          case Ok(books) =>
            var o := PendingOrder(s, db.plans[s.plan].terms, Some(agent), cost, None, request);
            match IssueOrder(db.(orders := db.orders[oid := o]), oid, tags, now)
            case Err(code) => Err(code)
            case Ok(after) => Ok(after.(books := books))
  }

  // ---------- runs ----------

  datatype Step =
    | SaveApp(app: App)
    | DoSavePlan(pid: Id, enabled: bool, terms: Terms)
    | DoCreateSale(oid: Id, sale: Sale, custom: Option<Terms>, confirmed: bool, tags: seq<Tag>)
    | DoConfirmSale(oid: Id, tags: seq<Tag>)
    | DoReceiveSale(channel: Id, event: string, bodyHash: string, proof: Signing, body: SaleEvent)
    | DoAgentSale(agent: Id, active: bool, request: string, fingerprint: string, sale: Sale,
                  grant: Option<Grant>, expected: int, oid: Id, tags: seq<Tag>)
    | DoRefund(oid: Id)
    | DoActivate(lid: Id, admitted: bool)
    | DoActivateWithCard(hash: string, admitted: bool)
    | DoRedeem(lid: Id, hash: string)
    | DoSetStatus(lid: Id, status: LicenseStatus)
    | DoRevokeCard(cid: Id)
    | DoBlockUpdates(lid: Id, blocked: bool)
    | Elsewhere(op: Op)

  /** A change of the books by the platform or by another application. */
  predicate Foreign(db: Db, op: Op) {
    match op
    case OpIssue(app, _, _, _, _, _, _) => app != db.app.id
    case OpRefund(app, _, _, _) => app != db.app.id
    case OpAdjust(_, _, _, _, _) => true
    case OpPackage(_, _, _, _, _, _, _, _) => true
  }

  ghost function Transact(db: Db, s: Step, now: Time): Outcome<Db> {
    match s
    case SaveApp(app) => if app.id == db.app.id then Ok(db.(app := app)) else Err("NOT_FOUND")
    case DoSavePlan(pid, enabled, terms) => SavePlan(db, pid, enabled, terms)
    case DoCreateSale(oid, sale, custom, confirmed, tags) =>
      if |tags| == sale.quantity then CreateSale(db, oid, sale, custom, confirmed, tags, now) else Err("BAD_DRAW")
    case DoConfirmSale(oid, tags) => ConfirmSale(db, oid, tags, now)
    case DoReceiveSale(channel, event, bodyHash, proof, body) =>
      ReceiveSale(db, channel, event, bodyHash, proof, body, now)
    case DoAgentSale(agent, active, request, fingerprint, sale, grant, expected, oid, tags) =>
      AgentSale(db, agent, active, request, fingerprint, sale, grant, expected, oid, tags, now)
    case DoRefund(oid) => if oid in db.orders then RefundOrder(db, oid, now) else Err("NOT_FOUND")
    case DoActivate(lid, admitted) => ActivateLicense(db, lid, admitted, now)
    case DoActivateWithCard(hash, admitted) => ActivateWithCard(db, hash, admitted, now)
    case DoRedeem(lid, hash) => RedeemRenewal(db, lid, hash, now)
    case DoSetStatus(lid, status) => SetLicenseStatus(db, lid, status)
    case DoRevokeCard(cid) => RevokeCard(db, cid)
    case DoBlockUpdates(lid, blocked) => BlockUpdates(db, lid, blocked)
    case Elsewhere(op) =>
      if !Foreign(db, op) then Err("NOT_FOUND")
      else
        match Perform(db.books, op)
        case Err(code) => Err(code)
        case Ok(books) => Ok(db.(books := books))
  }

  ghost function Next(db: Db, s: Step, now: Time): Db { Commit(db, Transact(db, s, now)) }
}
