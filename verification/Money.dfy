/** Agent money: prepaid balances shared by the platform and every application, and the ledgers
    in which each change is recorded. A transaction that fails leaves the books unchanged. */
module Money {
  import opened Basics

  const MAX_MONEY: int := 1_000_000_000_000

  datatype Outcome<+T> = Ok(value: T) | Err(code: string)

  /** The ledger a row is kept in; request ids are unique per ledger and agent. */
  datatype Book = Platform | Application(app: Id)

  datatype Kind = Issue | Refund | Adjust

  datatype Entry = Entry(
    book: Book, agent: Id, request: string, kind: Kind, order: Id,
    fingerprint: string, amount: int, balanceAfter: int)

  datatype Books = Books(
    balances: map<Id, int>,
    entries: seq<Entry>,
    packageOrders: map<(Id, string), string>)

  function BalanceOf(balances: map<Id, int>, agent: Id): int {
    if agent in balances then balances[agent] else 0
  }

  predicate Recorded(entries: seq<Entry>, book: Book, agent: Id, request: string) {
    exists i :: 0 <= i < |entries| && SameKey(entries[i], book, agent, request)
  }

  predicate SameKey(e: Entry, book: Book, agent: Id, request: string) {
    e.book == book && e.agent == agent && e.request == request
  }

  /** The row with this key, if any: `Find` with limit 1 on a unique key. */
  function Lookup(entries: seq<Entry>, book: Book, agent: Id, request: string): (r: Option<Entry>)
    ensures r.Some? ==> r.value in entries && SameKey(r.value, book, agent, request)
    ensures r.None? <==> !Recorded(entries, book, agent, request)
  {
    if entries == [] then None
    else if SameKey(entries[0], book, agent, request) then
      Some(entries[0])
    else
      var rest := Lookup(entries[1..], book, agent, request);
      assert entries == [entries[0]] + entries[1..];
      rest
  }

  /** Change a balance and insert the ledger row, or fail on the unique key. */
  function Record(b: Books, e: Entry): Outcome<Books> {
    if Recorded(b.entries, e.book, e.agent, e.request) then Err("UNIQUE_VIOLATION")
    else Ok(b.(balances := b.balances[e.agent := e.balanceAfter], entries := b.entries + [e]))
  }

  // ---------- operations ----------

  /** A confirmed agent order: the store debits the account, then the row is inserted. */
  function PostIssue(b: Books, app: Id, agent: Id, active: bool, order: Id, request: string, fingerprint: string,
                     cost: int): Outcome<Books>
  {
    if cost < 0 then Err("NEGATIVE_DEBIT")
    else if agent !in b.balances then Err("NOT_FOUND")
    else if !active then Err("AGENT_DISABLED")
    else if b.balances[agent] < cost then Err("INSUFFICIENT_BALANCE")
    else Record(b, Entry(Application(app), agent, request, Issue, order, fingerprint, -cost, b.balances[agent] - cost))
  }

  function RefundRequest(order: Id): string { "refund:" + order }

  function PostRefund(b: Books, app: Id, agent: Id, order: Id, cost: int): Outcome<Books> {
    if cost < 0 then Err("NEGATIVE_CREDIT")
    else if agent !in b.balances then Err("NOT_FOUND")
    else if cost > MAX_MONEY - b.balances[agent] then Err("BALANCE_LIMIT")
    else
      var balance := b.balances[agent] + cost;
      Record(b, Entry(Application(app), agent, RefundRequest(order), Refund, order, "", cost, balance))
  }

  /** An administrator's adjustment of a known agent; `reason` is kept in the row's fingerprint column here. */
  function AdjustBalance(b: Books, agent: Id, known: bool, request: string, amount: int, reason: string)
      : Outcome<Books>
  {
    if amount == 0 || amount > MAX_MONEY || amount < -MAX_MONEY || |request| < 8 || |request| > 64
       || Blank(reason) || |reason| > 500 then Err("INVALID_REQUEST")
    else if !known then Err("AGENT_NOT_FOUND")
    else
      match Lookup(b.entries, Platform, agent, request)
      case Some(row) =>
        if row.kind != Adjust || row.amount != amount || row.fingerprint != reason then Err("IDEMPOTENCY_CONFLICT")
        else Ok(b)
      case None =>
        var balance := BalanceOf(b.balances, agent) + amount;
        if balance < 0 || balance > MAX_MONEY then Err("BALANCE_LIMIT")
        else Record(b, Entry(Platform, agent, request, Adjust, "", reason, amount, balance))
  }

  /** A package purchase. `fingerprint` encodes package, name, quantity and expected cost; `active` says whether
      the agent may trade at all, `quote` is the current unit cost, and `allowed` stands for the product,
      policy and quota checks. */
  function IssuePackage(b: Books, agent: Id, active: bool, request: string, fingerprint: string, quantity: int,
                        expected: int, quote: int, allowed: bool): Outcome<Books>
  {
    if quantity < 1 || quantity > 1000 || |request| < 8 || |request| > 64 then Err("INVALID_REQUEST")
    else if !active then Err("AGENT_INACTIVE")
    else if (agent, request) in b.packageOrders then
      if b.packageOrders[(agent, request)] != fingerprint then Err("IDEMPOTENCY_CONFLICT") else Ok(b)
    else if !allowed then Err("DENIED")
    else if expected != quote then Err("PACKAGE_PRICE_CHANGED")
    else
      var cost := quote * quantity;
      var balance := BalanceOf(b.balances, agent);
      if cost < 0 || cost > MAX_MONEY || balance < cost then Err("AGENT_BALANCE_NOT_ENOUGH")
      else
        match Record(b, Entry(Platform, agent, request, Issue, "", fingerprint, -cost, balance - cost))
        case Err(code) => Err(code)
        case Ok(after) => Ok(after.(packageOrders := b.packageOrders[(agent, request) := fingerprint]))
  }

  datatype Op =
    | OpIssue(app: Id, agent: Id, active: bool, order: Id, request: string, fingerprint: string, cost: int)
    | OpRefund(app: Id, agent: Id, order: Id, cost: int)
    | OpAdjust(agent: Id, known: bool, request: string, amount: int, reason: string)
    | OpPackage(agent: Id, active: bool, request: string, fingerprint: string, quantity: int, expected: int,
      quote: int, allowed: bool)

  function Perform(b: Books, op: Op): Outcome<Books> {
    match op
    case OpIssue(app, agent, active, order, request, fp, cost) =>
      PostIssue(b, app, agent, active, order, request, fp, cost)
    case OpRefund(app, agent, order, cost) => PostRefund(b, app, agent, order, cost)
    case OpAdjust(agent, known, request, amount, reason) => AdjustBalance(b, agent, known, request, amount, reason)
    case OpPackage(agent, active, request, fp, quantity, expected, quote, allowed) =>
      IssuePackage(b, agent, active, request, fp, quantity, expected, quote, allowed)
  }

  function Commit<T>(before: T, after: Outcome<T>): T {
    if after.Ok? then after.value else before
  }

  function Run(b: Books, ops: seq<Op>): Books {
    if ops == [] then b
    else
      var before := Run(b, ops[..|ops| - 1]);
      Commit(before, Perform(before, ops[|ops| - 1]))
  }

  // ---------- conservation ----------

  function Sum(entries: seq<Entry>, agent: Id): int {
    if entries == [] then 0
    else Sum(entries[..|entries| - 1], agent)
         + (if entries[|entries| - 1].agent == agent then entries[|entries| - 1].amount else 0)
  }

  ghost predicate Reconciled(opening: map<Id, int>, b: Books) {
    && (forall agent :: BalanceOf(b.balances, agent) == BalanceOf(opening, agent) + Sum(b.entries, agent))
    && (forall i :: 0 <= i < |b.entries| ==>
          b.entries[i].balanceAfter
          == BalanceOf(opening, b.entries[i].agent) + Sum(b.entries[..i + 1], b.entries[i].agent))
    && (forall i, j :: 0 <= i < j < |b.entries| ==>
          !SameKey(b.entries[i], b.entries[j].book, b.entries[j].agent, b.entries[j].request))
    && (forall agent :: 0 <= BalanceOf(b.balances, agent) <= MAX_MONEY)
  }

  lemma RecordReconciles(opening: map<Id, int>, b: Books, e: Entry)
    requires Reconciled(opening, b) && Record(b, e).Ok?
    requires e.balanceAfter == BalanceOf(b.balances, e.agent) + e.amount
    requires 0 <= e.balanceAfter <= MAX_MONEY
    ensures Reconciled(opening, Record(b, e).value)
  {
    var after := Record(b, e).value;
    var n := |b.entries|;
    assert after.entries[..n] == b.entries;
    forall agent ensures Sum(after.entries, agent)
      == Sum(b.entries, agent) + (if agent == e.agent then e.amount else 0) {}
    forall i | 0 <= i < |after.entries|
      ensures after.entries[i].balanceAfter
              == BalanceOf(opening, after.entries[i].agent) + Sum(after.entries[..i + 1], after.entries[i].agent)
    {
      if i < n {
        assert after.entries[..i + 1] == b.entries[..i + 1];
      } else {
        assert after.entries[..i + 1] == after.entries;
      }
    }
    forall i, j | 0 <= i < j < |after.entries|
      ensures !SameKey(after.entries[i], after.entries[j].book, after.entries[j].agent, after.entries[j].request)
    {
      if j < n { assert after.entries[i] == b.entries[i] && after.entries[j] == b.entries[j]; }
    }
  }

  lemma IssueReconciles(opening: map<Id, int>, b: Books, app: Id, agent: Id, active: bool, order: Id,
                        request: string, fp: string, cost: int)
    requires Reconciled(opening, b)
    ensures Reconciled(opening, Commit(b, PostIssue(b, app, agent, active, order, request, fp, cost)))
  {
    if PostIssue(b, app, agent, active, order, request, fp, cost).Ok? {
      var e := Entry(Application(app), agent, request, Issue, order, fp, -cost, b.balances[agent] - cost);
      assert PostIssue(b, app, agent, active, order, request, fp, cost) == Record(b, e);
      assert 0 <= e.balanceAfter <= BalanceOf(b.balances, agent) <= MAX_MONEY;
      RecordReconciles(opening, b, e);
    }
  }

  lemma RefundReconciles(opening: map<Id, int>, b: Books, app: Id, agent: Id, order: Id, cost: int)
    requires Reconciled(opening, b)
    ensures Reconciled(opening, Commit(b, PostRefund(b, app, agent, order, cost)))
  {
    if PostRefund(b, app, agent, order, cost).Ok? {
      var e := Entry(Application(app), agent, RefundRequest(order), Refund, order, "", cost, b.balances[agent] + cost);
      assert PostRefund(b, app, agent, order, cost) == Record(b, e);
      assert 0 <= BalanceOf(b.balances, agent) <= e.balanceAfter <= MAX_MONEY;
      RecordReconciles(opening, b, e);
    }
  }

  lemma AdjustReconciles(opening: map<Id, int>, b: Books, agent: Id, known: bool, request: string, amount: int,
                         reason: string)
    requires Reconciled(opening, b)
    ensures Reconciled(opening, Commit(b, AdjustBalance(b, agent, known, request, amount, reason)))
  {
    var r := AdjustBalance(b, agent, known, request, amount, reason);
    if r.Ok? && Lookup(b.entries, Platform, agent, request).None? {
      AdjustRecords(b, agent, known, request, amount, reason);
      RecordReconciles(opening, b, AdjustRow(b, agent, request, amount, reason));
    }
  }

  function AdjustRow(b: Books, agent: Id, request: string, amount: int, reason: string): Entry {
    Entry(Platform, agent, request, Adjust, "", reason, amount, BalanceOf(b.balances, agent) + amount)
  }

  lemma AdjustRecords(b: Books, agent: Id, known: bool, request: string, amount: int, reason: string)
    requires AdjustBalance(b, agent, known, request, amount, reason).Ok?
      && Lookup(b.entries, Platform, agent, request).None?
    ensures AdjustBalance(b, agent, known, request, amount, reason)
      == Record(b, AdjustRow(b, agent, request, amount, reason))
    ensures 0 <= BalanceOf(b.balances, agent) + amount <= MAX_MONEY
  {}

  function PackageRow(b: Books, agent: Id, request: string, fp: string, cost: int): Entry {
    Entry(Platform, agent, request, Issue, "", fp, -cost, BalanceOf(b.balances, agent) - cost)
  }

  lemma PackageRecords(b: Books, agent: Id, active: bool, request: string, fp: string, quantity: int,
                       expected: int, quote: int, allowed: bool)
    requires IssuePackage(b, agent, active, request, fp, quantity, expected, quote, allowed).Ok?
    requires (agent, request) !in b.packageOrders
    ensures var after := IssuePackage(b, agent, active, request, fp, quantity, expected, quote, allowed).value;
      var cost := quote * quantity;
      && 0 <= cost <= BalanceOf(b.balances, agent)
      && Record(b, PackageRow(b, agent, request, fp, cost)) == Ok(after.(packageOrders := b.packageOrders))
  {}

  lemma PackageReconciles(opening: map<Id, int>, b: Books, agent: Id, active: bool, request: string, fp: string,
                          quantity: int, expected: int, quote: int, allowed: bool)
    requires Reconciled(opening, b)
    ensures Reconciled(opening,
      Commit(b, IssuePackage(b, agent, active, request, fp, quantity, expected, quote, allowed)))
  {
    var r := IssuePackage(b, agent, active, request, fp, quantity, expected, quote, allowed);
    if r.Ok? && (agent, request) !in b.packageOrders {
      PackageRecords(b, agent, active, request, fp, quantity, expected, quote, allowed);
      SettledReconciles(opening, b, PackageRow(b, agent, request, fp, quote * quantity), r.value);
    }
  }

  lemma SettledReconciles(opening: map<Id, int>, b: Books, e: Entry, after: Books)
    requires Reconciled(opening, b) && e.balanceAfter == BalanceOf(b.balances, e.agent) + e.amount
    requires -BalanceOf(b.balances, e.agent) <= e.amount <= 0
    requires Record(b, e) == Ok(after.(packageOrders := b.packageOrders))
    ensures Reconciled(opening, after)
  {
    RecordReconciles(opening, b, e);
  }

  lemma PerformReconciles(opening: map<Id, int>, b: Books, op: Op)
    requires Reconciled(opening, b)
    ensures Reconciled(opening, Commit(b, Perform(b, op)))
  {
    match op
    case OpIssue(app, agent, active, order, request, fp, cost) =>
      IssueReconciles(opening, b, app, agent, active, order, request, fp, cost);
    case OpRefund(app, agent, order, cost) =>
      RefundReconciles(opening, b, app, agent, order, cost);
    case OpAdjust(agent, known, request, amount, reason) =>
      AdjustReconciles(opening, b, agent, known, request, amount, reason);
    case OpPackage(agent, active, request, fp, quantity, expected, quote, allowed) =>
      PackageReconciles(opening, b, agent, active, request, fp, quantity, expected, quote, allowed);
  }

  /** Over every run: each balance is its opening value plus all recorded amounts, every row shows the
      running sum, keys stay unique, and no balance leaves [0, MAX_MONEY]. */
  lemma {:induction false} RunReconciles(b: Books, ops: seq<Op>)
    requires b.entries == [] && forall agent :: 0 <= BalanceOf(b.balances, agent) <= MAX_MONEY
    ensures Reconciled(b.balances, Run(b, ops))
  {
    if ops != [] {
      RunReconciles(b, ops[..|ops| - 1]);
      PerformReconciles(b.balances, Run(b, ops[..|ops| - 1]), ops[|ops| - 1]);
    }
  }

  // ---------- idempotency ----------

  lemma {:induction false} LookupFinds(entries: seq<Entry>, e: Entry, rest: seq<Entry>)
    requires !Recorded(entries, e.book, e.agent, e.request)
    ensures Lookup(entries + [e] + rest, e.book, e.agent, e.request) == Some(e)
  {
    if entries != [] {
      assert !SameKey(entries[0], e.book, e.agent, e.request);
      forall i | 0 <= i < |entries[1..]| ensures !SameKey(entries[1..][i], e.book, e.agent, e.request) {
        assert entries[1..][i] == entries[i + 1];
      }
      LookupFinds(entries[1..], e, rest);
      assert (entries + [e] + rest)[1..] == entries[1..] + [e] + rest;
    }
  }

  /** Once an adjustment went through, the same request never changes the books again, whatever
      happened in between; the same id with other inputs is refused. */
  lemma AdjustOnce(b: Books, ops: seq<Op>, agent: Id, known: bool, request: string, amount: int, reason: string,
                   amount': int, reason': string)
    requires AdjustBalance(b, agent, known, request, amount, reason).Ok?
    requires Lookup(b.entries, Platform, agent, request).None?
    ensures var later := Run(AdjustBalance(b, agent, known, request, amount, reason).value, ops);
      && AdjustBalance(later, agent, true, request, amount, reason) == Ok(later)
      && (amount' != amount || reason' != reason ==> AdjustBalance(later, agent, true, request, amount', reason').Err?)
  {
    var first := AdjustBalance(b, agent, known, request, amount, reason).value;
    EntriesGrow(first, ops);
    var later := Run(first, ops);
    var e := first.entries[|b.entries|];
    var rest := later.entries[|first.entries|..];
    assert later.entries == b.entries + [e] + rest;
    LookupFinds(b.entries, e, rest);
  }

  lemma {:induction false} EntriesGrow(b: Books, ops: seq<Op>)
    ensures b.entries <= Run(b, ops).entries
    ensures forall k :: k in b.packageOrders ==>
      k in Run(b, ops).packageOrders && Run(b, ops).packageOrders[k] == b.packageOrders[k]
  {
    if ops != [] { EntriesGrow(b, ops[..|ops| - 1]); }
  }

  /** A package order is charged once per request id. */
  lemma PackageOnce(b: Books, ops: seq<Op>, agent: Id, active: bool, request: string, fp: string, quantity: int,
                    expected: int, quote: int, allowed: bool, active': bool, fp': string, expected': int, quote': int,
                    allowed': bool)
    requires IssuePackage(b, agent, active, request, fp, quantity, expected, quote, allowed).Ok?
    ensures
      var first := IssuePackage(b, agent, active, request, fp, quantity, expected, quote, allowed).value;
      var later := Run(first, ops);
      IssuePackage(later, agent, active', request, fp', quantity, expected', quote', allowed')
      == if !active' then Err("AGENT_INACTIVE") else if fp' == fp then Ok(later) else Err("IDEMPOTENCY_CONFLICT")
  {
    EntriesGrow(IssuePackage(b, agent, active, request, fp, quantity, expected, quote, allowed).value, ops);
  }

  // ---------- what goes through ----------

  /** A request is recorded once a row has its ledger, agent and id. */
  lemma RecordedIff(entries: seq<Entry>, book: Book, agent: Id, request: string)
    ensures Recorded(entries, book, agent, request) <==>
      exists e :: e in entries && e.book == book && e.agent == agent && e.request == request
  {
    if e :| e in entries && e.book == book && e.agent == agent && e.request == request {
      var i :| 0 <= i < |entries| && entries[i] == e;
      assert SameKey(entries[i], book, agent, request);
    }
  }

  /** An operation of a run that fails changes nothing; one that goes through leaves what it computed. */
  lemma RunStep(b: Books, ops: seq<Op>, op: Op)
    ensures var (before, after) := (Run(b, ops), Run(b, ops + [op]));
      match Perform(before, op)
      case Err(_) => after == before
      case Ok(books) => after == books
  {
    assert (ops + [op])[..|ops|] == ops;
  }

  /** The row that takes an agent's balance to another one, under a new key. */
  ghost predicate Booked(b: Books, after: Books, e: Entry) {
    && !Recorded(b.entries, e.book, e.agent, e.request)
    && e.balanceAfter == (if e.agent in b.balances then b.balances[e.agent] else 0) + e.amount
    && after.entries == b.entries + [e] && after.balances == b.balances[e.agent := e.balanceAfter]
  }

  /** A new adjustment goes through iff its amount is not zero and within a trillion either way, its request id has 8
      to 64 characters, it gives a reason of at most 500, the agent is known and the balance stays between zero and a
      trillion; it books exactly that amount. */
  lemma AdjustIff(b: Books, agent: Id, known: bool, request: string, amount: int, reason: string)
    requires !Recorded(b.entries, Platform, agent, request)
    ensures var r := AdjustBalance(b, agent, known, request, amount, reason);
      var balance := if agent in b.balances then b.balances[agent] else 0;
      && (r.Ok? <==>
            && amount != 0 && -1_000_000_000_000 <= amount <= 1_000_000_000_000
            && 8 <= |request| <= 64 && !Blank(reason) && |reason| <= 500 && known
            && 0 <= balance + amount <= 1_000_000_000_000)
      && (r.Ok? ==>
            && r.value.packageOrders == b.packageOrders
            && Booked(b, r.value, Entry(Platform, agent, request, Adjust, "", reason, amount, balance + amount)))
  {}

  /** A new package order goes through iff it is for 1 to 1000 cards with a request id of 8 to 64 characters, the agent
      may trade and buy the package, the price is the one it confirmed, and its balance holds the price of every card,
      a trillion at most; exactly that is booked, and the order is remembered. */
  lemma PackageIff(b: Books, agent: Id, active: bool, request: string, fp: string, quantity: int, expected: int,
                   quote: int, allowed: bool)
    requires (agent, request) !in b.packageOrders && !Recorded(b.entries, Platform, agent, request)
    ensures var r := IssuePackage(b, agent, active, request, fp, quantity, expected, quote, allowed);
      var balance := if agent in b.balances then b.balances[agent] else 0;
      && (r.Ok? <==>
            && 1 <= quantity <= 1000 && 8 <= |request| <= 64 && active && allowed && expected == quote
            && 0 <= expected * quantity <= balance && expected * quantity <= 1_000_000_000_000)
      && (r.Ok? ==>
            && r.value.packageOrders == b.packageOrders[(agent, request) := fp]
            && Booked(b, r.value, Entry(Platform, agent, request, Issue, "", fp, -(expected * quantity),
                 balance - expected * quantity)))
  {
    if IssuePackage(b, agent, active, request, fp, quantity, expected, quote, allowed).Ok? {
      PackageRecords(b, agent, active, request, fp, quantity, expected, quote, allowed);
    }
  }

  /** An agent's order is paid iff the agent is active, its account exists and holds the cost, and the request is
      new. */
  lemma PostIssueIff(b: Books, app: Id, agent: Id, active: bool, order: Id, request: string, fp: string, cost: int)
    ensures var r := PostIssue(b, app, agent, active, order, request, fp, cost);
      && (r.Ok? <==> active && agent in b.balances && 0 <= cost <= b.balances[agent]
                     && !Recorded(b.entries, Application(app), agent, request))
      && (r.Ok? ==>
            && r.value.packageOrders == b.packageOrders
            && Booked(b, r.value, Entry(Application(app), agent, request, Issue, order, fp, -cost,
                 b.balances[agent] - cost)))
  {}

  /** A refund is credited iff the account exists, the balance stays within a trillion and its key is new. */
  lemma PostRefundIff(b: Books, app: Id, agent: Id, order: Id, cost: int)
    ensures var r := PostRefund(b, app, agent, order, cost);
      && (r.Ok? <==> agent in b.balances && 0 <= cost && b.balances[agent] + cost <= 1_000_000_000_000
                     && !Recorded(b.entries, Application(app), agent, "refund:" + order))
      && (r.Ok? ==>
            && r.value.packageOrders == b.packageOrders
            && Booked(b, r.value, Entry(Application(app), agent, "refund:" + order, Refund, order, "", cost,
                 b.balances[agent] + cost)))
  {}

  /** The unit cost of a plan for an agent: its cost at the agent's rate, rounded up. */
  function UnitCost(planCost: int, rateBps: int, overrideCost: Option<int>): (c: int)
    ensures overrideCost.Some? ==> c == overrideCost.value
    ensures overrideCost.None? ==> 10000 * (c - 1) < planCost * rateBps <= 10000 * c
  {
    if overrideCost.Some? then overrideCost.value else (planCost * rateBps + 9999) / 10000
  }

  // ---------- the account service ----------

  class AgentFunds {
    var balances: map<Id, int>
    var entries: seq<Entry>
    var packageOrders: map<(Id, string), string>

    ghost function Snapshot(): Books
      reads this
    {
      Books(balances, entries, packageOrders)
    }

    constructor (opening: map<Id, int>)
      ensures Snapshot() == Books(opening, [], map[])
    {
      balances, entries, packageOrders := opening, [], map[];
    }

    method FindEntry(agent: Id, request: string) returns (r: Option<Entry>)
      ensures r == Lookup(entries, Platform, agent, request)
    {
      var i := 0;
      while i < |entries|
        invariant 0 <= i <= |entries|
        invariant Lookup(entries, Platform, agent, request) == Lookup(entries[i..], Platform, agent, request)
      {
        if SameKey(entries[i], Platform, agent, request) { return Some(entries[i]); }
        assert entries[i..][1..] == entries[i + 1..];
        i := i + 1;
      }
      r := None;
    }

    /** The balance returned is the one on the request's row, new or found. */
    method AdjustAgentBalance(agent: Id, known: bool, request: string, amount: int, reason: string)
        returns (r: Outcome<int>)
      modifies this
      ensures var after := AdjustBalance(old(Snapshot()), agent, known, request, amount, reason);
        && Snapshot() == Commit(old(Snapshot()), after)
        && r.Ok? == after.Ok? && (r.Err? ==> r.code == after.code)
      ensures r.Ok? ==>
        var row := Lookup(entries, Platform, agent, request);
        row.Some? && row.value.balanceAfter == r.value && row.value.amount == amount
    {
      if amount == 0 || amount > MAX_MONEY || amount < -MAX_MONEY || |request| < 8 || |request| > 64
         || Blank(reason) || |reason| > 500
      {
        return Err("INVALID_REQUEST");
      }
      if !known { return Err("AGENT_NOT_FOUND"); }
      var found := FindEntry(agent, request);
      if found.Some? {
        var e := found.value;
        if e.kind != Adjust || e.amount != amount || e.fingerprint != reason { return Err("IDEMPOTENCY_CONFLICT"); }
        return Ok(e.balanceAfter);
      }
      var balance := BalanceOf(balances, agent) + amount;
      if balance < 0 || balance > MAX_MONEY { return Err("BALANCE_LIMIT"); }
      balances := balances[agent := balance];
      var e := Entry(Platform, agent, request, Adjust, "", reason, amount, balance);
      LookupFinds(entries, e, []);
      assert entries + [e] + [] == entries + [e];
      entries := entries + [e];
      return Ok(balance);
    }

    /** Answers whether the request was a replay. */
    method GeneratePackageCards(agent: Id, active: bool, request: string, fingerprint: string, quantity: int,
                                expected: int, quote: int, allowed: bool) returns (r: Outcome<bool>)
      modifies this
      ensures var after := IssuePackage(old(Snapshot()), agent, active, request, fingerprint, quantity, expected,
        quote, allowed);
        && Snapshot() == Commit(old(Snapshot()), after)
        && r.Ok? == after.Ok? && (r.Err? ==> r.code == after.code)
      ensures r.Ok? ==> r.value == ((agent, request) in old(packageOrders))
    {
      if quantity < 1 || quantity > 1000 || |request| < 8 || |request| > 64 { return Err("INVALID_REQUEST"); }
      if !active { return Err("AGENT_INACTIVE"); }
      if (agent, request) in packageOrders {
        if packageOrders[(agent, request)] != fingerprint { return Err("IDEMPOTENCY_CONFLICT"); }
        return Ok(true);
      }
      if !allowed { return Err("DENIED"); }
      if expected != quote { return Err("PACKAGE_PRICE_CHANGED"); }
      var cost := quote * quantity;
      var balance := BalanceOf(balances, agent);
      if cost < 0 || cost > MAX_MONEY || balance < cost { return Err("AGENT_BALANCE_NOT_ENOUGH"); }
      var found := FindEntry(agent, request);
      if found.Some? { return Err("UNIQUE_VIOLATION"); }
      balances := balances[agent := balance - cost];
      entries := entries + [Entry(Platform, agent, request, Issue, "", fingerprint, -cost, balance - cost)];
      packageOrders := packageOrders[(agent, request) := fingerprint];
      return Ok(false);
    }
  }
}
