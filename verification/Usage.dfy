/** Metered licenses: units charged against a quota for life or per calendar month, once per key. */
module Usage {
  import opened Basics
  import opened Money

  /** A month is numbered by year and month; the calendar only moves forward. */
  datatype Period = Unset | Lifetime | Month(n: int)

  datatype Receipt = Receipt(key: string, units: int, period: Period, remaining: int)

  datatype Meter = Meter(quota: int, monthly: bool, used: int, period: Period, receipts: seq<Receipt>)

  const MAX_UNITS := 1_000_000_000_000

  function PeriodAt(m: Meter, month: int): Period { if m.monthly then Month(month) else Lifetime }

  function FindReceipt(receipts: seq<Receipt>, key: string): (r: Option<Receipt>)
    ensures r.Some? ==> r.value in receipts && r.value.key == key
    ensures r.None? ==> forall x :: x in receipts ==> x.key != key
  {
    if receipts == [] then None
    else if receipts[0].key == key then Some(receipts[0])
    else
      assert receipts == [receipts[0]] + receipts[1..];
      FindReceipt(receipts[1..], key)
  }

  /** Charge units under a key; `metered` says whether the license's model is metered at all. */
  function Consume(m: Meter, metered: bool, units: int, key: string, month: int): Outcome<Meter> {
    if !metered || units < 1 || units > MAX_UNITS || key == "" || |key| > 128 then Err("INVALID_REQUEST")
    else
      match FindReceipt(m.receipts, key)
      case Some(receipt) => if receipt.units != units then Err("IDEMPOTENCY_CONFLICT") else Ok(m)
      case None =>
        var period := PeriodAt(m, month);
        var used := if m.period != period then 0 else m.used;
        if units > m.quota - used then Err("USAGE_EXCEEDED")
        else Ok(m.(used := used + units, period := period,
                   receipts := m.receipts + [Receipt(key, units, period, m.quota - (used + units))]))
  }

  /** What a token reports as remaining. */
  function Remaining(m: Meter, month: int): int {
    if m.monthly && m.period != Month(month) then m.quota else m.quota - m.used
  }

  // ---------- the quota holds in every period ----------

  function Charged(receipts: seq<Receipt>, p: Period): int {
    if receipts == [] then 0
    else
      var last := receipts[|receipts| - 1];
      Charged(receipts[..|receipts| - 1], p) + (if last.period == p then last.units else 0)
  }

  predicate PeriodOk(m: Meter, p: Period, month: int) {
    if m.monthly then p.Month? && p.n <= month else p.Lifetime?
  }

  /** A receipt belongs to a period no later than the current one and shows what it left of the quota. */
  ghost predicate ReceiptOk(m: Meter, month: int, i: nat)
    requires i < |m.receipts|
  {
    var r := m.receipts[i];
    && PeriodOk(m, r.period, month) && (m.period.Month? && r.period.Month? ==> r.period.n <= m.period.n)
    && r.units > 0 && r.remaining == m.quota - Charged(m.receipts[..i + 1], r.period)
  }

  ghost predicate KeysApart(receipts: seq<Receipt>) {
    forall i, j :: 0 <= i < j < |receipts| ==> receipts[i].key != receipts[j].key
  }

  ghost predicate WithinQuota(m: Meter) { forall p :: 0 <= Charged(m.receipts, p) <= m.quota }

  ghost predicate MeterOk(m: Meter, month: int) {
    && 0 <= m.quota && WithinQuota(m) && KeysApart(m.receipts)
    && m.used == Charged(m.receipts, m.period)
    && (m.period == Unset ==> m.receipts == []) && (m.period != Unset ==> PeriodOk(m, m.period, month))
    && (forall i {:trigger ReceiptOk(m, month, i)} :: 0 <= i < |m.receipts| ==> ReceiptOk(m, month, i))
  }

  lemma {:induction false} NothingCharged(receipts: seq<Receipt>, p: Period)
    requires forall i :: 0 <= i < |receipts| ==> receipts[i].period != p
    ensures Charged(receipts, p) == 0
  {
    if receipts != [] { NothingCharged(receipts[..|receipts| - 1], p); }
  }

  /** What has been charged to the period a new charge would go to. */
  lemma ChargedNow(m: Meter, month: int)
    requires MeterOk(m, month)
    ensures Charged(m.receipts, PeriodAt(m, month)) == if m.period != PeriodAt(m, month) then 0 else m.used
  {
    if m.period != PeriodAt(m, month) {
      forall i | 0 <= i < |m.receipts| ensures m.receipts[i].period != PeriodAt(m, month) {
        assert ReceiptOk(m, month, i);
      }
      NothingCharged(m.receipts, PeriodAt(m, month));
    }
  }

  lemma ChargedAppend(receipts: seq<Receipt>, r: Receipt, p: Period)
    ensures Charged(receipts + [r], p) == Charged(receipts, p) + (if r.period == p then r.units else 0)
  {
    assert (receipts + [r])[..|receipts|] == receipts;
  }

  lemma AppendKeeps(m: Meter, after: Meter, r: Receipt, month: int)
    requires MeterOk(m, month) && r.units > 0 && r.period == PeriodAt(m, month)
    requires forall x :: x in m.receipts ==> x.key != r.key
    requires var used := Charged(m.receipts, r.period) + r.units;
      used <= m.quota && r.remaining == m.quota - used
      && after == m.(used := used, period := r.period, receipts := m.receipts + [r])
    ensures MeterOk(after, month)
  {
    var n := |m.receipts|;
    forall p ensures 0 <= Charged(after.receipts, p) <= m.quota { ChargedAppend(m.receipts, r, p); }
    ChargedAppend(m.receipts, r, r.period);
    forall i | 0 <= i <= n ensures ReceiptOk(after, month, i) {
      if i < n {
        assert ReceiptOk(m, month, i);
        assert after.receipts[..i + 1] == m.receipts[..i + 1];
      } else {
        assert after.receipts[..i + 1] == after.receipts;
      }
    }
    forall i | 0 <= i < n ensures after.receipts[i].key != r.key { assert m.receipts[i] in m.receipts; }
  }

  lemma ConsumeKeeps(m: Meter, metered: bool, units: int, key: string, month: int)
    requires MeterOk(m, month) && Consume(m, metered, units, key, month).Ok?
    ensures MeterOk(Consume(m, metered, units, key, month).value, month)
  {
    if FindReceipt(m.receipts, key).None? {
      var after := Consume(m, metered, units, key, month).value;
      ChargedNow(m, month);
      AppendKeeps(m, after, after.receipts[|m.receipts|], month);
    }
  }

  lemma LaterMonthKeeps(m: Meter, month: int, later: int)
    requires MeterOk(m, month) && month <= later
    ensures MeterOk(m, later)
  {
    forall i | 0 <= i < |m.receipts| ensures ReceiptOk(m, later, i) { assert ReceiptOk(m, month, i); }
  }

  // ---------- runs ----------

  datatype Charge = Charge(metered: bool, units: int, key: string, month: int)

  function Run(quota: int, monthly: bool, charges: seq<Charge>): Meter {
    if charges == [] then Meter(quota, monthly, 0, Unset, [])
    else
      var m, c := Run(quota, monthly, charges[..|charges| - 1]), charges[|charges| - 1];
      Commit(m, Consume(m, c.metered, c.units, c.key, c.month))
  }

  ghost predicate CalendarForward(charges: seq<Charge>) {
    forall i, j :: 0 <= i <= j < |charges| ==> charges[i].month <= charges[j].month
  }

  lemma {:induction false} RunOk(quota: int, monthly: bool, charges: seq<Charge>, month: int)
    requires 0 <= quota && CalendarForward(charges) && (charges != [] ==> charges[|charges| - 1].month <= month)
    ensures MeterOk(Run(quota, monthly, charges), month)
    ensures Run(quota, monthly, charges).quota == quota && Run(quota, monthly, charges).monthly == monthly
  {
    if charges != [] {
      var c := charges[|charges| - 1];
      RunOk(quota, monthly, charges[..|charges| - 1], c.month);
      var m := Run(quota, monthly, charges[..|charges| - 1]);
      if Consume(m, c.metered, c.units, c.key, c.month).Ok? { ConsumeKeeps(m, c.metered, c.units, c.key, c.month); }
      LaterMonthKeeps(Run(quota, monthly, charges), c.month, month);
    }
  }

  /** In every run the receipts of any period add up to at most the quota, each key is charged at most
      once, and the reported remaining units are the quota less the current period's receipts. */
  lemma QuotaOverRuns(quota: int, monthly: bool, charges: seq<Charge>, month: int)
    requires 0 <= quota && CalendarForward(charges) && (charges != [] ==> charges[|charges| - 1].month <= month)
    ensures var m := Run(quota, monthly, charges);
      && (forall p :: 0 <= Charged(m.receipts, p) <= quota)
      && (forall i, j :: 0 <= i < j < |m.receipts| ==> m.receipts[i].key != m.receipts[j].key)
      && (forall i :: 0 <= i < |m.receipts| ==>
            m.receipts[i].remaining == quota - Charged(m.receipts[..i + 1], m.receipts[i].period))
      && Remaining(m, month) == quota - Charged(m.receipts, PeriodAt(m, month))
  {
    RunOk(quota, monthly, charges, month);
    var m := Run(quota, monthly, charges);
    ChargedNow(m, month);
    forall i | 0 <= i < |m.receipts| ensures m.receipts[i].remaining
      == quota - Charged(m.receipts[..i + 1], m.receipts[i].period)
    {
      assert ReceiptOk(m, month, i);
    }
  }

  /** A charge under a new key goes through iff the license is metered, it is for 1 to a trillion units under a key of 1
      to 128 characters, and they fit the quota less what its period, the month or the lifetime, was charged before; it
      leaves one more receipt, and moves the remaining units by itself. */
  lemma ChargeIff(m: Meter, metered: bool, units: int, key: string, month: int)
    requires MeterOk(m, month) && forall r :: r in m.receipts ==> r.key != key
    ensures var (r, period) := (Consume(m, metered, units, key, month), if m.monthly then Month(month) else Lifetime);
      var charged := Charged(m.receipts, period) + units;
      && (r.Ok? <==> metered && 1 <= units <= 1_000_000_000_000 && 1 <= |key| <= 128 && charged <= m.quota)
      && (r.Ok? ==>
            && r.value == Meter(m.quota, m.monthly, charged, period,
                 m.receipts + [Receipt(key, units, period, m.quota - charged)])
            && Remaining(r.value, month) == Remaining(m, month) - units)
  {
    ChargedNow(m, month);
  }

  lemma {:induction false} ReceiptsGrow(quota: int, monthly: bool, charges: seq<Charge>, n: nat)
    requires n <= |charges|
    ensures Run(quota, monthly, charges[..n]).receipts <= Run(quota, monthly, charges).receipts
  {
    if n < |charges| {
      assert charges[..|charges| - 1][..n] == charges[..n];
      ReceiptsGrow(quota, monthly, charges[..|charges| - 1], n);
    } else {
      assert charges[..n] == charges;
    }
  }

  /** Once a key was charged, sending it again is answered without a charge ever after, in any month, and
      sending it with other units is refused. */
  lemma ReplayedKey(quota: int, monthly: bool, charges: seq<Charge>, n: nat, units: int, month: int)
    requires n < |charges|
    requires var c := charges[n]; Consume(Run(quota, monthly, charges[..n]), c.metered, c.units, c.key, c.month).Ok?
    requires 1 <= units <= MAX_UNITS
    requires 0 <= quota && CalendarForward(charges)
    ensures var m := Run(quota, monthly, charges);
      Consume(m, true, units, charges[n].key, month)
      == if units == charges[n].units then Ok(m) else Err("IDEMPOTENCY_CONFLICT")
  {
    var c, m := charges[n], Run(quota, monthly, charges);
    ReceiptsGrow(quota, monthly, charges, n + 1);
    assert charges[..n + 1][..n] == charges[..n];
    var before, after := Run(quota, monthly, charges[..n]), Run(quota, monthly, charges[..n + 1]);
    assert after == Consume(before, c.metered, c.units, c.key, c.month).value;
    assert FindReceipt(after.receipts, c.key).Some? && FindReceipt(after.receipts, c.key).value.units == c.units by {
      FoundAfterCharge(before, c);
    }
    var r := FindReceipt(after.receipts, c.key).value;
    var i :| 0 <= i < |after.receipts| && after.receipts[i] == r;
    assert m.receipts[i] == r;
    RunOk(quota, monthly, charges, charges[|charges| - 1].month);
    TheReceipt(m.receipts, i);
  }

  lemma {:induction false} TheReceipt(receipts: seq<Receipt>, i: nat)
    requires i < |receipts| && forall j, k :: 0 <= j < k < |receipts| ==> receipts[j].key != receipts[k].key
    ensures FindReceipt(receipts, receipts[i].key) == Some(receipts[i])
  {
    if i > 0 {
      assert receipts[0].key != receipts[i].key;
      TheReceipt(receipts[1..], i - 1);
    }
  }

  lemma {:induction false} FindAppended(receipts: seq<Receipt>, r: Receipt)
    requires forall x :: x in receipts ==> x.key != r.key
    ensures FindReceipt(receipts + [r], r.key) == Some(r)
  {
    if receipts != [] {
      assert receipts[0] in receipts;
      assert (receipts + [r])[1..] == receipts[1..] + [r];
      FindAppended(receipts[1..], r);
    }
  }

  lemma FoundAfterCharge(m: Meter, c: Charge)
    requires Consume(m, c.metered, c.units, c.key, c.month).Ok?
    ensures var found := FindReceipt(Consume(m, c.metered, c.units, c.key, c.month).value.receipts, c.key);
      found.Some? && found.value.units == c.units
  {
    if FindReceipt(m.receipts, c.key).None? {
      var after := Consume(m, c.metered, c.units, c.key, c.month).value;
      FindAppended(m.receipts, after.receipts[|m.receipts|]);
    }
  }

  // ---------- the service ----------

  class UsageMeter {
    var quota: int
    var monthly: bool
    var used: int
    var period: Period
    var receipts: seq<Receipt>

    function Snapshot(): Meter
      reads this
    {
      Meter(quota, monthly, used, period, receipts)
    }

    method Charge(metered: bool, units: int, key: string, month: int) returns (ok: bool)
      modifies `used, `period, `receipts
      ensures var after := Consume(old(Snapshot()), metered, units, key, month);
        ok == after.Ok? && Snapshot() == Commit(old(Snapshot()), after)
    {
      if !metered || units < 1 || units > MAX_UNITS || key == "" || |key| > 128 { return false; }
      var found := FindReceipt(receipts, key);
      if found.Some? { return found.value.units == units; }
      var saved := Snapshot();
      var now := if monthly then Month(month) else Lifetime;
      if period != now {
        used := 0;
        period := now;
      }
      if units > quota - used {
        used, period := saved.used, saved.period;
        return false;
      }
      used := used + units;
      receipts := receipts + [Receipt(key, units, now, quota - used)];
      return true;
    }
  }
}
