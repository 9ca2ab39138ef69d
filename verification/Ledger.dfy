/** The renewal ledger of one license: the incremental dates kept by redemption and
    first activation, and the rebuild from base terms and remaining credits. */
module Ledger {
  import opened Basics

  datatype Purpose = Activate | RenewUsage | RenewUpdates

  /** A redeemed renewal card with the days its source license grants for its purpose. */
  datatype Credit = Credit(card: Id, usedAt: Time, purpose: Purpose, days: int)

  /** The fields of a license the ledger reads and writes. */
  datatype Dates = Dates(
    perpetual: bool,
    baseDays: int,
    baseUpdateDays: int,
    activatedAt: Option<Time>,
    baseExpiresAt: Option<Time>,
    baseUpdatesUntil: Option<Time>,
    durationDays: int,
    updateDays: int,
    expiresAt: Option<Time>,
    updatesUntil: Option<Time>)

  // ---------- incremental path ----------

  /** First activation; later activations leave the dates alone. */
  function Start(d: Dates, now: Time): Dates {
    if d.activatedAt.Some? then d
    else d.(
      activatedAt := Some(now),
      baseExpiresAt := if d.perpetual then d.baseExpiresAt else Some(now + Days(d.baseDays)),
      baseUpdatesUntil := Some(now + Days(d.baseUpdateDays)),
      expiresAt := if d.perpetual then d.expiresAt else Some(now + Days(d.durationDays)),
      updatesUntil := Some(now + Days(d.updateDays)))
  }

  /** `max(until, at) + days`. */
  function Extend(until: Option<Time>, at: Time, days: int): Option<Time> {
    Some((if until.Some? && until.value > at then until.value else at) + Days(days))
  }

  /** A redemption: more days before activation, a later date afterwards. */
  function Redeem(d: Dates, c: Credit): Dates {
    match c.purpose
    case Activate => d
    case RenewUsage =>
      if d.activatedAt.None? then d.(durationDays := d.durationDays + c.days)
      else d.(expiresAt := Extend(d.expiresAt, c.usedAt, c.days))
    case RenewUpdates =>
      if d.activatedAt.None? then d.(updateDays := d.updateDays + c.days)
      else d.(updatesUntil := Extend(d.updatesUntil, c.usedAt, c.days))
  }

  // ---------- rebuild path ----------

  function ResetToBase(d: Dates): Dates {
    d.(durationDays := d.baseDays, updateDays := d.baseUpdateDays,
       expiresAt := d.baseExpiresAt, updatesUntil := d.baseUpdatesUntil)
  }

  predicate BeforeActivation(d: Dates, at: Time) {
    d.activatedAt.None? || at < d.activatedAt.value
  }

  /** One turn of the rebuild loop. */
  function Apply(d: Dates, c: Credit): Dates {
    var before := BeforeActivation(d, c.usedAt);
    var at := if d.activatedAt.Some? && before then d.activatedAt.value else c.usedAt;
    match c.purpose
    case Activate => d
    case RenewUsage =>
      d.(durationDays := if before then d.durationDays + c.days else d.durationDays,
         expiresAt := if d.activatedAt.Some? then Extend(d.expiresAt, at, c.days) else d.expiresAt)
    case RenewUpdates =>
      d.(updateDays := if before then d.updateDays + c.days else d.updateDays,
         updatesUntil := if d.activatedAt.Some? then Extend(d.updatesUntil, at, c.days) else d.updatesUntil)
  }

  function ApplyAll(d: Dates, cs: seq<Credit>): Dates {
    if cs == [] then d else Apply(ApplyAll(d, cs[..|cs| - 1]), cs[|cs| - 1])
  }

  function Rebuild(d: Dates, cs: seq<Credit>): Dates { ApplyAll(ResetToBase(d), cs) }

  ghost predicate ByUse(cs: seq<Credit>) {
    forall i, j :: 0 <= i < j < |cs| ==> cs[i].usedAt <= cs[j].usedAt
  }

  ghost predicate NonNegative(cs: seq<Credit>) {
    forall i :: 0 <= i < |cs| ==> cs[i].days >= 0
  }

  // ---------- the order of same-instant credits does not matter ----------

  lemma ApplyCommutes(d: Dates, a: Credit, b: Credit)
    requires a.usedAt == b.usedAt && a.days >= 0 && b.days >= 0
    ensures Apply(Apply(d, a), b) == Apply(Apply(d, b), a)
  {}

  lemma {:induction false} MoveToEnd(d: Dates, cs: seq<Credit>, k: nat)
    requires k < |cs| && NonNegative(cs)
    requires forall i :: k <= i < |cs| ==> cs[i].usedAt == cs[k].usedAt
    ensures ApplyAll(d, cs) == ApplyAll(d, cs[..k] + cs[k + 1..] + [cs[k]])
  {
    var n := |cs| - 1;
    if k == n {
      assert cs[..k] + cs[k + 1..] + [cs[k]] == cs;
    } else {
      var init, last := cs[..n], cs[n];
      MoveToEnd(d, init, k);
      var rest := init[..k] + init[k + 1..];
      assert rest == cs[..k] + cs[k + 1..n];
      assert (rest + [cs[k]])[..|rest|] == rest;
      ApplyCommutes(ApplyAll(d, rest), cs[k], last);
      var moved := cs[..k] + cs[k + 1..] + [cs[k]];
      assert moved[..|moved| - 1] == rest + [last];
      assert (rest + [last])[..|rest|] == rest;
    }
  }

  /** In a use order, everything at or after an entry with the latest use time has that time. */
  lemma LatestTail(cs: seq<Credit>, ds: seq<Credit>, k: nat)
    requires cs != [] && multiset(cs) == multiset(ds) && ByUse(cs) && ByUse(ds)
    requires k < |ds| && ds[k] == cs[|cs| - 1]
    ensures forall i :: k <= i < |ds| ==> ds[i].usedAt == ds[k].usedAt
  {
    forall i | k <= i < |ds| ensures ds[i].usedAt == ds[k].usedAt {
      assert ds[i] in multiset(cs);
      var j :| 0 <= j < |cs| && cs[j] == ds[i];
    }
  }

  lemma WithoutOne(cs: seq<Credit>, ds: seq<Credit>, k: nat)
    requires cs != [] && multiset(cs) == multiset(ds)
    requires k < |ds| && ds[k] == cs[|cs| - 1]
    ensures multiset(cs[..|cs| - 1]) == multiset(ds[..k] + ds[k + 1..])
  {
    Removed(ds, k);
    Removed(cs, |cs| - 1);
    assert cs[..|cs| - 1] + cs[|cs|..] == cs[..|cs| - 1];
  }

  lemma Removed(s: seq<Credit>, k: nat)
    requires k < |s|
    ensures multiset(s[..k] + s[k + 1..]) == multiset(s) - multiset{s[k]}
  {
    assert s == (s[..k] + [s[k]]) + s[k + 1..];
  }

  /** Every order of the same credits that respects use times gives the same dates, so the
      tie-break of the sort is irrelevant. */
  lemma {:induction false} UseOrderIrrelevant(d: Dates, cs: seq<Credit>, ds: seq<Credit>)
    requires multiset(cs) == multiset(ds) && ByUse(cs) && ByUse(ds) && NonNegative(cs)
    ensures ApplyAll(d, cs) == ApplyAll(d, ds)
    decreases |cs|
  {
    assert |cs| == |multiset(cs)| == |multiset(ds)| == |ds|;
    if cs != [] {
      var init, c := cs[..|cs| - 1], cs[|cs| - 1];
      assert c in multiset(ds);
      var k :| 0 <= k < |ds| && ds[k] == c;
      SameDays(cs, ds);
      LatestTail(cs, ds, k);
      MoveToEnd(d, ds, k);
      var rest := ds[..k] + ds[k + 1..];
      WithoutOne(cs, ds, k);
      assert (rest + [c])[..|rest|] == rest;
      UseOrderIrrelevant(d, init, rest);
    }
  }

  lemma SameDays(cs: seq<Credit>, ds: seq<Credit>)
    requires multiset(cs) == multiset(ds) && NonNegative(cs)
    ensures NonNegative(ds)
  {
    forall i | 0 <= i < |ds| ensures ds[i].days >= 0 {
      assert ds[i] in multiset(cs);
    }
  }

  // ---------- what the rebuild computes ----------

  function Total(cs: seq<Credit>, p: Purpose): int {
    if cs == [] then 0
    else Total(cs[..|cs| - 1], p) + (if cs[|cs| - 1].purpose == p then cs[|cs| - 1].days else 0)
  }

  /** The date a purpose governs. */
  function Until(d: Dates, p: Purpose): Option<Time> {
    match p
    case Activate => None
    case RenewUsage => d.expiresAt
    case RenewUpdates => d.updatesUntil
  }

  lemma {:induction false} ApplyAllKeeps(d: Dates, cs: seq<Credit>)
    ensures var r := ApplyAll(d, cs);
      r == d.(durationDays := r.durationDays, updateDays := r.updateDays,
              expiresAt := r.expiresAt, updatesUntil := r.updatesUntil)
  {
    if cs != [] { ApplyAllKeeps(d, cs[..|cs| - 1]); }
  }

  lemma {:induction false} BeforeActivationAddsDays(d: Dates, cs: seq<Credit>)
    requires d.activatedAt.None?
    ensures ApplyAll(d, cs) == d.(durationDays := d.durationDays + Total(cs, RenewUsage),
                                  updateDays := d.updateDays + Total(cs, RenewUpdates))
  {
    if cs != [] { BeforeActivationAddsDays(d, cs[..|cs| - 1]); }
  }

  /** Credits used no later than activation all count from the activation instant. */
  lemma {:induction false} EarlyCreditsAddUp(d: Dates, cs: seq<Credit>, p: Purpose)
    requires d.activatedAt.Some? && Until(d, p).Some? && Until(d, p).value >= d.activatedAt.value
    requires NonNegative(cs) && forall i :: 0 <= i < |cs| ==> cs[i].usedAt <= d.activatedAt.value
    ensures Total(cs, p) >= 0
    ensures Until(ApplyAll(d, cs), p) == Some(Until(d, p).value + Days(Total(cs, p)))
  {
    if cs != [] {
      var init := cs[..|cs| - 1];
      EarlyCreditsAddUp(d, init, p);
      ApplyAllKeeps(d, init);
    }
  }

  lemma {:induction false} UntouchedWithoutCredits(d: Dates, cs: seq<Credit>, p: Purpose)
    requires forall i :: 0 <= i < |cs| ==> cs[i].purpose != p
    ensures Until(ApplyAll(d, cs), p) == Until(d, p)
  {
    if cs != [] { UntouchedWithoutCredits(d, cs[..|cs| - 1], p); }
  }

  /** The instant from which a credit counts. */
  function From(d: Dates, c: Credit): Time
    requires d.activatedAt.Some?
  {
    Max(c.usedAt, d.activatedAt.value)
  }

  /** What the credit at `i` alone would reach: its instant plus all days bought from it on. */
  function Offer(d: Dates, cs: seq<Credit>, p: Purpose, i: nat): Time
    requires d.activatedAt.Some? && i < |cs|
  {
    From(d, cs[i]) + Days(Total(cs, p) - Total(cs[..i], p))
  }

  /** `Offer` for the base date, in position -1. */
  ghost function Candidate(d: Dates, cs: seq<Credit>, p: Purpose, i: int): Time
    requires d.activatedAt.Some? && Until(d, p).Some? && -1 <= i < |cs|
  {
    if i == -1 then Until(d, p).value + Days(Total(cs, p)) else Offer(d, cs, p, i)
  }

  predicate Counts(cs: seq<Credit>, p: Purpose, i: int)
    requires -1 <= i < |cs|
  {
    i == -1 || cs[i].purpose == p
  }

  lemma CandidateGrows(d: Dates, cs: seq<Credit>, p: Purpose, i: int)
    requires d.activatedAt.Some? && Until(d, p).Some? && cs != [] && -1 <= i < |cs| - 1
    ensures var init := cs[..|cs| - 1];
      Candidate(d, cs, p, i) == Candidate(d, init, p, i) + Days(Total(cs, p) - Total(init, p))
  {
    if i >= 0 { assert cs[..|cs| - 1][..i] == cs[..i]; }
  }

  ghost predicate IsLatest(d: Dates, cs: seq<Credit>, p: Purpose, best: int)
    requires d.activatedAt.Some? && Until(d, p).Some?
  {
    && -1 <= best < |cs| && Counts(cs, p, best)
    && forall i :: -1 <= i < |cs| && Counts(cs, p, i) ==> Candidate(d, cs, p, i) <= Candidate(d, cs, p, best)
  }

  /** Appending one credit either keeps the best candidate or replaces it. */
  lemma LatestStep(d: Dates, cs: seq<Credit>, p: Purpose, best: int)
    requires d.activatedAt.Some? && Until(d, p).Some? && cs != []
    requires IsLatest(d, cs[..|cs| - 1], p, best)
    ensures var n := |cs| - 1;
      IsLatest(d, cs, p,
        if cs[n].purpose == p && From(d, cs[n]) > Candidate(d, cs[..n], p, best) then n else best)
  {
    var n := |cs| - 1;
    var init := cs[..n];
    var grown := Days(Total(cs, p) - Total(init, p));
    forall i | -1 <= i < n
      ensures Counts(cs, p, i) == Counts(init, p, i)
      ensures Candidate(d, cs, p, i) == Candidate(d, init, p, i) + grown
    {
      CandidateGrows(d, cs, p, i);
    }
    assert Candidate(d, cs, p, n) == From(d, cs[n]) + grown;
  }

  lemma ApplyUntil(d: Dates, c: Credit, p: Purpose)
    requires d.activatedAt.Some? && p != Activate && Until(d, p).Some?
    ensures Until(Apply(d, c), p)
      == Some(if c.purpose == p then Max(Until(d, p).value, From(d, c)) + Days(c.days) else Until(d, p).value)
  {}

  lemma LatestApplied(d: Dates, cs: seq<Credit>, p: Purpose, e: Dates, best: int)
    requires d.activatedAt.Some? && p != Activate && Until(d, p).Some? && cs != [] && e.activatedAt == d.activatedAt
    requires IsLatest(d, cs[..|cs| - 1], p, best)
    requires Until(e, p) == Some(Candidate(d, cs[..|cs| - 1], p, best))
    ensures exists next ::
      && IsLatest(d, cs, p, next)
      && Until(Apply(e, cs[|cs| - 1]), p) == Some(Candidate(d, cs, p, next))
  {
    var n := |cs| - 1;
    var init, c := cs[..n], cs[n];
    LatestStep(d, cs, p, best);
    ApplyUntil(e, c, p);
    var next := if c.purpose == p && From(d, c) > Candidate(d, init, p, best) then n else best;
    if next == best { CandidateGrows(d, cs, p, best); }
    assert Until(Apply(e, c), p) == Some(Candidate(d, cs, p, next));
  }

  /** Closed form of the rebuild: the date is the latest of "base plus all days bought" and,
      for each credit, "its instant plus all days bought from it on". */
  lemma {:induction false} RebuildIsLatest(d: Dates, cs: seq<Credit>, p: Purpose)
    requires d.activatedAt.Some? && p != Activate && Until(d, p).Some?
    ensures exists best ::
      IsLatest(d, cs, p, best) && Until(ApplyAll(d, cs), p) == Some(Candidate(d, cs, p, best))
  {
    if cs == [] {
      assert IsLatest(d, cs, p, -1);
    } else {
      var init := cs[..|cs| - 1];
      RebuildIsLatest(d, init, p);
      var best :| IsLatest(d, init, p, best) && Until(ApplyAll(d, init), p) == Some(Candidate(d, init, p, best));
      ApplyAllKeeps(d, init);
      LatestApplied(d, cs, p, ApplyAll(d, init), best);
    }
  }

  // ---------- histories: the incremental path over a whole life ----------

  datatype Event = Started(at: Time) | Redeemed(credit: Credit) {
    function At(): Time { if Started? then at else credit.usedAt }
  }

  function Happen(d: Dates, e: Event): Dates {
    match e
    case Started(at) => Start(d, at)
    case Redeemed(c) => Redeem(d, c)
  }

  function Live(d: Dates, h: seq<Event>): Dates {
    if h == [] then d else Happen(Live(d, h[..|h| - 1]), h[|h| - 1])
  }

  function Credits(h: seq<Event>): (cs: seq<Credit>)
    ensures forall i :: 0 <= i < |cs| ==> Redeemed(cs[i]) in h
  {
    if h == [] then []
    else
      var rest := Credits(h[..|h| - 1]);
      match h[|h| - 1]
      case Started(_) => rest
      case Redeemed(c) => rest + [c]
  }

  ghost predicate Chronological(h: seq<Event>) {
    forall i, j :: 0 <= i < j < |h| ==> h[i].At() <= h[j].At()
  }

  /** The dates of a license as issued. */
  ghost predicate Born(d: Dates) {
    && d.activatedAt.None? && d.baseExpiresAt.None? && d.baseUpdatesUntil.None?
    && d.expiresAt.None? && d.updatesUntil.None?
    && d.durationDays == d.baseDays && d.updateDays == d.baseUpdateDays
    && d.baseUpdateDays >= 0 && (d.perpetual || d.baseDays > 0)
  }

  /** What a redemption is checked for: days to give, and no usage days for a perpetual license. */
  ghost predicate Fits(d: Dates, h: seq<Event>) {
    forall i :: 0 <= i < |h| && h[i].Redeemed? ==>
      h[i].credit.days > 0 && (d.perpetual ==> h[i].credit.purpose != RenewUsage)
  }

  /** The incrementally kept dates are the rebuilt ones; the day counters agree until activation. */
  ghost predicate Agrees(d: Dates, cs: seq<Credit>) {
    var r := Rebuild(d, cs);
    && d.expiresAt == r.expiresAt && d.updatesUntil == r.updatesUntil
    && (d.activatedAt.None? ==> d == r)
  }

  lemma {:induction false} LiveKeeps(d: Dates, h: seq<Event>)
    ensures var r := Live(d, h);
      r.perpetual == d.perpetual && r.baseDays == d.baseDays && r.baseUpdateDays == d.baseUpdateDays
    ensures d.activatedAt.None? && Live(d, h).activatedAt.Some? ==> Started(Live(d, h).activatedAt.value) in h
    ensures d.activatedAt.None? && Live(d, h).activatedAt.None? ==>
      Live(d, h) == d.(durationDays := Live(d, h).durationDays, updateDays := Live(d, h).updateDays)
  {
    if h != [] { LiveKeeps(d, h[..|h| - 1]); }
  }

  /** Chronological histories have credits in use order. */
  lemma {:induction false} CreditsInOrder(h: seq<Event>)
    requires Chronological(h)
    ensures ByUse(Credits(h))
    ensures forall i :: 0 <= i < |Credits(h)| && h != [] ==> Credits(h)[i].usedAt <= h[|h| - 1].At()
  {
    if h != [] {
      CreditsInOrder(h[..|h| - 1]);
    }
  }

  /** First activation: pre-activation credits end up in the date either way. */
  lemma StartAgrees(d: Dates, cs: seq<Credit>, now: Time)
    requires d.activatedAt.None? && Agrees(d, cs) && NonNegative(cs)
    requires d.baseUpdateDays >= 0 && (d.perpetual || d.baseDays > 0)
    requires d.perpetual ==> d.baseExpiresAt.None? && forall i :: 0 <= i < |cs| ==> cs[i].purpose != RenewUsage
    requires forall i :: 0 <= i < |cs| ==> cs[i].usedAt <= now
    ensures Agrees(Start(d, now), cs)
  {
    var s := Start(d, now);
    BeforeActivationAddsDays(ResetToBase(d), cs);
    EarlyCreditsAddUp(ResetToBase(s), cs, RenewUpdates);
    if d.perpetual {
      UntouchedWithoutCredits(ResetToBase(s), cs, RenewUsage);
    } else {
      EarlyCreditsAddUp(ResetToBase(s), cs, RenewUsage);
    }
  }

  lemma RedeemAgrees(d: Dates, cs: seq<Credit>, c: Credit)
    requires Agrees(d, cs)
    requires d.activatedAt.Some? ==> c.usedAt >= d.activatedAt.value
    ensures Agrees(Redeem(d, c), cs + [c])
  {
    assert (cs + [c])[..|cs|] == cs;
    assert ResetToBase(Redeem(d, c)) == ResetToBase(d);
    ApplyAllKeeps(ResetToBase(d), cs);
  }

  /** Over every life of a license, the two date algorithms agree. */
  lemma {:induction false} LiveAgreesWithRebuild(d: Dates, h: seq<Event>)
    requires Born(d) && Chronological(h) && Fits(d, h)
    ensures Agrees(Live(d, h), Credits(h))
  {
    if h != [] {
      var init, e := h[..|h| - 1], h[|h| - 1];
      LiveAgreesWithRebuild(d, init);
      LiveKeeps(d, init);
      CreditsInOrder(h);
      var now := Live(d, init);
      if e.Redeemed? {
        RedeemAgrees(now, Credits(init), e.credit);
      } else if now.activatedAt.None? {
        CreditsInOrder(init);
        StartAgrees(now, Credits(init), e.at);
      }
    }
  }

  /** The day counter a purpose adds to before activation. */
  function Counter(d: Dates, p: Purpose): int {
    match p
    case Activate => 0
    case RenewUsage => d.durationDays
    case RenewUpdates => d.updateDays
  }

  lemma CountersAtStart(d: Dates, h: seq<Event>, now: Time, p: Purpose)
    requires Born(d) && Chronological(h + [Started(now)]) && Fits(d, h) && Live(d, h).activatedAt.None?
    requires p != Activate
    ensures var s := Live(d, h + [Started(now)]);
      Counter(Rebuild(s, Credits(h)), p) == Counter(s, p)
      <==> forall c :: c in Credits(h) && c.purpose == p ==> c.usedAt < now
  {
    var cs := Credits(h);
    var e := Live(d, h);
    assert (h + [Started(now)])[..|h|] == h;
    assert Chronological(h) by { assert forall i :: 0 <= i < |h| ==> h[i] == (h + [Started(now)])[i]; }
    LiveAgreesWithRebuild(d, h);
    LiveKeeps(d, h);
    BeforeActivationAddsDays(ResetToBase(e), cs);
    forall i | 0 <= i < |cs| ensures cs[i].usedAt <= now && cs[i].days > 0 {
      var j :| 0 <= j < |h| && h[j] == Redeemed(cs[i]);
      assert (h + [Started(now)])[j].At() <= (h + [Started(now)])[|h|].At();
    }
    StrictlyBefore(ResetToBase(Start(e, now)), cs, now, p);
  }

  /** Day counters after activation: the rebuild forgets exactly the days redeemed before activation at the
      activation instant itself, because it compares with a strict "before". Later events change neither. */
  lemma {:induction false} CountersAfterStart(d: Dates, h: seq<Event>, now: Time, rest: seq<Event>, p: Purpose)
    requires Born(d) && Chronological(h + [Started(now)] + rest) && Fits(d, h + [Started(now)] + rest)
    requires Live(d, h).activatedAt.None? && p != Activate
    ensures var life := h + [Started(now)] + rest;
      Counter(Rebuild(Live(d, life), Credits(life)), p) == Counter(Live(d, life), p)
      <==> forall c :: c in Credits(h) && c.purpose == p ==> c.usedAt < now
    decreases rest
  {
    var start := h + [Started(now)];
    if rest == [] {
      assert start + [] == start;
      assert forall i :: 0 <= i < |h| ==> h[i] == start[i];
      LiveStep(d, h, Started(now));
      CountersAtStart(d, h, now, p);
    } else {
      var init, e := rest[..|rest| - 1], rest[|rest| - 1];
      assert start + rest == (start + init) + [e];
      ChronologicalPrefix(start + init, e);
      assert forall i :: 0 <= i < |start + init| ==> (start + init)[i] == (start + rest)[i];
      CountersAfterStart(d, h, now, init, p);
      LiveStep(d, start + init, e);
      StaysStarted(d, h, now, init);
      assert (start + rest)[|h|].At() <= (start + rest)[|start + init|].At();
      if e.Redeemed? { LateCreditUncounted(Live(d, start + init), Credits(start + init), e.credit, p); }
    }
  }

  lemma ChronologicalPrefix(h: seq<Event>, e: Event)
    requires Chronological(h + [e])
    ensures Chronological(h)
  {
    forall i, j | 0 <= i < j < |h| ensures h[i].At() <= h[j].At() {
      assert h[i] == (h + [e])[i] && h[j] == (h + [e])[j];
    }
  }

  lemma {:induction false} StaysStarted(d: Dates, h: seq<Event>, now: Time, rest: seq<Event>)
    requires Live(d, h).activatedAt.None?
    ensures Live(d, h + [Started(now)] + rest).activatedAt == Some(now)
  {
    var start := h + [Started(now)];
    if rest == [] {
      assert start + [] == start;
      LiveStep(d, h, Started(now));
    } else {
      StaysStarted(d, h, now, rest[..|rest| - 1]);
      assert start + rest == (start + rest[..|rest| - 1]) + [rest[|rest| - 1]];
      LiveStep(d, start + rest[..|rest| - 1], rest[|rest| - 1]);
    }
  }

  /** A credit used at or after activation counts in neither counter. */
  lemma LateCreditUncounted(d: Dates, cs: seq<Credit>, c: Credit, p: Purpose)
    requires d.activatedAt.Some? && c.usedAt >= d.activatedAt.value
    ensures Counter(Redeem(d, c), p) == Counter(d, p)
    ensures Counter(Rebuild(Redeem(d, c), cs + [c]), p) == Counter(Rebuild(d, cs), p)
  {
    RedeemKeepsReset(d, c);
    ApplyAllKeeps(ResetToBase(d), cs);
    assert (cs + [c])[..|cs|] == cs;
  }

  lemma SameInstant(d: Dates, c: Credit)
    requires Born(d) && c.purpose != Activate && (c.purpose == RenewUsage ==> !d.perpetual) && c.days > 0
    ensures var kept := Start(Redeem(d, c), c.usedAt);
      var rebuilt := Apply(ResetToBase(kept), c);
      && kept.expiresAt == rebuilt.expiresAt && kept.updatesUntil == rebuilt.updatesUntil
      && Counter(kept, c.purpose) == Counter(rebuilt, c.purpose) + c.days
  {}

  lemma OneCredit(d: Dates, c: Credit)
    ensures ApplyAll(d, [c]) == Apply(d, c)
  {
    assert [c][..0] == [];
  }

  /** Whenever a card is redeemed just before activation, on the same reading of the clock, the dates agree
      and the rebuilt counter of its purpose lacks its days. */
  lemma SameInstantCreditUncounted(d: Dates, c: Credit)
    requires Born(d) && c.purpose != Activate && (c.purpose == RenewUsage ==> !d.perpetual) && c.days > 0
    ensures var kept := Live(d, [Redeemed(c), Started(c.usedAt)]);
      var rebuilt := Rebuild(kept, Credits([Redeemed(c), Started(c.usedAt)]));
      && kept.expiresAt == rebuilt.expiresAt && kept.updatesUntil == rebuilt.updatesUntil
      && Counter(kept, c.purpose) == Counter(rebuilt, c.purpose) + c.days
  {
    var r, e := Redeemed(c), Started(c.usedAt);
    assert [r] == [] + [r] && [r, e] == [r] + [e];
    LiveStep(d, [], r);
    LiveStep(d, [r], e);
    assert [] + [c] == [c];
    OneCredit(ResetToBase(Start(Redeem(d, c), c.usedAt)), c);
    SameInstant(d, c);
  }

  lemma {:induction false} StrictlyBefore(d: Dates, cs: seq<Credit>, now: Time, p: Purpose)
    requires d.activatedAt == Some(now) && p != Activate
    requires forall i :: 0 <= i < |cs| ==> cs[i].usedAt <= now && cs[i].days > 0
    ensures Counter(ApplyAll(d, cs), p) <= Counter(d, p) + Total(cs, p)
    ensures Counter(ApplyAll(d, cs), p) == Counter(d, p) + Total(cs, p)
      <==> forall c :: c in cs && c.purpose == p ==> c.usedAt < now
  {
    if cs != [] {
      var init, c := cs[..|cs| - 1], cs[|cs| - 1];
      StrictlyBefore(d, init, now, p);
      ApplyAllKeeps(d, init);
      assert cs == init + [c];
    }
  }

  // ---------- erasing credits ----------

  /** The credits whose card is not among the refunded ones. */
  function Without(cs: seq<Credit>, gone: set<Id>): seq<Credit> {
    if cs == [] then []
    else
      var rest := Without(cs[..|cs| - 1], gone);
      if cs[|cs| - 1].card in gone then rest else rest + [cs[|cs| - 1]]
  }

  ghost predicate OptionAtMost(a: Option<Time>, b: Option<Time>) {
    a == b || (a.Some? && b.Some? && a.value <= b.value)
  }

  ghost predicate NoLater(a: Dates, b: Dates) {
    OptionAtMost(a.expiresAt, b.expiresAt) && OptionAtMost(a.updatesUntil, b.updatesUntil)
  }

  lemma ApplyNoLater(a: Dates, b: Dates, c: Credit)
    requires NoLater(a, b) && a.activatedAt == b.activatedAt
    ensures NoLater(Apply(a, c), Apply(b, c))
  {}

  lemma ApplyLater(a: Dates, b: Dates, c: Credit)
    requires NoLater(a, b) && c.days >= 0
    requires b.activatedAt.Some? && c.purpose == RenewUsage ==> b.expiresAt.Some?
    requires b.activatedAt.Some? && c.purpose == RenewUpdates ==> b.updatesUntil.Some?
    ensures NoLater(a, Apply(b, c))
  {}

  /** Erasing credits never moves a rebuilt date later. */
  lemma {:induction false} ErasingIsNoLater(d: Dates, cs: seq<Credit>, gone: set<Id>)
    requires NonNegative(cs)
    requires d.activatedAt.Some? ==> forall i :: 0 <= i < |cs| ==>
      (cs[i].purpose == RenewUsage ==> d.expiresAt.Some?) && (cs[i].purpose == RenewUpdates ==> d.updatesUntil.Some?)
    ensures NoLater(ApplyAll(d, Without(cs, gone)), ApplyAll(d, cs))
    ensures d.expiresAt.Some? ==> ApplyAll(d, cs).expiresAt.Some?
    ensures d.updatesUntil.Some? ==> ApplyAll(d, cs).updatesUntil.Some?
  {
    if cs != [] {
      var init, c := cs[..|cs| - 1], cs[|cs| - 1];
      ErasingIsNoLater(d, init, gone);
      var kept := Without(init, gone);
      ApplyAllKeeps(d, init);
      ApplyAllKeeps(d, kept);
      if c.card in gone {
        ApplyLater(ApplyAll(d, kept), ApplyAll(d, init), c);
      } else {
        assert (kept + [c])[..|kept|] == kept;
        ApplyNoLater(ApplyAll(d, kept), ApplyAll(d, init), c);
      }
    }
  }

  /** The same life with the redemptions of some cards left out. */
  function Erase(h: seq<Event>, gone: set<Id>): (r: seq<Event>)
    ensures forall e :: e in r ==> e in h
  {
    if h == [] then []
    else
      var rest := Erase(h[..|h| - 1], gone);
      var e := h[|h| - 1];
      if e.Redeemed? && e.credit.card in gone then rest else rest + [e]
  }

  lemma EraseStep(h: seq<Event>, e: Event, gone: set<Id>)
    ensures Erase(h + [e], gone) == if e.Redeemed? && e.credit.card in gone then Erase(h, gone)
      else Erase(h, gone) + [e]
  {
    assert (h + [e])[..|h|] == h;
  }

  lemma LiveStep(d: Dates, h: seq<Event>, e: Event)
    ensures Live(d, h + [e]) == Happen(Live(d, h), e)
    ensures Credits(h + [e]) == if e.Redeemed? then Credits(h) + [e.credit] else Credits(h)
  {
    assert (h + [e])[..|h|] == h;
  }

  lemma ChronologicalStep(d: Dates, h: seq<Event>, e: Event)
    requires Chronological(h) && Fits(d, h)
    requires forall x :: x in h ==> x.At() <= e.At()
    requires e.Redeemed? ==> e.credit.days > 0 && (d.perpetual ==> e.credit.purpose != RenewUsage)
    ensures Chronological(h + [e]) && Fits(d, h + [e])
  {
    forall i, j | 0 <= i < j < |h + [e]| ensures (h + [e])[i].At() <= (h + [e])[j].At() {
      assert h[i] in h;
    }
  }

  lemma {:induction false} EraseFacts(d: Dates, h: seq<Event>, gone: set<Id>)
    requires Chronological(h) && Fits(d, h)
    ensures Chronological(Erase(h, gone)) && Fits(d, Erase(h, gone))
    ensures Credits(Erase(h, gone)) == Without(Credits(h), gone)
  {
    if h != [] {
      var init, e := h[..|h| - 1], h[|h| - 1];
      assert h == init + [e];
      EraseFacts(d, init, gone);
      var rest := Erase(init, gone);
      forall x | x in rest ensures x.At() <= e.At() { assert x in init; }
      ChronologicalStep(d, rest, e);
      EraseStep(init, e, gone);
      LiveStep(d, rest, e);
      LiveStep(d, init, e);
      if e.Redeemed? { WithoutStep(Credits(init), e.credit, gone); }
    }
  }

  lemma WithoutStep(cs: seq<Credit>, c: Credit, gone: set<Id>)
    ensures Without(cs + [c], gone) == if c.card in gone then Without(cs, gone) else Without(cs, gone) + [c]
  {
    assert (cs + [c])[..|cs|] == cs;
  }

  lemma RedeemKeepsReset(d: Dates, c: Credit)
    ensures ResetToBase(Redeem(d, c)) == ResetToBase(d)
  {}

  lemma StartReset(a: Dates, b: Dates, now: Time)
    requires ResetToBase(a) == ResetToBase(b)
    ensures ResetToBase(Start(a, now)) == ResetToBase(Start(b, now))
  {
    assert a.activatedAt == ResetToBase(a).activatedAt == b.activatedAt;
    assert a.perpetual == ResetToBase(a).perpetual == b.perpetual;
    assert a.baseDays == ResetToBase(a).baseDays == b.baseDays;
    assert a.baseUpdateDays == ResetToBase(a).baseUpdateDays == b.baseUpdateDays;
    assert a.baseExpiresAt == ResetToBase(a).baseExpiresAt == b.baseExpiresAt;
  }

  /** Erasing redemptions leaves activation and base dates as they were. */
  lemma {:induction false} EraseKeepsBase(d: Dates, h: seq<Event>, gone: set<Id>)
    ensures ResetToBase(Live(d, Erase(h, gone))) == ResetToBase(Live(d, h))
  {
    if h != [] {
      var init, e := h[..|h| - 1], h[|h| - 1];
      assert h == init + [e];
      EraseKeepsBase(d, init, gone);
      var rest := Erase(init, gone);
      EraseStep(init, e, gone);
      LiveStep(d, rest, e);
      LiveStep(d, init, e);
      match e
      case Started(at) => StartReset(Live(d, rest), Live(d, init), at);
      case Redeemed(c) =>
        RedeemKeepsReset(Live(d, rest), c);
        RedeemKeepsReset(Live(d, init), c);
    }
  }

  /** Rebuilding a lived license without some cards gives the dates of the life in which those
      cards were never redeemed. */
  lemma RefundIsErasure(d: Dates, h: seq<Event>, gone: set<Id>)
    requires Born(d) && Chronological(h) && Fits(d, h)
    ensures var refunded := Rebuild(Live(d, h), Without(Credits(h), gone));
      var erased := Live(d, Erase(h, gone));
      && refunded.expiresAt == erased.expiresAt && refunded.updatesUntil == erased.updatesUntil
      && refunded.activatedAt == erased.activatedAt
      && (erased.activatedAt.None? ==> refunded == erased)
  {
    EraseFacts(d, h, gone);
    LiveAgreesWithRebuild(d, Erase(h, gone));
    EraseKeepsBase(d, h, gone);
    var cs := Without(Credits(h), gone);
    var e := Live(d, Erase(h, gone));
    assert Agrees(e, cs);
    assert Rebuild(Live(d, h), cs) == Rebuild(e, cs);
    ApplyAllKeeps(ResetToBase(e), cs);
  }

  /** A refund never moves a date later. */
  lemma RefundIsNoLater(d: Dates, h: seq<Event>, gone: set<Id>)
    requires Born(d) && Chronological(h) && Fits(d, h)
    ensures NoLater(Rebuild(Live(d, h), Without(Credits(h), gone)), Live(d, h))
  {
    LiveAgreesWithRebuild(d, h);
    BaseIsThere(d, h);
    var l := Live(d, h);
    var cs := Credits(h);
    forall i | 0 <= i < |cs| ensures cs[i].days >= 0 && (l.perpetual ==> cs[i].purpose != RenewUsage) {
      var j :| 0 <= j < |h| && h[j] == Redeemed(cs[i]);
    }
    ErasingIsNoLater(ResetToBase(l), cs, gone);
  }

  /** An activated license has a base date for everything that can be renewed. */
  lemma {:induction false} BaseIsThere(d: Dates, h: seq<Event>)
    requires Born(d)
    ensures var l := Live(d, h);
      && l.perpetual == d.perpetual
      && (l.activatedAt.Some? ==> l.baseUpdatesUntil.Some? && (!l.perpetual ==> l.baseExpiresAt.Some?))
  {
    LiveKeeps(d, h);
    if h != [] {
      BaseIsThere(d, h[..|h| - 1]);
      LiveKeeps(d, h[..|h| - 1]);
    }
  }
}
