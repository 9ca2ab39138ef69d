/** Runs of the sales tables with the history of each license: what was redeemed and when the
    license started. The stored dates are those of the history without refunded redemptions. */
module SalesHistory {
  import opened Basics
  import opened Ledger
  import opened Money
  import opened SalesModel
  import opened SalesInvariants

  // ---------- the rebuild looks at credits only, in use order ----------

  ghost predicate UseSorted(cards: map<Id, Card>, ids: seq<Id>) {
    && (forall x :: x in ids ==> x in cards && cards[x].usedAt.Some?)
    && (forall i, j :: 0 <= i < j < |ids| ==> cards[ids[i]].usedAt.value <= cards[ids[j]].usedAt.value)
  }

  lemma AppendKeepsSorted(cards: map<Id, Card>, s: seq<Id>, x: Id)
    requires UseSorted(cards, s) && x in cards && cards[x].usedAt.Some?
    requires forall y :: y in s ==> cards[y].usedAt.value <= cards[x].usedAt.value
    ensures UseSorted(cards, s + [x])
  {
    forall i, j | 0 <= i < j < |s + [x]|
      ensures cards[(s + [x])[i]].usedAt.value <= cards[(s + [x])[j]].usedAt.value
    {
      if j == |s| { assert s[i] in s; }
    }
  }

  lemma PrefixSorted(cards: map<Id, Card>, s: seq<Id>)
    requires UseSorted(cards, s) && s != []
    ensures UseSorted(cards, s[..|s| - 1]) && s[|s| - 1] in cards && cards[s[|s| - 1]].usedAt.Some?
    ensures forall y :: y in s ==> cards[y].usedAt.value <= cards[s[|s| - 1]].usedAt.value
  {
    assert s[|s| - 1] in s;
    forall y | y in s ensures cards[y].usedAt.value <= cards[s[|s| - 1]].usedAt.value {
      var i :| 0 <= i < |s| && s[i] == y;
    }
  }

  lemma {:induction false} InsertKeepsSorted(sorted: seq<Id>, cards: map<Id, Card>, c: Id)
    requires UseSorted(cards, sorted) && c in cards && cards[c].usedAt.Some?
    ensures UseSorted(cards, InsertSorted(sorted, cards, c))
  {
    if sorted != [] {
      var init, last := sorted[..|sorted| - 1], sorted[|sorted| - 1];
      PrefixSorted(cards, sorted);
      if UsedBefore(cards, c, last) {
        InsertKeepsSorted(init, cards, c);
        var front := InsertSorted(init, cards, c);
        forall x | x in front ensures cards[x].usedAt.value <= cards[last].usedAt.value {
          assert x in multiset(front);
          assert x == c || x in init;
        }
        AppendKeepsSorted(cards, front, last);
      } else {
        AppendKeepsSorted(cards, sorted, c);
      }
    }
  }

  lemma {:induction false} SortSorts(rows: seq<Id>, cards: map<Id, Card>)
    requires forall x :: x in rows ==> x in cards && cards[x].usedAt.Some?
    ensures UseSorted(cards, SortByUse(rows, cards))
  {
    if rows != [] {
      var init := rows[..|rows| - 1];
      forall x | x in init ensures x in rows {}
      assert rows[|rows| - 1] in rows;
      SortSorts(init, cards);
      InsertKeepsSorted(SortByUse(init, cards), cards, rows[|rows| - 1]);
    }
  }

  lemma {:induction false} CreditsOfMembers(licenses: map<Id, License>, cards: map<Id, Card>, ids: seq<Id>)
    requires forall x :: x in ids ==> x in cards
    ensures forall k :: k in CreditsOf(licenses, cards, ids) <==>
      k.card in ids && Credited(cards[k.card]) && k == CreditOf(licenses, cards, k.card)
  {
    if ids != [] {
      var init, last := ids[..|ids| - 1], ids[|ids| - 1];
      assert ids == init + [last];
      CreditsOfMembers(licenses, cards, init);
    }
  }

  lemma {:induction false} CreditsOfOrder(licenses: map<Id, License>, cards: map<Id, Card>, ids: seq<Id>)
    requires UseSorted(cards, ids) && Distinct(ids)
    ensures ByUse(CreditsOf(licenses, cards, ids)) && Distinct(CreditsOf(licenses, cards, ids))
  {
    if ids != [] {
      var n := |ids| - 1;
      var init, last := ids[..n], ids[n];
      forall x | x in init ensures x in ids {}
      CreditsOfOrder(licenses, cards, init);
      CreditsOfMembers(licenses, cards, init);
      assert last in ids;
      var rest := CreditsOf(licenses, cards, init);
      forall k | k in rest ensures k.card != last && k.usedAt <= cards[last].usedAt.value {
        var i :| 0 <= i < n && init[i] == k.card;
        assert ids[i] == k.card;
      }
      forall i | 0 <= i < |rest| ensures rest[i].card != last && rest[i].usedAt <= cards[last].usedAt.value {
        assert rest[i] in rest;
      }
    }
  }

  lemma {:induction false} DistinctCounts<T>(s: seq<T>)
    requires Distinct(s)
    ensures forall x :: multiset(s)[x] == if x in s then 1 else 0
  {
    if s != [] {
      var init, last := s[..|s| - 1], s[|s| - 1];
      DistinctCounts(init);
      assert s == init + [last];
      assert last !in init;
    }
  }

  lemma SameMembers<T>(a: seq<T>, b: seq<T>)
    requires Distinct(a) && Distinct(b) && forall x :: x in a <==> x in b
    ensures multiset(a) == multiset(b)
  {
    DistinctCounts(a);
    DistinctCounts(b);
  }

  lemma TwiceCounts<T>(s: seq<T>, i: nat, j: nat)
    requires i < j < |s|
    ensures s[i] == s[j] ==> multiset(s)[s[j]] >= 2
  {
    assert s == s[..j] + s[j..];
    assert s[..j][i] == s[i] && s[j..][0] == s[j];
    assert multiset(s) == multiset(s[..j]) + multiset(s[j..]);
  }

  lemma SameCountsDistinct<T>(a: seq<T>, b: seq<T>)
    requires Distinct(a) && multiset(a) == multiset(b)
    ensures Distinct(b)
  {
    DistinctCounts(a);
    forall i, j | 0 <= i < j < |b| ensures b[i] != b[j] {
      TwiceCounts(b, i, j);
    }
  }

  lemma {:induction false} RedeemedRowsDistinct(rows: seq<Id>, cards: map<Id, Card>, lid: Id)
    requires Distinct(rows)
    ensures Distinct(RedeemedRows(rows, cards, lid))
  {
    if rows != [] {
      var init, last := rows[..|rows| - 1], rows[|rows| - 1];
      RedeemedRowsDistinct(init, cards, lid);
      assert last !in init;
    }
  }

  /** What the rebuild needs of the rows it reads. */
  ghost predicate Rebuildable(licenses: map<Id, License>, cards: map<Id, Card>, rows: seq<Id>, lid: Id) {
    && Distinct(rows)
    && forall c :: c in cards && cards[c].redeemed == Some(lid) ==>
       cards[c].usedAt.Some? && DaysOf(licenses, cards[c]) >= 0
  }

  lemma CreditsFromRows(licenses: map<Id, License>, cards: map<Id, Card>, rows: seq<Id>, lid: Id, ids: seq<Id>)
    requires Rebuildable(licenses, cards, rows, lid)
    requires multiset(ids) == multiset(RedeemedRows(rows, cards, lid)) && UseSorted(cards, ids)
    ensures var cs := CreditsOf(licenses, cards, ids);
      && ByUse(cs) && Distinct(cs) && NonNegative(cs)
      && forall k :: k in cs <==>
           k.card in RedeemedRows(rows, cards, lid) && Credited(cards[k.card]) && k == CreditOf(licenses, cards, k.card)
  {
    var redeemed := RedeemedRows(rows, cards, lid);
    RedeemedRowsDistinct(rows, cards, lid);
    SameCountsDistinct(redeemed, ids);
    CreditsOfOrder(licenses, cards, ids);
    CreditsOfMembers(licenses, cards, ids);
    forall x ensures x in ids <==> x in redeemed {
      assert x in ids <==> x in multiset(ids);
      assert x in redeemed <==> x in multiset(redeemed);
    }
    var cs := CreditsOf(licenses, cards, ids);
    forall i | 0 <= i < |cs| ensures cs[i].days >= 0 { assert cs[i] in cs; }
  }

  /** Any order of the redeemed rows that respects use times yields the recomputed dates, so neither
      the tie-break by id nor the stability of the sort matters. */
  lemma RecomputeAnyOrder(licenses: map<Id, License>, cards: map<Id, Card>, rows: seq<Id>, lid: Id, ids: seq<Id>)
    requires lid in licenses && Rebuildable(licenses, cards, rows, lid)
    requires multiset(ids) == multiset(RedeemedRows(rows, cards, lid)) && UseSorted(cards, ids)
    ensures Recomputed(licenses, cards, rows, lid) == Rebuild(licenses[lid].dates, CreditsOf(licenses, cards, ids))
  {
    var redeemed := RedeemedRows(rows, cards, lid);
    SortSorts(redeemed, cards);
    var sorted := SortByUse(redeemed, cards);
    CreditsFromRows(licenses, cards, rows, lid, ids);
    CreditsFromRows(licenses, cards, rows, lid, sorted);
    var a, b := CreditsOf(licenses, cards, sorted), CreditsOf(licenses, cards, ids);
    SameMembers(a, b);
    UseOrderIrrelevant(ResetToBase(licenses[lid].dates), a, b);
  }

  lemma TablesRebuildable(db: Db, lid: Id)
    requires RowsOk(db) && forall c {:trigger CardOk(db, c)} :: c in db.cards ==> CardOk(db, c)
    ensures Rebuildable(db.licenses, db.cards, db.cardRows, lid)
  {
    forall c | c in db.cards && db.cards[c].redeemed == Some(lid)
      ensures db.cards[c].usedAt.Some? && DaysOf(db.licenses, db.cards[c]) >= 0 { assert CardOk(db, c); }
  }

  /** The credits the recomputation uses: exactly the redeemed, unrefunded cards, each once, in use order. */
  lemma RecomputeCredits(db: Db, lid: Id)
    requires RowsOk(db) && forall c {:trigger CardOk(db, c)} :: c in db.cards ==> CardOk(db, c)
    ensures var rows := RedeemedRows(db.cardRows, db.cards, lid);
      var cs := CreditsOf(db.licenses, db.cards, SortByUse(rows, db.cards));
      && ByUse(cs) && Distinct(cs) && NonNegative(cs)
      && (forall k :: k in cs
           <==> k.card in rows && Credited(db.cards[k.card]) && k == CreditOf(db.licenses, db.cards, k.card))
  {
    var rows := RedeemedRows(db.cardRows, db.cards, lid);
    TablesRebuildable(db, lid);
    SortSorts(rows, db.cards);
    CreditsFromRows(db.licenses, db.cards, db.cardRows, lid, SortByUse(rows, db.cards));
  }

  // ---------- histories ----------

  datatype Traced = Traced(db: Db, history: map<Id, seq<Event>>, clock: Time)

  /** What a transaction does to the dates of license `lid`. */
  ghost function Happened(db: Db, s: Step, now: Time, lid: Id): seq<Event> {
    var r := Transact(db, s, now);
    if r.Err? then []
    else if lid !in db.licenses then
      if lid in r.value.licenses && r.value.licenses[lid].dates.activatedAt.Some? then [Started(now)] else []
    else
      match s
      case DoActivate(l, _) => if l == lid then [Started(now)] else []
      case DoActivateWithCard(hash, _) =>
        var c := FindByHash(db.cardRows, db.cards, hash);
        if c.Some? && db.cards[c.value].bound == lid then [Started(now)] else []
      case DoRedeem(l, hash) =>
        var c := FindByHash(db.cardRows, db.cards, hash);
        if l == lid && c.Some? && db.cards[c.value].status == Unused
        then [Redeemed(Credit(c.value, now, db.cards[c.value].purpose, DaysOf(db.licenses, db.cards[c.value])))]
        else []
      case _ => []
  }

  ghost function Advance(t: Traced, s: Step, now: Time): Traced {
    var after := Next(t.db, s, now);
    Traced(after,
      map l | l in after.licenses ::
        (if l in t.history then t.history[l] else []) + Happened(t.db, s, now, l),
      now)
  }

  /** Equal up to the day counters of an activated license, which nothing reads any more. */
  ghost predicate SameDates(a: Dates, b: Dates) {
    a == b || (a.activatedAt.Some? && a.(durationDays := 0, updateDays := 0) == b.(durationDays := 0, updateDays := 0))
  }

  lemma HappenSame(a: Dates, b: Dates, e: Event)
    requires SameDates(a, b)
    ensures SameDates(Happen(a, e), Happen(b, e))
  {}

  function Gone(cards: map<Id, Card>): set<Id> { set c | c in cards && cards[c].refundedAt.Some? }

  ghost predicate CardsDistinct(cs: seq<Credit>) { forall i, j :: 0 <= i < j < |cs| ==> cs[i].card != cs[j].card }

  ghost predicate InHistory(db: Db, lid: Id, k: Credit) {
    k.card in db.cards && db.cards[k.card].redeemed == Some(lid) && db.cards[k.card].usedAt.Some?
    && k == CreditOf(db.licenses, db.cards, k.card)
  }

  /** `h` is the life of license `lid`: its credits are the cards redeemed on it, each once, and its
      dates are those of `h` without the refunded ones. */
  ghost predicate Lived(db: Db, h: seq<Event>, clock: Time, lid: Id)
    requires lid in db.licenses
  {
    var d := db.licenses[lid].dates;
    && Chronological(h) && (forall i :: 0 <= i < |h| ==> h[i].At() <= clock)
    && Fits(Birth(d), h)
    && CardsDistinct(Credits(h))
    && (forall k :: k in Credits(h) <==> InHistory(db, lid, k))
    && SameDates(d, Live(Birth(d), Erase(h, Gone(db.cards))))
  }

  ghost predicate Traceable(t: Traced) {
    && Tables(t.db)
    && t.history.Keys == t.db.licenses.Keys
    && forall l {:trigger Lived(t.db, t.history[l], t.clock, l)} :: l in t.db.licenses ==>
       Lived(t.db, t.history[l], t.clock, l)
  }

  lemma {:induction false} EraseSame(h: seq<Event>, a: set<Id>, b: set<Id>)
    requires forall k :: k in Credits(h) ==> (k.card in a <==> k.card in b)
    ensures Erase(h, a) == Erase(h, b)
  {
    if h != [] {
      EraseSame(h[..|h| - 1], a, b);
    }
  }

  /** Nothing about `lid` changed except possibly its dead day counters. */
  ghost predicate Quiet(db: Db, after: Db, lid: Id) {
    && lid in db.licenses && lid in after.licenses
    && SameDates(after.licenses[lid].dates, db.licenses[lid].dates)
    && Birth(after.licenses[lid].dates) == Birth(db.licenses[lid].dates)
    && (forall k :: InHistory(db, lid, k) <==> InHistory(after, lid, k))
    && (forall c :: c in db.cards && db.cards[c].redeemed == Some(lid) ==>
          c in after.cards && (after.cards[c].refundedAt.Some? <==> db.cards[c].refundedAt.Some?))
  }

  lemma QuietLives(db: Db, after: Db, lid: Id, h: seq<Event>, clock: Time, now: Time)
    requires Quiet(db, after, lid) && Lived(db, h, clock, lid) && clock <= now
    ensures Lived(after, h, now, lid)
  {
    forall k | k in Credits(h) ensures k.card in Gone(db.cards) <==> k.card in Gone(after.cards) {
      assert InHistory(db, lid, k);
    }
    EraseSame(h, Gone(db.cards), Gone(after.cards));
  }

  /** Cards and source licenses keep what a credit is made of. */
  ghost predicate SameCredits(db: Db, after: Db, lid: Id) {
    && (forall c :: c in db.cards ==> c in after.cards)
    && (forall c :: c in after.cards && after.cards[c].redeemed == Some(lid) ==>
         c in db.cards && db.cards[c].redeemed == Some(lid))
    && (forall c :: c in db.cards && db.cards[c].redeemed == Some(lid) ==>
          && after.cards[c] == db.cards[c].(status := after.cards[c].status)
          && DaysOf(after.licenses, after.cards[c]) == DaysOf(db.licenses, db.cards[c]))
  }

  lemma SameCreditsQuiet(db: Db, after: Db, lid: Id)
    requires lid in db.licenses && lid in after.licenses && SameCredits(db, after, lid)
    requires after.licenses[lid].dates == db.licenses[lid].dates
    ensures Quiet(db, after, lid)
  {}

  lemma AppendedLives(db: Db, after: Db, lid: Id, h: seq<Event>, clock: Time, e: Event, now: Time)
    requires lid in db.licenses && Lived(db, h, clock, lid) && lid in after.licenses && clock <= now && e.At() == now
    requires var d := db.licenses[lid].dates; after.licenses[lid].dates == Happen(d, e)
    requires Birth(after.licenses[lid].dates) == Birth(db.licenses[lid].dates)
    requires Gone(db.cards) == Gone(after.cards)
    requires e.Started? ==> forall k :: InHistory(db, lid, k) <==> InHistory(after, lid, k)
    requires e.Redeemed? ==>
      && e.credit.card !in Gone(db.cards) && e.credit.days > 0
      && (db.licenses[lid].dates.perpetual ==> e.credit.purpose != RenewUsage)
      && (e.credit.card in db.cards ==> db.cards[e.credit.card].redeemed != Some(lid))
      && forall k :: InHistory(after, lid, k) <==> InHistory(db, lid, k) || k == e.credit
    ensures Lived(after, h + [e], now, lid)
  {
    var d := db.licenses[lid].dates;
    var h' := h + [e];
    assert h'[..|h|] == h && h'[|h|] == e;
    var gone := Gone(db.cards);
    assert Erase(h', gone) == Erase(h, gone) + [e];
    var kept := Erase(h, gone);
    assert (kept + [e])[..|kept|] == kept;
    HappenSame(d, Live(Birth(d), kept), e);
    assert Birth(d).perpetual == d.perpetual;
    if e.Redeemed? {
      assert Credits(h') == Credits(h) + [e.credit];
      forall i | 0 <= i < |Credits(h)| ensures Credits(h)[i].card != e.credit.card {
        assert Credits(h)[i] in Credits(h);
        assert InHistory(db, lid, Credits(h)[i]);
      }
    } else {
      assert Credits(h') == Credits(h);
    }
  }

  // ---------- every step keeps the histories true ----------

  /** `h` continued by what the step did to `lid`. */
  ghost predicate Continues(t: Traced, s: Step, now: Time, lid: Id)
    requires lid in Next(t.db, s, now).licenses
  {
    var h := if lid in t.history then t.history[lid] else [];
    Lived(Next(t.db, s, now), h + Happened(t.db, s, now, lid), now, lid)
  }

  lemma NothingQuiet(db: Db, lid: Id)
    requires lid in db.licenses
    ensures Quiet(db, db, lid)
  {}

  lemma QuietContinues(t: Traced, s: Step, now: Time, lid: Id)
    requires Traceable(t) && t.clock <= now
    requires Quiet(t.db, Next(t.db, s, now), lid) && Happened(t.db, s, now, lid) == []
    ensures Continues(t, s, now, lid)
  {
    assert Lived(t.db, t.history[lid], t.clock, lid);
    QuietLives(t.db, Next(t.db, s, now), lid, t.history[lid], t.clock, now);
    assert t.history[lid] + [] == t.history[lid];
  }

  ghost predicate SameButStatus(db: Db, after: Db) {
    && after.licenses.Keys == db.licenses.Keys && after.cards.Keys == db.cards.Keys
    && (forall l :: l in db.licenses ==> after.licenses[l].dates == db.licenses[l].dates)
    && (forall c :: c in db.cards ==> after.cards[c] == db.cards[c].(status := after.cards[c].status))
  }

  predicate Plain(s: Step) {
    s.SaveApp? || s.DoSavePlan? || s.DoSetStatus? || s.DoRevokeCard? || s.DoBlockUpdates? || s.Elsewhere?
  }

  lemma LicenseRowChangesStatus(db: Db, lid: Id, l: License)
    requires lid in db.licenses && l.dates == db.licenses[lid].dates
    ensures SameButStatus(db, db.(licenses := db.licenses[lid := l]))
  {}

  lemma CardRowChangesStatus(db: Db, cid: Id, status: CardStatus)
    requires cid in db.cards
    ensures SameButStatus(db, db.(cards := db.cards[cid := db.cards[cid].(status := status)]))
  {}

  lemma SideChangesStatus(db: Db, after: Db)
    requires after.licenses == db.licenses && after.cards == db.cards
    ensures SameButStatus(db, after)
  {}

  lemma PlainChangesStatus(db: Db, s: Step, now: Time)
    requires Plain(s)
    ensures SameButStatus(db, Next(db, s, now))
  {
    match s
    case SaveApp(_) => SideChangesStatus(db, Next(db, s, now));
    case DoSavePlan(_, _, _) => SideChangesStatus(db, Next(db, s, now));
    case DoSetStatus(lid, status) =>
      SideChangesStatus(db, db);
      if SetLicenseStatus(db, lid, status).Ok? {
        LicenseRowChangesStatus(db, lid, db.licenses[lid].(status := status));
      }
    case DoRevokeCard(cid) =>
      SideChangesStatus(db, db);
      if cid in db.cards { CardRowChangesStatus(db, cid, CardRevoked); }
    case DoBlockUpdates(lid, blocked) =>
      SideChangesStatus(db, db);
      if lid in db.licenses { LicenseRowChangesStatus(db, lid, db.licenses[lid].(updatesBlocked := blocked)); }
    case Elsewhere(_) => SideChangesStatus(db, Next(db, s, now));
  }

  lemma StatusQuiet(db: Db, after: Db, lid: Id)
    requires SameButStatus(db, after) && lid in db.licenses
    ensures Quiet(db, after, lid)
  {
    forall c | c in db.cards ensures DaysOf(after.licenses, after.cards[c]) == DaysOf(db.licenses, db.cards[c]) {}
    SameCreditsQuiet(db, after, lid);
  }

  // ---------- issuing ----------

  ghost predicate Grown(db: Db, after: Db, now: Time) {
    && (forall l :: l in db.licenses ==> l in after.licenses && after.licenses[l] == db.licenses[l])
    && (forall c :: c in db.cards ==> c in after.cards && after.cards[c] == db.cards[c])
    && (forall c :: c in after.cards && c !in db.cards ==> after.cards[c].redeemed.None?)
    && (forall l :: l in after.licenses && l !in db.licenses ==> JustBorn(after.licenses[l].dates, now))
  }

  predicate JustBorn(d: Dates, now: Time) { d == Birth(d) || d == Start(Birth(d), now) }

  lemma NewLicenseJustBorn(oid: Id, o: Order, now: Time)
    ensures JustBorn(NewLicense(oid, o, now).dates, now)
  {}

  lemma IssueGrows(db: Db, oid: Id, tags: seq<Tag>, now: Time)
    requires oid in db.orders && db.orders[oid].licenses == [] && |tags| == db.orders[oid].quantity
    ensures Grown(db, Commit(db, IssueOrder(db, oid, tags, now)), now)
  {
    if IssueOrder(db, oid, tags, now).Ok? {
      IssueOrderIssues(db, oid, tags, now);
      NewLicenseJustBorn(oid, db.orders[oid], now);
      IssuedGrows(db, IssuedDb(db, oid, tags, now), oid, tags, now);
    }
  }

  lemma IssuedGrows(db: Db, after: Db, oid: Id, tags: seq<Tag>, now: Time)
    requires Issued(db, after, oid, tags, now) && JustBorn(NewLicense(oid, db.orders[oid], now).dates, now)
    ensures Grown(db, after, now)
  {
    forall c | c in after.cards && c !in db.cards ensures after.cards[c].redeemed.None? {
      assert FromTag(after.cards, db.orders[oid], tags, c);
    }
  }

  lemma GrownOldQuiet(db: Db, after: Db, now: Time, lid: Id)
    requires Tables(db) && Grown(db, after, now) && lid in db.licenses
    ensures Quiet(db, after, lid)
  {
    forall c | c in db.cards && db.cards[c].redeemed == Some(lid)
      ensures DaysOf(after.licenses, after.cards[c]) == DaysOf(db.licenses, db.cards[c])
    {
      assert CardOk(db, c);
    }
    SameCreditsQuiet(db, after, lid);
  }

  lemma NobodysCredit(db: Db, after: Db, now: Time, lid: Id)
    requires Tables(db) && Grown(db, after, now) && lid !in db.licenses
    ensures forall k :: !InHistory(after, lid, k)
  {
    forall k ensures !InHistory(after, lid, k) {
      if k.card in db.cards { assert CardOk(db, k.card); }
    }
  }

  lemma LiveOne(d: Dates, e: Event)
    ensures Live(d, []) == d && Live(d, [e]) == Happen(d, e)
  {
    assert [e][..0] == [];
  }

  lemma UnstartedLives(after: Db, lid: Id, now: Time)
    requires lid in after.licenses && after.licenses[lid].dates == Birth(after.licenses[lid].dates)
    requires forall k :: !InHistory(after, lid, k)
    ensures Lived(after, [], now, lid)
  {
    assert Erase([], Gone(after.cards)) == [];
  }

  lemma StartedLives(after: Db, lid: Id, now: Time)
    requires lid in after.licenses
    requires var d := after.licenses[lid].dates; d == Start(Birth(d), now)
    requires forall k :: !InHistory(after, lid, k)
    ensures Lived(after, [Started(now)], now, lid)
  {
    var d := after.licenses[lid].dates;
    var h := [Started(now)];
    LiveOne(Birth(d), Started(now));
    assert h[..0] == [];
    assert Credits(h) == [];
    assert Erase(h, Gone(after.cards)) == h;
  }

  lemma GrownNewLives(db: Db, after: Db, now: Time, lid: Id)
    requires Tables(db) && Grown(db, after, now) && lid in after.licenses && lid !in db.licenses
    ensures Lived(after, if after.licenses[lid].dates.activatedAt.Some? then [Started(now)] else [], now, lid)
  {
    NobodysCredit(db, after, now, lid);
    if after.licenses[lid].dates.activatedAt.Some? {
      StartedLives(after, lid, now);
    } else {
      UnstartedLives(after, lid, now);
    }
  }

  lemma PlacedGrows(db: Db, oid: Id, o: Order, after: Db, now: Time)
    requires Grown(db.(orders := db.orders[oid := o]), after, now)
    ensures Grown(db, after, now)
  {}

  lemma SideGrows(db: Db, mid: Db, after: Db, now: Time)
    requires Grown(db, mid, now) && after.licenses == mid.licenses && after.cards == mid.cards
    ensures Grown(db, after, now)
  {}

  lemma CreateSaleGrows(db: Db, oid: Id, s: Sale, custom: Option<Terms>, confirmed: bool, tags: seq<Tag>, now: Time)
    requires |tags| == s.quantity
    ensures Grown(db, Commit(db, CreateSale(db, oid, s, custom, confirmed, tags, now)), now)
  {
    var r := CreateSale(db, oid, s, custom, confirmed, tags, now);
    if r.Ok? {
      var t := if custom.Some? then custom.value else db.plans[s.plan].terms;
      var o := PendingOrder(s, NormalizeTerms(db.app, t).value, None, 0, None, "");
      var placed := db.(orders := db.orders[oid := o]);
      if confirmed {
        assert r == IssueOrder(placed, oid, tags, now);
        IssueGrows(placed, oid, tags, now);
        PlacedGrows(db, oid, o, r.value, now);
      }
    }
  }

  lemma AgentSaleGrows(db: Db, agent: Id, active: bool, request: string, fp: string, s: Sale, grant: Option<Grant>,
                       expected: int, oid: Id, tags: seq<Tag>, now: Time)
    ensures Grown(db, Commit(db, AgentSale(db, agent, active, request, fp, s, grant, expected, oid, tags, now)), now)
  {
    var r := AgentSale(db, agent, active, request, fp, s, grant, expected, oid, tags, now);
    if r.Ok? && Lookup(db.books.entries, Application(db.app.id), agent, request).None? {
      var o := PendingOrder(s, db.plans[s.plan].terms, Some(agent), grant.value.unitCost * s.quantity, None, request);
      var placed := db.(orders := db.orders[oid := o]);
      var issued := IssueOrder(placed, oid, tags, now);
      IssueGrows(placed, oid, tags, now);
      PlacedGrows(db, oid, o, issued.value, now);
      SideGrows(db, issued.value, r.value, now);
    }
  }

  lemma PaymentGrows(db: Db, channel: Id, event: string, bodyHash: string, proof: Signing, body: SaleEvent, now: Time)
    requires body.PaymentConfirmed?
    ensures Grown(db, Commit(db, ReceiveSale(db, channel, event, bodyHash, proof, body, now)), now)
  {
    var r := ReceiveSale(db, channel, event, bodyHash, proof, body, now);
    if r.Ok? && (channel, event) !in db.receipts {
      var o := PendingOrder(body.sale, db.plans[body.sale.plan].terms, None, 0, Some(channel), event);
      var placed := db.(orders := db.orders[body.oid := o]);
      var issued := IssueOrder(placed, body.oid, body.tags, now);
      IssueGrows(placed, body.oid, body.tags, now);
      PlacedGrows(db, body.oid, o, issued.value, now);
      SideGrows(db, issued.value, r.value, now);
    }
  }

  lemma SaleGrows(db: Db, s: Step, now: Time)
    requires Tables(db) && Selling(s)
    ensures Grown(db, Next(db, s, now), now)
  {
    match s
    case DoCreateSale(oid, sale, custom, confirmed, tags) =>
      if |tags| == sale.quantity { CreateSaleGrows(db, oid, sale, custom, confirmed, tags, now); }
    case DoConfirmSale(oid, tags) =>
      if oid in db.orders && |tags| == db.orders[oid].quantity && db.orders[oid].status == Pending {
        assert OrderOk(db, oid);
        IssueGrows(db, oid, tags, now);
      }
    case DoAgentSale(agent, active, request, fp, sale, grant, expected, oid, tags) =>
      AgentSaleGrows(db, agent, active, request, fp, sale, grant, expected, oid, tags, now);
    case DoReceiveSale(channel, event, bodyHash, proof, body) =>
      PaymentGrows(db, channel, event, bodyHash, proof, body, now);
  }

  predicate Selling(s: Step) {
    s.DoCreateSale? || s.DoConfirmSale? || s.DoAgentSale? || (s.DoReceiveSale? && s.body.PaymentConfirmed?)
  }

  lemma SaleHappens(db: Db, s: Step, now: Time, lid: Id)
    requires Selling(s) && lid in Next(db, s, now).licenses
    ensures Happened(db, s, now, lid)
      == if lid !in db.licenses && Next(db, s, now).licenses[lid].dates.activatedAt.Some? then [Started(now)] else []
  {}

  lemma SaleContinues(t: Traced, s: Step, now: Time, lid: Id)
    requires Traceable(t) && t.clock <= now && lid in Next(t.db, s, now).licenses && Selling(s)
    ensures Continues(t, s, now, lid)
  {
    SaleGrows(t.db, s, now);
    SaleHappens(t.db, s, now, lid);
    var after := Next(t.db, s, now);
    if lid in t.db.licenses {
      GrownOldQuiet(t.db, after, now, lid);
      QuietContinues(t, s, now, lid);
    } else {
      GrownNewLives(t.db, after, now, lid);
      assert [] + Happened(t.db, s, now, lid) == Happened(t.db, s, now, lid);
    }
  }

  // ---------- activation ----------

  /** `after` has license `lid` started and no redemption changed. */
  ghost predicate StartedAt(db: Db, after: Db, lid: Id, now: Time) {
    && lid in db.licenses
       && after.licenses == db.licenses[lid := db.licenses[lid].(dates := Start(db.licenses[lid].dates, now))]
    && !db.licenses[lid].renewalOnly
    && after.cards.Keys == db.cards.Keys
    && forall c :: c in db.cards ==>
         && (db.cards[c].redeemed.Some? ==> after.cards[c] == db.cards[c])
         && after.cards[c].redeemed == db.cards[c].redeemed && after.cards[c].refundedAt == db.cards[c].refundedAt
  }

  lemma StartedCredits(db: Db, after: Db, lid: Id, now: Time, x: Id)
    requires Tables(db) && StartedAt(db, after, lid, now)
    ensures SameCredits(db, after, x)
  {
    forall c | c in db.cards && db.cards[c].redeemed == Some(x)
      ensures DaysOf(after.licenses, after.cards[c]) == DaysOf(db.licenses, db.cards[c])
    {
      assert CardOk(db, c);
    }
  }

  lemma StartedLicenseLives(t: Traced, after: Db, lid: Id, now: Time)
    requires Traceable(t) && t.clock <= now && StartedAt(t.db, after, lid, now)
    ensures lid in after.licenses && Lived(after, t.history[lid] + [Started(now)], now, lid)
  {
    StartedCredits(t.db, after, lid, now, lid);
    assert Lived(t.db, t.history[lid], t.clock, lid);
    StartKeepsBirth(t.db.licenses[lid].dates, now);
    assert Gone(after.cards) == Gone(t.db.cards);
    AppendedLives(t.db, after, lid, t.history[lid], t.clock, Started(now), now);
  }

  /** The license an activation starts: the one named, or the one the card is bound to. */
  function Activated(db: Db, s: Step): Id
    requires s.DoActivate? || s.DoActivateWithCard?
  {
    if s.DoActivate? then s.lid
    else
      var c := FindByHash(db.cardRows, db.cards, s.hash);
      if c.Some? then db.cards[c.value].bound else ""
  }

  lemma ActivationStarts(db: Db, s: Step, now: Time)
    requires Tables(db) && (s.DoActivate? || s.DoActivateWithCard?) && Transact(db, s, now).Ok?
    ensures StartedAt(db, Next(db, s, now), Activated(db, s), now)
  {
    if s.DoActivateWithCard? { assert CardOk(db, FindByHash(db.cardRows, db.cards, s.hash).value); }
  }

  lemma ActivationHappens(db: Db, s: Step, now: Time, x: Id)
    requires Tables(db) && x in db.licenses && (s.DoActivate? || s.DoActivateWithCard?) && Transact(db, s, now).Ok?
    ensures Happened(db, s, now, x) == if x == Activated(db, s) then [Started(now)] else []
  {}

  lemma ActivateContinues(t: Traced, s: Step, now: Time, x: Id)
    requires Traceable(t) && t.clock <= now && x in t.db.licenses && (s.DoActivate? || s.DoActivateWithCard?)
    ensures x in Next(t.db, s, now).licenses && Continues(t, s, now, x)
  {
    if Transact(t.db, s, now).Err? {
      NothingQuiet(t.db, x);
      QuietContinues(t, s, now, x);
    } else {
      ActivationStarts(t.db, s, now);
      StartContinues(t, s, now, x);
    }
  }

  lemma StartContinues(t: Traced, s: Step, now: Time, x: Id)
    requires Traceable(t) && t.clock <= now && x in t.db.licenses && (s.DoActivate? || s.DoActivateWithCard?)
    requires Transact(t.db, s, now).Ok? && StartedAt(t.db, Next(t.db, s, now), Activated(t.db, s), now)
    ensures x in Next(t.db, s, now).licenses && Continues(t, s, now, x)
  {
    ActivationHappens(t.db, s, now, x);
    var after := Next(t.db, s, now);
    if x == Activated(t.db, s) {
      StartedLicenseLives(t, after, x, now);
    } else {
      StartedCredits(t.db, after, Activated(t.db, s), now, x);
      SameCreditsQuiet(t.db, after, x);
      QuietContinues(t, s, now, x);
    }
  }

  // ---------- redemption ----------

  lemma RedeemedCredits(db: Db, lid: Id, cid: Id, now: Time, x: Id)
    requires Tables(db) && lid in db.licenses && cid in db.cards && db.cards[cid].bound in db.licenses
    requires !db.licenses[lid].renewalOnly && db.cards[cid].status == Unused && x != lid
    ensures SameCredits(db, Redemption(db, lid, cid, now), x)
  {
    var after := Redemption(db, lid, cid, now);
    assert CardOk(db, cid);
    forall c | c in db.cards && db.cards[c].redeemed == Some(x)
      ensures after.cards[c] == db.cards[c]
        && DaysOf(after.licenses, after.cards[c]) == DaysOf(db.licenses, db.cards[c])
    {
      assert CardOk(db, c);
    }
  }

  lemma RedeemedIsOneMore(db: Db, lid: Id, cid: Id, now: Time, k: Credit)
    requires Tables(db) && lid in db.licenses && cid in db.cards && db.cards[cid].bound in db.licenses
    requires !db.licenses[lid].renewalOnly && db.cards[cid].status == Unused && db.cards[cid].purpose != Activate
    ensures var credit := Credit(cid, now, db.cards[cid].purpose, DaysOf(db.licenses, db.cards[cid]));
      InHistory(Redemption(db, lid, cid, now), lid, k) <==> InHistory(db, lid, k) || k == credit
  {
    var after := Redemption(db, lid, cid, now);
    assert CardOk(db, cid);
    if k.card in db.cards {
      assert CardOk(db, k.card);
      assert db.cards[k.card].redeemed == Some(lid) ==>
        DaysOf(after.licenses, after.cards[k.card]) == DaysOf(db.licenses, db.cards[k.card]);
      if k.card == cid {
        assert DaysOf(after.licenses, after.cards[cid]) == DaysOf(db.licenses, db.cards[cid]);
      }
    }
  }

  /** What a first redemption of card `cid` on license `lid` requires. */
  ghost predicate Redeemable(db: Db, lid: Id, cid: Id, now: Time) {
    && lid in db.licenses && cid in db.cards && db.cards[cid].status == Unused && db.cards[cid].purpose != Activate
    && db.cards[cid].bound in db.licenses && !db.licenses[lid].renewalOnly
    && RenewalRefusal(db.licenses[lid], lid, db.cards[cid], db.licenses[db.cards[cid].bound], now).None?
  }

  lemma RenewedLives(t: Traced, lid: Id, cid: Id, now: Time)
    requires Traceable(t) && t.clock <= now && Redeemable(t.db, lid, cid, now)
    ensures var credit := Credit(cid, now, t.db.cards[cid].purpose, DaysOf(t.db.licenses, t.db.cards[cid]));
      var after := Redemption(t.db, lid, cid, now);
      lid in after.licenses && Lived(after, t.history[lid] + [Redeemed(credit)], now, lid)
  {
    var db, after := t.db, Redemption(t.db, lid, cid, now);
    var credit := Credit(cid, now, db.cards[cid].purpose, DaysOf(db.licenses, db.cards[cid]));
    assert CardOk(db, cid);
    assert Lived(db, t.history[lid], t.clock, lid);
    RedeemKeepsBirth(db.licenses[lid].dates, credit);
    forall k ensures InHistory(after, lid, k) <==> InHistory(db, lid, k) || k == credit {
      RedeemedIsOneMore(db, lid, cid, now, k);
    }
    assert Gone(after.cards) == Gone(db.cards);
    AppendedLives(db, after, lid, t.history[lid], t.clock, Redeemed(credit), now);
  }

  lemma RenewalQuiet(db: Db, lid: Id, cid: Id, now: Time, x: Id)
    requires Tables(db) && Redeemable(db, lid, cid, now) && x in db.licenses && x != lid
    ensures Quiet(db, Redemption(db, lid, cid, now), x)
  {
    RedeemedCredits(db, lid, cid, now, x);
    SameCreditsQuiet(db, Redemption(db, lid, cid, now), x);
  }

  /** The card a successful renewal found, and what the renewal did with it. */
  lemma RenewalDoes(db: Db, lid: Id, hash: string, now: Time)
    requires RedeemRenewal(db, lid, hash, now).Ok?
    ensures FindByHash(db.cardRows, db.cards, hash).Some?
    ensures var cid := FindByHash(db.cardRows, db.cards, hash).value;
      if db.cards[cid].status == Unused
      then Redeemable(db, lid, cid, now) && RedeemRenewal(db, lid, hash, now).value == Redemption(db, lid, cid, now)
      else SpentOn(db.cards[cid], lid) && RedeemRenewal(db, lid, hash, now).value == db
  {}

  lemma RedemptionContinues(t: Traced, s: Step, now: Time, x: Id, cid: Id)
    requires Traceable(t) && t.clock <= now && x in t.db.licenses && s.DoRedeem?
    requires Transact(t.db, s, now).Ok? && FindByHash(t.db.cardRows, t.db.cards, s.hash) == Some(cid)
    requires Redeemable(t.db, s.lid, cid, now) && Next(t.db, s, now) == Redemption(t.db, s.lid, cid, now)
    ensures x in Next(t.db, s, now).licenses && Continues(t, s, now, x)
  {
    if x == s.lid {
      RenewedLives(t, x, cid, now);
    } else {
      RenewalQuiet(t.db, s.lid, cid, now, x);
      QuietContinues(t, s, now, x);
    }
  }

  lemma RedeemContinues(t: Traced, s: Step, now: Time, x: Id)
    requires Traceable(t) && t.clock <= now && x in t.db.licenses && s.DoRedeem?
    ensures x in Next(t.db, s, now).licenses && Continues(t, s, now, x)
  {
    if RedeemRenewal(t.db, s.lid, s.hash, now).Err? {
      NothingQuiet(t.db, x);
      QuietContinues(t, s, now, x);
    } else {
      RenewalDoes(t.db, s.lid, s.hash, now);
      var cid := FindByHash(t.db.cardRows, t.db.cards, s.hash).value;
      if t.db.cards[cid].status == Unused {
        RedemptionContinues(t, s, now, x, cid);
      } else {
        NothingQuiet(t.db, x);
        QuietContinues(t, s, now, x);
      }
    }
  }

  // ---------- refund ----------

  /** Credits of a license before and after a refund are the same cards; only some are refunded. */
  lemma RefundedCredits(db: Db, after: Db, oid: Id, now: Time, x: Id, k: Credit)
    requires Tables(db) && RefundedTo(db, after, oid, now)
    ensures InHistory(db, x, k) <==> InHistory(after, x, k)
  {
    if k.card in db.cards {
      assert CardOk(db, k.card);
      RefundedCardIs(db, after, oid, now, k.card);
      RefundedLicense(db, after, oid, now, db.cards[k.card].bound);
    }
  }

  lemma UnaffectedQuiet(db: Db, after: Db, oid: Id, now: Time, x: Id)
    requires Tables(db) && RefundedTo(db, after, oid, now) && x in db.licenses
    requires !Affected(after.cards, db.orders[oid].licenses, x)
    ensures Quiet(db, after, x)
  {
    RefundedLicense(db, after, oid, now, x);
    forall k ensures InHistory(db, x, k) <==> InHistory(after, x, k) { RefundedCredits(db, after, oid, now, x, k); }
    forall c | c in db.cards && db.cards[c].redeemed == Some(x)
      ensures c in after.cards && (after.cards[c].refundedAt.Some? <==> db.cards[c].refundedAt.Some?)
    {
      RefundedCardIs(db, after, oid, now, c);
      OrderOwns(db, oid, db.cards[c].bound);
      assert after.cards[c].bound == db.cards[c].bound && after.cards[c].redeemed == db.cards[c].redeemed;
    }
  }

  /** The rebuilt dates of a lived license, over any complete list of its unrefunded credits. */
  lemma RebuiltIsLive(d: Dates, h: seq<Event>, gone: set<Id>, gone': set<Id>, cs: seq<Credit>)
    requires Born(Birth(d)) && Chronological(h) && Fits(Birth(d), h) && CardsDistinct(Credits(h))
    requires SameDates(d, Live(Birth(d), Erase(h, gone)))
    requires ByUse(cs) && Distinct(cs) && NonNegative(cs)
    requires forall k :: k in cs <==> k in Credits(h) && k.card !in gone'
    ensures SameDates(Rebuild(d, cs), Live(Birth(d), Erase(h, gone')))
  {
    var b := Birth(d);
    var e := Live(b, Erase(h, gone'));
    EraseFacts(b, h, gone');
    EraseKeepsBase(b, h, gone);
    EraseKeepsBase(b, h, gone');
    assert ResetToBase(d) == ResetToBase(Live(b, Erase(h, gone)));
    assert ResetToBase(d) == ResetToBase(e);
    var kept := Credits(Erase(h, gone'));
    WithoutMembers(Credits(h), gone');
    SameMembers(cs, kept);
    CreditsInOrder(Erase(h, gone'));
    UseOrderIrrelevant(ResetToBase(d), cs, kept);
    LiveAgreesWithRebuild(b, Erase(h, gone'));
    ApplyAllKeeps(ResetToBase(e), kept);
  }

  lemma {:induction false} WithoutMembers(cs: seq<Credit>, gone: set<Id>)
    requires CardsDistinct(cs)
    ensures forall k :: k in Without(cs, gone) <==> k in cs && k.card !in gone
    ensures Distinct(Without(cs, gone))
  {
    if cs != [] {
      var init, c := cs[..|cs| - 1], cs[|cs| - 1];
      WithoutMembers(init, gone);
      assert cs == init + [c];
      forall i | 0 <= i < |init| ensures init[i] != c {
        assert cs[i].card != cs[|cs| - 1].card;
      }
    }
  }

  lemma AffectedLives(t: Traced, after: Db, oid: Id, now: Time, x: Id)
    requires Traceable(t) && t.clock <= now && RefundedTo(t.db, after, oid, now) && Tables(after) && x in t.db.licenses
    requires Affected(after.cards, t.db.orders[oid].licenses, x)
    ensures x in after.licenses && Lived(after, t.history[x], now, x)
  {
    var db, h := t.db, t.history[x];
    assert Lived(db, h, t.clock, x) && LicenseOk(db, x);
    RefundedLicense(db, after, oid, now, x);
    var licenses := RevokedLicenses(db.licenses, db.orders[oid].licenses);
    var d := db.licenses[x].dates;
    var mid := after.(licenses := licenses);
    forall k ensures InHistory(db, x, k) <==> InHistory(after, x, k) { RefundedCredits(db, after, oid, now, x, k); }
    MidCredits(db, after, oid, now, x);
    var cs := CreditsOf(licenses, after.cards, SortByUse(RedeemedRows(db.cardRows, after.cards, x), after.cards));
    forall k ensures k in cs <==> k in Credits(h) && k.card !in Gone(after.cards) {
      assert k in cs <==> InHistory(after, x, k) && k.card !in Gone(after.cards);
    }
    RebuiltIsLive(d, h, Gone(db.cards), Gone(after.cards), cs);
    assert after.licenses[x].dates == Rebuild(d, cs);
  }

  /** The credits the reconciliation of `x` reads, seen from the final tables. */
  lemma MidCredits(db: Db, after: Db, oid: Id, now: Time, x: Id)
    requires Tables(db) && RefundedTo(db, after, oid, now) && Tables(after)
    ensures var licenses := RevokedLicenses(db.licenses, db.orders[oid].licenses);
      var cs := CreditsOf(licenses, after.cards, SortByUse(RedeemedRows(db.cardRows, after.cards, x), after.cards));
      && ByUse(cs) && Distinct(cs) && NonNegative(cs)
      && forall k :: k in cs <==> InHistory(after, x, k) && k.card !in Gone(after.cards)
  {
    var licenses := RevokedLicenses(db.licenses, db.orders[oid].licenses);
    var rows := RedeemedRows(db.cardRows, after.cards, x);
    forall c | c in rows
      ensures c in after.cards && after.cards[c].usedAt.Some?
        && DaysOf(licenses, after.cards[c]) == DaysOf(after.licenses, after.cards[c])
    {
      assert CardOk(after, c);
      assert CardOk(db, c);
      RefundedLicense(db, after, oid, now, after.cards[c].bound);
    }
    SameCreditLists(licenses, after.licenses, after.cards, SortByUse(rows, after.cards), rows);
    RecomputeCredits(after, x);
  }

  lemma SameCreditLists(a: map<Id, License>, b: map<Id, License>, cards: map<Id, Card>, ids: seq<Id>, rows: seq<Id>)
    requires forall x :: x in rows ==> x in cards && DaysOf(a, cards[x]) == DaysOf(b, cards[x])
    requires multiset(ids) == multiset(rows)
    ensures forall x :: x in ids ==> x in cards
    ensures CreditsOf(a, cards, ids) == CreditsOf(b, cards, ids)
  {
    forall x | x in ids ensures x in rows { assert x in multiset(ids); }
    SameCreditsByMember(a, b, cards, ids);
  }

  lemma {:induction false} SameCreditsByMember(a: map<Id, License>, b: map<Id, License>, cards: map<Id, Card>,
                                               ids: seq<Id>)
    requires forall x :: x in ids ==> x in cards && DaysOf(a, cards[x]) == DaysOf(b, cards[x])
    ensures CreditsOf(a, cards, ids) == CreditsOf(b, cards, ids)
  {
    if ids != [] {
      assert ids[|ids| - 1] in ids;
      SameCreditsByMember(a, b, cards, ids[..|ids| - 1]);
    }
  }

  lemma RefundContinues(t: Traced, after: Db, oid: Id, now: Time, x: Id)
    requires Traceable(t) && t.clock <= now && RefundedTo(t.db, after, oid, now) && Tables(after) && x in t.db.licenses
    ensures x in after.licenses && Lived(after, t.history[x], now, x)
  {
    if Affected(after.cards, t.db.orders[oid].licenses, x) {
      AffectedLives(t, after, oid, now, x);
    } else {
      assert Lived(t.db, t.history[x], t.clock, x);
      UnaffectedQuiet(t.db, after, oid, now, x);
      QuietLives(t.db, after, x, t.history[x], t.clock, now);
    }
  }

  lemma RefundStepContinues(t: Traced, s: Step, now: Time, x: Id)
    requires Traceable(t) && t.clock <= now && x in t.db.licenses
    requires s.DoRefund? || (s.DoReceiveSale? && s.body.PaymentRefunded?)
    ensures x in Next(t.db, s, now).licenses && Continues(t, s, now, x)
  {
    var db, after := t.db, Next(t.db, s, now);
    NextKeepsTables(db, s, now);
    assert t.history[x] + Happened(db, s, now, x) == t.history[x];
    if Transact(db, s, now).Err? {
      NothingQuiet(db, x);
      QuietContinues(t, s, now, x);
    } else {
      var replay := s.DoReceiveSale? && (s.channel, s.event) in db.receipts;
      var oid := if s.DoRefund? then s.oid else if replay then ""
        else Only(ChannelOrders(db, s.channel, s.body.original));
      if replay || db.orders[oid].status == Refunded {
        SideChangesStatus(db, after);
        StatusQuiet(db, after, x);
        QuietContinues(t, s, now, x);
      } else {
        RefundOrderRefunds(db, oid, now);
        RefundContinues(t, after, oid, now, x);
      }
    }
  }

  lemma RefundAddsNoLicense(db: Db, oid: Id, now: Time)
    requires oid in db.orders
    ensures Commit(db, RefundOrder(db, oid, now)).licenses.Keys == db.licenses.Keys
  {
    if RefundOrder(db, oid, now).Ok? && db.orders[oid].status == Confirmed {
      RefundOrderRefunds(db, oid, now);
    }
  }

  lemma RedeemAddsNoLicense(db: Db, lid: Id, hash: string, now: Time)
    ensures Commit(db, RedeemRenewal(db, lid, hash, now)).licenses.Keys == db.licenses.Keys
  {}

  lemma ActivateAddsNoLicense(db: Db, s: Step, now: Time)
    requires s.DoActivate? || s.DoActivateWithCard?
    ensures Next(db, s, now).licenses.Keys == db.licenses.Keys
  {}

  lemma OnlySalesAddLicenses(db: Db, s: Step, now: Time)
    requires Tables(db) && !Selling(s)
    ensures Next(db, s, now).licenses.Keys == db.licenses.Keys
  {
    if Plain(s) {
      PlainChangesStatus(db, s, now);
    } else if s.DoRedeem? {
      RedeemAddsNoLicense(db, s.lid, s.hash, now);
    } else if s.DoRefund? {
      if s.oid in db.orders { RefundAddsNoLicense(db, s.oid, now); }
    } else if s.DoReceiveSale? {
      if Transact(db, s, now).Ok? && (s.channel, s.event) !in db.receipts {
        RefundAddsNoLicense(db, Only(ChannelOrders(db, s.channel, s.body.original)), now);
      }
    } else {
      ActivateAddsNoLicense(db, s, now);
    }
  }

  lemma StepContinues(t: Traced, s: Step, now: Time, x: Id)
    requires Traceable(t) && t.clock <= now && x in Next(t.db, s, now).licenses
    ensures Continues(t, s, now, x)
  {
    if Selling(s) {
      SaleContinues(t, s, now, x);
    } else {
      OnlySalesAddLicenses(t.db, s, now);
      if Plain(s) {
        PlainContinues(t, s, now, x);
      } else if s.DoRedeem? {
        RedeemContinues(t, s, now, x);
      } else if s.DoRefund? || s.DoReceiveSale? {
        RefundStepContinues(t, s, now, x);
      } else {
        ActivateContinues(t, s, now, x);
      }
    }
  }

  lemma PlainHappens(db: Db, s: Step, now: Time, x: Id)
    requires Plain(s) && x in db.licenses
    ensures Happened(db, s, now, x) == []
  {}

  lemma PlainContinues(t: Traced, s: Step, now: Time, x: Id)
    requires Traceable(t) && t.clock <= now && x in t.db.licenses && Plain(s)
    ensures x in Next(t.db, s, now).licenses && Continues(t, s, now, x)
  {
    PlainHappens(t.db, s, now, x);
    PlainChangesStatus(t.db, s, now);
    StatusQuiet(t.db, Next(t.db, s, now), x);
    QuietContinues(t, s, now, x);
  }

  lemma AdvancedLives(t: Traced, s: Step, now: Time, l: Id)
    requires Traceable(t) && t.clock <= now && l in Next(t.db, s, now).licenses
    ensures var u := Advance(t, s, now);
      l in u.db.licenses && l in u.history && Lived(u.db, u.history[l], u.clock, l)
  {
    StepContinues(t, s, now, l);
  }

  lemma AdvanceKeeps(t: Traced, s: Step, now: Time)
    requires Traceable(t) && t.clock <= now
    ensures Traceable(Advance(t, s, now))
  {
    NextKeepsTables(t.db, s, now);
    forall l | l in Next(t.db, s, now).licenses
      ensures var u := Advance(t, s, now); l in u.history && Lived(u.db, u.history[l], u.clock, l)
    {
      AdvancedLives(t, s, now, l);
    }
  }

  // ---------- runs ----------

  function Start0(app: App, opening: map<Id, int>): Db {
    Db(app, map[], map[], map[], [], map[], map[], Books(opening, [], map[]))
  }

  ghost function Run(app: App, opening: map<Id, int>, steps: seq<(Step, Time)>): Traced {
    if steps == [] then Traced(Start0(app, opening), map[], 0)
    else
      var t := Run(app, opening, steps[..|steps| - 1]);
      Advance(t, steps[|steps| - 1].0, steps[|steps| - 1].1)
  }

  ghost predicate ClockForward(steps: seq<(Step, Time)>) {
    && (forall i :: 0 <= i < |steps| ==> 0 <= steps[i].1)
    && (forall i, j :: 0 <= i < j < |steps| ==> steps[i].1 <= steps[j].1)
  }

  lemma {:induction false} RunClock(app: App, opening: map<Id, int>, steps: seq<(Step, Time)>)
    ensures Run(app, opening, steps).clock == if steps == [] then 0 else steps[|steps| - 1].1
  {}

  lemma {:induction false} RunTraceable(app: App, opening: map<Id, int>, steps: seq<(Step, Time)>)
    requires ClockForward(steps)
    ensures Traceable(Run(app, opening, steps))
  {
    if steps != [] {
      var init := steps[..|steps| - 1];
      RunTraceable(app, opening, init);
      RunClock(app, opening, init);
      if init != [] { assert init[|init| - 1].1 <= steps[|steps| - 1].1; }
      AdvanceKeeps(Run(app, opening, init), steps[|steps| - 1].0, steps[|steps| - 1].1);
    }
  }

  /** Main result on renewals: in every run, the stored dates of every license are exactly what the
      rebuild from base terms and unrefunded credits gives, whatever order the sort leaves
      same-instant credits in. */
  lemma StoredDatesAreRecomputed(app: App, opening: map<Id, int>, steps: seq<(Step, Time)>, lid: Id, ids: seq<Id>)
    requires ClockForward(steps)
    requires var db := Run(app, opening, steps).db;
      lid in db.licenses && multiset(ids) == multiset(RedeemedRows(db.cardRows, db.cards, lid))
        && UseSorted(db.cards, ids)
    ensures var db := Run(app, opening, steps).db;
      var rebuilt := Rebuild(db.licenses[lid].dates, CreditsOf(db.licenses, db.cards, ids));
      && db.licenses[lid].dates.expiresAt == rebuilt.expiresAt
      && db.licenses[lid].dates.updatesUntil == rebuilt.updatesUntil
      && (db.licenses[lid].dates.activatedAt.None? ==> db.licenses[lid].dates == rebuilt)
  {
    RunTraceable(app, opening, steps);
    var t := Run(app, opening, steps);
    assert LicenseOk(t.db, lid);
    assert Lived(t.db, t.history[lid], t.clock, lid);
    TablesRebuildable(t.db, lid);
    RecomputeAnyOrder(t.db.licenses, t.db.cards, t.db.cardRows, lid, ids);
    LivedIsRecomputed(t.db, t.history[lid], t.clock, lid);
  }

  lemma LivedIsRecomputed(db: Db, h: seq<Event>, clock: Time, lid: Id)
    requires Tables(db) && lid in db.licenses && Lived(db, h, clock, lid)
    ensures SameDates(Recomputed(db.licenses, db.cards, db.cardRows, lid), db.licenses[lid].dates)
    ensures var r := Recomputed(db.licenses, db.cards, db.cardRows, lid);
      db.licenses[lid].dates.activatedAt.None? ==> r == db.licenses[lid].dates
  {
    var d := db.licenses[lid].dates;
    assert LicenseOk(db, lid);
    RecomputeCredits(db, lid);
    var cs := CreditsOf(db.licenses, db.cards, SortByUse(RedeemedRows(db.cardRows, db.cards, lid), db.cards));
    forall k ensures k in cs <==> k in Credits(h) && k.card !in Gone(db.cards) {
      assert k in cs <==> InHistory(db, lid, k) && k.card !in Gone(db.cards);
    }
    RebuiltIsLive(d, h, Gone(db.cards), Gone(db.cards), cs);
  }

  /** Main result on refunds: in every run, the stored dates are those of the life of the license in
      which the refunded redemptions never happened. */
  lemma StoredDatesEraseRefunds(app: App, opening: map<Id, int>, steps: seq<(Step, Time)>, lid: Id)
    requires ClockForward(steps) && lid in Run(app, opening, steps).db.licenses
    ensures var t := Run(app, opening, steps);
      && lid in t.history
      && var d := t.db.licenses[lid].dates;
      var erased := Live(Birth(d), Erase(t.history[lid], Gone(t.db.cards)));
      && d.activatedAt == erased.activatedAt && d.expiresAt == erased.expiresAt && d.updatesUntil == erased.updatesUntil
      && CardsDistinct(Credits(t.history[lid]))
  {
    RunTraceable(app, opening, steps);
    var t := Run(app, opening, steps);
    assert Lived(t.db, t.history[lid], t.clock, lid);
  }
}
