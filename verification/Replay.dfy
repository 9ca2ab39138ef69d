/** Replay protection of signed installation requests: a timestamp window, a table of used nonces, and
    the deletion of expired nonces. The timestamp is checked before the nonce is reserved, on its own
    clock reading. */
module Replay {
  import opened Basics

  /** One delivery of a request: who signed what, and the clock readings at the timestamp check, at the
      nonce transaction and when the nonce's expiry is computed. `genuine` stands for a valid signature. */
  datatype Delivery = Delivery(
    credential: string, nonce: string, timestamp: int, genuine: bool, checkedAt: Time, reservedAt: Time,
      stampedAt: Time)

  datatype Row = Row(credential: string, nonce: string, expires: Time)

  function Window(): Time { Seconds(120) }

  function Lifetime(): Time { Seconds(300) }

  /** At most this many expired rows are deleted by one request. */
  const PURGE_LIMIT := 100

  predicate InWindow(d: Delivery) {
    d.timestamp > 0 && d.checkedAt - Seconds(d.timestamp) <= Window() && Seconds(d.timestamp) - d.checkedAt <= Window()
  }

  predicate SegmentChar(c: char) {
    ('A' <= c <= 'Z') || ('a' <= c <= 'z') || ('0' <= c <= '9') || c == '_' || c == '-'
  }

  predicate WellFormed(nonce: string) {
    22 <= |nonce| <= 86 && forall i :: 0 <= i < |nonce| ==> SegmentChar(nonce[i])
  }

  predicate Used(rows: seq<Row>, credential: string, nonce: string) {
    exists i :: 0 <= i < |rows| && rows[i].credential == credential && rows[i].nonce == nonce
  }

  /** The rows without the first `budget` expired ones. */
  function Purge(rows: seq<Row>, now: Time, budget: nat): seq<Row> {
    if rows == [] || budget == 0 then rows
    else if rows[0].expires < now then Purge(rows[1..], now, budget - 1)
    else [rows[0]] + Purge(rows[1..], now, budget)
  }

  predicate Accepted(rows: seq<Row>, d: Delivery) {
    InWindow(d) && WellFormed(d.nonce) && d.genuine && !Used(rows, d.credential, d.nonce)
  }

  function Receive(rows: seq<Row>, d: Delivery): seq<Row> {
    if Accepted(rows, d)
      then [Row(d.credential, d.nonce, d.stampedAt + Lifetime())] + Purge(rows, d.reservedAt, PURGE_LIMIT)
    else rows
  }

  function Table(run: seq<Delivery>): seq<Row> {
    if run == [] then [] else Receive(Table(run[..|run| - 1]), run[|run| - 1])
  }

  /** Delivery `i` of a run got through. */
  predicate Passed(run: seq<Delivery>, i: nat)
    requires i < |run|
  {
    Accepted(Table(run[..i]), run[i])
  }

  /** The clock never runs backwards, and no request waits longer than `delay` for its transaction. */
  ghost predicate Timed(run: seq<Delivery>, delay: Time) {
    && (forall i :: 0 <= i < |run| ==>
          run[i].checkedAt <= run[i].reservedAt <= run[i].stampedAt && run[i].reservedAt - run[i].checkedAt <= delay)
    && (forall i, j :: 0 <= i < j < |run| ==> run[i].stampedAt <= run[j].reservedAt)
  }

  predicate SameRequest(a: Delivery, b: Delivery) {
    a.credential == b.credential && a.nonce == b.nonce && a.timestamp == b.timestamp
  }

  ghost predicate NoReplay(run: seq<Delivery>) {
    forall i, j :: 0 <= i < j < |run| && Passed(run, i) && Passed(run, j) ==> !SameRequest(run[i], run[j])
  }

  ghost predicate Safe(delay: Time) { forall run :: Timed(run, delay) ==> NoReplay(run) }

  // ---------- what the gate decides ----------

  /** A request gets through iff it is signed, its timestamp is positive and at most two minutes from the clock, its
      nonce has 22 to 86 letters, digits, dashes and underscores, and no row has it for this credential. */
  lemma AcceptedIff(rows: seq<Row>, d: Delivery)
    ensures Accepted(rows, d) <==>
      && d.genuine && d.timestamp > 0
      && -120_000_000_000 <= d.checkedAt - d.timestamp * 1_000_000_000 <= 120_000_000_000
      && 22 <= |d.nonce| <= 86 && (forall c :: c in d.nonce ==> Base64Url(c))
      && forall r :: r in rows ==> r.credential != d.credential || r.nonce != d.nonce
  {
    forall i | 0 <= i < |d.nonce| ensures d.nonce[i] in d.nonce {}
    forall c ensures SegmentChar(c) <==> Base64Url(c) { SegmentCharIff(c); }
  }

  predicate Base64Url(c: char) {
    c in "ABCDEFGHIJKLMNOPQRSTUVWXYZ" || c in "abcdefghijklmnopqrstuvwxyz" || c in "0123456789" || c in "-_"
  }

  lemma Alphabet(letters: string, c: char)
    requires forall i :: 0 <= i < |letters| ==> letters[i] as int == letters[0] as int + i
    ensures letters != "" ==>
      (c in letters <==> letters[0] as int <= c as int < letters[0] as int + |letters|)
  {
    if letters != "" && letters[0] as int <= c as int < letters[0] as int + |letters| {
      assert letters[c as int - letters[0] as int] == c;
    }
  }

  lemma SegmentCharIff(c: char)
    ensures SegmentChar(c) <==> Base64Url(c)
  {
    Alphabet("ABCDEFGHIJKLMNOPQRSTUVWXYZ", c);
    Alphabet("abcdefghijklmnopqrstuvwxyz", c);
    Alphabet("0123456789", c);
  }

  /** The rows that have not expired, and how many have. */
  function Live(rows: seq<Row>, now: Time): seq<Row> {
    if rows == [] then [] else (if rows[0].expires < now then [] else [rows[0]]) + Live(rows[1..], now)
  }

  /** A purge leaves every live row in place and deletes expired ones, all of them or as many as the budget allows. */
  lemma {:induction false} PurgeIs(rows: seq<Row>, now: Time, budget: nat)
    ensures var (left, live) := (Purge(rows, now, budget), Live(rows, now));
      && Live(left, now) == live && |live| <= |rows|
      && |left| == |rows| - Min(budget, |rows| - |live|)
  {
    if rows != [] && budget > 0 {
      PurgeIs(rows[1..], now, if rows[0].expires < now then budget - 1 else budget);
      if rows[0].expires >= now {
        var rest := Purge(rows[1..], now, budget);
        assert ([rows[0]] + rest)[1..] == rest;
      }
    } else {
      LiveCount(rows, now);
    }
  }

  lemma {:induction false} LiveCount(rows: seq<Row>, now: Time)
    ensures |Live(rows, now)| <= |rows|
  {
    if rows != [] { LiveCount(rows[1..], now); }
  }

  /** An accepted request leaves its nonce for five minutes from its stamp in front of the rows, of which at most a
      hundred expired ones are deleted; a refused one leaves the rows alone. */
  lemma ReceiveGives(rows: seq<Row>, d: Delivery)
    ensures !Accepted(rows, d) ==> Receive(rows, d) == rows
    ensures Accepted(rows, d) ==>
      var (after, live) := (Receive(rows, d), Live(rows, d.reservedAt));
      && |after| == 1 + |rows| - Min(100, |rows| - |live|)
      && after[0] == Row(d.credential, d.nonce, d.stampedAt + 300_000_000_000)
      && Live(after[1..], d.reservedAt) == live
  {
    if Accepted(rows, d) {
      PurgeIs(rows, d.reservedAt, 100);
      InFront(Row(d.credential, d.nonce, d.stampedAt + 300_000_000_000), Purge(rows, d.reservedAt, 100));
    }
  }

  lemma InFront(r: Row, rows: seq<Row>)
    ensures ([r] + rows)[0] == r && ([r] + rows)[1..] == rows && |[r] + rows| == 1 + |rows|
  {}

  // ---------- nonces outlive the window ----------

  ghost predicate Remembered(rows: seq<Row>, d: Delivery) {
    exists k :: 0 <= k < |rows| && rows[k].credential == d.credential && rows[k].nonce == d.nonce
      && rows[k].expires >= d.stampedAt + Lifetime()
  }

  /** Only rows that expired before the purge are gone after it. */
  lemma {:induction false} PurgeKeepsLive(rows: seq<Row>, now: Time, budget: nat, d: Delivery)
    requires Remembered(rows, d) && now <= d.stampedAt + Lifetime()
    ensures Remembered(Purge(rows, now, budget), d)
  {
    if rows != [] && budget > 0 {
      var k :| 0 <= k < |rows| && rows[k].credential == d.credential && rows[k].nonce == d.nonce
        && rows[k].expires >= d.stampedAt + Lifetime();
      if k > 0 {
        assert rows[1..][k - 1] == rows[k];
        var left := if rows[0].expires < now then budget - 1 else budget;
        PurgeKeepsLive(rows[1..], now, left, d);
        var rest := Purge(rows[1..], now, left);
        var m :| 0 <= m < |rest| && rest[m].credential == d.credential && rest[m].nonce == d.nonce
          && rest[m].expires >= d.stampedAt + Lifetime();
        if rows[0].expires >= now { assert Purge(rows, now, budget)[m + 1] == rest[m]; }
      } else {
        assert Purge(rows, now, budget)[0] == rows[0];
      }
    }
  }

  lemma ReceiveKeepsLive(rows: seq<Row>, next: Delivery, d: Delivery)
    requires Remembered(rows, d) && next.reservedAt <= d.stampedAt + Lifetime()
    ensures Remembered(Receive(rows, next), d)
  {
    if Accepted(rows, next) {
      PurgeKeepsLive(rows, next.reservedAt, PURGE_LIMIT, d);
      var rest := Purge(rows, next.reservedAt, PURGE_LIMIT);
      var m :| 0 <= m < |rest| && rest[m].credential == d.credential && rest[m].nonce == d.nonce
        && rest[m].expires >= d.stampedAt + Lifetime();
      assert Receive(rows, next)[m + 1] == rest[m];
    }
  }

  /** A nonce is in the table until a transaction runs later than its lifetime. */
  lemma {:induction false} RememberedThroughRun(run: seq<Delivery>, i: nat, delay: Time)
    requires i < |run| && Timed(run, delay) && Passed(run, i)
      && run[|run| - 1].reservedAt <= run[i].stampedAt + Lifetime()
    ensures Remembered(Table(run), run[i])
  {
    var init, last := run[..|run| - 1], run[|run| - 1];
    assert init[..i] == run[..i];
    if i == |init| {
      assert init == run[..i];
      assert Table(run)[0] == Row(last.credential, last.nonce, last.stampedAt + Lifetime());
    } else {
      assert run[|init| - 1].stampedAt <= last.reservedAt;
      TimedPrefix(run, |init|, delay);
      RememberedThroughRun(init, i, delay);
      ReceiveKeepsLive(Table(init), last, run[i]);
    }
  }

  lemma TimedPrefix(run: seq<Delivery>, n: nat, delay: Time)
    requires n <= |run| && Timed(run, delay)
    ensures Timed(run[..n], delay)
  {
    var p := run[..n];
    forall i | 0 <= i < n ensures p[i] == run[i] {}
  }

  /** A second acceptance of the same request means its transaction waited more than the difference
      between the nonce lifetime and twice the window. */
  lemma ReplayNeedsDelay(run: seq<Delivery>, i: nat, j: nat, delay: Time)
    requires i < j < |run| && Timed(run, delay) && Passed(run, i) && Passed(run, j) && SameRequest(run[i], run[j])
    ensures run[j].reservedAt - run[j].checkedAt > Lifetime() - 2 * Window()
  {
    if run[j].reservedAt <= run[i].stampedAt + Lifetime() {
      var p := run[..j];
      TimedPrefix(run, j, delay);
      assert p[..i] == run[..i];
      assert run[j - 1].stampedAt <= run[j].reservedAt;
      RememberedThroughRun(p, i, delay);
      assert Used(Table(p), run[j].credential, run[j].nonce);
      assert false;
    }
  }

  // ---------- the exact bound ----------

  function Longest(): Time { Lifetime() - 2 * Window() }

  function Nonce(c: char): string { seq(22, _ => c) }

  /** A run that replays a request one nanosecond beyond the bound: the request, an unrelated one whose
      transaction deletes the expired nonce, and the request again. */
  function LateRun(): seq<Delivery> {
    var ts := 1000;
    var first := Seconds(ts) - Window();
    var late := first + Lifetime() + 1;
    [ Delivery("key", Nonce('n'), ts, true, first, first, first),
      Delivery("key", Nonce('m'), ts + 180, true, late, late, late),
      Delivery("key", Nonce('n'), ts, true, Seconds(ts) + Window(), late, late) ]
  }

  lemma LateRunReplays()
    ensures Timed(LateRun(), Longest() + 1) && !NoReplay(LateRun())
  {
    var run := LateRun();
    var n, m := Nonce('n'), Nonce('m');
    assert n[0] != m[0];
    assert run[..0] == [];
    assert run[..1] == [run[0]] && run[..1][..0] == [];
    assert Passed(run, 0);
    assert Purge([], run[0].reservedAt, PURGE_LIMIT) == [];
    var first := Row("key", n, run[0].stampedAt + Lifetime());
    assert Table(run[..1]) == [first];
    assert run[..2][..1] == run[..1] && run[..2][1] == run[1];
    assert !Used([first], "key", m);
    assert Accepted([first], run[1]);
    assert Purge([first], run[1].reservedAt, PURGE_LIMIT) == [] by { assert [first][1..] == []; }
    var second := Row("key", m, run[1].stampedAt + Lifetime());
    assert Table(run[..2]) == [second];
    assert !Used([second], "key", n);
    assert Passed(run, 2);
    assert SameRequest(run[0], run[2]);
  }

  lemma TimedWithin(run: seq<Delivery>, a: Time, b: Time)
    requires Timed(run, a) && a <= b
    ensures Timed(run, b)
  {}

  /** Main result: with a clock that never runs backwards, each signed request is accepted at most once in
      every run if and only if no request waits more than 60 seconds between its timestamp check and
      the transaction that reserves its nonce. */
  lemma SafeIff(delay: Time)
    ensures Safe(delay) <==> delay <= Seconds(60)
  {
    if delay <= Longest() {
      forall run | Timed(run, delay) ensures NoReplay(run) {
        forall i, j | 0 <= i < j < |run| && Passed(run, i) && Passed(run, j) ensures !SameRequest(run[i], run[j]) {
          if SameRequest(run[i], run[j]) { ReplayNeedsDelay(run, i, j, delay); }
        }
      }
    } else {
      LateRunReplays();
      TimedWithin(LateRun(), Longest() + 1, delay);
    }
  }

  // ---------- the gate ----------

  class NonceGate {
    var rows: seq<Row>

    /** The nonce transaction: refuse a used nonce, delete expired rows, insert the new one. */
    method Reserve(d: Delivery) returns (ok: bool)
      requires InWindow(d) && WellFormed(d.nonce) && d.genuine
      modifies this
      ensures ok == Accepted(old(rows), d) && rows == Receive(old(rows), d)
    {
      var i := 0;
      while i < |rows|
        invariant 0 <= i <= |rows| && rows == old(rows)
        invariant forall k :: 0 <= k < i ==> !(rows[k].credential == d.credential && rows[k].nonce == d.nonce)
      {
        if rows[i].credential == d.credential && rows[i].nonce == d.nonce { return false; }
        i := i + 1;
      }
      var kept: seq<Row>, budget := [], PURGE_LIMIT;
      i := 0;
      while i < |rows| && budget > 0
        invariant 0 <= i <= |rows| && rows == old(rows) && 0 <= budget
        invariant kept + Purge(rows[i..], d.reservedAt, budget) == Purge(rows, d.reservedAt, PURGE_LIMIT)
      {
        assert rows[i..][0] == rows[i] && rows[i..][1..] == rows[i + 1..];
        if rows[i].expires < d.reservedAt { budget := budget - 1; } else { kept := kept + [rows[i]]; }
        i := i + 1;
      }
      rows := [Row(d.credential, d.nonce, d.stampedAt + Lifetime())] + (kept + rows[i..]);
      return true;
    }

    method Authenticate(d: Delivery) returns (ok: bool)
      modifies this
      ensures ok == Accepted(old(rows), d) && rows == Receive(old(rows), d)
    {
      if d.timestamp <= 0 || d.checkedAt - Seconds(d.timestamp) > Window()
        || Seconds(d.timestamp) - d.checkedAt > Window()
      {
        return false;
      }
      if !WellFormed(d.nonce) || !d.genuine { return false; }
      ok := Reserve(d);
    }
  }
}
