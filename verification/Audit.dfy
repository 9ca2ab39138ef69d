/** The audit log of an application: each event is authenticated together with the hash of the one
    before it, and a separate head records the last. The keyed hash is taken to be injective. */
module Audit {
  import opened Basics

  datatype Event = Event(sequence: int, content: string, previous: string, hash: string)

  datatype Head = Head(sequence: int, hash: string)

  /** The keyed hash of an event without its own hash field. */
  type Signer = (int, string, string) -> string

  ghost predicate Injective(sign: Signer) {
    forall a, b, c, x, y, z :: sign(a, b, c) == sign(x, y, z) ==> a == x && b == y && c == z
  }

  // ---------- appending ----------

  function HeadOf(rows: seq<Event>): Head {
    if rows == [] then Head(0, "") else Head(rows[|rows| - 1].sequence, rows[|rows| - 1].hash)
  }

  /** The new event continues the recorded head. */
  function NextEvent(sign: Signer, head: Head, content: string): Event {
    Event(head.sequence + 1, content, head.hash, sign(head.sequence + 1, content, head.hash))
  }

  function Log(sign: Signer, contents: seq<string>): seq<Event> {
    if contents == [] then []
    else
      var rows := Log(sign, contents[..|contents| - 1]);
      rows + [NextEvent(sign, HeadOf(rows), contents[|contents| - 1])]
  }

  // ---------- what verification means ----------

  predicate Linked(sign: Signer, rows: seq<Event>, i: nat)
    requires i < |rows|
  {
    var e := rows[i];
    && e.sequence == i + 1 && e.previous == (if i == 0 then "" else rows[i - 1].hash)
    && e.hash == sign(e.sequence, e.content, e.previous)
  }

  predicate Chained(sign: Signer, rows: seq<Event>) { forall i :: 0 <= i < |rows| ==> Linked(sign, rows, i) }

  lemma {:induction false} LogIsChained(sign: Signer, contents: seq<string>)
    ensures Chained(sign, Log(sign, contents)) && |Log(sign, contents)| == |contents|
    ensures HeadOf(Log(sign, contents)).sequence == |contents|
    ensures forall i :: 0 <= i < |contents| ==> Log(sign, contents)[i].content == contents[i]
  {
    if contents != [] {
      var init := contents[..|contents| - 1];
      LogIsChained(sign, init);
      var rows, all := Log(sign, init), Log(sign, contents);
      forall i | 0 <= i < |all| ensures Linked(sign, all, i) {
        if i < |rows| { assert Linked(sign, rows, i) && all[i] == rows[i]; }
      }
    }
  }

  // ---------- the paged check ----------

  const PAGE := 1000

  /** Read the log a page at a time from the number of events checked so far. */
  method AuditIntegrity(sign: Signer, rows: seq<Event>, head: Head) returns (ok: bool)
    ensures ok <==> Chained(sign, rows) && head == HeadOf(rows)
  {
    var sequence, previous := 0, "";
    var more := true;
    while more
      invariant 0 <= sequence <= |rows| && Chained(sign, rows[..sequence])
      invariant previous == HeadOf(rows[..sequence]).hash && sequence == HeadOf(rows[..sequence]).sequence
      invariant !more ==> sequence == |rows|
      decreases more, |rows| - sequence
    {
      var events := rows[sequence..Min(sequence + PAGE, |rows|)];
      if events == [] {
        more := false;
      } else {
        var good, last, hash := CheckPage(sign, rows, events, sequence, previous);
        if !good { return false; }
        sequence, previous := last, hash;
      }
    }
    assert rows[..|rows|] == rows;
    return head.sequence == sequence && head.hash == previous;
  }

  method CheckPage(sign: Signer, ghost rows: seq<Event>, events: seq<Event>, sequence: nat, previous: string)
      returns (ok: bool, last: nat, hash: string)
    requires sequence + |events| <= |rows| && events == rows[sequence..sequence + |events|]
      && Chained(sign, rows[..sequence])
    requires Head(sequence, previous) == HeadOf(rows[..sequence])
    ensures !ok ==> !Chained(sign, rows)
    ensures ok ==>
      && last == sequence + |events| && Chained(sign, rows[..last])
      && Head(last, hash) == HeadOf(rows[..last])
  {
    last, hash := sequence, previous;
    var i := 0;
    while i < |events|
      invariant 0 <= i <= |events| && last == sequence + i && Chained(sign, rows[..last])
        && Head(last, hash) == HeadOf(rows[..last])
    {
      var e := events[i];
      OneMore(sign, rows, last, hash);
      if e.sequence != last + 1 || e.previous != hash { return false, last, hash; }
      if sign(e.sequence, e.content, e.previous) != e.hash { return false, last, hash; }
      last, hash := e.sequence, e.hash;
      i := i + 1;
    }
    ok := true;
  }

  lemma OneMore(sign: Signer, rows: seq<Event>, n: nat, hash: string)
    requires n < |rows| && Chained(sign, rows[..n]) && Head(n, hash) == HeadOf(rows[..n])
    ensures var e := rows[n];
      var good := e.sequence == n + 1 && e.previous == hash && sign(e.sequence, e.content, e.previous) == e.hash;
      if good then Chained(sign, rows[..n + 1]) && HeadOf(rows[..n + 1]) == Head(n + 1, e.hash)
        else !Chained(sign, rows)
  {
    var longer := rows[..n + 1];
    forall i | 0 <= i < n ensures Linked(sign, longer, i) { assert Linked(sign, rows[..n], i); }
    if Chained(sign, rows) { assert Linked(sign, rows, n); }
    if rows[n].sequence == n + 1 && rows[n].previous == hash
      && sign(rows[n].sequence, rows[n].content, rows[n].previous) == rows[n].hash
    {
      assert Linked(sign, longer, n);
    }
  }

  // ---------- tampering shows ----------

  lemma SequenceIsLength(sign: Signer, rows: seq<Event>)
    requires Chained(sign, rows)
    ensures HeadOf(rows).sequence == |rows|
  {
    if rows != [] { assert Linked(sign, rows, |rows| - 1); }
  }

  lemma {:induction false} HeadDetermines(sign: Signer, a: seq<Event>, b: seq<Event>)
    requires Injective(sign) && Chained(sign, a) && Chained(sign, b) && HeadOf(a) == HeadOf(b)
    ensures a == b
  {
    SequenceIsLength(sign, a);
    SequenceIsLength(sign, b);
    if a != [] {
      assert Linked(sign, a, |a| - 1) && Linked(sign, b, |b| - 1);
      var x, y := a[..|a| - 1], b[..|b| - 1];
      assert a == x + [a[|a| - 1]] && b == y + [b[|b| - 1]];
      forall i | 0 <= i < |x| ensures Linked(sign, x, i) && Linked(sign, y, i) {
        assert Linked(sign, a, i) && Linked(sign, b, i);
      }
      var p, q := a[|a| - 1], b[|b| - 1];
      assert sign(p.sequence, p.content, p.previous) == sign(q.sequence, q.content, q.previous);
      assert p == q && |x| == |y|;
      if x != [] { assert Linked(sign, x, |x| - 1) && Linked(sign, y, |y| - 1); }
      HeadDetermines(sign, x, y);
    }
  }

  /** Rows that pass the check against the head of the true log are the true log: no event was changed,
      removed, inserted or moved. The true log itself always passes. */
  lemma TamperingShows(sign: Signer, contents: seq<string>, rows: seq<Event>)
    requires Injective(sign)
    ensures Chained(sign, rows) && HeadOf(rows) == HeadOf(Log(sign, contents)) <==> rows == Log(sign, contents)
  {
    LogIsChained(sign, contents);
    if Chained(sign, rows) && HeadOf(rows) == HeadOf(Log(sign, contents)) {
      HeadDetermines(sign, rows, Log(sign, contents));
    }
  }
}
