/** The fixed-window limiter and the failure lockout. Both keep one window per key, and both drop
    expired windows once the table has grown large. */
module Limiter {
  import opened Basics

  datatype Span = Span(startedAt: Time, count: int)

  type Table = map<string, Span>

  const LARGE := 4096

  predicate Expired(s: Span, now: Time, window: Time) { now - s.startedAt >= window }

  /** Delete expired windows, but only from a large table. */
  function Cleanup(t: Table, now: Time, window: Time): Table {
    if |t| < LARGE then t else map k | k in t && !Expired(t[k], now, window) :: t[k]
  }

  /** `Allow` asks the limiter; `Fail` records a failure and `Check` asks the lockout. */
  datatype Op = Allow(key: string, at: Time) | Fail(key: string, at: Time) | Check(key: string, at: Time)

  function Fresh(t: Table, key: string, now: Time, window: Time, cleaning: bool): Table {
    var started := t[key := Span(now, 1)];
    if cleaning then Cleanup(started, now, window) else started
  }

  predicate InSpan(t: Table, op: Op, window: Time) {
    op.key in t && !Expired(t[op.key], op.at, window)
  }

  /** Whether an operation is let through; recording a failure always is. */
  predicate Passes(t: Table, limit: int, window: Time, op: Op) {
    op.Fail? || !InSpan(t, op, window) || t[op.key].count < limit
  }

  function After(t: Table, limit: int, window: Time, cleaning: bool, op: Op): Table {
    if op.Check? then t
    else if !InSpan(t, op, window) then Fresh(t, op.key, op.at, window, cleaning)
    else if Passes(t, limit, window, op) then t[op.key := Span(t[op.key].startedAt, t[op.key].count + 1)]
    else t
  }

  function Run(limit: int, window: Time, cleaning: bool, ops: seq<Op>): Table {
    if ops == [] then map[]
    else After(Run(limit, window, cleaning, ops[..|ops| - 1]), limit, window, cleaning, ops[|ops| - 1])
  }

  ghost predicate ClockForward(ops: seq<Op>) {
    forall i, j :: 0 <= i <= j < |ops| ==> ops[i].at <= ops[j].at
  }

  // ---------- what an operation does ----------

  /** A request, or an attempt, is refused iff its key has a window that lasts and has counted the limit. */
  lemma RefusedIff(t: Table, limit: int, window: Time, op: Op)
    ensures !Passes(t, limit, window, op) <==>
      !op.Fail? && op.key in t && op.at < t[op.key].startedAt + window && limit <= t[op.key].count
  {}

  /** A check changes nothing and a refused request neither; a request let through, or a failure, opens a window if none
      lasts and is counted in it otherwise. Opening one drops those that are over, if there are 4096 or more. */
  lemma AfterGives(t: Table, limit: int, window: Time, op: Op)
    ensures var after := After(t, limit, window, true, op);
      if op.Check? || !Passes(t, limit, window, op) then after == t
      else if op.key in t && op.at < t[op.key].startedAt + window
      then after == t[op.key := Span(t[op.key].startedAt, t[op.key].count + 1)]
      else
        var begun := t[op.key := Span(op.at, 1)];
        && (|begun| < 4096 ==> after == begun)
        && (|begun| >= 4096 ==>
              && after.Keys == (set k | k in begun && op.at < begun[k].startedAt + window)
              && forall k :: k in after ==> after[k] == begun[k])
  {}

  // ---------- cleaning up is invisible ----------

  /** `small` lacks only windows of `full` that have expired. */
  ghost predicate Trimmed(small: Table, full: Table, clock: Time, window: Time) {
    && (forall k :: k in small ==> k in full && small[k] == full[k])
    && (forall k :: k in full && k !in small ==> Expired(full[k], clock, window))
  }

  lemma TrimmedAfter(small: Table, full: Table, clock: Time, limit: int, window: Time, op: Op)
    requires Trimmed(small, full, clock, window) && clock <= op.at
    ensures Passes(small, limit, window, op) <==> Passes(full, limit, window, op)
    ensures InSpan(small, op, window) <==> InSpan(full, op, window)
    ensures Trimmed(After(small, limit, window, true, op), After(full, limit, window, false, op), op.at, window)
  {}

  lemma {:induction false} RunTrimmed(limit: int, window: Time, ops: seq<Op>)
    requires ClockForward(ops)
    ensures Trimmed(Run(limit, window, true, ops), Run(limit, window, false, ops),
                    if ops == [] then 0 else ops[|ops| - 1].at, window)
  {
    if ops != [] {
      var init, last := ops[..|ops| - 1], ops[|ops| - 1];
      RunTrimmed(limit, window, init);
      if init != [] { assert ops[|init| - 1].at <= last.at; }
      var small, full := Run(limit, window, true, init), Run(limit, window, false, init);
      TrimmedAfter(small, full, if init == [] then last.at else init[|init| - 1].at, limit, window, last);
    }
  }

  /** In every run the guard that cleans up answers every operation as one that never does. */
  lemma CleanupInvisible(limit: int, window: Time, ops: seq<Op>, i: nat)
    requires ClockForward(ops) && i < |ops|
    ensures Passes(Run(limit, window, true, ops[..i]), limit, window, ops[i])
      <==> Passes(Run(limit, window, false, ops[..i]), limit, window, ops[i])
  {
    var before := ops[..i];
    RunTrimmed(limit, window, before);
    if before != [] { assert before[i - 1] == ops[i - 1] && ops[i - 1].at <= ops[i].at; }
    TrimmedAfter(Run(limit, window, true, before), Run(limit, window, false, before),
                 if before == [] then ops[i].at else before[i - 1].at, limit, window, ops[i]);
  }

  // ---------- how much gets through ----------

  /** Requests of a key let through at instants in `[from, from + window)`. */
  function Allowed(limit: int, window: Time, cleaning: bool, ops: seq<Op>, key: string, from: Time): nat {
    if ops == [] then 0
    else
      var init, op := ops[..|ops| - 1], ops[|ops| - 1];
      Allowed(limit, window, cleaning, init, key, from)
      + (if op.key == key && from <= op.at < from + window
        && Passes(Run(limit, window, cleaning, init), limit, window, op) then 1 else 0)
  }

  predicate Limiting(ops: seq<Op>) { forall i :: 0 <= i < |ops| ==> ops[i].Allow? }

  lemma {:induction false} SameAllowed(limit: int, window: Time, ops: seq<Op>, key: string, from: Time)
    requires ClockForward(ops)
    ensures Allowed(limit, window, true, ops, key, from) == Allowed(limit, window, false, ops, key, from)
  {
    if ops != [] {
      SameAllowed(limit, window, ops[..|ops| - 1], key, from);
      CleanupInvisible(limit, window, ops, |ops| - 1);
    }
  }

  /** How the current window of a key bounds what has got through since `from`. */
  ghost predicate Bounded(t: Table, limit: int, window: Time, key: string, from: Time, n: nat, clock: Time) {
    var most := Max(limit, 1);
    && (clock < from ==> n == 0)
    && (key !in t ==> n == 0)
    && (key in t ==>
          var s := t[key];
          && 1 <= s.count <= most && s.startedAt <= clock
          && n <= (if s.startedAt < from then s.count - 1
                   else if s.startedAt < from + window then most - 1 + s.count
                   else 2 * most - 1))
  }

  lemma {:induction false} RunBounded(limit: int, window: Time, ops: seq<Op>, key: string, from: Time)
    requires ClockForward(ops) && Limiting(ops) && ops != []
    ensures Bounded(Run(limit, window, false, ops), limit, window, key, from,
      Allowed(limit, window, false, ops, key, from), ops[|ops| - 1].at)
  {
    var init, op := ops[..|ops| - 1], ops[|ops| - 1];
    if init != [] {
      assert ops[|init| - 1].at <= op.at;
      RunBounded(limit, window, init, key, from);
    }
  }

  /** Main result: in every run with a forward clock, at most `2 * limit - 1` requests of a key get
      through in any half-open span of one window length; a limit below one still lets one through. */
  lemma LimiterBound(limit: int, window: Time, ops: seq<Op>, key: string, from: Time)
    requires ClockForward(ops) && Limiting(ops)
    ensures Allowed(limit, window, true, ops, key, from) <= 2 * Max(limit, 1) - 1
  {
    SameAllowed(limit, window, ops, key, from);
    if ops != [] { RunBounded(limit, window, ops, key, from); }
  }

  /** `n` requests at one instant. */
  function Burst(n: nat, at: Time): seq<Op> {
    if n == 0 then [] else Burst(n - 1, at) + [Allow("k", at)]
  }

  /** One request, the rest of the limit just before the window ends, and a full limit just after. */
  function Straddle(limit: nat, window: Time, late: nat): seq<Op>
    requires limit >= 1
  {
    if late == 0 then Burst(1, 0) + Burst(limit - 1, window - 1)
    else Straddle(limit, window, late - 1) + [Allow("k", window)]
  }

  lemma {:induction false} BurstShape(n: nat, at: Time)
    ensures |Burst(n, at)| == n && forall i :: 0 <= i < n ==> Burst(n, at)[i] == Allow("k", at)
  {
    if n > 0 { BurstShape(n - 1, at); }
  }

  lemma {:induction false} StraddleShape(limit: nat, window: Time, late: nat)
    requires limit >= 1
    ensures var ops := Straddle(limit, window, late);
      && |ops| == limit + late
      && forall i :: 0 <= i < |ops| ==>
         ops[i] == Allow("k", if i == 0 then 0 else if i < limit then window - 1 else window)
  {
    if late == 0 {
      BurstShape(1, 0);
      BurstShape(limit - 1, window - 1);
    } else {
      StraddleShape(limit, window, late - 1);
    }
  }

  /** A run leaves one window, and `n` of its requests passed from `from` on for a window. */
  ghost predicate Fills(limit: nat, window: Time, ops: seq<Op>, from: Time, s: Span, n: int) {
    Run(limit, window, false, ops) == map["k" := s] && Allowed(limit, window, false, ops, "k", from) == n
  }

  /** What one more request does to a table holding only `s` for its key. */
  lemma OneMore(limit: nat, window: Time, ops: seq<Op>, s: Span, at: Time, from: Time, n: int)
    requires Fills(limit, window, ops, from, s, n)
    ensures var more := ops + [Allow("k", at)];
      var counted := n + if from <= at < from + window then 1 else 0;
      && (at - s.startedAt >= window ==> Fills(limit, window, more, from, Span(at, 1), counted))
      && (at - s.startedAt < window && s.count < limit ==>
            Fills(limit, window, more, from, Span(s.startedAt, s.count + 1), counted))
  {
    var more := ops + [Allow("k", at)];
    assert more[..|more| - 1] == ops;
  }

  lemma {:induction false} BurstFills(limit: nat, window: Time, n: nat)
    requires limit >= 1 && window >= 2 && n <= limit - 1
    ensures Fills(limit, window, Burst(1, 0) + Burst(n, window - 1), window - 1, Span(0, n + 1), n)
  {
    if n == 0 {
      OneRequest(limit, window);
    } else {
      BurstFills(limit, window, n - 1);
      var init := Burst(1, 0) + Burst(n - 1, window - 1);
      assert Burst(1, 0) + Burst(n, window - 1) == init + [Allow("k", window - 1)];
      OneMore(limit, window, init, Span(0, n), window - 1, window - 1, n - 1);
    }
  }

  lemma OneRequest(limit: nat, window: Time)
    requires window >= 2
    ensures Fills(limit, window, Burst(1, 0) + Burst(0, window - 1), window - 1, Span(0, 1), 0)
  {
    var ops := [Allow("k", 0)];
    assert Burst(0, 0) == [] && Burst(1, 0) == ops;
    assert Burst(1, 0) + Burst(0, window - 1) == ops;
    assert ops[..0] == [];
  }

  lemma {:induction false} StraddleFills(limit: nat, window: Time, late: nat)
    requires limit >= 1 && window >= 2 && late <= limit
    ensures Fills(limit, window, Straddle(limit, window, late), window - 1,
                  if late == 0 then Span(0, limit) else Span(window, late), limit - 1 + late)
  {
    if late == 0 {
      BurstFills(limit, window, limit - 1);
    } else {
      StraddleFills(limit, window, late - 1);
      var last := if late == 1 then Span(0, limit) else Span(window, late - 1);
      OneMore(limit, window, Straddle(limit, window, late - 1), last, window, window - 1, limit - 2 + late);
    }
  }

  /** The bound is reached for every limit. */
  lemma LimiterBoundReached(limit: nat, window: Time)
    requires limit >= 1 && window >= 2
    ensures var ops := Straddle(limit, window, limit);
      ClockForward(ops) && Limiting(ops) && Allowed(limit, window, true, ops, "k", window - 1) == 2 * limit - 1
  {
    StraddleFills(limit, window, limit);
    StraddleShape(limit, window, limit);
    SameAllowed(limit, window, Straddle(limit, window, limit), "k", window - 1);
  }

  /** The wait reported with a refusal is positive and exact: nothing passes earlier, and a request
      after that wait passes. */
  lemma RetryAfter(t: Table, limit: int, window: Time, key: string, now: Time, later: Time)
    requires !Passes(t, limit, window, Allow(key, now)) && now <= later
    ensures key in t && window - (now - t[key].startedAt) > 0
    ensures Passes(t, limit, window, Allow(key, later)) <==> later >= now + (window - (now - t[key].startedAt))
  {}

  // ---------- the lockout ----------

  function Failures(ops: seq<Op>, key: string, since: Time): nat {
    if ops == [] then 0
    else
      var op := ops[|ops| - 1];
      Failures(ops[..|ops| - 1], key, since) + (if op.Fail? && op.key == key && op.at >= since then 1 else 0)
  }

  predicate Locking(ops: seq<Op>) { forall i :: 0 <= i < |ops| ==> !ops[i].Allow? }

  lemma {:induction false} RunFailures(threshold: int, window: Time, ops: seq<Op>, key: string)
    requires ClockForward(ops) && Locking(ops) && key in Run(threshold, window, false, ops) && ops != []
    ensures var s := Run(threshold, window, false, ops)[key];
      s.count <= Failures(ops, key, s.startedAt) && s.startedAt <= ops[|ops| - 1].at
  {
    var init, op := ops[..|ops| - 1], ops[|ops| - 1];
    if init != [] {
      assert ops[|init| - 1].at <= op.at;
      if key in Run(threshold, window, false, init) { RunFailures(threshold, window, init, key); }
    }
  }

  /** The window of a key has counted every failure since it was opened; those before were over when it was. */
  lemma {:induction false} WindowCounts(threshold: int, window: Time, ops: seq<Op>, key: string)
    requires ClockForward(ops) && Locking(ops) && window > 0
    ensures var t := Run(threshold, window, false, ops);
      if key in t then
        && ops != [] && t[key].startedAt <= ops[|ops| - 1].at
        && t[key].count == Failures(ops, key, t[key].startedAt)
        && Failures(ops, key, t[key].startedAt + window) == 0
      else forall since :: Failures(ops, key, since) == 0
  {
    if ops != [] {
      var init, op := ops[..|ops| - 1], ops[|ops| - 1];
      WindowCounts(threshold, window, init, key);
      if init != [] { assert ops[|init| - 1].at <= op.at; }
      var t := Run(threshold, window, false, init);
      if key in t && op.key == key && op.Fail? && op.at >= t[key].startedAt + window {
        FailuresSince(init, key, op.at, t[key].startedAt + window);
        FailuresSince(init, key, op.at + window, t[key].startedAt + window);
      }
    }
  }

  /** Exactly when a key is locked out: its window, opened by a failure, lasts, and at least the threshold of failures
      were recorded since. */
  lemma LockedIff(threshold: int, window: Time, ops: seq<Op>, key: string, now: Time)
    requires ClockForward(ops) && Locking(ops) && window > 0
    ensures var t := Run(threshold, window, true, ops);
      !Passes(t, threshold, window, Check(key, now)) <==>
        && key in t && now < t[key].startedAt + window && Failures(ops, key, t[key].startedAt) >= threshold
  {
    WindowCounts(threshold, window, ops, key);
    RunTrimmed(threshold, window, ops);
  }

  lemma {:induction false} FailuresSince(ops: seq<Op>, key: string, since: Time, earlier: Time)
    requires earlier <= since
    ensures Failures(ops, key, since) <= Failures(ops, key, earlier)
  {
    if ops != [] { FailuresSince(ops[..|ops| - 1], key, since, earlier); }
  }

  /** A key is locked out only after at least `threshold` failures within the last window, and the lock
      ends with that window. */
  lemma LockoutNeedsFailures(threshold: int, window: Time, ops: seq<Op>, key: string, now: Time)
    requires ClockForward(ops) && Locking(ops) && (ops != [] ==> ops[|ops| - 1].at <= now)
    requires !Passes(Run(threshold, window, false, ops), threshold, window, Check(key, now))
    ensures Failures(ops, key, now - window + 1) >= threshold
    ensures Passes(Run(threshold, window, false, ops), threshold, window, Check(key, now + window))
  {
    RunFailures(threshold, window, ops, key);
    FailuresSince(ops, key, Run(threshold, window, false, ops)[key].startedAt, now - window + 1);
  }

  // ---------- the guards ----------

  class Guard {
    const limit: int
    const window: Time
    var entries: Table

    constructor (limit: int, window: Time)
      ensures entries == map[] && this.limit == limit && this.window == window
    {
      this.limit, this.window, entries := limit, window, map[];
    }

    /** Delete expired windows one key at a time. */
    method Clean(now: Time)
      modifies `entries
      ensures entries == Cleanup(old(entries), now, window)
    {
      if |entries| < LARGE { return; }
      var todo := entries.Keys;
      while todo != {}
        invariant entries.Keys <= old(entries).Keys && todo <= old(entries).Keys
        invariant forall k :: k in old(entries) ==>
          (k in entries <==> k in todo || !Expired(old(entries)[k], now, window))
            && (k in entries ==> entries[k] == old(entries)[k])
        decreases |todo|
      {
        var k :| k in todo;
        todo := todo - {k};
        if now - entries[k].startedAt >= window { entries := entries - {k}; }
      }
    }

    method Start(key: string, now: Time)
      modifies `entries
      ensures entries == Fresh(old(entries), key, now, window, true)
    {
      entries := entries[key := Span(now, 1)];
      Clean(now);
    }

    method Request(key: string, now: Time) returns (ok: bool, wait: Time)
      modifies `entries
      ensures ok == Passes(old(entries), limit, window, Allow(key, now))
      ensures entries == After(old(entries), limit, window, true, Allow(key, now))
      ensures !ok ==> key in old(entries) && wait == window - (now - old(entries)[key].startedAt)
    {
      if key !in entries || now - entries[key].startedAt >= window {
        Start(key, now);
        return true, 0;
      }
      var entry := entries[key];
      if entry.count >= limit { return false, window - (now - entry.startedAt); }
      entries := entries[key := Span(entry.startedAt, entry.count + 1)];
      return true, 0;
    }

    method Failed(key: string, now: Time)
      modifies `entries
      ensures entries == After(old(entries), limit, window, true, Fail(key, now))
    {
      if key !in entries || now - entries[key].startedAt >= window {
        Start(key, now);
        return;
      }
      entries := entries[key := Span(entries[key].startedAt, entries[key].count + 1)];
    }

    method MayTry(key: string, now: Time) returns (ok: bool)
      ensures ok == Passes(entries, limit, window, Check(key, now))
    {
      return key !in entries || now - entries[key].startedAt >= window || entries[key].count < limit;
    }
  }
}
