/** The tokens handed to installations: instants are clamped in nanoseconds and then cut to seconds. */
module Tokens {
  import opened Basics
  import opened Money

  datatype Policy = Policy(ttlSeconds: int, intervalSeconds: int, graceSeconds: int, leaseSeconds: int)

  /** The bounds under which an application's policy is saved. */
  predicate PolicyOk(p: Policy) {
    && 60 <= p.ttlSeconds <= 3 * 86400 && 1 <= p.intervalSeconds <= p.ttlSeconds
    && 0 <= p.graceSeconds <= 30 * 86400 && 30 <= p.leaseSeconds <= 3600
  }

  /** A token lasts from a minute to three days, is refreshed within its life, gives at most thirty days of grace, and
      a lease lasts from half a minute to an hour. */
  lemma PolicyBounds(p: Policy)
    ensures PolicyOk(p) <==>
      && 60 <= p.ttlSeconds <= 259_200 && 1 <= p.intervalSeconds <= p.ttlSeconds
      && 0 <= p.graceSeconds <= 2_592_000 && 30 <= p.leaseSeconds <= 3600
  {}

  datatype Use = LicenseUse | OfflineGrace | UpdateManifest

  /** The times of a token, in seconds since the epoch. */
  datatype Claims = Claims(use: Use, issuedAt: int, notBefore: int, expiresAt: int, refreshAfter: int, graceUntil: int)

  datatype Issued = Issued(license: Claims, offline: Option<Claims>)

  /** What bounds the tokens of an installation: the license's usage deadline and the recorded lease. */
  datatype Bounds = Bounds(deadline: Option<Time>, lease: Option<Time>, floating: bool, borrowed: bool)

  function Clamp(t: Time, limit: Option<Time>): Time {
    if limit.Some? && limit.value < t then limit.value else t
  }

  // ---------- issuing ----------

  function AccessEnd(p: Policy, b: Bounds, now: Time): Time {
    Clamp(Clamp(now + Seconds(p.ttlSeconds), b.deadline), b.lease)
  }

  function GraceEnd(p: Policy, b: Bounds, now: Time): Time {
    Clamp(Clamp(now + Seconds(p.ttlSeconds) + Seconds(p.graceSeconds), b.deadline), b.lease)
  }

  function RefreshAt(p: Policy, b: Bounds, now: Time): Time {
    var wanted := now + Seconds(if b.floating then p.leaseSeconds / 3 else p.intervalSeconds);
    var expires := AccessEnd(p, b, now);
    if wanted >= expires then expires - Seconds(1) else wanted
  }

  function RuntimeTokens(p: Policy, b: Bounds, now: Time): Outcome<Issued> {
    var expires, grace := AccessEnd(p, b, now), GraceEnd(p, b, now);
    if now >= expires || Unix(expires) <= Unix(now) then Err("LICENSE_EXPIRED")
    else
      var c := Claims(LicenseUse, Unix(now), Unix(now), Unix(expires), Unix(RefreshAt(p, b, now)), Unix(grace));
      var offline := c.(use := OfflineGrace, expiresAt := Unix(grace));
      Ok(Issued(c, if grace > expires || b.borrowed then Some(offline) else None))
  }

  /** An update manifest lives for five minutes at most. */
  function ManifestEnd(updatesUntil: Option<Time>, expiresAt: Option<Time>, lease: Option<Time>, now: Time): Time {
    Clamp(Clamp(Clamp(now + Seconds(300), updatesUntil), expiresAt), lease)
  }

  function Manifest(updatesUntil: Option<Time>, expiresAt: Option<Time>, lease: Option<Time>, now: Time)
      : Outcome<Claims>
  {
    var until := ManifestEnd(updatesUntil, expiresAt, lease, now);
    if Unix(until) <= Unix(now) then Err("UPDATES_EXPIRED")
    else Ok(Claims(UpdateManifest, Unix(now), Unix(now), Unix(until), 0, 0))
  }

  // ---------- checking ----------

  /** The scope and time checks on a token whose signature is good; `association` skips the expiry. */
  function CheckToken(c: Claims, use: Use, association: bool, now: Time): Outcome<Claims> {
    if c.expiresAt == 0 || c.issuedAt == 0 || c.use != use then Err("TOKEN_SCOPE_INVALID")
    else if c.issuedAt > Unix(now + Seconds(120)) || c.notBefore > Unix(now + Seconds(30))
      then Err("TOKEN_NOT_YET_VALID")
    else if c.expiresAt <= c.issuedAt then Err("TOKEN_MALFORMED")
    else if !association && Unix(now) >= c.expiresAt then Err("TOKEN_EXPIRED")
    else Ok(c)
  }

  // ---------- what tokens promise ----------

  lemma UnixMonotone(a: Time, b: Time)
    ensures a <= b ==> Unix(a) <= Unix(b)
    ensures Unix(a) < Unix(b) ==> a < b
    ensures Unix(a - Seconds(1)) == Unix(a) - 1
  {}

  ghost predicate Ordered(c: Claims) {
    c.issuedAt <= c.refreshAfter <= c.expiresAt <= c.graceUntil && c.issuedAt < c.expiresAt
  }

  /** Every issued token has its times in order and expires with the earliest of what bounds it; both
      tokens are complete enough to be signed. */
  lemma TokensOrdered(p: Policy, b: Bounds, now: Time)
    requires PolicyOk(p) && RuntimeTokens(p, b, now).Ok?
    ensures var r := RuntimeTokens(p, b, now).value;
      && Ordered(r.license) && r.license.issuedAt == Unix(now)
      && (r.offline.Some? ==> Ordered(r.offline.value) && r.offline.value.expiresAt == r.license.graceUntil)
      && r.license.expiresAt == Unix(AccessEnd(p, b, now))
      && Earliest(AccessEnd(p, b, now), now + Seconds(p.ttlSeconds), {b.deadline, b.lease})
      && r.license.graceUntil == Unix(GraceEnd(p, b, now))
      && Earliest(GraceEnd(p, b, now), now + Seconds(p.ttlSeconds) + Seconds(p.graceSeconds), {b.deadline, b.lease})
  {
    var expires := AccessEnd(p, b, now);
    UnixMonotone(now, RefreshAt(p, b, now));
    UnixMonotone(RefreshAt(p, b, now), expires);
    UnixMonotone(expires, GraceEnd(p, b, now));
    UnixMonotone(expires, now);
  }

  /** Tokens are refused exactly when a bound ends within the current second or before. */
  lemma TokensRefusedIff(p: Policy, b: Bounds, now: Time)
    requires PolicyOk(p)
    ensures RuntimeTokens(p, b, now).Err? <==>
      (b.deadline.Some? && Unix(b.deadline.value) <= Unix(now)) || (b.lease.Some? && Unix(b.lease.value) <= Unix(now))
  {
    var expires, first := AccessEnd(p, b, now), now + Seconds(p.ttlSeconds);
    UnixMonotone(now, expires);
    UnixMonotone(expires, now);
    UnixMonotone(now + Seconds(60), first);
    if b.deadline.Some? { UnixMonotone(expires, b.deadline.value); }
    if b.lease.Some? { UnixMonotone(expires, b.lease.value); }
  }

  /** The instant from `from` on after some seconds, in whole seconds since the epoch. */
  predicate SecondsAfter(at: int, from: Time, seconds: int) { at == (from + seconds * 1_000_000_000) / 1_000_000_000 }

  /** An installation is asked back after the verify interval, or a third of the lease if it has a floating seat, and a
      second before its token ends at the latest. Grace access is granted apart iff it lasts longer than the token by
      any part of a second, or the seat is borrowed; it has the times of the token, but ends with the grace. */
  lemma TokensGive(p: Policy, b: Bounds, now: Time)
    requires PolicyOk(p) && RuntimeTokens(p, b, now).Ok?
    ensures var r := RuntimeTokens(p, b, now).value;
      var (asked, expires, grace) :=
        (if b.floating then p.leaseSeconds / 3 else p.intervalSeconds, AccessEnd(p, b, now), GraceEnd(p, b, now));
      && r.license.use == LicenseUse && r.license.notBefore == r.license.issuedAt
      && (if now + asked * 1_000_000_000 < expires then SecondsAfter(r.license.refreshAfter, now, asked)
          else r.license.refreshAfter == r.license.expiresAt - 1)
      && (r.offline.Some? <==> expires < grace || b.borrowed)
      && (r.offline.Some? ==>
            r.offline.value == r.license.(use := OfflineGrace, expiresAt := r.license.graceUntil))
  {
    UnixMonotone(AccessEnd(p, b, now), now);
  }

  /** Grace outlasts the token iff the policy grants any and neither bound ends with the token or before. */
  lemma GraceOutlastsIff(p: Policy, b: Bounds, now: Time)
    requires PolicyOk(p)
    ensures AccessEnd(p, b, now) < GraceEnd(p, b, now) <==>
      var plain := now + p.ttlSeconds * 1_000_000_000;
      p.graceSeconds > 0 && (b.deadline.Some? ==> plain < b.deadline.value) && (b.lease.Some? ==> plain < b.lease.value)
  {}

  /** A token is accepted iff it is complete, for this use, issued at most two minutes and valid at most half a minute
      ahead, not empty, and not over unless it is to identify its installation only. */
  lemma CheckTokenIff(c: Claims, use: Use, association: bool, now: Time)
    ensures CheckToken(c, use, association, now).Ok? <==>
      && c.expiresAt != 0 && c.issuedAt != 0 && c.use == use && c.issuedAt < c.expiresAt
      && c.issuedAt * 1_000_000_000 <= now + 120_000_000_000 && c.notBefore * 1_000_000_000 <= now + 30_000_000_000
      && (association || now < c.expiresAt * 1_000_000_000)
    ensures CheckToken(c, use, association, now).Ok? ==> CheckToken(c, use, association, now).value == c
  {}

  /** From its issue on, a token is accepted up to its expiry second and never after; an accepted token
      outlives neither the usage deadline nor the lease recorded when it was issued. */
  lemma TokensEndWithTheirBounds(p: Policy, b: Bounds, now: Time, t: Time)
    requires PolicyOk(p) && RuntimeTokens(p, b, now).Ok? && now <= t && 0 < Unix(now)
    ensures var r := RuntimeTokens(p, b, now).value;
      var access := CheckToken(r.license, LicenseUse, false, t).Ok?;
      && (access <==> Unix(t) < r.license.expiresAt)
      && (access ==>
            && t < now + Seconds(p.ttlSeconds)
            && (b.deadline.Some? ==> t < b.deadline.value) && (b.lease.Some? ==> t < b.lease.value))
      && (r.offline.Some? ==>
            var offline := CheckToken(r.offline.value, OfflineGrace, false, t).Ok?;
            && (offline <==> Unix(t) < r.license.graceUntil)
            && (offline ==> (b.deadline.Some? ==> t < b.deadline.value) && (b.lease.Some? ==> t < b.lease.value)))
  {
    TokensOrdered(p, b, now);
    UnixMonotone(now, t + Seconds(30));
    UnixMonotone(now, t + Seconds(120));
    UnixMonotone(t, AccessEnd(p, b, now));
    UnixMonotone(t, GraceEnd(p, b, now));
  }

  /** An expired token still identifies its installation, and no other kind of token does. */
  lemma ExpiredTokensAssociate(p: Policy, b: Bounds, now: Time, t: Time, use: Use)
    requires PolicyOk(p) && RuntimeTokens(p, b, now).Ok? && now <= t && 0 < Unix(now)
    ensures CheckToken(RuntimeTokens(p, b, now).value.license, use, true, t).Ok? <==> use == LicenseUse
  {
    TokensOrdered(p, b, now);
    UnixMonotone(now, t + Seconds(30));
    UnixMonotone(now, t + Seconds(120));
  }

  /** A manifest is refused exactly when an entitlement ends within the current second or before. */
  lemma ManifestRefusedIff(updatesUntil: Option<Time>, expiresAt: Option<Time>, lease: Option<Time>, now: Time)
    ensures Manifest(updatesUntil, expiresAt, lease, now).Err? <==>
      exists l :: l in {updatesUntil, expiresAt, lease} && l.Some? && Unix(l.value) <= Unix(now)
    ensures Manifest(updatesUntil, expiresAt, lease, now).Ok? ==>
      var c := Manifest(updatesUntil, expiresAt, lease, now).value;
      && c.use == UpdateManifest && c.issuedAt == c.notBefore == Unix(now) && c.refreshAfter == c.graceUntil == 0
      && c.expiresAt == Unix(ManifestEnd(updatesUntil, expiresAt, lease, now))
  {
    var until, limits := ManifestEnd(updatesUntil, expiresAt, lease, now), {updatesUntil, expiresAt, lease};
    UnixMonotone(now + Seconds(1), now + Seconds(300));
    forall l | l in limits && l.Some? ensures Unix(until) <= Unix(l.value) { UnixMonotone(until, l.value); }
    if until != now + Seconds(300) { assert Some(until) in limits; }
  }

  /** A manifest lasts five minutes at most and outlives no entitlement. */
  lemma ManifestEnds(updatesUntil: Option<Time>, expiresAt: Option<Time>, lease: Option<Time>, now: Time, t: Time)
    requires Manifest(updatesUntil, expiresAt, lease, now).Ok? && now <= t && 0 < Unix(now)
    ensures var c := Manifest(updatesUntil, expiresAt, lease, now).value;
      && c.issuedAt < c.expiresAt <= c.issuedAt + 300
      && Earliest(ManifestEnd(updatesUntil, expiresAt, lease, now), now + Seconds(300),
                  {updatesUntil, expiresAt, lease})
      && (CheckToken(c, UpdateManifest, false, t).Ok? <==> Unix(t) < c.expiresAt)
      && (CheckToken(c, UpdateManifest, false, t).Ok? ==>
            forall l :: l in {updatesUntil, expiresAt, lease} && l.Some? ==> t < l.value)
  {
    var until := ManifestEnd(updatesUntil, expiresAt, lease, now);
    UnixMonotone(until, now + Seconds(300));
    UnixMonotone(t, until);
    UnixMonotone(now, t + Seconds(30));
    UnixMonotone(now, t + Seconds(120));
  }

  // ---------- the loop over the limits ----------

  method IssueTokens(p: Policy, b: Bounds, now: Time) returns (r: Outcome<Issued>)
    ensures r == RuntimeTokens(p, b, now)
  {
    var expires := now + Seconds(p.ttlSeconds);
    var grace := expires + Seconds(p.graceSeconds);
    var limits, i := [b.deadline, b.lease], 0;
    while i < |limits|
      invariant 0 <= i <= 2
      invariant expires
        == Clamp(Clamp(now + Seconds(p.ttlSeconds), if i > 0 then b.deadline else None), if i > 1 then b.lease
          else None)
      invariant grace
        == Clamp(Clamp(now + Seconds(p.ttlSeconds) + Seconds(p.graceSeconds), if i > 0 then b.deadline else None),
                 if i > 1 then b.lease else None)
    {
      if limits[i].Some? {
        if limits[i].value < expires { expires := limits[i].value; }
        if limits[i].value < grace { grace := limits[i].value; }
      }
      i := i + 1;
    }
    if now >= expires || Unix(expires) <= Unix(now) { return Err("LICENSE_EXPIRED"); }
    var refresh := now + Seconds(p.intervalSeconds);
    if b.floating { refresh := now + Seconds(p.leaseSeconds / 3); }
    if refresh >= expires { refresh := expires - Seconds(1); }
    var claims := Claims(LicenseUse, Unix(now), Unix(now), Unix(expires), Unix(refresh), Unix(grace));
    var offline := None;
    if grace > expires || b.borrowed { offline := Some(claims.(use := OfflineGrace, expiresAt := Unix(grace))); }
    return Ok(Issued(claims, offline));
  }
}
