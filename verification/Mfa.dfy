/** Two-step verification of an administrator: enrolment, one-time codes, recovery codes and login
    challenges. Each enrolment draws a new secret; the digest of a state is taken to be injective. */
module Mfa {
  import opened Basics

  /** `secret` is the stored ciphertext; the empty string stands for none. */
  datatype Factor = Factor(secret: string, enabled: bool, pendingAt: Time, lastStep: int, recovery: seq<string>)

  /** What a challenge is bound to. */
  datatype State = State(secret: string, lastStep: int, recovery: seq<string>)

  function StateOf(m: Factor): State { State(m.secret, m.lastStep, m.recovery) }

  datatype Account = Account(active: bool, sessionVersion: nat, factor: Option<Factor>)

  datatype Challenge = Challenge(sessionVersion: nat, state: State, expiresAt: int, clientIp: string)

  /** How a code was accepted. */
  datatype Proof = Otp(step: int) | Recovery(code: string)

  /** The code of a secret and time step; decimal strings of length six. */
  type Codes = (string, int) -> string

  // ---------- checking a code ----------

  predicate OtpFits(otp: Codes, m: Factor, code: string, step: int) {
    step > m.lastStep && otp(m.secret, step) == code
  }

  /** The current step first, then the one before and the one after. */
  function MatchOtp(otp: Codes, m: Factor, code: string, step: int): Option<int> {
    if |code| != 6 then None
    else if OtpFits(otp, m, code, step) then Some(step)
    else if OtpFits(otp, m, code, step - 1) then Some(step - 1)
    else if OtpFits(otp, m, code, step + 1) then Some(step + 1)
    else None
  }

  function IndexOf(codes: seq<string>, code: string): (i: nat)
    ensures i <= |codes| && (i < |codes| ==> codes[i] == code) && (i == |codes| ==> code !in codes)
  {
    if codes == [] then 0 else if codes[0] == code then 0 else 1 + IndexOf(codes[1..], code)
  }

  /** The proof a code amounts to and the factor it leaves; `code` is trimmed, `lowered` in lower case. */
  function CheckCode(otp: Codes, m: Factor, code: string, lowered: string, now: Time, allowRecovery: bool)
      : Option<(Proof, Factor)>
  {
    if m.secret == "" then None
    else
      match MatchOtp(otp, m, code, Unix(now) / 30)
      case Some(step) => Some((Otp(step), m.(lastStep := step)))
      case None =>
        var i := IndexOf(m.recovery, lowered);
        if allowRecovery && i < |m.recovery|
        then Some((Recovery(lowered), m.(recovery := m.recovery[..i] + m.recovery[i + 1..])))
        else None
  }

  // ---------- transactions ----------

  datatype Step =
    | Begin(secret: string)
    | Confirm(code: string, lowered: string, recovery: seq<string>)
    | Disable(code: string, lowered: string)
    | VerifyLogin(code: string, lowered: string)
    | Complete(challenge: Challenge, code: string, lowered: string, clientIp: string)
    | RevokeSessions
    | SetActive(active: bool)

  /** The proof accepted, if one was needed, and the account afterwards; `None` when refused. */
  function Transact(otp: Codes, a: Account, s: Step, now: Time): Option<(Option<Proof>, Account)> {
    match s
    case Begin(secret) =>
      if (a.factor.Some? && a.factor.value.enabled) || secret == "" then None
      else Some((None, a.(factor := Some(Factor(secret, false, now, -1, [])))))
    case Confirm(code, lowered, recovery) =>
      if a.factor.None? || a.factor.value.enabled || now - a.factor.value.pendingAt > Seconds(600) then None
      else
        (match CheckCode(otp, a.factor.value, code, lowered, now, false)
         case None => None
         case Some((proof, m)) =>
           Some((Some(proof), a.(factor := Some(m.(enabled := true, recovery := recovery)),
             sessionVersion := a.sessionVersion + 1))))
    case Disable(code, lowered) =>
      if a.factor.None? || !a.factor.value.enabled then None
      else
        (match CheckCode(otp, a.factor.value, code, lowered, now, true)
         case None => None
         case Some((proof, m)) =>
           Some((Some(proof), a.(factor := Some(m.(enabled := false, secret := "", recovery := [])),
             sessionVersion := a.sessionVersion + 1))))
    case VerifyLogin(code, lowered) =>
      if a.factor.None? || !a.factor.value.enabled then Some((None, a))
      else
        (match CheckCode(otp, a.factor.value, code, lowered, now, true)
         case None => None
         case Some((proof, m)) => Some((Some(proof), a.(factor := Some(m)))))
    case Complete(ch, code, lowered, ip) =>
      if ip != ch.clientIp || Unix(now) >= ch.expiresAt || !a.active || a.sessionVersion != ch.sessionVersion
         || a.factor.None? || !a.factor.value.enabled || StateOf(a.factor.value) != ch.state then None
      else
        (match CheckCode(otp, a.factor.value, code, lowered, now, true)
         case None => None
         case Some((proof, m)) => Some((Some(proof), a.(factor := Some(m)))))
    case RevokeSessions => Some((None, a.(sessionVersion := a.sessionVersion + 1)))
    case SetActive(active) => Some((None, a.(active := active)))
  }

  /** A challenge is issued to an active account whose factor is enabled, and is bound to its state. */
  function StartLogin(a: Account, clientIp: string, now: Time): Option<Challenge> {
    if a.active && a.factor.Some? && a.factor.value.enabled
    then Some(Challenge(a.sessionVersion, StateOf(a.factor.value), Unix(now + Seconds(300)), clientIp)) else None
  }

  // ---------- what is accepted ----------

  /** The code is that of one of three time steps around the clock, half a minute long each, later than the last. */
  ghost predicate OtpAcceptable(otp: Codes, m: Factor, code: string, now: Time) {
    |code| == 6 && exists step :: otp(m.secret, step) == code && m.lastStep < step && -1 <= step - Unix(now) / 30 <= 1
  }

  /** A code is accepted iff there is a secret and it is the code of an acceptable time step or, where those are
      allowed, a recovery code still held; the time step is tried first. */
  lemma CodeAcceptedIff(otp: Codes, m: Factor, code: string, lowered: string, now: Time, allowRecovery: bool)
    ensures var r := CheckCode(otp, m, code, lowered, now, allowRecovery);
      && (r.Some? <==>
            m.secret != "" && (OtpAcceptable(otp, m, code, now) || (allowRecovery && lowered in m.recovery)))
      && (r.Some? ==> (r.value.0.Otp? <==> OtpAcceptable(otp, m, code, now))
                      && (r.value.0.Recovery? ==> r.value.0.code == lowered))
  {
    var step := Unix(now) / 30;
    forall x | otp(m.secret, x) == code && m.lastStep < x && -1 <= x - step <= 1
      ensures x == step - 1 || x == step || x == step + 1 {}
    assert MatchOtp(otp, m, code, step).Some? <==> OtpAcceptable(otp, m, code, now);
  }

  /** The account after a code was spent on its factor, with the factor enabled or disabled as given. */
  ghost predicate Spends(otp: Codes, a: Account, after: Account, proof: Option<Proof>, code: string, lowered: string,
                         now: Time, allowRecovery: bool)
  {
    && a.factor.Some? && after == a.(factor := after.factor, sessionVersion := after.sessionVersion)
    && var r := CheckCode(otp, a.factor.value, code, lowered, now, allowRecovery);
    r.Some? && proof == Some(r.value.0) && after.factor.Some? && after.factor.value.lastStep == r.value.1.lastStep
  }

  /** Enrolment begins unless the factor is enabled, with a new secret, no step used and no recovery code. */
  lemma BeginIff(otp: Codes, a: Account, secret: string, now: Time)
    ensures var r := Transact(otp, a, Begin(secret), now);
      && (r.Some? <==> secret != "" && (a.factor.None? || !a.factor.value.enabled))
      && (r.Some? ==> r.value == (None, a.(factor := Some(Factor(secret, false, now, -1, [])))))
  {}

  /** It is confirmed within ten minutes by a code of its secret, which is spent; the factor is enabled with the new
      recovery codes, and all sessions end. */
  lemma ConfirmIff(otp: Codes, a: Account, code: string, lowered: string, recovery: seq<string>, now: Time)
    ensures var r := Transact(otp, a, Confirm(code, lowered, recovery), now);
      && (r.Some? <==>
            && a.factor.Some? && !a.factor.value.enabled && now <= a.factor.value.pendingAt + 600_000_000_000
            && a.factor.value.secret != "" && OtpAcceptable(otp, a.factor.value, code, now))
      && (r.Some? ==>
            && Spends(otp, a, r.value.1, r.value.0, code, lowered, now, false)
            && r.value.1.sessionVersion == a.sessionVersion + 1
            && r.value.1.factor.value
               == a.factor.value.(enabled := true, recovery := recovery, lastStep := r.value.1.factor.value.lastStep))
  {
    if a.factor.Some? { CodeAcceptedIff(otp, a.factor.value, code, lowered, now, false); }
  }

  /** An enabled factor is disabled by any acceptable code; secret and recovery codes go, and all sessions end. */
  lemma DisableIff(otp: Codes, a: Account, code: string, lowered: string, now: Time)
    ensures var r := Transact(otp, a, Disable(code, lowered), now);
      && (r.Some? <==>
            && a.factor.Some? && a.factor.value.enabled && a.factor.value.secret != ""
            && (OtpAcceptable(otp, a.factor.value, code, now) || lowered in a.factor.value.recovery))
      && (r.Some? ==>
            && Spends(otp, a, r.value.1, r.value.0, code, lowered, now, true)
            && r.value.1.sessionVersion == a.sessionVersion + 1
            && r.value.1.factor.value
               == Factor("", false, a.factor.value.pendingAt, r.value.1.factor.value.lastStep, []))
  {
    if a.factor.Some? { CodeAcceptedIff(otp, a.factor.value, code, lowered, now, true); }
  }

  /** A login without enabled factor needs no code; with one it takes an acceptable code, which is spent. */
  lemma VerifyLoginIff(otp: Codes, a: Account, code: string, lowered: string, now: Time)
    ensures var r := Transact(otp, a, VerifyLogin(code, lowered), now);
      if a.factor.None? || !a.factor.value.enabled then r == Some((None, a))
      else
        && (r.Some? <==> a.factor.value.secret != ""
                         && (OtpAcceptable(otp, a.factor.value, code, now) || lowered in a.factor.value.recovery))
        && (r.Some? ==> CodeSpent(otp, a, r.value, code, lowered, now))
  {
    if a.factor.Some? { CodeAcceptedIff(otp, a.factor.value, code, lowered, now, true); }
  }

  /** The code was spent and nothing else changed. */
  ghost predicate CodeSpent(otp: Codes, a: Account, r: (Option<Proof>, Account), code: string, lowered: string,
                            now: Time)
  {
    && Spends(otp, a, r.1, r.0, code, lowered, now, true)
    && r.1.sessionVersion == a.sessionVersion
    && r.1.factor == Some(CheckCode(otp, a.factor.value, code, lowered, now, true).value.1)
  }

  /** A challenge completes from its address, before its end, for an active account with the session version and the
      state it was issued in, and with an acceptable code, which is spent. */
  lemma CompleteIff(otp: Codes, a: Account, ch: Challenge, code: string, lowered: string, ip: string, now: Time)
    ensures var r := Transact(otp, a, Complete(ch, code, lowered, ip), now);
      && (r.Some? <==>
            && ip == ch.clientIp && now < ch.expiresAt * 1_000_000_000
            && a.active && a.sessionVersion == ch.sessionVersion && a.factor.Some? && a.factor.value.enabled
            && ch.state == State(a.factor.value.secret, a.factor.value.lastStep, a.factor.value.recovery)
            && a.factor.value.secret != ""
            && (OtpAcceptable(otp, a.factor.value, code, now) || lowered in a.factor.value.recovery))
      && (r.Some? ==> CodeSpent(otp, a, r.value, code, lowered, now))
  {
    if a.factor.Some? { CodeAcceptedIff(otp, a.factor.value, code, lowered, now, true); }
  }

  /** Ending all sessions raises the session version by one, and changing the status changes nothing else. */
  lemma AccountSteps(otp: Codes, a: Account, active: bool, now: Time)
    ensures Transact(otp, a, RevokeSessions, now) == Some((None, a.(sessionVersion := a.sessionVersion + 1)))
    ensures Transact(otp, a, SetActive(active), now) == Some((None, a.(active := active)))
  {}

  /** A challenge is issued for five minutes to an active account with an enabled factor, bound to both. */
  lemma StartLoginIff(a: Account, clientIp: string, now: Time)
    ensures var r := StartLogin(a, clientIp, now);
      && (r.Some? <==> a.active && a.factor.Some? && a.factor.value.enabled)
      && (r.Some? ==> r.value == Challenge(a.sessionVersion,
            State(a.factor.value.secret, a.factor.value.lastStep, a.factor.value.recovery), Unix(now) + 300, clientIp))
  {}

  // ---------- runs ----------

  /** A proof with the enrolment it was accepted in. */
  datatype Use = Use(secret: string, proof: Proof)

  /** An account, the secrets drawn so far, the recovery codes issued for each, and the proofs accepted. */
  datatype Traced = Traced(account: Account, drawn: set<string>, issued: map<string, seq<string>>, uses: seq<Use>)

  function SecretOf(a: Account): string { if a.factor.Some? then a.factor.value.secret else "" }

  /** A secret is drawn once: `Begin` with an old one does not happen. */
  function Advance(otp: Codes, t: Traced, s: Step, now: Time): Traced {
    var r := Transact(otp, t.account, s, now);
    if r.None? || (s.Begin? && s.secret in t.drawn) then t
    else
      var secret := SecretOf(t.account);
      Traced(r.value.1,
        if s.Begin? then t.drawn + {s.secret} else t.drawn,
        if s.Confirm? then t.issued[secret := s.recovery] else t.issued,
        if r.value.0.Some? then t.uses + [Use(secret, r.value.0.value)] else t.uses)
  }

  function Start(): Traced { Traced(Account(true, 0, None), {}, map[], []) }

  function Run(otp: Codes, steps: seq<(Step, Time)>): Traced {
    if steps == [] then Start()
    else Advance(otp, Run(otp, steps[..|steps| - 1]), steps[|steps| - 1].0, steps[|steps| - 1].1)
  }

  function Spent(uses: seq<Use>, secret: string, code: string): nat {
    if uses == [] then 0
    else
      Spent(uses[..|uses| - 1], secret, code)
      + (if uses[|uses| - 1] == Use(secret, Recovery(code)) then 1 else 0)
  }

  function IssuedCodes(t: Traced, secret: string): seq<string> { if secret in t.issued then t.issued[secret] else [] }

  /** Within one enrolment, later codes are of later time steps. */
  ghost predicate OtpsRise(uses: seq<Use>) {
    forall i, j :: 0 <= i < j < |uses| && uses[i].secret == uses[j].secret ==>
      uses[i].proof.Otp? && uses[j].proof.Otp? ==> uses[i].proof.step < uses[j].proof.step
  }

  ghost predicate OtpsUpTo(uses: seq<Use>, secret: string, last: int) {
    forall i :: 0 <= i < |uses| && uses[i].secret == secret && uses[i].proof.Otp? ==> uses[i].proof.step <= last
  }

  ghost predicate StepsRise(t: Traced) {
    && OtpsRise(t.uses)
    && (t.account.factor.Some? ==> OtpsUpTo(t.uses, t.account.factor.value.secret, t.account.factor.value.lastStep))
  }

  ghost predicate SecretsDrawn(t: Traced) {
    && (forall i :: 0 <= i < |t.uses| ==> t.uses[i].secret in t.drawn)
    && (SecretOf(t.account) == "" || SecretOf(t.account) in t.drawn)
    && "" !in t.drawn && (forall k :: k in t.issued ==> k in t.drawn)
    && (t.account.factor.Some? && t.account.factor.value.enabled ==> t.account.factor.value.secret in t.issued)
    && (t.account.factor.Some? && !t.account.factor.value.enabled ==>
          t.account.factor.value.recovery == [] && t.account.factor.value.secret !in t.issued)
  }

  /** Every code issued for an enrolment is spent or still held, and for the current one nothing is lost. */
  ghost predicate CodesAddUp(t: Traced) {
    && (forall secret, code :: Spent(t.uses, secret, code) <= multiset(IssuedCodes(t, secret))[code])
    && (t.account.factor.Some? && t.account.factor.value.secret != "" ==>
          var m := t.account.factor.value;
          forall code :: Spent(t.uses, m.secret, code) + multiset(m.recovery)[code]
            == multiset(IssuedCodes(t, m.secret))[code])
  }

  ghost predicate TraceOk(t: Traced) { SecretsDrawn(t) && StepsRise(t) && CodesAddUp(t) }

  lemma CheckCodeRises(otp: Codes, m: Factor, code: string, lowered: string, now: Time, allowRecovery: bool)
    requires CheckCode(otp, m, code, lowered, now, allowRecovery).Some?
    ensures var (proof, n) := CheckCode(otp, m, code, lowered, now, allowRecovery).value;
      && n.secret == m.secret && n.enabled == m.enabled && m.secret != ""
      && (proof.Otp? ==>
            && m.lastStep < proof.step == n.lastStep && n.recovery == m.recovery
            && otp(m.secret, proof.step) == code && -1 <= proof.step - Unix(now) / 30 <= 1)
      && (proof.Recovery? ==>
            && allowRecovery && n.lastStep == m.lastStep && |n.recovery| == |m.recovery| - 1
            && multiset(m.recovery) == multiset(n.recovery) + multiset{proof.code})
  {
    var (proof, n) := CheckCode(otp, m, code, lowered, now, allowRecovery).value;
    if proof.Recovery? {
      var i := IndexOf(m.recovery, lowered);
      assert m.recovery == m.recovery[..i] + [m.recovery[i]] + m.recovery[i + 1..];
    }
  }

  lemma SpentAppend(uses: seq<Use>, u: Use, secret: string, code: string)
    ensures Spent(uses + [u], secret, code)
      == Spent(uses, secret, code) + (if u == Use(secret, Recovery(code)) then 1 else 0)
  {
    assert (uses + [u])[..|uses|] == uses;
  }

  lemma {:induction false} NeverSpent(uses: seq<Use>, secret: string, code: string)
    requires forall i :: 0 <= i < |uses| ==> uses[i].secret != secret || uses[i].proof.Otp?
    ensures Spent(uses, secret, code) == 0
  {
    if uses != [] { NeverSpent(uses[..|uses| - 1], secret, code); }
  }

  lemma AdvanceKeepsSecrets(otp: Codes, t: Traced, s: Step, now: Time)
    requires TraceOk(t)
    ensures SecretsDrawn(Advance(otp, t, s, now))
  {}

  lemma AdvanceRises(otp: Codes, t: Traced, s: Step, now: Time)
    requires TraceOk(t)
    ensures StepsRise(Advance(otp, t, s, now))
  {
    var r := Transact(otp, t.account, s, now);
    if r.Some? && r.value.0.Some? {
      CheckCodeRises(otp, t.account.factor.value, s.code, s.lowered, now, !s.Confirm?);
      UseRises(t, r.value.0.value, r.value.1.factor.value.lastStep);
    }
  }

  /** A newly accepted time step is later than those accepted before in the same enrolment. */
  lemma UseRises(t: Traced, proof: Proof, lastStep: int)
    requires StepsRise(t) && t.account.factor.Some? && t.account.factor.value.lastStep <= lastStep
    requires proof.Otp? ==> t.account.factor.value.lastStep < proof.step <= lastStep
    ensures var uses := t.uses + [Use(t.account.factor.value.secret, proof)];
      OtpsRise(uses) && OtpsUpTo(uses, t.account.factor.value.secret, lastStep)
  {}

  /** An accepted code is spent from those still held. */
  lemma UseAddsUp(otp: Codes, t: Traced, code: string, lowered: string, now: Time, allowRecovery: bool)
    requires CodesAddUp(t) && t.account.factor.Some?
    requires CheckCode(otp, t.account.factor.value, code, lowered, now, allowRecovery).Some?
    ensures var m := t.account.factor.value;
      var (proof, n) := CheckCode(otp, m, code, lowered, now, allowRecovery).value;
      var uses := t.uses + [Use(m.secret, proof)];
      && (forall secret, c :: Spent(uses, secret, c) <= multiset(IssuedCodes(t, secret))[c])
      && (forall c :: Spent(uses, m.secret, c) + multiset(n.recovery)[c] == multiset(IssuedCodes(t, m.secret))[c])
  {
    var m := t.account.factor.value;
    var (proof, n) := CheckCode(otp, m, code, lowered, now, allowRecovery).value;
    CheckCodeRises(otp, m, code, lowered, now, allowRecovery);
    var u := Use(m.secret, proof);
    forall c ensures Spent(t.uses + [u], m.secret, c) + multiset(n.recovery)[c] == multiset(IssuedCodes(t, m.secret))[c]
    {
      SpentAppend(t.uses, u, m.secret, c);
    }
    forall secret, c ensures Spent(t.uses + [u], secret, c) <= multiset(IssuedCodes(t, secret))[c] {
      SpentAppend(t.uses, u, secret, c);
    }
  }

  lemma BeginAddsUp(otp: Codes, t: Traced, s: Step, now: Time)
    requires TraceOk(t) && s.Begin?
    ensures CodesAddUp(Advance(otp, t, s, now))
  {
    if s.secret !in t.drawn {
      forall c ensures Spent(t.uses, s.secret, c) == 0 { NeverSpent(t.uses, s.secret, c); }
    }
  }

  lemma ConfirmAddsUp(otp: Codes, t: Traced, s: Step, now: Time)
    requires TraceOk(t) && s.Confirm? && Transact(otp, t.account, s, now).Some?
    ensures CodesAddUp(Advance(otp, t, s, now))
  {
    var m, after := t.account.factor.value, Advance(otp, t, s, now);
    UseAddsUp(otp, t, s.code, s.lowered, now, false);
    forall secret, c ensures Spent(after.uses, secret, c) <= multiset(IssuedCodes(after, secret))[c] {
      assert Spent(after.uses, secret, c) <= multiset(IssuedCodes(t, secret))[c];
    }
    assert IssuedCodes(t, m.secret) == [];
  }

  lemma CodeUsed(otp: Codes, t: Traced, s: Step, now: Time)
    requires (s.Disable? || s.VerifyLogin? || s.Complete?) && Transact(otp, t.account, s, now).Some?
    requires Transact(otp, t.account, s, now).value.0.Some?
    ensures t.account.factor.Some? && CheckCode(otp, t.account.factor.value, s.code, s.lowered, now, true).Some?
    ensures var (proof, n) := CheckCode(otp, t.account.factor.value, s.code, s.lowered, now, true).value;
      var after := Advance(otp, t, s, now);
      && after.issued == t.issued && after.uses == t.uses + [Use(t.account.factor.value.secret, proof)]
      && after.account.factor.Some?
      && (after.account.factor.value.secret == "" || after.account.factor.value == n)
  {}

  lemma CodeAddsUp(otp: Codes, t: Traced, s: Step, now: Time)
    requires TraceOk(t) && (s.Disable? || s.VerifyLogin? || s.Complete?)
    ensures CodesAddUp(Advance(otp, t, s, now))
  {
    var r := Transact(otp, t.account, s, now);
    if r.Some? && r.value.0.Some? {
      CodeUsed(otp, t, s, now);
      UseAddsUp(otp, t, s.code, s.lowered, now, true);
      var n := CheckCode(otp, t.account.factor.value, s.code, s.lowered, now, true).value.1;
      CheckCodeRises(otp, t.account.factor.value, s.code, s.lowered, now, true);
      SpentKeepsSum(t, Advance(otp, t, s, now), n.recovery);
    }
  }

  lemma SpentKeepsSum(t: Traced, after: Traced, left: seq<string>)
    requires t.account.factor.Some? && after.issued == t.issued && after.account.factor.Some?
    requires forall secret, c :: Spent(after.uses, secret, c) <= multiset(IssuedCodes(t, secret))[c]
    requires var m := t.account.factor.value;
      forall c :: Spent(after.uses, m.secret, c) + multiset(left)[c] == multiset(IssuedCodes(t, m.secret))[c]
    requires var n := after.account.factor.value;
      n.secret == "" || (n.secret == t.account.factor.value.secret && n.recovery == left)
    ensures CodesAddUp(after)
  {
    forall secret ensures IssuedCodes(after, secret) == IssuedCodes(t, secret) {}
  }

  lemma AdvanceAddsUp(otp: Codes, t: Traced, s: Step, now: Time)
    requires TraceOk(t)
    ensures CodesAddUp(Advance(otp, t, s, now))
  {
    match s
    case Begin(_) => BeginAddsUp(otp, t, s, now);
    case Confirm(_, _, _) => if Transact(otp, t.account, s, now).Some? { ConfirmAddsUp(otp, t, s, now); }
    case Disable(_, _) => CodeAddsUp(otp, t, s, now);
    case VerifyLogin(_, _) => CodeAddsUp(otp, t, s, now);
    case Complete(_, _, _, _) => CodeAddsUp(otp, t, s, now);
    case RevokeSessions =>
    case SetActive(_) =>
  }

  lemma {:induction false} RunOk(otp: Codes, steps: seq<(Step, Time)>)
    ensures TraceOk(Run(otp, steps))
  {
    if steps != [] {
      var init, last := steps[..|steps| - 1], steps[|steps| - 1];
      RunOk(otp, init);
      AdvanceKeepsSecrets(otp, Run(otp, init), last.0, last.1);
      AdvanceRises(otp, Run(otp, init), last.0, last.1);
      AdvanceAddsUp(otp, Run(otp, init), last.0, last.1);
    }
  }

  /** In every run, within one enrolment each time step authenticates at most once, later ones only rise,
      and a recovery code authenticates no more often than it was issued. */
  lemma ProofsAreOneTime(otp: Codes, steps: seq<(Step, Time)>)
    ensures var t := Run(otp, steps);
      && OtpsRise(t.uses)
      && (forall secret, code :: Spent(t.uses, secret, code) <= multiset(IssuedCodes(t, secret))[code])
  {
    RunOk(otp, steps);
  }

  // ---------- states never return ----------

  /** Further on in one enrolment: a later time step, or the same one with fewer recovery codes left. */
  predicate Beyond(m: Factor, was: State) {
    m.lastStep > was.lastStep || (m.lastStep == was.lastStep && |m.recovery| < |was.recovery|)
  }

  /** The enrolment of state `was` is over, or further on. */
  predicate Left(a: Account, was: State) {
    a.factor.Some? && a.factor.value.secret == was.secret ==> Beyond(a.factor.value, was)
  }

  predicate In(a: Account, was: State) { a.factor.Some? && StateOf(a.factor.value) == was }

  /** A state of an enrolment is kept or left by a step; it is left when a code is accepted. */
  lemma AdvanceLeaves(otp: Codes, t: Traced, s: Step, now: Time, was: State)
    requires was.secret != "" && was.secret in t.drawn && (In(t.account, was) || Left(t.account, was))
    ensures was.secret in Advance(otp, t, s, now).drawn
    ensures var r, after := Transact(otp, t.account, s, now), Advance(otp, t, s, now).account;
      if Left(t.account, was) || (r.Some? && r.value.0.Some?) then Left(after, was)
      else In(after, was) || Left(after, was)
  {
    var r := Transact(otp, t.account, s, now);
    if r.Some? && r.value.0.Some? {
      CheckCodeRises(otp, t.account.factor.value, s.code, s.lowered, now, !s.Confirm?);
    }
  }

  /** From a moment on at which a state is left, it stays left; until then it is the state. */
  lemma {:induction false} RunLeaves(otp: Codes, steps: seq<(Step, Time)>, n: nat, was: State)
    requires n <= |steps| && was.secret != "" && was.secret in Run(otp, steps[..n]).drawn
    requires In(Run(otp, steps[..n]).account, was) || Left(Run(otp, steps[..n]).account, was)
    ensures var a := Run(otp, steps).account;
      if Left(Run(otp, steps[..n]).account, was) then Left(a, was) else In(a, was) || Left(a, was)
    ensures was.secret in Run(otp, steps).drawn
  {
    if n == |steps| {
      assert steps[..n] == steps;
    } else {
      var init, last := steps[..|steps| - 1], steps[|steps| - 1];
      assert init[..n] == steps[..n];
      RunLeaves(otp, init, n, was);
      AdvanceLeaves(otp, Run(otp, init), last.0, last.1, was);
    }
  }

  /** A code was accepted by step `n`. */
  predicate Accepts(otp: Codes, steps: seq<(Step, Time)>, n: nat)
    requires n < |steps|
  {
    var r := Transact(otp, Run(otp, steps[..n]).account, steps[n].0, steps[n].1);
    r.Some? && r.value.0.Some?
  }

  /** Once a code is accepted, the state it was accepted in never returns, whatever becomes of the factor. */
  lemma StateNeverReturns(otp: Codes, steps: seq<(Step, Time)>, n: nat)
    requires n < |steps| && Accepts(otp, steps, n)
    ensures var before := Run(otp, steps[..n]).account.factor;
      before.Some? && !In(Run(otp, steps).account, StateOf(before.value))
  {
    var t := Run(otp, steps[..n]);
    RunOk(otp, steps[..n]);
    CheckCodeRises(otp, t.account.factor.value, steps[n].0.code, steps[n].0.lowered, steps[n].1, !steps[n].0.Confirm?);
    var was := StateOf(t.account.factor.value);
    AdvanceLeaves(otp, t, steps[n].0, steps[n].1, was);
    NextOfRun(otp, steps, n);
    RunLeaves(otp, steps, n + 1, was);
  }

  /** More generally, a state with a secret that was left for another one never returns. */
  lemma EnrolledStateNeverReturns(otp: Codes, steps: seq<(Step, Time)>, m: nat, n: nat)
    requires m <= n <= |steps| && Run(otp, steps[..m]).account.factor.Some?
    requires var was := StateOf(Run(otp, steps[..m]).account.factor.value);
      was.secret != "" && !In(Run(otp, steps[..n]).account, was)
    ensures !In(Run(otp, steps).account, StateOf(Run(otp, steps[..m]).account.factor.value))
  {
    var was := StateOf(Run(otp, steps[..m]).account.factor.value);
    RunOk(otp, steps[..m]);
    assert steps[..n][..m] == steps[..m];
    RunLeaves(otp, steps[..n], m, was);
    RunLeaves(otp, steps, n, was);
  }

  // ---------- a state without a secret may return ----------

  /** Enrolled and disabled with a recovery code, twice within one time step. */
  function TwoEnrolments(): seq<(Step, Time)> {
    [ (Begin("a"), 0), (Confirm("123456", "", ["r"]), 0), (Disable("r", "r"), 0),
      (Begin("b"), 0), (Confirm("123456", "", ["r"]), 0), (Disable("r", "r"), 0) ]
  }

  function SameCode(): Codes { (secret, step) => "123456" }

  lemma {:induction false} EnrolmentDisabled(t: Traced, secret: string)
    requires secret != "" && secret !in t.drawn && (t.account.factor.Some? ==> !t.account.factor.value.enabled)
    ensures var otp := SameCode();
      var begun := Advance(otp, t, Begin(secret), 0);
      var enabled := Advance(otp, begun, Confirm("123456", "", ["r"]), 0);
      var disabled := Advance(otp, enabled, Disable("r", "r"), 0);
      && In(enabled.account, State(secret, 0, ["r"])) && enabled.account.factor.value.enabled
      && In(disabled.account, State("", 0, [])) && !disabled.account.factor.value.enabled
      && disabled.drawn == t.drawn + {secret}
  {
    assert ["r"][..0] + ["r"][1..] == [];
  }

  /** Three steps from step `n` on enrol and disable once. */
  lemma EnrolmentInRun(otp: Codes, steps: seq<(Step, Time)>, n: nat, secret: string)
    requires otp == SameCode() && n + 3 <= |steps| && steps[n] == (Begin(secret), 0)
    requires steps[n + 1] == (Confirm("123456", "", ["r"]), 0) && steps[n + 2] == (Disable("r", "r"), 0)
    requires secret != "" && secret !in Run(otp, steps[..n]).drawn
    requires var a := Run(otp, steps[..n]).account; a.factor.Some? ==> !a.factor.value.enabled
    ensures In(Run(otp, steps[..n + 2]).account, State(secret, 0, ["r"]))
    ensures var t := Run(otp, steps[..n + 3]);
      In(t.account, State("", 0, [])) && !t.account.factor.value.enabled
        && t.drawn == Run(otp, steps[..n]).drawn + {secret}
  {
    NextOfRun(otp, steps, n);
    NextOfRun(otp, steps, n + 1);
    NextOfRun(otp, steps, n + 2);
    EnrolmentDisabled(Run(otp, steps[..n]), secret);
  }

  /** The state a disabled factor is left in has no secret, accepts no code, and may return. */
  lemma DisabledStateReturns()
    ensures var otp, steps := SameCode(), TwoEnrolments();
      && In(Run(otp, steps[..3]).account, State("", 0, []))
      && In(Run(otp, steps[..5]).account, State("b", 0, ["r"]))
      && In(Run(otp, steps).account, State("", 0, []))
  {
    var otp, steps := SameCode(), TwoEnrolments();
    assert steps[..0] == [] && steps[..6] == steps;
    EnrolmentInRun(otp, steps, 0, "a");
    assert "a"[0] != "b"[0];
    EnrolmentInRun(otp, steps, 3, "b");
  }

  lemma NextOfRun(otp: Codes, steps: seq<(Step, Time)>, n: nat)
    requires n < |steps|
    ensures Run(otp, steps[..n + 1]) == Advance(otp, Run(otp, steps[..n]), steps[n].0, steps[n].1)
  {
    assert steps[..n + 1][..n] == steps[..n];
  }

  /** A login challenge completes at most once in every run. */
  lemma ChallengeCompletesOnce(otp: Codes, steps: seq<(Step, Time)>, i: nat, j: nat)
    requires i < j < |steps| && steps[i].0.Complete? && steps[j].0.Complete?
    requires Accepts(otp, steps, i) && Accepts(otp, steps, j)
    ensures steps[i].0.challenge != steps[j].0.challenge
  {
    assert steps[..j][..i] == steps[..i];
    StateNeverReturns(otp, steps[..j], i);
  }

  /** A fresh challenge completes with a right code within five minutes, from the same address, as long
      as nothing else was accepted or revoked in between. */
  lemma ChallengeCompletes(otp: Codes, a: Account, clientIp: string, now: Time, later: Time, code: string,
                           lowered: string)
    requires StartLogin(a, clientIp, now).Some? && Unix(later) < Unix(now + Seconds(300))
    ensures var ch := StartLogin(a, clientIp, now).value;
      Transact(otp, a, Complete(ch, code, lowered, clientIp), later).Some?
      <==> CheckCode(otp, a.factor.value, code, lowered, later, true).Some?
  {}

  // ---------- revocation ----------

  /** The steps after which every outstanding challenge is void. */
  predicate Revokes(otp: Codes, a: Account, s: Step, now: Time) {
    (s.Confirm? || s.Disable? || s.RevokeSessions?) && Transact(otp, a, s, now).Some?
  }

  lemma VersionRises(otp: Codes, t: Traced, s: Step, now: Time)
    ensures t.account.sessionVersion <= Advance(otp, t, s, now).account.sessionVersion
    ensures Revokes(otp, t.account, s, now) ==>
      t.account.sessionVersion < Advance(otp, t, s, now).account.sessionVersion
  {}

  lemma {:induction false} RunVersionRises(otp: Codes, steps: seq<(Step, Time)>, n: nat)
    requires n <= |steps|
    ensures Run(otp, steps[..n]).account.sessionVersion <= Run(otp, steps).account.sessionVersion
  {
    if n == |steps| {
      assert steps[..n] == steps;
    } else {
      assert steps[..|steps| - 1][..n] == steps[..n];
      RunVersionRises(otp, steps[..|steps| - 1], n);
      VersionRises(otp, Run(otp, steps[..|steps| - 1]), steps[|steps| - 1].0, steps[|steps| - 1].1);
    }
  }

  /** A challenge issued before the factor was enabled, disabled or the sessions revoked never completes
      afterwards. */
  lemma RevokedChallengesFail(otp: Codes, steps: seq<(Step, Time)>, m: nat, n: nat, clientIp: string, issued: Time,
                              code: string, lowered: string, now: Time)
    requires m <= n < |steps| && Revokes(otp, Run(otp, steps[..n]).account, steps[n].0, steps[n].1)
    requires StartLogin(Run(otp, steps[..m]).account, clientIp, issued).Some?
    ensures var ch := StartLogin(Run(otp, steps[..m]).account, clientIp, issued).value;
      Transact(otp, Run(otp, steps).account, Complete(ch, code, lowered, clientIp), now).None?
  {
    RevocationRaisesVersion(otp, steps, m, n);
    StaleChallengeFails(otp, Run(otp, steps).account,
      StartLogin(Run(otp, steps[..m]).account, clientIp, issued).value, code, lowered, clientIp, now);
  }

  lemma RevocationRaisesVersion(otp: Codes, steps: seq<(Step, Time)>, m: nat, n: nat)
    requires m <= n < |steps| && Revokes(otp, Run(otp, steps[..n]).account, steps[n].0, steps[n].1)
    ensures Run(otp, steps[..m]).account.sessionVersion < Run(otp, steps).account.sessionVersion
  {
    PrefixVersion(otp, steps, m, n);
    StepVersion(otp, steps, n);
    RunVersionRises(otp, steps, n + 1);
  }

  lemma PrefixVersion(otp: Codes, steps: seq<(Step, Time)>, m: nat, n: nat)
    requires m <= n <= |steps|
    ensures Run(otp, steps[..m]).account.sessionVersion <= Run(otp, steps[..n]).account.sessionVersion
  {
    assert steps[..n][..m] == steps[..m];
    RunVersionRises(otp, steps[..n], m);
  }

  lemma StepVersion(otp: Codes, steps: seq<(Step, Time)>, n: nat)
    requires n < |steps| && Revokes(otp, Run(otp, steps[..n]).account, steps[n].0, steps[n].1)
    ensures Run(otp, steps[..n]).account.sessionVersion < Run(otp, steps[..n + 1]).account.sessionVersion
  {
    VersionRises(otp, Run(otp, steps[..n]), steps[n].0, steps[n].1);
    NextOfRun(otp, steps, n);
  }

  lemma StaleChallengeFails(otp: Codes, a: Account, ch: Challenge, code: string, lowered: string, clientIp: string,
                            now: Time)
    requires a.sessionVersion != ch.sessionVersion
    ensures Transact(otp, a, Complete(ch, code, lowered, clientIp), now).None?
  {}

  // ---------- the service ----------

  class FactorRow {
    var factor: Factor

    /** Try the current, previous and next time step, then the recovery codes; updates the row in place. */
    method VerifyCode(otp: Codes, code: string, lowered: string, now: Time, allowRecovery: bool) returns (ok: bool)
      modifies this
      ensures var r := CheckCode(otp, old(factor), code, lowered, now, allowRecovery);
        ok == r.Some? && factor == if ok then r.value.1 else old(factor)
    {
      if factor.secret == "" { return false; }
      var step := TryCandidates(otp, code, Unix(now) / 30);
      if step.Some? {
        factor := factor.(lastStep := step.value);
        return true;
      }
      if allowRecovery {
        var i := FindRecovery(lowered);
        if i < |factor.recovery| {
          factor := factor.(recovery := factor.recovery[..i] + factor.recovery[i + 1..]);
          return true;
        }
      }
      return false;
    }

    method TryCandidates(otp: Codes, code: string, step: int) returns (r: Option<int>)
      ensures r == MatchOtp(otp, factor, code, step)
    {
      if |code| == 6 {
        var candidates, i := [step, step - 1, step + 1], 0;
        while i < 3
          invariant 0 <= i <= 3
          invariant i > 0 ==> !OtpFits(otp, factor, code, step)
          invariant i > 1 ==> !OtpFits(otp, factor, code, step - 1)
          invariant i > 2 ==> !OtpFits(otp, factor, code, step + 1)
        {
          if candidates[i] > factor.lastStep && otp(factor.secret, candidates[i]) == code {
            return Some(candidates[i]);
          }
          i := i + 1;
        }
      }
      return None;
    }

    method FindRecovery(lowered: string) returns (i: nat)
      ensures i == IndexOf(factor.recovery, lowered)
    {
      i := 0;
      while i < |factor.recovery|
        invariant 0 <= i <= |factor.recovery|
        invariant IndexOf(factor.recovery, lowered) == i + IndexOf(factor.recovery[i..], lowered)
      {
        var rest := factor.recovery[i..];
        assert rest[0] == factor.recovery[i] && rest[1..] == factor.recovery[i + 1..];
        if factor.recovery[i] == lowered { return; }
        i := i + 1;
      }
    }
  }

  class Admin {
    var active: bool
    var sessionVersion: nat
    var factor: Option<Factor>

    function Snapshot(): Account
      reads this
    {
      Account(active, sessionVersion, factor)
    }

    ghost predicate Does(otp: Codes, before: Account, s: Step, now: Time, ok: bool)
      reads this
    {
      var r := Transact(otp, before, s, now);
      ok == r.Some? && Snapshot() == if ok then r.value.1 else before
    }

    method BeginMfa(otp: Codes, secret: string, now: Time) returns (ok: bool)
      modifies this
      ensures Does(otp, old(Snapshot()), Begin(secret), now, ok)
    {
      if (factor.Some? && factor.value.enabled) || secret == "" { return false; }
      factor := Some(Factor(secret, false, now, -1, []));
      return true;
    }

    /** Check a code against a working copy of the row; the caller saves the copy. */
    method Check(otp: Codes, code: string, lowered: string, now: Time, allowRecovery: bool)
        returns (row: FactorRow, ok: bool)
      requires factor.Some?
      ensures fresh(row)
      ensures var r := CheckCode(otp, factor.value, code, lowered, now, allowRecovery);
        ok == r.Some? && (ok ==> row.factor == r.value.1)
    {
      row := new FactorRow;
      row.factor := factor.value;
      ok := row.VerifyCode(otp, code, lowered, now, allowRecovery);
    }

    method ConfirmMfa(otp: Codes, code: string, lowered: string, recovery: seq<string>, now: Time) returns (ok: bool)
      modifies this
      ensures Does(otp, old(Snapshot()), Confirm(code, lowered, recovery), now, ok)
    {
      if factor.None? || factor.value.enabled || now - factor.value.pendingAt > Seconds(600) { return false; }
      var row;
      row, ok := Check(otp, code, lowered, now, false);
      if !ok { return; }
      factor := Some(row.factor.(enabled := true, recovery := recovery));
      sessionVersion := sessionVersion + 1;
    }

    method DisableMfa(otp: Codes, code: string, lowered: string, now: Time) returns (ok: bool)
      modifies this
      ensures Does(otp, old(Snapshot()), Disable(code, lowered), now, ok)
    {
      if factor.None? || !factor.value.enabled { return false; }
      var row;
      row, ok := Check(otp, code, lowered, now, true);
      if !ok { return; }
      factor := Some(row.factor.(enabled := false, secret := "", recovery := []));
      sessionVersion := sessionVersion + 1;
    }

    method VerifyMfa(otp: Codes, code: string, lowered: string, now: Time) returns (ok: bool)
      modifies this
      ensures Does(otp, old(Snapshot()), VerifyLogin(code, lowered), now, ok)
    {
      if factor.None? || !factor.value.enabled { return true; }
      var row;
      row, ok := Check(otp, code, lowered, now, true);
      if ok { factor := Some(row.factor); }
    }

    method CompleteLogin(otp: Codes, ch: Challenge, code: string, lowered: string, clientIp: string, now: Time)
        returns (ok: bool)
      modifies this
      ensures Does(otp, old(Snapshot()), Complete(ch, code, lowered, clientIp), now, ok)
    {
      if clientIp != ch.clientIp || Unix(now) >= ch.expiresAt { return false; }
      if !active || sessionVersion != ch.sessionVersion { return false; }
      if factor.None? || !factor.value.enabled || StateOf(factor.value) != ch.state { return false; }
      var row;
      row, ok := Check(otp, code, lowered, now, true);
      if ok { factor := Some(row.factor); }
    }
  }
}
