/** The indivisible commands keep their promises. */
module Keeping {
  import opened Text
  import opened Maps
  import opened Units
  import opened Totp
  import opened Accounts
  import opened Serial
  import opened Promises

  /** The tables after a command that decided this. */
  function After(db: Db, decided: Option<Writes>): Db {
    if decided.None? then db else Apply(db, decided.value)
  }

  /** What the caller gets: None when the request failed and was rolled back. */
  function Answer(decided: Option<Writes>): Option<Output> {
    if decided.None? then None else Some(decided.value.out)
  }

  lemma KeptAll(codes: map<CodeId, RecoveryCode>)
    ensures KeepCodes(codes, None) + map[] == codes
  {
  }

  /** Tables a write set leaves alone. */
  lemma AppliedToSessions(db: Db, wr: Writes, s: SessionId)
    requires wr.users == map[] && wr.tokens == map[] && wr.creds == map[] && wr.codes == map[] && wr.clearUnusedCodesOf.None?
    requires wr.sessions.Keys == {s}
    ensures Apply(db, wr) == db.(sessions := db.sessions[s := wr.sessions[s]], audit := db.audit + wr.audit)
  {
    PlusNothing(db.users);
    PlusNothing(db.tokens);
    PlusNothing(db.creds);
    KeptAll(db.codes);
    PlusOne(db.sessions, map[s := wr.sessions[s]], s);
    assert wr.sessions == map[s := wr.sessions[s]];
  }

  lemma AppliedToAudit(db: Db, wr: Writes)
    requires wr.users == map[] && wr.tokens == map[] && wr.creds == map[] && wr.codes == map[] && wr.clearUnusedCodesOf.None?
    requires wr.sessions == map[]
    ensures Apply(db, wr) == db.(audit := db.audit + wr.audit)
  {
    PlusNothing(db.users);
    PlusNothing(db.sessions);
    PlusNothing(db.tokens);
    PlusNothing(db.creds);
    KeptAll(db.codes);
  }

  lemma AppliedWithoutFactors(db: Db, wr: Writes, after: Db)
    requires wr.creds == map[] && wr.codes == map[] && wr.clearUnusedCodesOf.None?
    requires after.users == db.users + wr.users && after.tokens == db.tokens + wr.tokens && after.sessions == db.sessions + wr.sessions
    requires after.creds == db.creds && after.codes == db.codes && after.audit == db.audit + wr.audit
    ensures after == Apply(db, wr)
  {
    PlusNothing(db.creds);
    KeptAll(db.codes);
  }

  // ---- The factor check -------------------------------------------------------

  /** The newest submitted code of the window is what the step check finds, and it finds nothing else. */
  lemma StepIsNewest(cfg: Config, cred: Credential, digits: string, at: Time, step: int)
    ensures StepOf(cfg, cred, digits, at) == Some(step) <==> NewestMatch(cfg, cred.secret, digits, at, step)
  {
    assert forall x :: Matches(HotpOf(cfg, cred.secret), digits, x) <==> CodeAt(cfg, cred.secret, digits, x);
  }

  lemma AcceptedProves(cfg: Config, u: UserId, cred: Credential, sub: Submission, code: Option<RecoveryCode>, at: Time, f: Factor)
    ensures var check := CheckFactor(cfg, u, cred, sub, code, at);
      check.Accepted? && check.factor == f <==> Proves(cfg, u, cred, sub, code, at, f)
  {
    if sub.SubmittedTotp? && f.TotpStep? {
      StepIsNewest(cfg, cred, sub.digits, at, f.step);
    }
  }

  lemma ReplayReplays(cfg: Config, u: UserId, cred: Credential, sub: Submission, code: Option<RecoveryCode>, at: Time, step: int)
    ensures var check := CheckFactor(cfg, u, cred, sub, code, at);
      check == Replay(NoWrites.(audit := [AuditRow.ReplayRejected(u, step)])) <==> Replays(cfg, cred, sub, at, step)
  {
    if sub.SubmittedTotp? {
      StepIsNewest(cfg, cred, sub.digits, at, step);
    }
  }

  // ---- Command by command -----------------------------------------------------

  lemma AtomicLoginKept(cfg: Config, db: Db, s: SessionId, u: UserId, password: string, gate: bool, at: Time)
    ensures var decided := AtomicLogin(cfg, db, s, u, password, gate, at);
      LoginKept(cfg, db, s, u, password, gate, at, Answer(decided), After(db, decided))
  {
    var decided := AtomicLogin(cfg, db, s, u, password, gate, at);
    if decided.Some? && decided.value.out.Challenge? {
      AppliedToAudit(db, decided.value);
    } else if decided.Some? {
      AppliedToSessions(db, decided.value, s);
    }
  }

  lemma AtomicRefreshKept(cfg: Config, db: Db, presented: RefreshToken, mfa: bool, at: Time)
    ensures var decided := AtomicRefresh(cfg, db, presented, mfa, at);
      RefreshKept(cfg, db, presented, mfa, at, Answer(decided), After(db, decided))
  {
    var decided := AtomicRefresh(cfg, db, presented, mfa, at);
    if decided.Some? {
      AppliedToSessions(db, decided.value, presented.session);
    }
  }

  lemma AtomicLogoutKept(db: Db, s: SessionId, at: Time)
    ensures var decided := AtomicLogout(db, s, at); LogoutKept(db, s, at, Answer(decided), After(db, decided))
  {
    var decided := AtomicLogout(db, s, at);
    if decided.Some? {
      AppliedToSessions(db, decided.value, s);
    }
  }

  lemma CountLive(sessions: map<SessionId, Session>, u: UserId, at: Time)
    ensures |RevokeAll(SessionsOf(sessions, u), at)| == |LiveSessions(sessions, u)|
  {
    assert RevokeAll(SessionsOf(sessions, u), at).Keys == LiveSessions(sessions, u);
  }

  lemma SessionsSwept(db: Db, u: UserId, at: Time)
    ensures LiveRevoked(db.sessions, db.sessions + RevokeAll(SessionsOf(db.sessions, u), at), u, at)
  {
  }

  lemma TokensSwept(db: Db, k: ResetId, u: UserId, visible: set<ResetId>, at: Time)
    requires k in db.tokens && db.tokens[k].owner == u
    ensures TokensSpent(db.tokens, db.tokens + ConsumeAll(Siblings(db, k, u, visible), at)[k := db.tokens[k].(usedAt := Some(at))], k, u, visible, at)
  {
  }

  lemma AtomicResetKept(db: Db, k: ResetId, newHash: string, visible: set<ResetId>, at: Time)
    ensures var decided := AtomicReset(db, k, newHash, visible, at);
      ResetKept(db, k, newHash, visible, at, Answer(decided), After(db, decided))
  {
    var decided := AtomicReset(db, k, newHash, visible, at);
    if decided.Some? {
      var u, wr := db.tokens[k].owner, decided.value;
      CountLive(db.sessions, u, at);
      SessionsSwept(db, u, at);
      TokensSwept(db, k, u, visible, at);
      PlusOne(db.users, wr.users, u);
      PlusNothing(db.creds);
      KeptAll(db.codes);
    }
  }

  lemma AtomicSetActiveKept(db: Db, u: UserId, active: bool, at: Time)
    ensures var decided := AtomicSetActive(db, u, active, at);
      SetActiveKept(db, u, active, at, Answer(decided), After(db, decided))
  {
    var decided := AtomicSetActive(db, u, active, at);
    if decided.Some? {
      CountLive(db.sessions, u, at);
      SessionsSwept(db, u, at);
      PlusOne(db.users, decided.value.users, u);
      PlusNothing(db.sessions);
      PlusNothing(db.tokens);
      PlusNothing(db.creds);
      KeptAll(db.codes);
    }
  }

  /** The tables after a factor was spent, with nothing else written. */
  lemma FactorSpent(cfg: Config, db: Db, u: UserId, sub: Submission, at: Time)
    requires u in db.creds && CheckFactor(cfg, u, db.creds[u], sub, CodeRowOf(db, sub), at).Accepted?
    ensures var check := CheckFactor(cfg, u, db.creds[u], sub, CodeRowOf(db, sub), at);
      && check.w == NoWrites.(creds := check.w.creds, codes := check.w.codes, audit := [SpentRow(u, check.factor)])
      && (check.factor.Recovery? ==> check.factor.code in db.codes)
      && Spent(db, u, check.factor, at, db.(creds := db.creds + check.w.creds, codes := db.codes + check.w.codes))
  {
    var check := CheckFactor(cfg, u, db.creds[u], sub, CodeRowOf(db, sub), at);
    PlusOne(db.creds, check.w.creds, u);
    if sub.SubmittedRecovery? {
      PlusOne(db.codes, check.w.codes, sub.code);
    } else {
      PlusNothing(db.codes);
    }
  }

  /** What the tables look like after a factor check that was not refused. */
  predicate FactorWritten(db: Db, wr: Writes, after: Db) {
    after == db.(creds := db.creds + wr.creds, codes := db.codes + wr.codes, audit := db.audit + wr.audit)
  }

  /** An answer and tables that follow the check. */
  predicate FollowsCheck(cfg: Config, db: Db, u: UserId, sub: Submission, at: Time, r: Verification, after: Db) {
    if u !in db.creds then r.NotVerified? && after == db
    else
      match CheckFactor(cfg, u, db.creds[u], sub, CodeRowOf(db, sub), at)
      case Refused => r.NotVerified? && after == db
      case Replay(w) => r.ReplayRejected? && FactorWritten(db, w, after)
      case Accepted(w, factor) => r == Verified(factor) && FactorWritten(db, w, after)
  }

  /** Following the check keeps the promise. */
  lemma CheckKept(cfg: Config, db: Db, u: UserId, sub: Submission, at: Time, r: Verification, after: Db)
    requires FollowsCheck(cfg, db, u, sub, at, r, after)
    ensures VerifyKept(cfg, db, u, sub, at, r, after)
  {
    if u in db.creds {
      var check := CheckFactor(cfg, u, db.creds[u], sub, CodeRowOf(db, sub), at);
      CheckTold(cfg, db, u, sub, at);
      if check.Accepted? {
        FactorSpent(cfg, db, u, sub, at);
        assert Good(cfg, db, u, sub, at, check.factor);
      } else if check.Replay? {
        PlusNothing(db.creds);
        PlusNothing(db.codes);
      }
    }
  }

  /** Three answers of the check, in the words of the promise. */
  lemma CheckTold(cfg: Config, db: Db, u: UserId, sub: Submission, at: Time)
    requires u in db.creds
    ensures var check := CheckFactor(cfg, u, db.creds[u], sub, CodeRowOf(db, sub), at);
      && (forall f :: Good(cfg, db, u, sub, at, f) <==> check.Accepted? && check.factor == f)
      && (forall step :: Stale(cfg, db, u, sub, at, step) <==> check == Replay(NoWrites.(audit := [AuditRow.ReplayRejected(u, step)])))
      && (check.Replay? ==> exists step :: Stale(cfg, db, u, sub, at, step))
  {
    var check := CheckFactor(cfg, u, db.creds[u], sub, CodeRowOf(db, sub), at);
    forall f ensures Good(cfg, db, u, sub, at, f) <==> check.Accepted? && check.factor == f {
      AcceptedProves(cfg, u, db.creds[u], sub, CodeRowOf(db, sub), at, f);
    }
    forall step ensures Stale(cfg, db, u, sub, at, step) <==> check == Replay(NoWrites.(audit := [AuditRow.ReplayRejected(u, step)])) {
      ReplayReplays(cfg, u, db.creds[u], sub, CodeRowOf(db, sub), at, step);
    }
    if check.Replay? {
      assert Stale(cfg, db, u, sub, at, StepOf(cfg, db.creds[u], sub.digits, at).value);
    }
  }

  lemma AtomicMfaLoginKept(cfg: Config, db: Db, s: SessionId, u: UserId, epoch: nat, sub: Submission, verifiedAt: Time, at: Time)
    ensures var decided := AtomicMfaLogin(cfg, db, s, u, epoch, sub, verifiedAt, at);
      MfaLoginKept(cfg, db, s, u, epoch, sub, verifiedAt, at, Answer(decided), After(db, decided))
  {
    var decided := AtomicMfaLogin(cfg, db, s, u, epoch, sub, verifiedAt, at);
    if u in db.creds {
      var check := CheckFactor(cfg, u, db.creds[u], sub, CodeRowOf(db, sub), verifiedAt);
      CheckTold(cfg, db, u, sub, verifiedAt);
      if check.Replay? {
        AppliedToAudit(db, check.w);
      } else if check.Accepted? {
        AcceptedLoginKept(cfg, db, s, u, epoch, sub, verifiedAt, at, check);
      }
    }
  }

  lemma AcceptedLoginKept(cfg: Config, db: Db, s: SessionId, u: UserId, epoch: nat, sub: Submission, verifiedAt: Time, at: Time, check: FactorCheck)
    requires u in db.creds && check == CheckFactor(cfg, u, db.creds[u], sub, CodeRowOf(db, sub), verifiedAt) && check.Accepted?
    ensures var decided := AtomicMfaLogin(cfg, db, s, u, epoch, sub, verifiedAt, at);
      MfaLoginKept(cfg, db, s, u, epoch, sub, verifiedAt, at, Answer(decided), After(db, decided))
  {
    var decided := AtomicMfaLogin(cfg, db, s, u, epoch, sub, verifiedAt, at);
    CheckTold(cfg, db, u, sub, verifiedAt);
    assert Good(cfg, db, u, sub, verifiedAt, check.factor);
    if decided.Some? {
      FactorSpent(cfg, db, u, sub, verifiedAt);
      MintedAfterFactor(cfg, db, s, u, check, verifiedAt, at);
    }
  }

  lemma MintedAfterFactor(cfg: Config, db: Db, s: SessionId, u: UserId, check: FactorCheck, verifiedAt: Time, at: Time)
    requires u in db.users && check.Accepted?
    requires check.w == NoWrites.(creds := check.w.creds, codes := check.w.codes, audit := [SpentRow(u, check.factor)])
    ensures var wr := Mint(cfg, check.w, s, u, db.users[u], Some(check.factor), verifiedAt, at);
      var after := Apply(db, wr);
      && Opens(cfg, db, s, u, Some(check.factor), verifiedAt, at, Some(wr.out), after.sessions)
      && after.users == db.users && after.tokens == db.tokens && after.creds == db.creds + check.w.creds
      && after.codes == db.codes + check.w.codes && after.audit == db.audit + [SpentRow(u, check.factor), LoggedIn(u, s)]
  {
    var wr := Mint(cfg, check.w, s, u, db.users[u], Some(check.factor), verifiedAt, at);
    PlusNothing(db.users);
    PlusNothing(db.tokens);
    PlusOne(db.sessions, wr.sessions, s);
    assert KeepCodes(db.codes, None) == db.codes;
  }

  lemma NewCodesStored(codes: map<CodeId, RecoveryCode>, u: UserId, newCodes: set<CodeId>)
    ensures CodesReplaced(codes, KeepCodes(codes, Some(u)) + map c | c in newCodes :: RecoveryCode(u, None), u, newCodes)
  {
  }

  lemma SetupSteps(cfg: Config, db: Db, u: UserId, digits: string, at: Time)
    requires u in db.creds
    ensures forall step :: NewestMatch(cfg, db.creds[u].secret, digits, at, step) <==> StepOf(cfg, db.creds[u], digits, at) == Some(step)
  {
    forall step ensures NewestMatch(cfg, db.creds[u].secret, digits, at, step) <==> StepOf(cfg, db.creds[u], digits, at) == Some(step) {
      StepIsNewest(cfg, db.creds[u], digits, at, step);
    }
  }

  lemma AtomicConfirmSetupKept(cfg: Config, db: Db, claims: AccessToken, digits: string, newCodes: set<CodeId>, at: Time)
    ensures var decided := AtomicConfirmSetup(cfg, db, claims, digits, newCodes, at);
      SetupKept(cfg, db, claims, digits, newCodes, at, Answer(decided), After(db, decided))
  {
    var u, decided := claims.user, AtomicConfirmSetup(cfg, db, claims, digits, newCodes, at);
    if u in db.creds {
      SetupSteps(cfg, db, u, digits, at);
    }
    if decided.Some? {
      PlusNothing(db.users);
      PlusNothing(db.sessions);
      PlusNothing(db.tokens);
      PlusOne(db.creds, decided.value.creds, u);
      NewCodesStored(db.codes, u, newCodes);
      assert NewestMatch(cfg, db.creds[u].secret, digits, at, decided.value.out.step);
    }
  }
}
