/**
 The commands as they are written: a database session whose tables they read and
 update statement by statement, and a transaction that is rolled back when a
 command raises. Run alone, each leaves the tables exactly where its indivisible
 form says, which is also what it commits under any interleaving.
 */
module Commands {
  import opened Text
  import opened Maps
  import opened Units
  import opened Totp
  import opened Accounts
  import opened Serial
  import opened Promises
  import opened Keeping
  import opened Entities

  function TokensOf(tokens: map<ResetId, ResetToken>, u: UserId): map<ResetId, ResetToken> {
    map k | k in tokens && tokens[k].owner == u :: tokens[k]
  }

  function UnusedOf(tokens: map<ResetId, ResetToken>, u: UserId): set<ResetId> {
    set k | k in tokens && tokens[k].owner == u && tokens[k].usedAt.None?
  }

  /** Row by row: the account's unused tokens are used at `at`, and nothing else about any row moved. */
  predicate UnusedConsumed(was: map<ResetId, ResetToken>, now: map<ResetId, ResetToken>, u: UserId, at: Time) {
    && now.Keys == was.Keys
    && forall k <- was.Keys :: now[k] == if k in UnusedOf(was, u) then was[k].(usedAt := Some(at)) else was[k]
  }

  lemma CountUnused(tokens: map<ResetId, ResetToken>, u: UserId, at: Time)
    ensures |ConsumeAll(TokensOf(tokens, u), at)| == |UnusedOf(tokens, u)|
  {
    assert ConsumeAll(TokensOf(tokens, u), at).Keys == UnusedOf(tokens, u);
  }

  /** The row-by-row description leaves only one table. */
  lemma RevokedTable(was: map<SessionId, Session>, now: map<SessionId, Session>, u: UserId, at: Time)
    requires LiveRevoked(was, now, u, at)
    ensures now == was + RevokeAll(SessionsOf(was, u), at) && |LiveSessions(was, u)| == |RevokeAll(SessionsOf(was, u), at)|
  {
    CountLive(was, u, at);
  }

  lemma ConsumedTable(was: map<ResetId, ResetToken>, now: map<ResetId, ResetToken>, u: UserId, at: Time)
    requires UnusedConsumed(was, now, u, at)
    ensures now == was + ConsumeAll(TokensOf(was, u), at)
  {
  }

  class Database {
    var users: map<UserId, User>
    var sessions: map<SessionId, Session>
    var tokens: map<ResetId, ResetToken>
    var creds: map<UserId, Credential>
    var codes: map<CodeId, RecoveryCode>
    var audit: seq<AuditRow>

    constructor (db: Db)
      ensures Tables() == db
    {
      users, sessions, tokens, creds, codes, audit := db.users, db.sessions, db.tokens, db.creds, db.codes, db.audit;
    }

    function Tables(): Db
      reads this
    {
      Db(users, sessions, tokens, creds, codes, audit)
    }

    /** What `get_session` does with a request that raises. */
    method Rollback(snapshot: Db)
      modifies this
      ensures Tables() == snapshot
    {
      users, sessions, tokens, creds, codes, audit :=
        snapshot.users, snapshot.sessions, snapshot.tokens, snapshot.creds, snapshot.codes, snapshot.audit;
    }

    method GetUser(u: UserId) returns (user: UserEntity?)
      ensures user == null <==> u !in users
      ensures user != null ==> fresh(user) && user.id == u && user.Row() == users[u]
    {
      if u in users { user := new UserEntity(u, users[u]); } else { user := null; }
    }

    method GetSession(s: SessionId) returns (session: SessionEntity?)
      ensures session == null <==> s !in sessions
      ensures session != null ==> fresh(session) && session.id == s && session.Row() == sessions[s]
    {
      if s in sessions { session := new SessionEntity(s, sessions[s]); } else { session := null; }
    }

    method GetResetToken(k: ResetId) returns (token: ResetTokenEntity?)
      ensures token == null <==> k !in tokens
      ensures token != null ==> fresh(token) && token.id == k && token.Row() == tokens[k]
    {
      if k in tokens { token := new ResetTokenEntity(k, tokens[k]); } else { token := null; }
    }

    method GetCredential(u: UserId) returns (cred: CredentialEntity?)
      ensures cred == null <==> u !in creds
      ensures cred != null ==> fresh(cred) && cred.user == u && cred.Row() == creds[u]
    {
      if u in creds { cred := new CredentialEntity(u, creds[u]); } else { cred := null; }
    }

    method GetUnusedCode(u: UserId, c: CodeId) returns (code: RecoveryCodeEntity?)
      ensures code == null <==> !(c in codes && codes[c].owner == u && codes[c].usedAt.None?)
      ensures code != null ==> fresh(code) && code.id == c && code.Row() == codes[c]
    {
      if c in codes && codes[c].owner == u && codes[c].usedAt.None? {
        code := new RecoveryCodeEntity(c, codes[c]);
      } else {
        code := null;
      }
    }

    /** `save` overwrites the columns it lists; a session's owner and expiry are not among them. */
    method SaveSession(session: SessionEntity)
      requires session.id in sessions
      modifies this
      ensures session.id in sessions && Tables() == old(Tables()).(sessions := old(sessions)[session.id := sessions[session.id]])
      ensures var row, was := sessions[session.id], old(sessions)[session.id];
        && row.owner == was.owner && row.expiresAt == was.expiresAt
        && row == session.Row().(owner := row.owner, expiresAt := row.expiresAt)
      ensures session.owner == old(sessions)[session.id].owner && session.expiresAt == old(sessions)[session.id].expiresAt ==>
        sessions[session.id] == session.Row()
    {
      sessions := sessions[session.id :=
        session.Row().(owner := sessions[session.id].owner, expiresAt := sessions[session.id].expiresAt)];
    }

    method SaveUser(user: UserEntity)
      requires user.id in users
      modifies this
      ensures Tables() == old(Tables()).(users := old(users)[user.id := user.Row()])
    {
      users := users[user.id := user.Row()];
    }

    method SaveResetToken(token: ResetTokenEntity)
      requires token.id in tokens
      modifies this
      ensures Tables() == old(Tables()).(tokens := old(tokens)[token.id := old(tokens)[token.id].(usedAt := token.usedAt)])
    {
      tokens := tokens[token.id := tokens[token.id].(usedAt := token.usedAt)];
    }

    method SaveCredential(cred: CredentialEntity)
      requires cred.user in creds
      modifies this
      ensures Tables() == old(Tables()).(creds := old(creds)[cred.user := cred.Row()])
    {
      creds := creds[cred.user := cred.Row()];
    }

    method SaveCode(code: RecoveryCodeEntity)
      requires code.id in codes
      modifies this
      ensures Tables() == old(Tables()).(codes := old(codes)[code.id := old(codes)[code.id].(usedAt := code.usedAt)])
    {
      codes := codes[code.id := codes[code.id].(usedAt := code.usedAt)];
    }

    /** One UPDATE over the account's live sessions. */
    method RevokeAllForUser(u: UserId, at: Time) returns (revoked: nat)
      modifies this
      ensures Tables() == old(Tables()).(sessions := sessions) && LiveRevoked(old(sessions), sessions, u, at)
      ensures revoked == |LiveSessions(old(sessions), u)| && LiveSessions(sessions, u) == {}
    {
      CountLive(sessions, u, at);
      var matching := RevokeAll(SessionsOf(sessions, u), at);
      sessions := sessions + matching;
      revoked := |matching|;
    }

    /** One UPDATE over the account's unused reset tokens. */
    method ConsumeOutstanding(u: UserId, at: Time) returns (consumed: nat)
      modifies this
      ensures Tables() == old(Tables()).(tokens := tokens) && UnusedConsumed(old(tokens), tokens, u, at)
      ensures consumed == |UnusedOf(old(tokens), u)| && UnusedOf(tokens, u) == {}
    {
      CountUnused(tokens, u, at);
      var matching := ConsumeAll(TokensOf(tokens, u), at);
      tokens := tokens + matching;
      consumed := |matching|;
    }

    method AddSession(s: SessionId, u: UserId, hash: TokenHash, expiresAt: Time)
      modifies this
      ensures Tables() == old(Tables()).(sessions := old(sessions)[s := Session(u, hash, 1, expiresAt, None, None, None, None)])
    {
      sessions := sessions[s := Session(u, hash, 1, expiresAt, None, None, None, None)];
    }

    method AddAudit(row: AuditRow)
      modifies this
      ensures Tables() == old(Tables()).(audit := old(audit) + [row])
    {
      audit := audit + [row];
    }

    method ReplaceUnusedCodes(u: UserId, newCodes: set<CodeId>)
      modifies this
      ensures Tables() == old(Tables()).(codes := KeepCodes(old(codes), Some(u)) + map c | c in newCodes :: RecoveryCode(u, None))
    {
      codes := KeepCodes(codes, Some(u));
      codes := codes + map c | c in newCodes :: RecoveryCode(u, None);
    }
  }

  /** The refresh token and its row, for a session that starts now. */
  method MintSession(cfg: Config, db: Database, sid: SessionId, user: UserEntity, factor: Option<Factor>, verifiedAt: Time, at: Time)
    returns (out: Output)
    modifies db
    ensures db.Tables() == old(db.Tables()).(
              sessions := old(db.sessions)[sid := Session(user.id, Sha256(RefreshToken(sid, 1, at + cfg.refreshLifetime, at)), 1,
                                                         at + cfg.refreshLifetime, None, None, None, None)],
              audit := old(db.audit) + [LoggedIn(user.id, sid)])
    ensures out == NewSession(sid, RefreshToken(sid, 1, at + cfg.refreshLifetime, at),
                              AccessFor(user.id, old(user.Row()), sid, factor.Some?), factor, verifiedAt)
  {
    var expiresAt := at + cfg.refreshLifetime;
    var refresh := RefreshToken(sid, 1, expiresAt, at);
    out := NewSession(sid, refresh, AccessFor(user.id, user.Row(), sid, factor.Some?), factor, verifiedAt);
    db.AddSession(sid, user.id, Sha256(refresh), expiresAt);
    db.AddAudit(LoggedIn(user.id, sid));
  }

  method Login(cfg: Config, db: Database, sid: SessionId, u: UserId, password: string, gate: bool, at: Time) returns (out: Option<Output>)
    modifies db
    ensures var decided := AtomicLogin(cfg, old(db.Tables()), sid, u, password, gate, at);
      out == Answer(decided) && db.Tables() == After(old(db.Tables()), decided)
    ensures LoginKept(cfg, old(db.Tables()), sid, u, password, gate, at, out, db.Tables())
  {
    AtomicLoginKept(cfg, db.Tables(), sid, u, password, gate, at);
    var seen := db.GetUser(u);
    if seen == null || seen.deleted {
      return None;
    }
    var verifiedHash := seen.passwordHash;
    if !cfg.argon2(password, verifiedHash) || !seen.Row().CanAuthenticate() {
      return None;
    }
    var user := db.GetUser(u);
    if user == null || !user.Row().CanAuthenticate() || user.passwordHash != verifiedHash {
      return None;
    }
    ghost var before := db.Tables();
    ghost var decided := DecideLogin(cfg, sid, u, user.Row(), user.role == Admin && gate, at);
    if user.role == Admin && gate {
      db.AddAudit(ChallengeIssued(u));
      AppliedToAudit(before, decided);
      return Some(Challenge(u, user.epoch));
    }
    var minted := MintSession(cfg, db, sid, user, None, at, at);
    AppliedToSessions(before, decided, sid);
    assert [] + [LoggedIn(u, sid)] == [LoggedIn(u, sid)];
    return Some(minted);
  }

  method Refresh(cfg: Config, db: Database, presented: RefreshToken, mfa: bool, at: Time) returns (out: Option<Output>)
    modifies db
    ensures var decided := AtomicRefresh(cfg, old(db.Tables()), presented, mfa, at);
      out == Answer(decided) && db.Tables() == After(old(db.Tables()), decided)
    ensures RefreshKept(cfg, old(db.Tables()), presented, mfa, at, out, db.Tables())
  {
    AtomicRefreshKept(cfg, db.Tables(), presented, mfa, at);
    var sid := presented.session;
    if sid !in db.sessions {
      return None;
    }
    ghost var before := db.Tables();
    var ownerId := db.sessions[sid].owner;
    var user := db.GetUser(ownerId);
    var session := db.GetSession(sid);
    var verdict := AuthorizeRotation(session.Row(), presented, at);
    if verdict == Reused {
      session.MarkReuseDetected(at);
      db.SaveSession(session);
      db.AddAudit(ReuseDetected(session.owner, sid));
      AppliedToSessions(before, AtomicRefresh(cfg, before, presented, mfa, at).value, sid);
      return Some(Nothing);
    }
    if verdict != Authorized {
      return None;
    }
    if user == null || !user.Row().CanAuthenticate() {
      session.Revoke(at);
      db.SaveSession(session);
      AppliedToSessions(before, AtomicRefresh(cfg, before, presented, mfa, at).value, sid);
      return Some(Nothing);
    }
    var refresh := RefreshToken(sid, session.version + 1, session.expiresAt, at);
    session.Rotate(Sha256(refresh), at);
    db.SaveSession(session);
    AppliedToSessions(before, AtomicRefresh(cfg, before, presented, mfa, at).value, sid);
    return Some(Rotation(presented, refresh, AccessFor(ownerId, user.Row(), sid, mfa)));
  }

  method Logout(db: Database, sid: SessionId, at: Time) returns (out: Option<Output>)
    modifies db
    ensures var decided := AtomicLogout(old(db.Tables()), sid, at);
      out == Answer(decided) && db.Tables() == After(old(db.Tables()), decided)
    ensures LogoutKept(old(db.Tables()), sid, at, out, db.Tables())
  {
    AtomicLogoutKept(db.Tables(), sid, at);
    ghost var before := db.Tables();
    var session := db.GetSession(sid);
    if session == null || session.revokedAt.Some? {
      return None;
    }
    session.Revoke(at);
    db.SaveSession(session);
    db.AddAudit(LoggedOut(session.owner, sid));
    AppliedToSessions(before, AtomicLogout(before, sid, at).value, sid);
    return Some(Nothing);
  }

  /** Both UPDATEs of a reset, whose own token is already used by the time the first one runs. */
  lemma ResetTokensConsumed(db: Db, k: ResetId, at: Time)
    requires k in db.tokens && db.tokens[k].usedAt.None?
    ensures var u, spent := db.tokens[k].owner, db.tokens[k := db.tokens[k].(usedAt := Some(at))];
      spent + ConsumeAll(TokensOf(spent, u), at)
      == db.tokens + ConsumeAll(Siblings(db, k, u, db.tokens.Keys), at)[k := db.tokens[k].(usedAt := Some(at))]
  {
  }

  /** The write set of a reset, table by table. */
  lemma ResetWrites(db: Db, k: ResetId, newHash: string, at: Time)
    requires k in db.tokens && db.tokens[k].owner in db.users && Redeemable(db.tokens[k], db.users[db.tokens[k].owner], at)
    ensures var u, decided := db.tokens[k].owner, AtomicReset(db, k, newHash, db.tokens.Keys, at);
      && decided.Some?
      && decided.value.users == map[u := db.users[u].(passwordHash := newHash, epoch := db.users[u].epoch + 1)]
      && decided.value.tokens == ConsumeAll(Siblings(db, k, u, db.tokens.Keys), at)[k := db.tokens[k].(usedAt := Some(at))]
      && decided.value.sessions == RevokeAll(SessionsOf(db.sessions, u), at)
      && decided.value.creds == map[] && decided.value.codes == map[] && decided.value.clearUnusedCodesOf.None?
      && decided.value.audit == [PasswordReset(u, |RevokeAll(SessionsOf(db.sessions, u), at)|)] && decided.value.out == Redemption(k)
  {
  }

  /** The tables those statements leave are the ones the write set describes. */
  lemma ResetApplied(db: Db, k: ResetId, u: UserId, newHash: string, at: Time, row: User, spent: map<ResetId, ResetToken>, after: Db)
    requires k in db.tokens && db.tokens[k].owner == u && u in db.users && Redeemable(db.tokens[k], db.users[u], at)
    requires spent == db.tokens[k := db.tokens[k].(usedAt := Some(at))]
    requires row == db.users[u].(passwordHash := newHash, epoch := db.users[u].epoch + 1)
    requires after.users == db.users[u := row] && after.tokens == spent + ConsumeAll(TokensOf(spent, u), at)
    requires after.sessions == db.sessions + RevokeAll(SessionsOf(db.sessions, u), at)
    requires after.creds == db.creds && after.codes == db.codes
    requires after.audit == db.audit + [PasswordReset(u, |RevokeAll(SessionsOf(db.sessions, u), at)|)]
    ensures var decided := AtomicReset(db, k, newHash, db.tokens.Keys, at);
      decided.Some? && decided.value.out == Redemption(k) && after == Apply(db, decided.value)
  {
    ResetWrites(db, k, newHash, at);
    var wr := AtomicReset(db, k, newHash, db.tokens.Keys, at).value;
    PlusOne(db.users, map[u := row], u);
    assert after.users == db.users + wr.users;
    ResetTokensConsumed(db, k, at);
    assert after.tokens == db.tokens + wr.tokens;
    assert after.sessions == db.sessions + wr.sessions;
    assert after.audit == db.audit + wr.audit;
    AppliedWithoutFactors(db, wr, after);
  }

  /** The statements a reset sends, in their order: token, account, sibling tokens, sessions, audit row. */
  method SendReset(db: Database, token: ResetTokenEntity, user: UserEntity, at: Time)
    requires token.id in db.tokens && user.id in db.users
    modifies db
    ensures db.users == old(db.users)[user.id := old(user.Row())] && db.creds == old(db.creds) && db.codes == old(db.codes)
    ensures UnusedConsumed(old(db.tokens)[token.id := old(db.tokens)[token.id].(usedAt := old(token.usedAt))], db.tokens, user.id, at)
    ensures LiveRevoked(old(db.sessions), db.sessions, user.id, at)
    ensures db.audit == old(db.audit) + [PasswordReset(user.id, |LiveSessions(old(db.sessions), user.id)|)]
  {
    db.SaveResetToken(token);
    db.SaveUser(user);
    var _ := db.ConsumeOutstanding(user.id, at);
    var revoked := db.RevokeAllForUser(user.id, at);
    db.AddAudit(PasswordReset(user.id, revoked));
  }

  method SaveReset(db: Database, token: ResetTokenEntity, user: UserEntity, ghost newHash: string, at: Time)
    requires token.id in db.tokens && db.tokens[token.id].owner == user.id && user.id in db.users
    requires Redeemable(db.tokens[token.id], db.users[user.id], at) && token.usedAt == Some(at)
    requires user.Row() == db.users[user.id].(passwordHash := newHash, epoch := db.users[user.id].epoch + 1)
    modifies db
    ensures var decided := AtomicReset(old(db.Tables()), token.id, newHash, old(db.tokens.Keys), at);
      decided.Some? && decided.value.out == Redemption(token.id) && db.Tables() == Apply(old(db.Tables()), decided.value)
  {
    ghost var before, k, u := db.Tables(), token.id, user.id;
    ghost var row, spent := user.Row(), before.tokens[k := before.tokens[k].(usedAt := Some(at))];
    SendReset(db, token, user, at);
    ConsumedTable(spent, db.tokens, u, at);
    RevokedTable(before.sessions, db.sessions, u, at);
    ResetApplied(before, k, u, newHash, at, row, spent, db.Tables());
  }

  method ConfirmReset(db: Database, k: ResetId, newHash: string, at: Time) returns (out: Option<Output>)
    modifies db
    ensures var decided := AtomicReset(old(db.Tables()), k, newHash, old(db.tokens.Keys), at);
      out == Answer(decided) && db.Tables() == After(old(db.Tables()), decided)
    ensures ResetKept(old(db.Tables()), k, newHash, old(db.tokens.Keys), at, out, db.Tables())
  {
    AtomicResetKept(db.Tables(), k, newHash, db.tokens.Keys, at);
    ghost var before := db.Tables();
    var token := db.GetResetToken(k);
    if token == null {
      return None;
    }
    var user := db.GetUser(token.owner);
    if user == null || !user.Row().CanAuthenticate() {
      return None;
    }
    var outcome := token.MarkUsed(at);
    if !outcome.Marked? {
      return None;
    }
    user.ChangePassword(newHash);
    user.InvalidateCredentials();
    assert user.Row() == before.users[user.id].(passwordHash := newHash, epoch := before.users[user.id].epoch + 1);
    assert token.usedAt == Some(at) && db.Tables() == before;
    SaveReset(db, token, user, newHash, at);
    return Some(Redemption(k));
  }

  lemma SetActiveApplied(db: Db, u: UserId, active: bool, at: Time, after: Db)
    requires u in db.users && !db.users[u].anonymized && !db.users[u].deleted && db.users[u].active != active
    requires after.tokens == db.tokens && after.creds == db.creds && after.codes == db.codes
    requires var ended := if active then map[] else RevokeAll(SessionsOf(db.sessions, u), at);
      && after.users == db.users[u := db.users[u].(active := active, epoch := db.users[u].epoch + if active then 0 else 1)]
      && after.sessions == (if active then db.sessions else db.sessions + ended)
      && after.audit == db.audit + [ActiveChanged(u, !active, active, |ended|)]
    ensures var decided := AtomicSetActive(db, u, active, at);
      decided.Some? && decided.value.out.Nothing? && after == Apply(db, decided.value)
  {
    var wr := AtomicSetActive(db, u, active, at).value;
    PlusOne(db.users, map[u := after.users[u]], u);
    assert after.users == db.users + wr.users;
    PlusNothing(db.sessions);
    PlusNothing(db.tokens);
    assert after.sessions == db.sessions + wr.sessions;
    AppliedWithoutFactors(db, wr, after);
  }

  method SetActive(db: Database, u: UserId, active: bool, at: Time) returns (out: Option<Output>)
    modifies db
    ensures var decided := AtomicSetActive(old(db.Tables()), u, active, at);
      out == Answer(decided) && db.Tables() == After(old(db.Tables()), decided)
    ensures SetActiveKept(old(db.Tables()), u, active, at, out, db.Tables())
  {
    AtomicSetActiveKept(db.Tables(), u, active, at);
    ghost var before := db.Tables();
    var user := db.GetUser(u);
    if user == null || user.anonymized || user.deleted {
      return None;
    }
    var beforeActive := user.active;
    var changed := user.SetActive(active);
    if !changed {
      return None;
    }
    var deactivating := beforeActive && !active;
    if deactivating {
      user.InvalidateCredentials();
    }
    assert user.Row() == before.users[u].(active := active, epoch := before.users[u].epoch + if deactivating then 1 else 0);
    assert db.Tables() == before;
    db.SaveUser(user);
    var revoked := 0;
    if deactivating {
      revoked := db.RevokeAllForUser(u, at);
      RevokedTable(before.sessions, db.sessions, u, at);
    }
    db.AddAudit(ActiveChanged(u, beforeActive, active, revoked));
    SetActiveApplied(before, u, active, at, db.Tables());
    return Some(Nothing);
  }

  // ---- MFA --------------------------------------------------------------------

  /** `VerifyMfa`: spends the factor, or records the replay, or leaves everything alone. */
  method VerifyMfa(cfg: Config, db: Database, u: UserId, sub: Submission, at: Time) returns (r: Verification)
    modifies db
    ensures FollowsCheck(cfg, old(db.Tables()), u, sub, at, r, db.Tables())
    ensures VerifyKept(cfg, old(db.Tables()), u, sub, at, r, db.Tables())
  {
    ghost var before := db.Tables();
    var cred := db.GetCredential(u);
    if cred == null || cred.enabledAt.None? {
      r := NotVerified;
      CheckKept(cfg, before, u, sub, at, r, db.Tables());
      return;
    }
    if sub.SubmittedRecovery? {
      var stored := db.GetUnusedCode(u, sub.code);
      if stored == null {
        r := NotVerified;
        CheckKept(cfg, before, u, sub, at, r, db.Tables());
        return;
      }
      var redeemed := stored.Redeem(at);
      db.SaveCode(stored);
      db.AddAudit(RecoveryCodeUsed(u));
      cred.MarkUsed(at);
      db.SaveCredential(cred);
      PlusOne(before.codes, map[sub.code := before.codes[sub.code].(usedAt := Some(at))], sub.code);
      PlusOne(before.creds, map[u := cred.Row()], u);
      r := Verified(Recovery(sub.code));
      CheckKept(cfg, before, u, sub, at, r, db.Tables());
      return;
    }
    var matched := VerifyCodeStep(HotpOf(cfg, cred.secret), sub.digits, at);
    if matched.None? {
      r := NotVerified;
      CheckKept(cfg, before, u, sub, at, r, db.Tables());
      return;
    }
    PlusNothing(before.codes);
    if cred.Row().Replayed(matched.value) {
      db.AddAudit(AuditRow.ReplayRejected(u, matched.value));
      PlusNothing(before.creds);
      r := Verification.ReplayRejected;
      CheckKept(cfg, before, u, sub, at, r, db.Tables());
      return;
    }
    cred.RecordTotpStep(matched.value, at);
    db.AddAudit(MfaVerified(u));
    db.SaveCredential(cred);
    PlusOne(before.creds, map[u := cred.Row()], u);
    r := Verified(TotpStep(u, matched.value));
    CheckKept(cfg, before, u, sub, at, r, db.Tables());
    return;
  }

  /** `CompleteMfaLogin`: the session half, on the account as it now stands. */
  method CompleteMfaLogin(cfg: Config, db: Database, sid: SessionId, u: UserId, epoch: nat, factor: Factor, verifiedAt: Time, at: Time)
    returns (out: Option<Output>)
    modifies db
    ensures var mid := old(db.Tables());
      out.Some? <==> Stands(mid.users, u) && mid.users[u].epoch == epoch
    ensures out.None? ==> db.Tables() == old(db.Tables())
    ensures out.Some? ==>
      && Opens(cfg, old(db.Tables()), sid, u, Some(factor), verifiedAt, at, out, db.sessions)
      && db.Tables() == old(db.Tables()).(sessions := db.sessions, audit := old(db.audit) + [LoggedIn(u, sid)])
    ensures out.Some? ==>
      var mid, minted := old(db.Tables()), Mint(cfg, NoWrites, sid, u, old(db.users)[u], Some(factor), verifiedAt, at);
      && out == Some(minted.out)
      && db.Tables() == mid.(sessions := mid.sessions[sid := minted.sessions[sid]], audit := mid.audit + [LoggedIn(u, sid)])
  {
    var user := db.GetUser(u);
    if user == null || !user.Row().CanAuthenticate() || epoch != user.epoch {
      return None;
    }
    var minted := MintSession(cfg, db, sid, user, Some(factor), verifiedAt, at);
    return Some(minted);
  }

  lemma MfaApplied(db: Db, mid: Db, after: Db, cfg: Config, sid: SessionId, u: UserId, user: User, check: FactorCheck,
                   verifiedAt: Time, at: Time)
    requires check.Accepted? && FactorWritten(db, check.w, mid)
    requires check.w.users == map[] && check.w.sessions == map[] && check.w.tokens == map[] && check.w.clearUnusedCodesOf.None?
    requires var minted := Mint(cfg, NoWrites, sid, u, user, Some(check.factor), verifiedAt, at);
      after == mid.(sessions := mid.sessions[sid := minted.sessions[sid]], audit := mid.audit + [LoggedIn(u, sid)])
    ensures after == Apply(db, Mint(cfg, check.w, sid, u, user, Some(check.factor), verifiedAt, at))
  {
    var wr := Mint(cfg, check.w, sid, u, user, Some(check.factor), verifiedAt, at);
    PlusNothing(db.users);
    PlusNothing(db.tokens);
    PlusOne(db.sessions, map[sid := wr.sessions[sid]], sid);
    assert KeepCodes(db.codes, None) == db.codes;
    assert db.audit + check.w.audit + [LoggedIn(u, sid)] == db.audit + (check.w.audit + [LoggedIn(u, sid)]);
  }

  lemma ReplayApplied(db: Db, wr: Writes, after: Db)
    requires FactorWritten(db, wr, after)
    requires wr.users == map[] && wr.sessions == map[] && wr.tokens == map[] && wr.clearUnusedCodesOf.None?
    ensures after == Apply(db, wr)
  {
    PlusNothing(db.users);
    PlusNothing(db.tokens);
    PlusNothing(db.sessions);
    assert KeepCodes(db.codes, None) == db.codes;
  }

  lemma FactorWritesNoSession(cfg: Config, u: UserId, cred: Credential, sub: Submission, code: Option<RecoveryCode>, at: Time)
    ensures var check := CheckFactor(cfg, u, cred, sub, code, at);
      !check.Refused? ==>
        check.w.users == map[] && check.w.sessions == map[] && check.w.tokens == map[] && check.w.clearUnusedCodesOf.None? && check.w.out.Nothing?
  {
  }

  /** The `/auth/mfa/verify` route: a spent factor whose session is then refused is rolled back with it. */
  method MfaLogin(cfg: Config, db: Database, sid: SessionId, u: UserId, epoch: nat, sub: Submission, verifiedAt: Time, at: Time)
    returns (out: Option<Output>)
    modifies db
    ensures var decided := AtomicMfaLogin(cfg, old(db.Tables()), sid, u, epoch, sub, verifiedAt, at);
      out == Answer(decided) && db.Tables() == After(old(db.Tables()), decided)
    ensures MfaLoginKept(cfg, old(db.Tables()), sid, u, epoch, sub, verifiedAt, at, out, db.Tables())
  {
    AtomicMfaLoginKept(cfg, db.Tables(), sid, u, epoch, sub, verifiedAt, at);
    var snapshot := db.Tables();
    var verification := VerifyMfa(cfg, db, u, sub, verifiedAt);
    if verification.NotVerified? {
      return None;
    }
    ghost var check := CheckFactor(cfg, u, snapshot.creds[u], sub, CodeRowOf(snapshot, sub), verifiedAt);
    FactorWritesNoSession(cfg, u, snapshot.creds[u], sub, CodeRowOf(snapshot, sub), verifiedAt);
    if verification.ReplayRejected? {
      ReplayApplied(snapshot, check.w, db.Tables());
      return Some(Nothing);
    }
    ghost var mid := db.Tables();
    out := CompleteMfaLogin(cfg, db, sid, u, epoch, verification.factor, verifiedAt, at);
    if out.None? {
      db.Rollback(snapshot);
    } else {
      MfaApplied(snapshot, mid, db.Tables(), cfg, sid, u, snapshot.users[u], check, verifiedAt, at);
    }
  }

  method ConfirmSetup(cfg: Config, db: Database, claims: AccessToken, digits: string, newCodes: set<CodeId>, at: Time)
    returns (out: Option<Output>)
    modifies db
    ensures var decided := AtomicConfirmSetup(cfg, old(db.Tables()), claims, digits, newCodes, at);
      out == Answer(decided) && db.Tables() == After(old(db.Tables()), decided)
    ensures SetupKept(cfg, old(db.Tables()), claims, digits, newCodes, at, out, db.Tables())
  {
    AtomicConfirmSetupKept(cfg, db.Tables(), claims, digits, newCodes, at);
    ghost var before := db.Tables();
    var u := claims.user;
    var cred := db.GetCredential(u);
    if cred == null || cred.enabledAt.Some? {
      return None;
    }
    var matched := VerifyCodeStep(HotpOf(cfg, cred.secret), digits, at);
    if matched.None? {
      return None;
    }
    cred.Enable(at);
    cred.RecordTotpStep(matched.value, at);
    db.SaveCredential(cred);
    db.ReplaceUnusedCodes(u, newCodes);
    db.AddAudit(MfaEnabled(u));
    PlusNothing(before.users);
    PlusNothing(before.sessions);
    PlusNothing(before.tokens);
    PlusOne(before.creds, map[u := cred.Row()], u);
    return Some(Enrolment(u, matched.value, at, claims.(mfa := true)));
  }
}
