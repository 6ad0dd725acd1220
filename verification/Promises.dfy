/**
 What each command promises, rule by rule and row by row: what its caller is told
 and what the tables hold afterwards. Nothing here refers to how a command comes
 to its decision.
 */
module Promises {
  import opened Text
  import opened Units
  import opened Accounts

  /** There is such an account, and nothing bars it from signing in. */
  predicate Stands(users: map<UserId, User>, u: UserId) {
    u in users && users[u].active && !users[u].anonymized && !users[u].deleted
  }

  /** Refused: the caller gets an error and the tables are as they were. */
  predicate Refuses(db: Db, out: Option<Output>, after: Db) {
    out.None? && after == db
  }

  /** A session of `u` starts: its row, its first refresh token and its access token. */
  predicate Opens(cfg: Config, db: Db, s: SessionId, u: UserId, factor: Option<Factor>, verifiedAt: Time, at: Time,
                  out: Option<Output>, sessions: map<SessionId, Session>)
    requires u in db.users
  {
    var user, deadline := db.users[u], at + cfg.refreshLifetime;
    var refresh := RefreshToken(s, 1, deadline, at);
    && out == Some(NewSession(s, refresh, AccessToken(u, s, user.role, user.emailVerified, factor.Some?, user.epoch), factor, verifiedAt))
    && sessions == db.sessions[s := Session(u, Sha256(refresh), 1, deadline, None, None, None, None)]
  }

  // ---- Passwords and sessions -------------------------------------------------

  /** The right password opens a session, unless the account is an admin's and the gate asks for a second factor. */
  predicate LoginKept(cfg: Config, db: Db, s: SessionId, u: UserId, password: string, gate: bool, at: Time, out: Option<Output>, after: Db) {
    var entitled := Stands(db.users, u) && cfg.argon2(password, db.users[u].passwordHash);
    && (!entitled ==> Refuses(db, out, after))
    && (entitled && db.users[u].role == Admin && gate ==>
          out == Some(Challenge(u, db.users[u].epoch)) && after == db.(audit := db.audit + [ChallengeIssued(u)]))
    && (entitled && !(db.users[u].role == Admin && gate) ==>
          && Opens(cfg, db, s, u, None, at, at, out, after.sessions)
          && after == db.(sessions := after.sessions, audit := db.audit + [LoggedIn(u, s)]))
  }

  /** The latest token of a live session rotates it, an older one ends it, any other is refused. */
  predicate RefreshKept(cfg: Config, db: Db, presented: RefreshToken, mfa: bool, at: Time, out: Option<Output>, after: Db) {
    var s := presented.session;
    if s !in db.sessions then Refuses(db, out, after)
    else
      var row := db.sessions[s];
      var live := row.revokedAt.None? && at < row.expiresAt;
      var latest := presented.version == row.version && row.tokenHash == Sha256(presented);
      && (!live || (presented.version >= row.version && !latest) ==> Refuses(db, out, after))
      && (live && presented.version < row.version ==>
            && out == Some(Nothing)
            && after == db.(sessions := db.sessions[s := row.(revokedAt := Some(at), reuseDetectedAt := Some(at))],
                            audit := db.audit + [ReuseDetected(row.owner, s)]))
      && (live && latest && !Stands(db.users, row.owner) ==>
            out == Some(Nothing) && after == db.(sessions := db.sessions[s := row.(revokedAt := Some(at))]))
      && (live && latest && Stands(db.users, row.owner) ==> Rotates(db, presented, mfa, at, out, after))
  }

  predicate Rotates(db: Db, presented: RefreshToken, mfa: bool, at: Time, out: Option<Output>, after: Db)
    requires presented.session in db.sessions && db.sessions[presented.session].owner in db.users
  {
    var s := presented.session;
    var row, user := db.sessions[s], db.users[db.sessions[s].owner];
    var refresh := RefreshToken(s, row.version + 1, row.expiresAt, at);
    && out == Some(Rotation(presented, refresh, AccessToken(row.owner, s, user.role, user.emailVerified, mfa, user.epoch)))
    && after == db.(sessions := db.sessions[s := row.(
                      tokenHash := Sha256(refresh), version := row.version + 1, rotatedAt := Some(at), lastUsedAt := Some(at))])
  }

  /** Whatever it found, afterwards the session does not work; if it still worked, the log has one row more. */
  predicate LogoutKept(db: Db, s: SessionId, at: Time, out: Option<Output>, after: Db) {
    var live := s in db.sessions && db.sessions[s].revokedAt.None?;
    && (s in after.sessions ==> after.sessions[s].revokedAt.Some?)
    && (!live ==> Refuses(db, out, after))
    && (live ==>
          && out == Some(Nothing)
          && after == db.(sessions := db.sessions[s := db.sessions[s].(revokedAt := Some(at))],
                          audit := db.audit + [LoggedOut(db.sessions[s].owner, s)]))
  }

  // ---- Resets and activation --------------------------------------------------

  /** Row by row: the account's live sessions are revoked at `at`, and nothing else about any row moved. */
  predicate LiveRevoked(was: map<SessionId, Session>, now: map<SessionId, Session>, u: UserId, at: Time) {
    && now.Keys == was.Keys
    && forall s <- was.Keys :: now[s] == if s in LiveSessions(was, u) then was[s].(revokedAt := Some(at)) else was[s]
  }

  /** Row by row: `k` and the account's other unused tokens, as far as they were visible, are used at `at`. */
  predicate TokensSpent(was: map<ResetId, ResetToken>, now: map<ResetId, ResetToken>, k: ResetId, u: UserId, visible: set<ResetId>, at: Time) {
    && now.Keys == was.Keys
    && forall x <- was.Keys ::
         now[x] == if x == k || (x in visible && was[x].owner == u && was[x].usedAt.None?) then was[x].(usedAt := Some(at)) else was[x]
  }

  /** An unused, unexpired token of an account in good standing changes its password and ends all its sessions. */
  predicate ResetKept(db: Db, k: ResetId, newHash: string, visible: set<ResetId>, at: Time, out: Option<Output>, after: Db) {
    var good := k in db.tokens && db.tokens[k].usedAt.None? && at < db.tokens[k].expiresAt && Stands(db.users, db.tokens[k].owner);
    && (!good ==> Refuses(db, out, after))
    && (good ==>
          var u := db.tokens[k].owner;
          && out == Some(Redemption(k))
          && after.users == db.users[u := db.users[u].(passwordHash := newHash, epoch := db.users[u].epoch + 1)]
          && TokensSpent(db.tokens, after.tokens, k, u, visible, at) && LiveRevoked(db.sessions, after.sessions, u, at)
          && after.creds == db.creds && after.codes == db.codes
          && after.audit == db.audit + [PasswordReset(u, |LiveSessions(db.sessions, u)|)])
  }

  /** The flag moves if it can; switching it off also advances the epoch and ends the account's sessions. */
  predicate SetActiveKept(db: Db, u: UserId, active: bool, at: Time, out: Option<Output>, after: Db) {
    var moves := u in db.users && !db.users[u].anonymized && !db.users[u].deleted && db.users[u].active != active;
    && (!moves ==> Refuses(db, out, after))
    && (moves ==> out == Some(Nothing) && after.tokens == db.tokens && after.creds == db.creds && after.codes == db.codes)
    && (moves && active ==>
          && after.users == db.users[u := db.users[u].(active := true)] && after.sessions == db.sessions
          && after.audit == db.audit + [ActiveChanged(u, false, true, 0)])
    && (moves && !active ==>
          && after.users == db.users[u := db.users[u].(active := false, epoch := db.users[u].epoch + 1)]
          && LiveRevoked(db.sessions, after.sessions, u, at)
          && after.audit == db.audit + [ActiveChanged(u, true, false, |LiveSessions(db.sessions, u)|)])
  }

  // ---- Second factors ---------------------------------------------------------

  /** The submitted digits are the code of `step` under this secret. */
  predicate CodeAt(cfg: Config, secret: string, digits: string, step: int) {
    IsAscii(Strip(digits)) && cfg.hotp(secret, step) == Strip(digits)
  }

  /** Of the 30-second step at `at` and its two neighbours, `step` is the newest whose code was submitted. */
  predicate NewestMatch(cfg: Config, secret: string, digits: string, at: Time, step: int) {
    var now := at / 1_000_000 / 30;
    && now - 1 <= step <= now + 1 && CodeAt(cfg, secret, digits, step)
    && (step < now + 1 ==> !CodeAt(cfg, secret, digits, now + 1))
    && (step < now ==> !CodeAt(cfg, secret, digits, now))
  }

  /** The factor a submission proves: a code of a step past the credential's mark, or a recovery code still unused. */
  predicate Proves(cfg: Config, u: UserId, cred: Credential, sub: Submission, code: Option<RecoveryCode>, at: Time, factor: Factor) {
    && cred.enabledAt.Some?
    && match sub
       case SubmittedTotp(digits) =>
         && factor.TotpStep? && factor.user == u && NewestMatch(cfg, cred.secret, digits, at, factor.step)
         && (cred.lastStep.Some? ==> cred.lastStep.value < factor.step)
       case SubmittedRecovery(c) =>
         factor == Recovery(c) && code.Some? && code.value.owner == u && code.value.usedAt.None?
  }

  /** The submission is a right code, but of a step the credential's mark has reached. */
  predicate Replays(cfg: Config, cred: Credential, sub: Submission, at: Time, step: int) {
    && cred.enabledAt.Some? && sub.SubmittedTotp? && NewestMatch(cfg, cred.secret, sub.digits, at, step)
    && cred.lastStep.Some? && step <= cred.lastStep.value
  }

  /** The recovery-code row a submission names. */
  function CodeRowOf(db: Db, sub: Submission): Option<RecoveryCode> {
    if sub.SubmittedRecovery? then Get(db.codes, sub.code) else None
  }

  predicate Good(cfg: Config, db: Db, u: UserId, sub: Submission, at: Time, factor: Factor) {
    u in db.creds && Proves(cfg, u, db.creds[u], sub, CodeRowOf(db, sub), at, factor)
  }

  predicate Stale(cfg: Config, db: Db, u: UserId, sub: Submission, at: Time, step: int) {
    u in db.creds && Replays(cfg, db.creds[u], sub, at, step)
  }

  /** Exactly this factor is spent: a step moves the credential's mark to itself, a code is used up. */
  predicate Spent(db: Db, u: UserId, factor: Factor, at: Time, after: Db)
    requires u in db.creds && (factor.Recovery? ==> factor.code in db.codes)
  {
    match factor
    case TotpStep(_, step) =>
      after.creds == db.creds[u := db.creds[u].(lastStep := Some(step), lastUsedAt := Some(at))] && after.codes == db.codes
    case Recovery(c) =>
      after.creds == db.creds[u := db.creds[u].(lastUsedAt := Some(at))] && after.codes == db.codes[c := db.codes[c].(usedAt := Some(at))]
  }

  function SpentRow(u: UserId, factor: Factor): AuditRow {
    if factor.Recovery? then RecoveryCodeUsed(u) else MfaVerified(u)
  }

  datatype Verification = NotVerified | ReplayRejected | Verified(factor: Factor)

  /** A good factor is spent and audited, a replay is audited only, and anything else leaves no trace. */
  ghost predicate VerifyKept(cfg: Config, db: Db, u: UserId, sub: Submission, at: Time, r: Verification, after: Db) {
    && after.users == db.users && after.sessions == db.sessions && after.tokens == db.tokens
    && (forall f :: Good(cfg, db, u, sub, at, f) ==>
          r == Verified(f) && Spent(db, u, f, at, after) && after.audit == db.audit + [SpentRow(u, f)])
    && (forall step :: Stale(cfg, db, u, sub, at, step) ==>
          r == Verification.ReplayRejected && after == db.(audit := db.audit + [AuditRow.ReplayRejected(u, step)]))
    && (r.Verified? ==> Good(cfg, db, u, sub, at, r.factor))
    && (r.ReplayRejected? ==> exists step :: Stale(cfg, db, u, sub, at, step))
    && (r.NotVerified? ==> after == db)
  }

  /** The whole request: a good factor opens a session of its account, if that still stands in the challenge's epoch. */
  ghost predicate MfaLoginKept(cfg: Config, db: Db, s: SessionId, u: UserId, epoch: nat, sub: Submission, verifiedAt: Time, at: Time,
                               out: Option<Output>, after: Db)
  {
    var admitted := Stands(db.users, u) && db.users[u].epoch == epoch;
    && (forall f :: Good(cfg, db, u, sub, verifiedAt, f) && admitted ==>
          && Opens(cfg, db, s, u, Some(f), verifiedAt, at, out, after.sessions) && Spent(db, u, f, verifiedAt, after)
          && after.users == db.users && after.tokens == db.tokens && after.audit == db.audit + [SpentRow(u, f), LoggedIn(u, s)])
    && (forall step :: Stale(cfg, db, u, sub, verifiedAt, step) ==>
          out == Some(Nothing) && after == db.(audit := db.audit + [AuditRow.ReplayRejected(u, step)]))
    && (out.Some? ==>
          || (admitted && exists f :: Good(cfg, db, u, sub, verifiedAt, f))
          || exists step :: Stale(cfg, db, u, sub, verifiedAt, step))
    && (out.None? ==> after == db)
  }

  /** The account's unused recovery codes make way for the new ones. */
  predicate CodesReplaced(was: map<CodeId, RecoveryCode>, now: map<CodeId, RecoveryCode>, u: UserId, newCodes: set<CodeId>) {
    && now.Keys == (set c | c in was && !(was[c].owner == u && was[c].usedAt.None?)) + newCodes
    && forall c <- now.Keys :: now[c] == if c in newCodes then RecoveryCode(u, None) else was[c]
  }

  /** A code of the unconfirmed secret enables the credential and is itself spent by doing so. */
  ghost predicate SetupKept(cfg: Config, db: Db, claims: AccessToken, digits: string, newCodes: set<CodeId>, at: Time,
                            out: Option<Output>, after: Db)
  {
    var u := claims.user;
    var pending := u in db.creds && db.creds[u].enabledAt.None?;
    && (forall step :: pending && NewestMatch(cfg, db.creds[u].secret, digits, at, step) ==>
          var cred := db.creds[u];
          var mark := if cred.lastStep.Some? && cred.lastStep.value > step then cred.lastStep else Some(step);
          && out == Some(Enrolment(u, step, at, claims.(mfa := true)))
          && after.creds == db.creds[u := cred.(enabledAt := Some(at), lastUsedAt := Some(at), lastStep := mark)]
          && CodesReplaced(db.codes, after.codes, u, newCodes)
          && after.users == db.users && after.sessions == db.sessions && after.tokens == db.tokens
          && after.audit == db.audit + [MfaEnabled(u)])
    && (out.Some? ==> pending && exists step :: NewestMatch(cfg, db.creds[u].secret, digits, at, step))
    && (out.None? ==> after == db)
  }
}
