/**
 Identity rows, the tokens minted from them, and what each command decides once
 it has its rows in hand. A decision is a write set: the rows a transaction will
 overwrite or insert, the audit rows it appends, and what it hands to the caller.
 */
module Accounts {
  import opened Text
  import opened Units
  import opened Totp

  type UserId = nat
  type SessionId = nat
  type ResetId = nat
  type CodeId = nat

  /** The parts of the environment no property depends on: Argon2, HOTP and the session lifetime. */
  datatype Config = Config(
    argon2: (string, string) -> bool,
    hotp: (string, int) -> string,
    refreshLifetime: nat)

  // ---- Rows -------------------------------------------------------------------

  datatype Role = Customer | Admin

  datatype User = User(
    passwordHash: string, role: Role, emailVerified: bool,
    active: bool, anonymized: bool, deleted: bool, epoch: nat)
  {
    predicate CanAuthenticate() {
      active && !anonymized && !deleted
    }
  }

  /** A signed refresh token. Its signature cannot be forged and its SHA-256 is injective. */
  datatype RefreshToken = RefreshToken(session: SessionId, version: nat, expiresAt: Time, issuedAt: Time)

  /** Decoding's own expiry check: the `exp` claim is the session's deadline cut to whole seconds. */
  predicate Decodes(token: RefreshToken, at: Time) {
    at < token.expiresAt / SECOND * SECOND
  }

  datatype TokenHash = Sha256(token: RefreshToken)

  datatype AccessToken = AccessToken(
    user: UserId, session: SessionId, role: Role, emailVerified: bool, mfa: bool, epoch: nat)

  datatype Session = Session(
    owner: UserId, tokenHash: TokenHash, version: nat, expiresAt: Time,
    lastUsedAt: Option<Time>, rotatedAt: Option<Time>, revokedAt: Option<Time>, reuseDetectedAt: Option<Time>)
  {
    predicate Revoked() { revokedAt.Some? }
    predicate Expired(at: Time) { at >= expiresAt }
    predicate Live(at: Time) { !Revoked() && !Expired(at) }
  }

  datatype ResetToken = ResetToken(owner: UserId, expiresAt: Time, usedAt: Option<Time>)

  datatype Credential = Credential(
    secret: string, enabledAt: Option<Time>, lastUsedAt: Option<Time>, lastStep: Option<int>)
  {
    predicate Enabled() { enabledAt.Some? }
    predicate Replayed(step: int) { lastStep.Some? && step <= lastStep.value }
  }

  datatype RecoveryCode = RecoveryCode(owner: UserId, usedAt: Option<Time>)

  datatype AuditRow =
    | LoggedIn(user: UserId, session: SessionId)
    | ChallengeIssued(user: UserId)
    | LoggedOut(user: UserId, session: SessionId)
    | ReuseDetected(user: UserId, session: SessionId)
    | PasswordReset(user: UserId, sessionsRevoked: nat)
    | ActiveChanged(user: UserId, before: bool, after: bool, sessionsRevoked: nat)
    | MfaEnabled(user: UserId)
    | MfaVerified(user: UserId)
    | RecoveryCodeUsed(user: UserId)
    | ReplayRejected(user: UserId, step: int)

  datatype Db = Db(
    users: map<UserId, User>, sessions: map<SessionId, Session>, tokens: map<ResetId, ResetToken>,
    creds: map<UserId, Credential>, codes: map<CodeId, RecoveryCode>, audit: seq<AuditRow>)

  function Get<K, V>(m: map<K, V>, k: K): Option<V> {
    if k in m then Some(m[k]) else None
  }

  /** Nobody has signed up yet. */
  const EmptyDb := Db(map[], map[], map[], map[], map[], [])

  // ---- Entity rules -----------------------------------------------------------

  datatype Verdict = Authorized | SessionRevoked | SessionExpired | Reused | VersionAhead | HashMismatch

  function AuthorizeRotation(s: Session, presented: RefreshToken, at: Time): Verdict {
    if s.Revoked() then SessionRevoked
    else if s.Expired(at) then SessionExpired
    else if presented.version < s.version then Reused
    else if presented.version != s.version then VersionAhead
    else if Sha256(presented) != s.tokenHash then HashMismatch
    else Authorized
  }

  function Rotate(s: Session, hash: TokenHash, at: Time): Session {
    s.(tokenHash := hash, version := s.version + 1, rotatedAt := Some(at), lastUsedAt := Some(at))
  }

  function Revoke(s: Session, at: Time): Session {
    if s.Revoked() then s else s.(revokedAt := Some(at))
  }

  function MarkReuseDetected(s: Session, at: Time): Session {
    Revoke(s.(reuseDetectedAt := Some(at)), at)
  }

  function RecordStep(c: Credential, step: int, at: Time): Credential {
    c.(lastStep := Some(if c.lastStep.None? || c.lastStep.value <= step then step else c.lastStep.value),
       lastUsedAt := Some(at))
  }

  function Enable(c: Credential, at: Time): Credential {
    if c.Enabled() then c else c.(enabledAt := Some(at))
  }

  // ---- Write sets -------------------------------------------------------------

  /** A second factor that can be spent once. */
  datatype Factor = TotpStep(user: UserId, step: int) | Recovery(code: CodeId)

  /** What a committed transaction hands out. */
  datatype Output =
    | Nothing
    | NewSession(session: SessionId, refresh: RefreshToken, access: AccessToken, factor: Option<Factor>, verifiedAt: Time)
    | Rotation(presented: RefreshToken, refresh: RefreshToken, access: AccessToken)
    | Redemption(token: ResetId)
    | Challenge(user: UserId, epoch: nat)
    | Enrolment(user: UserId, step: int, verifiedAt: Time, access: AccessToken)

  datatype Writes = Writes(
    users: map<UserId, User>, sessions: map<SessionId, Session>, tokens: map<ResetId, ResetToken>,
    creds: map<UserId, Credential>, codes: map<CodeId, RecoveryCode>,
    clearUnusedCodesOf: Option<UserId>, audit: seq<AuditRow>, out: Output)

  const NoWrites := Writes(map[], map[], map[], map[], map[], None, [], Nothing)

  function KeepCodes(codes: map<CodeId, RecoveryCode>, clear: Option<UserId>): map<CodeId, RecoveryCode> {
    map c | c in codes && !(clear == Some(codes[c].owner) && codes[c].usedAt.None?) :: codes[c]
  }

  /** The committed tables after a write set lands on them. */
  function Apply(db: Db, w: Writes): Db {
    Db(db.users + w.users, db.sessions + w.sessions, db.tokens + w.tokens, db.creds + w.creds,
       KeepCodes(db.codes, w.clearUnusedCodesOf) + w.codes, db.audit + w.audit)
  }

  function AccessFor(u: UserId, user: User, s: SessionId, mfa: bool): AccessToken {
    AccessToken(u, s, user.role, user.emailVerified, mfa, user.epoch)
  }

  /** A fresh session of the locked account: its row, its tokens and its `user.logged_in` audit row. */
  function Mint(cfg: Config, w: Writes, sid: SessionId, u: UserId, user: User, factor: Option<Factor>,
                verifiedAt: Time, at: Time): Writes {
    var refresh := RefreshToken(sid, 1, at + cfg.refreshLifetime, at);
    w.(sessions := w.sessions[sid := Session(u, Sha256(refresh), 1, refresh.expiresAt, None, None, None, None)],
       audit := w.audit + [LoggedIn(u, sid)],
       out := NewSession(sid, refresh, AccessFor(u, user, sid, factor.Some?), factor, verifiedAt))
  }

  function LiveSessions(sessions: map<SessionId, Session>, u: UserId): set<SessionId> {
    set s | s in sessions && sessions[s].owner == u && !sessions[s].Revoked()
  }

  /** The live sessions among those a statement locked, each revoked. */
  function RevokeAll(sessions: map<SessionId, Session>, at: Time): map<SessionId, Session> {
    map s | s in sessions && !sessions[s].Revoked() :: Revoke(sessions[s], at)
  }

  /** The unused tokens among those a statement locked, each consumed. */
  function ConsumeAll(tokens: map<ResetId, ResetToken>, at: Time): map<ResetId, ResetToken> {
    map k | k in tokens && tokens[k].usedAt.None? :: tokens[k].(usedAt := Some(at))
  }

  // ---- Decisions --------------------------------------------------------------

  /** Login once the password is known to belong to the locked row. `challenge` is the answer of the MFA gate. */
  function DecideLogin(cfg: Config, sid: SessionId, u: UserId, user: User, challenge: bool, at: Time): Writes {
    if challenge then NoWrites.(audit := [ChallengeIssued(u)], out := Challenge(u, user.epoch))
    else Mint(cfg, NoWrites, sid, u, user, None, at, at)
  }

  /** Refresh, on the locked owner and session rows. None when the request fails and rolls back. */
  function DecideRefresh(cfg: Config, presented: RefreshToken, mfa: bool, owner: UserId, user: Option<User>,
                         s: Session, at: Time): Option<Writes> {
    match AuthorizeRotation(s, presented, at)
    case Reused =>
      Some(NoWrites.(sessions := map[presented.session := MarkReuseDetected(s, at)],
                     audit := [ReuseDetected(s.owner, presented.session)]))
    case Authorized =>
      if user.None? || !user.value.CanAuthenticate() then
        Some(NoWrites.(sessions := map[presented.session := Revoke(s, at)]))
      else
        var refresh := RefreshToken(presented.session, s.version + 1, s.expiresAt, at);
        Some(NoWrites.(sessions := map[presented.session := Rotate(s, Sha256(refresh), at)],
                       out := Rotation(presented, refresh, AccessFor(owner, user.value, presented.session, mfa))))
    case _ => None
  }

  function DecideLogout(sid: SessionId, s: Session, at: Time): Option<Writes> {
    if s.Revoked() then None
    else Some(NoWrites.(sessions := map[sid := Revoke(s, at)], audit := [LoggedOut(s.owner, sid)]))
  }

  /** Whether the locked reset token may be spent on the locked account. */
  predicate Redeemable(token: ResetToken, user: User, at: Time) {
    user.CanAuthenticate() && token.usedAt.None? && at < token.expiresAt
  }

  /** Reset: `siblings` and `sessions` are the rows its two UPDATE statements locked. */
  function DecideReset(k: ResetId, token: ResetToken, user: User, newHash: string,
                       siblings: map<ResetId, ResetToken>, sessions: map<SessionId, Session>, at: Time): Writes {
    var u := token.owner;
    var revoked := RevokeAll(sessions, at);
    NoWrites.(users := map[u := user.(passwordHash := newHash, epoch := user.epoch + 1)],
              tokens := ConsumeAll(siblings, at)[k := token.(usedAt := Some(at))],
              sessions := revoked,
              audit := [PasswordReset(u, |revoked|)],
              out := Redemption(k))
  }

  /** Activation: None when the account is terminal or already in the requested state. */
  function DecideSetActive(u: UserId, user: User, active: bool, sessions: map<SessionId, Session>, at: Time): Option<Writes> {
    if user.anonymized || user.deleted || user.active == active then None
    else if active then
      Some(NoWrites.(users := map[u := user.(active := true)], audit := [ActiveChanged(u, false, true, 0)]))
    else
      var revoked := RevokeAll(sessions, at);
      Some(NoWrites.(users := map[u := user.(active := false, epoch := user.epoch + 1)],
                     sessions := revoked,
                     audit := [ActiveChanged(u, true, false, |revoked|)]))
  }

  /** The factor a caller submits to `/auth/mfa/verify`. */
  datatype Submission = SubmittedTotp(digits: string) | SubmittedRecovery(code: CodeId)

  /** The factor check: refused, refused but with its audit row kept, or accepted. */
  datatype FactorCheck = Refused | Replay(w: Writes) | Accepted(w: Writes, factor: Factor)

  function HotpOf(cfg: Config, secret: string): int -> string {
    step => cfg.hotp(secret, step)
  }

  /** The step of the submitted code, judged against the credential's own secret at the given instant. */
  function StepOf(cfg: Config, cred: Credential, digits: string, at: Time): (r: Option<int>)
    ensures r.Some? ==> InWindow(r.value, CurrentStep(at))
  {
    MatchedStep(HotpOf(cfg, cred.secret), digits, CurrentStep(at))
  }

  function CheckFactor(cfg: Config, u: UserId, cred: Credential, sub: Submission, code: Option<RecoveryCode>, at: Time): FactorCheck {
    if !cred.Enabled() then Refused
    else match sub
      case SubmittedRecovery(c) =>
        if code.None? || code.value.owner != u || code.value.usedAt.Some? then Refused
        else Accepted(NoWrites.(codes := map[c := code.value.(usedAt := Some(at))],
                                creds := map[u := cred.(lastUsedAt := Some(at))],
                                audit := [RecoveryCodeUsed(u)]),
                      Recovery(c))
      case SubmittedTotp(digits) =>
        var matched := StepOf(cfg, cred, digits, at);
        if matched.None? then Refused
        else if cred.Replayed(matched.value) then Replay(NoWrites.(audit := [ReplayRejected(u, matched.value)]))
        else Accepted(NoWrites.(creds := map[u := RecordStep(cred, matched.value, at)], audit := [MfaVerified(u)]),
                      TotpStep(u, matched.value))
  }

  /** The session half of an MFA login, on the locked account and an accepted factor. */
  function DecideMfaLogin(cfg: Config, sid: SessionId, u: UserId, epoch: nat, check: FactorCheck, user: User,
                          verifiedAt: Time, at: Time): Option<Writes>
    requires check.Accepted?
  {
    if !user.CanAuthenticate() || user.epoch != epoch then None
    else Some(Mint(cfg, check.w, sid, u, user, Some(check.factor), verifiedAt, at))
  }

  /** Enrolment confirmation by a caller holding access token `claims`, on the locked credential. */
  function DecideConfirmSetup(cfg: Config, claims: AccessToken, cred: Credential, digits: string,
                              newCodes: set<CodeId>, at: Time): Option<Writes> {
    if cred.Enabled() || StepOf(cfg, cred, digits, at).None? then None
    else
      var u, step := claims.user, StepOf(cfg, cred, digits, at).value;
      Some(Writes(map[], map[], map[], map[u := RecordStep(Enable(cred, at), step, at)],
                  map c | c in newCodes :: RecoveryCode(u, None), Some(u), [MfaEnabled(u)],
                  Enrolment(u, step, at, claims.(mfa := true))))
  }
}
