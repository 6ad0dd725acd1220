/**
 The simple form of every command: one indivisible step on the committed tables.
 Only what no lock can pin down is a parameter: the clock, the Redis answers, the
 unlocked MFA gate, and which reset tokens the consume statement could see.
 */
module Serial {
  import opened Text
  import opened Units
  import opened Accounts

  function SessionsOf(sessions: map<SessionId, Session>, u: UserId): map<SessionId, Session> {
    map s | s in sessions && sessions[s].owner == u :: sessions[s]
  }

  /** Login verifying the password against the very row it mints from. */
  function AtomicLogin(cfg: Config, db: Db, sid: SessionId, u: UserId, password: string, gate: bool, at: Time): Option<Writes> {
    if u !in db.users || !db.users[u].CanAuthenticate() || !cfg.argon2(password, db.users[u].passwordHash) then None
    else Some(DecideLogin(cfg, sid, u, db.users[u], db.users[u].role == Admin && gate, at))
  }

  function AtomicRefresh(cfg: Config, db: Db, presented: RefreshToken, mfa: bool, at: Time): Option<Writes> {
    if presented.session !in db.sessions then None
    else
      var s := db.sessions[presented.session];
      DecideRefresh(cfg, presented, mfa, s.owner, Get(db.users, s.owner), s, at)
  }

  /** The whole request: a token that no longer decodes is refused before anything is read. */
  function PresentRefresh(cfg: Config, db: Db, presented: RefreshToken, mfa: bool, decodedAt: Time, at: Time): Option<Writes> {
    if !Decodes(presented, decodedAt) then None else AtomicRefresh(cfg, db, presented, mfa, at)
  }

  function AtomicLogout(db: Db, sid: SessionId, at: Time): Option<Writes> {
    if sid !in db.sessions then None else DecideLogout(sid, db.sessions[sid], at)
  }

  /** The account's other reset tokens, as far as the consume statement could see them. */
  function Siblings(db: Db, k: ResetId, u: UserId, visible: set<ResetId>): map<ResetId, ResetToken> {
    map x | x in db.tokens && x in visible && x != k && db.tokens[x].owner == u :: db.tokens[x]
  }

  function AtomicReset(db: Db, k: ResetId, newHash: string, visible: set<ResetId>, at: Time): Option<Writes> {
    if k !in db.tokens || db.tokens[k].owner !in db.users || !Redeemable(db.tokens[k], db.users[db.tokens[k].owner], at) then None
    else
      var u := db.tokens[k].owner;
      Some(DecideReset(k, db.tokens[k], db.users[u], newHash, Siblings(db, k, u, visible), SessionsOf(db.sessions, u), at))
  }

  function AtomicSetActive(db: Db, u: UserId, active: bool, at: Time): Option<Writes> {
    if u !in db.users then None else DecideSetActive(u, db.users[u], active, SessionsOf(db.sessions, u), at)
  }

  function AtomicMfaLogin(cfg: Config, db: Db, sid: SessionId, u: UserId, epoch: nat, sub: Submission,
                          verifiedAt: Time, at: Time): Option<Writes> {
    if u !in db.creds then None
    else
      var code := if sub.SubmittedRecovery? then Get(db.codes, sub.code) else None;
      match CheckFactor(cfg, u, db.creds[u], sub, code, verifiedAt)
      case Refused => None
      case Replay(w) => Some(w)
      case Accepted(w, factor) =>
        if u !in db.users then None
        else DecideMfaLogin(cfg, sid, u, epoch, Accepted(w, factor), db.users[u], verifiedAt, at)
  }

  function AtomicConfirmSetup(cfg: Config, db: Db, claims: AccessToken, digits: string, newCodes: set<CodeId>, at: Time): Option<Writes> {
    if claims.user !in db.creds then None
    else DecideConfirmSetup(cfg, claims, db.creds[claims.user], digits, newCodes, at)
  }
}
