/**
 Every command as a database transaction that interleaves with any number of
 others. A transaction observes one thing at a time: it reads without a lock, it
 takes a row lock (waiting while another transaction has it) and re-reads the
 committed row, it reads the clock, or it runs an UPDATE that locks its matching
 rows one by one. `Plan` is the program text: from what has been observed so far
 it gives the next action. Writes stay private until commit.
 */
module Transactions {
  import opened Text
  import opened Units
  import opened Accounts

  /** Transactions are numbered; the session a transaction mints takes its number, as a fresh uuid4 would be. */
  type TxId = nat
  type ChallengeId = nat

  datatype Row = UserRow(u: UserId) | SessionRow(s: SessionId) | TokenRow(k: ResetId) | CredRow(u: UserId) | CodeRow(c: CodeId)

  datatype Command =
    | Login(user: UserId, password: string)
    | Refresh(presented: RefreshToken)
    | MfaLogin(challenge: ChallengeId, submission: Submission)
    | ConfirmReset(token: ResetId, newHash: string)
    | SetActive(user: UserId, active: bool)
    | Logout(session: SessionId)
    | ConfirmSetup(claims: AccessToken, digits: string, newCodes: set<CodeId>)

  datatype Obs<+T> = Unread | Read(value: T)

  /** A pending-login challenge as Redis stores it. */
  datatype Pending = Pending(user: UserId, epoch: nat)

  /** One look at a session's MFA-completed key: was it ever set, and had it not expired. */
  datatype FlagReading = FlagReading(everSet: bool, live: bool, at: Time)

  /** What a transaction has read without a lock, from the tables or from Redis. */
  datatype Peeks = Peeks(
    user: Obs<Option<User>>, owner: Obs<Option<UserId>>, flag: Obs<FlagReading>, pending: Obs<Option<Pending>>,
    consumed: bool, epoch: Obs<Option<nat>>, gate: Obs<bool>, codeMatch: Obs<bool>)

  /** What a transaction has read under a row lock; None where there was no row to lock. */
  datatype Rows = Rows(
    users: map<UserId, Option<User>>, sessions: map<SessionId, Option<Session>>, tokens: map<ResetId, Option<ResetToken>>,
    creds: map<UserId, Option<Credential>>, codes: map<CodeId, Option<RecoveryCode>>)

  datatype Tx = Tx(
    cmd: Command, peek: Peeks, rows: Rows, at: Obs<Time>, at2: Obs<Time>,
    siblings: Obs<seq<ResetId>>, snapshot: set<ResetId>, sweep: Obs<seq<SessionId>>, published: bool)

  function Start(cmd: Command): Tx {
    Tx(cmd, Peeks(Unread, Unread, Unread, Unread, false, Unread, Unread, Unread),
       Rows(map[], map[], map[], map[], map[]), Unread, Unread, Unread, {}, Unread, false)
  }

  datatype Action =
    | PeekUser(user: UserId) | PeekOwner(session: SessionId) | PeekFlag(session: SessionId) | PeekEpoch(user: UserId)
    | PeekGate(user: UserId) | PeekCode(code: CodeId, user: UserId)
    | Resolve(challenge: ChallengeId) | Consume(challenge: ChallengeId)
    | Lock(row: Row)
    | Clock | Clock2
    | StartConsume(user: UserId, except: ResetId)
    | StartRevoke(user: UserId)
    | Finish(writes: Writes)
    | Reject

  // ---- Programs ---------------------------------------------------------------

  function PlanLogin(cfg: Config, t: TxId, tx: Tx): Action
    requires tx.cmd.Login?
  {
    var u := tx.cmd.user;
    if tx.peek.user.Unread? then PeekUser(u)
    else if tx.peek.user.value.None? then Reject
    else
      var seen := tx.peek.user.value.value;
      if seen.deleted || !cfg.argon2(tx.cmd.password, seen.passwordHash) || !seen.CanAuthenticate() then Reject
      else if u !in tx.rows.users then Lock(UserRow(u))
      else if tx.rows.users[u].None? then Reject
      else
        var user := tx.rows.users[u].value;
        if !user.CanAuthenticate() || user.passwordHash != seen.passwordHash then Reject
        else if user.role == Admin && tx.peek.gate.Unread? then PeekGate(u)
        else if user.role == Admin && tx.peek.gate.value then Finish(DecideLogin(cfg, t, u, user, true, 0))
        else if tx.at.Unread? then Clock
        else Finish(DecideLogin(cfg, t, u, user, false, tx.at.value))
  }

  function PlanRefresh(cfg: Config, tx: Tx): Action
    requires tx.cmd.Refresh?
  {
    var sid := tx.cmd.presented.session;
    if tx.peek.flag.Unread? then PeekFlag(sid)
    else if tx.peek.owner.Unread? then PeekOwner(sid)
    else if tx.peek.owner.value.None? then Reject
    else
      var u := tx.peek.owner.value.value;
      if u !in tx.rows.users then Lock(UserRow(u))
      else if sid !in tx.rows.sessions then Lock(SessionRow(sid))
      else if tx.rows.sessions[sid].None? then Reject
      else if tx.at.Unread? then Clock
      else
        match DecideRefresh(cfg, tx.cmd.presented, tx.peek.flag.value.live, u, tx.rows.users[u], tx.rows.sessions[sid].value, tx.at.value)
        case None => Reject
        case Some(w) => Finish(w)
  }

  function PlanLogout(tx: Tx): Action
    requires tx.cmd.Logout?
  {
    var sid := tx.cmd.session;
    if sid !in tx.rows.sessions then Lock(SessionRow(sid))
    else if tx.rows.sessions[sid].None? then Reject
    else if tx.at.Unread? then Clock
    else
      match DecideLogout(sid, tx.rows.sessions[sid].value, tx.at.value)
      case None => Reject
      case Some(w) => Finish(w)
  }

  /** The rows a sweep found and locked. */
  function Found<V>(m: map<nat, Option<V>>): map<nat, V> {
    map k | k in m && m[k].Some? :: m[k].value
  }

  function PlanReset(tx: Tx): Action
    requires tx.cmd.ConfirmReset?
  {
    var k := tx.cmd.token;
    if k !in tx.rows.tokens then Lock(TokenRow(k))
    else if tx.rows.tokens[k].None? then Reject
    else
      var token := tx.rows.tokens[k].value;
      var u := token.owner;
      if u !in tx.rows.users then Lock(UserRow(u))
      else if tx.rows.users[u].None? then Reject
      else if tx.at.Unread? then Clock
      else if !Redeemable(token, tx.rows.users[u].value, tx.at.value) then Reject
      else if tx.siblings.Unread? then StartConsume(u, k)
      else if tx.siblings.value != [] then Lock(TokenRow(tx.siblings.value[0]))
      else if tx.sweep.Unread? then StartRevoke(u)
      else if tx.sweep.value != [] then Lock(SessionRow(tx.sweep.value[0]))
      else Finish(DecideReset(k, token, tx.rows.users[u].value, tx.cmd.newHash,
                              Found(tx.rows.tokens) - {k}, Found(tx.rows.sessions), tx.at.value))
  }

  function PlanSetActive(tx: Tx): Action
    requires tx.cmd.SetActive?
  {
    var u := tx.cmd.user;
    if u !in tx.rows.users then Lock(UserRow(u))
    else if tx.rows.users[u].None? then Reject
    else
      var user := tx.rows.users[u].value;
      if user.anonymized || user.deleted then Reject
      else if tx.at.Unread? then Clock
      else if user.active == tx.cmd.active then Reject
      else if user.active && tx.sweep.Unread? then StartRevoke(u)
      else if user.active && tx.sweep.value != [] then Lock(SessionRow(tx.sweep.value[0]))
      else
        match DecideSetActive(u, user, tx.cmd.active, Found(tx.rows.sessions), tx.at.value)
        case None => Reject
        case Some(w) => Finish(w)
  }

  function PlanMfaLogin(cfg: Config, t: TxId, tx: Tx): Action
    requires tx.cmd.MfaLogin?
  {
    var sub := tx.cmd.submission;
    if tx.peek.pending.Unread? then Resolve(tx.cmd.challenge)
    else if !tx.peek.consumed then Consume(tx.cmd.challenge)
    else if tx.peek.pending.value.None? then Reject
    else
      var u, epoch := tx.peek.pending.value.value.user, tx.peek.pending.value.value.epoch;
      if tx.peek.epoch.Unread? then PeekEpoch(u)
      else if tx.peek.epoch.value != Some(epoch) then Reject
      else if u !in tx.rows.creds then Lock(CredRow(u))
      else if tx.rows.creds[u].None? || !tx.rows.creds[u].value.Enabled() then Reject
      else if tx.at.Unread? then Clock
      else if sub.SubmittedRecovery? && tx.peek.codeMatch.Unread? then PeekCode(sub.code, u)
      else if sub.SubmittedRecovery? && !tx.peek.codeMatch.value then Reject
      else if sub.SubmittedRecovery? && sub.code !in tx.rows.codes then Lock(CodeRow(sub.code))
      else PlanMfaSession(cfg, t, tx, u, epoch, CheckFactor(cfg, u, tx.rows.creds[u].value, sub, CodeSeen(tx), tx.at.value))
  }

  /** The recovery-code row an MFA login has locked, if its caller submitted one. */
  function CodeSeen(tx: Tx): Option<RecoveryCode>
    requires tx.cmd.MfaLogin?
  {
    var sub := tx.cmd.submission;
    if sub.SubmittedRecovery? && sub.code in tx.rows.codes then tx.rows.codes[sub.code] else None
  }

  /** The rest of an MFA login once its factor has been judged, in the same transaction. */
  function PlanMfaSession(cfg: Config, t: TxId, tx: Tx, u: UserId, epoch: nat, check: FactorCheck): Action
    requires tx.at.Read?
  {
    if check.Refused? then Reject
    else if check.Replay? then Finish(check.w)
    else if u !in tx.rows.users then Lock(UserRow(u))
    else if tx.rows.users[u].None? then Reject
    else if tx.at2.Unread? then Clock2
    else
      match DecideMfaLogin(cfg, t, u, epoch, check, tx.rows.users[u].value, tx.at.value, tx.at2.value)
      case None => Reject
      case Some(w) => Finish(w)
  }

  function PlanConfirmSetup(cfg: Config, tx: Tx): Action
    requires tx.cmd.ConfirmSetup?
  {
    var u := tx.cmd.claims.user;
    if u !in tx.rows.creds then Lock(CredRow(u))
    else if tx.rows.creds[u].None? then Reject
    else if tx.at.Unread? then Clock
    else
      match DecideConfirmSetup(cfg, tx.cmd.claims, tx.rows.creds[u].value, tx.cmd.digits, tx.cmd.newCodes, tx.at.value)
      case None => Reject
      case Some(w) => Finish(w)
  }

  function Plan(cfg: Config, t: TxId, tx: Tx): Action {
    match tx.cmd
    case Login(_, _) => PlanLogin(cfg, t, tx)
    case Refresh(_) => PlanRefresh(cfg, tx)
    case MfaLogin(_, _) => PlanMfaLogin(cfg, t, tx)
    case ConfirmReset(_, _) => PlanReset(tx)
    case SetActive(_, _) => PlanSetActive(tx)
    case Logout(_) => PlanLogout(tx)
    case ConfirmSetup(_, _, _) => PlanConfirmSetup(cfg, tx)
  }

  // ---- The shared world -------------------------------------------------------

  /** What has been handed out by committed transactions, for stating properties; no program reads it. */
  datatype History = History(
    born: map<SessionId, nat>,             // the owner's epoch when the session was inserted
    refresh: map<RefreshToken, nat>,       // every refresh token issued, with the owner's epoch at that moment
    access: set<AccessToken>,
    rotated: seq<RefreshToken>,            // refresh tokens spent on a rotation, in commit order
    redeemed: seq<ResetId>,                // reset tokens spent, in commit order
    burned: set<ResetId>,                  // tokens that existed when a committed reset ran its consume statement
    factors: map<SessionId, Factor>,       // the factor each MFA login spent
    accepted: map<UserId, seq<Acceptance>>) // TOTP steps each credential accepted, in commit order

  datatype Acceptance = Acceptance(step: int, at: Time)

  datatype World = World(
    db: Db, h: History, locks: map<Row, TxId>, txs: map<TxId, Tx>, nextTx: TxId, now: Time,
    flags: map<SessionId, Time>, verified: map<SessionId, UserId>,
    challenges: map<ChallengeId, Pending>, nextChallenge: ChallengeId)

  const NoHistory := History(map[], map[], {}, [], [], {}, map[], map[])

  predicate Init(w: World) {
    w.db == EmptyDb && w.h == NoHistory && w.locks == map[] && w.txs == map[] && w.flags == map[]
    && w.verified == map[] && w.challenges == map[]
  }

  function AcceptedBy(h: History, u: UserId): seq<Acceptance> {
    if u in h.accepted then h.accepted[u] else []
  }

  function Accept(h: History, u: UserId, step: int, at: Time): History {
    h.(accepted := h.accepted[u := AcceptedBy(h, u) + [Acceptance(step, at)]])
  }

  function Record(h: History, out: Output, burned: set<ResetId>): History {
    match out
    case Nothing => h
    case Challenge(_, _) => h
    case NewSession(s, refresh, access, factor, at) =>
      var minted := h.(born := h.born[s := access.epoch], refresh := h.refresh[refresh := access.epoch],
                       access := h.access + {access});
      if factor.None? then minted
      else
        var spent := minted.(factors := minted.factors[s := factor.value]);
        if factor.value.Recovery? then spent else Accept(spent, factor.value.user, factor.value.step, at)
    case Rotation(presented, refresh, access) =>
      h.(refresh := h.refresh[refresh := access.epoch], access := h.access + {access}, rotated := h.rotated + [presented])
    case Redemption(k) => h.(redeemed := h.redeemed + [k], burned := h.burned + burned)
    case Enrolment(u, step, at, access) => Accept(h.(access := h.access + {access}), u, step, at)
  }

  predicate Exists(db: Db, r: Row) {
    match r
    case UserRow(u) => u in db.users
    case SessionRow(s) => s in db.sessions
    case TokenRow(k) => k in db.tokens
    case CredRow(u) => u in db.creds
    case CodeRow(c) => c in db.codes
  }

  function ReadRow(db: Db, rows: Rows, r: Row): Rows {
    match r
    case UserRow(u) => rows.(users := rows.users[u := Get(db.users, u)])
    case SessionRow(s) => rows.(sessions := rows.sessions[s := Get(db.sessions, s)])
    case TokenRow(k) => rows.(tokens := rows.tokens[k := Get(db.tokens, k)])
    case CredRow(u) => rows.(creds := rows.creds[u := Get(db.creds, u)])
    case CodeRow(c) => rows.(codes := rows.codes[c := Get(db.codes, c)])
  }

  function Tail(todo: Obs<seq<nat>>): Obs<seq<nat>> {
    if todo.Read? && todo.value != [] then Read(todo.value[1..]) else todo
  }

  /** The transaction after a locking read of `r`; a sweep also moves on to its next row. */
  function Observe(db: Db, tx: Tx, r: Row): Tx {
    var seen := tx.(rows := ReadRow(db, tx.rows, r));
    if r.SessionRow? then seen.(sweep := Tail(tx.sweep))
    else if r.TokenRow? then seen.(siblings := Tail(tx.siblings))
    else seen
  }

  /** The unused reset tokens of an account other than the one being redeemed. */
  function Outstanding(db: Db, u: UserId, except: ResetId): set<ResetId> {
    set k | k in db.tokens && db.tokens[k].owner == u && db.tokens[k].usedAt.None? && k != except
  }

  predicate Distinct(order: seq<nat>) {
    forall i, j :: 0 <= i < j < |order| ==> order[i] != order[j]
  }

  /** `order` lists exactly `s`, each element once: the physical order a statement happens to visit. */
  predicate Enumerates(order: seq<nat>, s: set<nat>) {
    (set x | x in order) == s && Distinct(order)
  }

  datatype Event =
    | Begin(cmd: Command)
    | Act(t: TxId, order: seq<nat>)
    | Commit(t: TxId)
    | Rollback(t: TxId)
    | Tick(later: Time)
    | Register(user: UserId, row: User)
    | IssueReset(token: ResetId, resetRow: ResetToken)
    | Enrol(user: UserId, secret: string)
    | ExpireChallenge(challenge: ChallengeId)

  predicate ActEnabled(w: World, tx: Tx, a: Action, order: seq<nat>) {
    match a
    case Lock(r) => r !in w.locks
    case StartConsume(u, k) => Enumerates(order, Outstanding(w.db, u, k))
    case StartRevoke(u) => Enumerates(order, LiveSessions(w.db.sessions, u))
    case Finish(_) => !tx.published
    case Reject => false
    case _ => true
  }

  predicate Enabled(cfg: Config, w: World, e: Event) {
    match e
    case Begin(cmd) =>
      cmd.ConfirmSetup? ==>
        cmd.claims in w.h.access && cmd.claims.role == Admin
        && cmd.claims.user in w.db.users && w.db.users[cmd.claims.user].epoch == cmd.claims.epoch
    case Act(t, order) => t in w.txs && ActEnabled(w, w.txs[t], Plan(cfg, t, w.txs[t]), order)
    case Commit(t) =>
      t in w.txs && w.txs[t].published && Plan(cfg, t, w.txs[t]).Finish?
      && (w.txs[t].cmd.ConfirmSetup? ==> w.txs[t].cmd.newCodes !! w.db.codes.Keys)
    case Rollback(t) => t in w.txs
    case Tick(later) => w.now <= later
    case Register(u, row) => u !in w.db.users && row.epoch == 0 && row.active
    case IssueReset(k, row) => k !in w.db.tokens && row.owner in w.db.users && row.usedAt.None?
    case Enrol(u, _) =>
      u in w.db.users && CredRow(u) !in w.locks && (u in w.db.creds ==> !w.db.creds[u].Enabled())
    case ExpireChallenge(_) => true
  }

  function Release(w: World, t: TxId): World {
    w.(locks := map r | r in w.locks && w.locks[r] != t :: w.locks[r], txs := w.txs - {t})
  }

  /** Redis writes that precede the commit: the completion flag and the login challenge. */
  function Publish(cfg: Config, w: World, out: Output): World {
    var expiry := w.now + if cfg.refreshLifetime < SECOND then SECOND else cfg.refreshLifetime;
    match out
    case NewSession(s, _, access, factor, _) =>
      if factor.None? then w else w.(flags := w.flags[s := expiry], verified := w.verified[s := access.user])
    case Enrolment(u, _, _, access) =>
      w.(flags := w.flags[access.session := expiry], verified := w.verified[access.session := u])
    case Challenge(u, epoch) =>
      w.(challenges := w.challenges[w.nextChallenge := Pending(u, epoch)], nextChallenge := w.nextChallenge + 1)
    case _ => w
  }

  /** The transaction after an action that touches nothing but its own observations. */
  function Advance(w: World, tx: Tx, a: Action, order: seq<nat>): Tx {
    match a
    case PeekUser(u) => tx.(peek := tx.peek.(user := Read(Get(w.db.users, u))))
    case PeekOwner(s) =>
      tx.(peek := tx.peek.(owner := Read(if s in w.db.sessions then Some(w.db.sessions[s].owner) else None)))
    case PeekFlag(s) =>
      tx.(peek := tx.peek.(flag := Read(FlagReading(s in w.flags, s in w.flags && w.now < w.flags[s], w.now))))
    case PeekEpoch(u) =>
      tx.(peek := tx.peek.(epoch := Read(if u in w.db.users then Some(w.db.users[u].epoch) else None)))
    case PeekGate(u) => tx.(peek := tx.peek.(gate := Read(u in w.db.creds && w.db.creds[u].Enabled())))
    case PeekCode(c, u) =>
      tx.(peek := tx.peek.(codeMatch := Read(c in w.db.codes && w.db.codes[c].owner == u && w.db.codes[c].usedAt.None?)))
    case Resolve(ch) => tx.(peek := tx.peek.(pending := Read(Get(w.challenges, ch))))
    case Consume(_) => tx.(peek := tx.peek.(consumed := true))
    case Lock(r) => Observe(w.db, tx, r)
    case Clock => tx.(at := Read(w.now))
    case Clock2 => tx.(at2 := Read(w.now))
    case StartConsume(u, _) =>
      tx.(siblings := Read(order), snapshot := set k | k in w.db.tokens && w.db.tokens[k].owner == u)
    case StartRevoke(_) => tx.(sweep := Read(order))
    case Finish(_) => tx.(published := true)
    case Reject => tx
  }

  /** One action of transaction `t`, whatever program it came from. */
  function StepAct(cfg: Config, w: World, t: TxId, a: Action, order: seq<nat>): World
    requires t in w.txs
  {
    var moved := w.(txs := w.txs[t := Advance(w, w.txs[t], a, order)]);
    match a
    case Lock(r) => if Exists(w.db, r) then moved.(locks := w.locks[r := t]) else moved
    case Consume(ch) => moved.(challenges := w.challenges - {ch})
    case Finish(writes) => Publish(cfg, moved, writes.out)
    case _ => moved
  }

  function StepCommit(w: World, t: TxId, writes: Writes): World
    requires t in w.txs
  {
    Release(w.(db := Apply(w.db, writes), h := Record(w.h, writes.out, w.txs[t].snapshot)), t)
  }

  function Step(cfg: Config, w: World, e: Event): World
    requires Enabled(cfg, w, e)
  {
    match e
    case Begin(cmd) => w.(txs := w.txs[w.nextTx := Start(cmd)], nextTx := w.nextTx + 1)
    case Act(t, order) => StepAct(cfg, w, t, Plan(cfg, t, w.txs[t]), order)
    case Commit(t) => StepCommit(w, t, Plan(cfg, t, w.txs[t]).writes)
    case Rollback(t) => Release(w, t)
    case Tick(later) => w.(now := later)
    case Register(u, row) => w.(db := w.db.(users := w.db.users[u := row]))
    case IssueReset(k, row) => w.(db := w.db.(tokens := w.db.tokens[k := row]))
    case Enrol(u, secret) =>
      var cred := if u in w.db.creds then w.db.creds[u].(secret := secret) else Credential(secret, None, None, None);
      w.(db := w.db.(creds := w.db.creds[u := cred]))
    case ExpireChallenge(ch) => w.(challenges := w.challenges - {ch})
  }

  /** A run: any number of transactions, in any interleaving, with any of them rolled back at any point. */
  predicate Run(cfg: Config, ws: seq<World>, es: seq<Event>) {
    |ws| == |es| + 1 && Init(ws[0])
    && forall i :: 0 <= i < |es| ==> Enabled(cfg, ws[i], es[i]) && ws[i + 1] == Step(cfg, ws[i], es[i])
  }
}
