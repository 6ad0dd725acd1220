/**
 What the row locks buy: between a locking read and the end of the transaction
 the row cannot change underneath it, so every interleaved commit has exactly the
 effect of the indivisible command on the tables it lands on.
 */
module Locking {
  import opened Text
  import opened Units
  import opened Accounts
  import opened Transactions

  /** A locking read that found its row keeps it locked to the end. */
  predicate Holds(rows: Rows, r: Row) {
    match r
    case UserRow(u) => u in rows.users && rows.users[u].Some?
    case SessionRow(s) => s in rows.sessions && rows.sessions[s].Some?
    case TokenRow(k) => k in rows.tokens && rows.tokens[k].Some?
    case CredRow(u) => u in rows.creds && rows.creds[u].Some?
    case CodeRow(c) => c in rows.codes && rows.codes[c].Some?
  }

  /** What was read under lock is what the committed row still says. */
  predicate Current(db: Db, rows: Rows, r: Row) {
    match r
    case UserRow(u) => u in rows.users && Get(db.users, u) == rows.users[u]
    case SessionRow(s) => s in rows.sessions && Get(db.sessions, s) == rows.sessions[s]
    case TokenRow(k) => k in rows.tokens && Get(db.tokens, k) == rows.tokens[k]
    case CredRow(u) => u in rows.creds && Get(db.creds, u) == rows.creds[u]
    case CodeRow(c) => c in rows.codes && Get(db.codes, c) == rows.codes[c]
  }

  ghost predicate LocksMatchViews(w: World) {
    && (forall r :: r in w.locks ==> w.locks[r] in w.txs && Holds(w.txs[w.locks[r]].rows, r))
    && (forall t, r :: t in w.txs && Holds(w.txs[t].rows, r) ==>
          r in w.locks && w.locks[r] == t && Current(w.db, w.txs[t].rows, r))
  }

  ghost predicate Numbered(w: World) {
    && (forall t :: t in w.txs ==> t < w.nextTx && t !in w.db.sessions)
    && (forall s :: s in w.db.sessions ==> s < w.nextTx)
  }

  /** Foreign keys, and recovery codes existing only for a confirmed credential. */
  ghost predicate Referential(db: Db) {
    && (forall s :: s in db.sessions ==> db.sessions[s].owner in db.users)
    && (forall k :: k in db.tokens ==> db.tokens[k].owner in db.users)
    && (forall c :: c in db.codes ==> db.codes[c].owner in db.creds && db.creds[db.codes[c].owner].Enabled())
  }

  /** A reset that has begun its consume statement: every token it could see is spent, queued or locked by it. */
  ghost predicate ConsumeOk(db: Db, tx: Tx) {
    tx.siblings.Read? ==>
      && tx.cmd.ConfirmReset? && Holds(tx.rows, TokenRow(tx.cmd.token))
      && (var u := tx.rows.tokens[tx.cmd.token].value.owner;
          && Holds(tx.rows, UserRow(u))
          && (forall x :: x in tx.siblings.value || x in tx.rows.tokens ==> x in db.tokens && db.tokens[x].owner == u)
          && (forall x :: x in tx.rows.tokens ==> tx.rows.tokens[x].Some? && (x == tx.cmd.token || x in tx.snapshot))
          && (forall x :: x in tx.siblings.value ==> x in tx.snapshot)
          && (forall x :: x in tx.snapshot ==> x in db.tokens && db.tokens[x].owner == u)
          && (forall x :: x in tx.snapshot ==> db.tokens[x].usedAt.Some? || x in tx.siblings.value || x in tx.rows.tokens))
  }

  /** Whose sessions a transaction revokes. */
  function SweepUser(tx: Tx): Option<UserId> {
    if tx.cmd.SetActive? then Some(tx.cmd.user)
    else if tx.cmd.ConfirmReset? && Holds(tx.rows, TokenRow(tx.cmd.token)) then Some(tx.rows.tokens[tx.cmd.token].value.owner)
    else None
  }

  /** A transaction revoking an account's sessions holds the account, so none can appear behind its back. */
  ghost predicate RevokeOk(db: Db, tx: Tx) {
    tx.sweep.Read? ==>
      && SweepUser(tx).Some?
      && (var u := SweepUser(tx).value;
          && Holds(tx.rows, UserRow(u))
          && (forall s :: s in tx.sweep.value || s in tx.rows.sessions ==> s in db.sessions && db.sessions[s].owner == u)
          && (forall s :: s in tx.rows.sessions ==> tx.rows.sessions[s].Some?)
          && (forall s :: s in db.sessions && db.sessions[s].owner == u && !db.sessions[s].Revoked() ==>
                s in tx.sweep.value || s in tx.rows.sessions))
  }

  /** What ties a transaction's observations to its program. */
  predicate Shape(tx: Tx) {
    && (tx.siblings.Read? ==>
          && tx.cmd.ConfirmReset? && Holds(tx.rows, TokenRow(tx.cmd.token))
          && Holds(tx.rows, UserRow(tx.rows.tokens[tx.cmd.token].value.owner)) && tx.cmd.token !in tx.siblings.value)
    && (tx.sweep.Read? ==> tx.cmd.SetActive? || (tx.siblings.Read? && tx.siblings.value == []))
    && (tx.sweep.Read? ==> SweepUser(tx).Some? && Holds(tx.rows, UserRow(SweepUser(tx).value)))
    && (tx.cmd.SetActive? || tx.cmd.ConfirmReset? ==> tx.sweep.Read? || tx.rows.sessions == map[])
    && (tx.cmd.ConfirmReset? ==> tx.siblings.Read? || tx.rows.tokens.Keys <= {tx.cmd.token})
    && (!tx.cmd.ConfirmReset? ==> tx.rows.tokens == map[])
    && (tx.cmd.Login? || tx.cmd.MfaLogin? || tx.cmd.ConfirmSetup? ==> tx.rows.sessions == map[])
    && (tx.cmd.Refresh? ==> tx.rows.sessions.Keys <= {tx.cmd.presented.session})
    && (tx.cmd.Logout? ==> tx.rows.sessions.Keys <= {tx.cmd.session} && tx.rows.users == map[])
    && (!tx.cmd.MfaLogin? && !tx.cmd.ConfirmSetup? ==> tx.rows.creds == map[])
    && (!tx.cmd.MfaLogin? ==> tx.rows.codes == map[])
  }

  ghost predicate TxOk(db: Db, tx: Tx) {
    Shape(tx) && ConsumeOk(db, tx) && RevokeOk(db, tx)
  }

  ghost predicate LockInv(w: World) {
    && LocksMatchViews(w) && Numbered(w) && Referential(w.db)
    && (forall t :: t in w.txs ==> TxOk(w.db, w.txs[t]))
  }

  // ---- What a finished transaction may write ----------------------------------

  predicate UserEvolves(a: User, b: User) {
    a.epoch <= b.epoch && a.role == b.role
  }

  predicate SessionEvolves(a: Session, b: Session) {
    a.owner == b.owner && a.expiresAt == b.expiresAt && a.version <= b.version
    && (a.Revoked() ==> b.revokedAt == a.revokedAt && b.version == a.version)
  }

  predicate TokenEvolves(a: ResetToken, b: ResetToken) {
    a.owner == b.owner && (a.usedAt.Some? ==> b.usedAt.Some?)
  }

  predicate CredEvolves(a: Credential, b: Credential) {
    a.Enabled() ==> b.Enabled()
  }

  /** A write set touches only rows its transaction holds, the session it mints, and new recovery codes. */
  ghost predicate WithinLocks(t: TxId, tx: Tx, wr: Writes) {
    && (forall u :: u in wr.users ==> Holds(tx.rows, UserRow(u)) && UserEvolves(tx.rows.users[u].value, wr.users[u]))
    && (forall s :: s in wr.sessions ==>
          || (Holds(tx.rows, SessionRow(s)) && SessionEvolves(tx.rows.sessions[s].value, wr.sessions[s]))
          || (s == t && Holds(tx.rows, UserRow(wr.sessions[s].owner)) && !wr.sessions[s].Revoked()))
    && (forall k :: k in wr.tokens ==> Holds(tx.rows, TokenRow(k)) && TokenEvolves(tx.rows.tokens[k].value, wr.tokens[k]))
    && (forall u :: u in wr.creds ==> Holds(tx.rows, CredRow(u)) && CredEvolves(tx.rows.creds[u].value, wr.creds[u]))
    && (forall c :: c in wr.codes ==>
          || (Holds(tx.rows, CodeRow(c)) && wr.codes[c].owner == tx.rows.codes[c].value.owner)
          || (tx.cmd.ConfirmSetup? && c in tx.cmd.newCodes && wr.codes[c].owner in wr.creds && wr.creds[wr.codes[c].owner].Enabled()))
    && (wr.clearUnusedCodesOf.Some? ==>
          tx.cmd.ConfirmSetup? && Holds(tx.rows, CredRow(wr.clearUnusedCodesOf.value))
          && !tx.rows.creds[wr.clearUnusedCodesOf.value].value.Enabled())
  }

  lemma FinishedLogin(cfg: Config, t: TxId, tx: Tx, wr: Writes)
    requires tx.cmd.Login? && PlanLogin(cfg, t, tx) == Finish(wr)
    ensures WithinLocks(t, tx, wr)
  {
  }

  lemma FinishedRefresh(cfg: Config, t: TxId, tx: Tx, wr: Writes)
    requires tx.cmd.Refresh? && PlanRefresh(cfg, tx) == Finish(wr)
    ensures WithinLocks(t, tx, wr)
  {
  }

  /** The factor half of an MFA login writes the credential and at most the one code, and mints nothing. */
  lemma CheckedFactor(cfg: Config, u: UserId, cred: Credential, sub: Submission, code: Option<RecoveryCode>, at: Time)
    ensures var check := CheckFactor(cfg, u, cred, sub, code, at);
      !check.Refused? ==>
        && check.w.users == map[] && check.w.sessions == map[] && check.w.tokens == map[]
        && check.w.clearUnusedCodesOf.None? && check.w.out.Nothing?
        && check.w.creds.Keys <= {u} && (u in check.w.creds ==> CredEvolves(cred, check.w.creds[u]))
        && (check.w.codes == map[] || (sub.SubmittedRecovery? && code.Some?
            && check.w.codes == map[sub.code := code.value.(usedAt := Some(at))]))
  {
  }

  /** Everything an MFA login has locked by the time its factor is judged. */
  predicate FactorRowsSeen(tx: Tx) {
    && tx.cmd.MfaLogin? && tx.peek.pending.Read? && tx.peek.pending.value.Some? && tx.at.Read?
    && Holds(tx.rows, CredRow(tx.peek.pending.value.value.user))
  }

  function FactorOf(cfg: Config, tx: Tx): FactorCheck
    requires FactorRowsSeen(tx)
  {
    var u := tx.peek.pending.value.value.user;
    CheckFactor(cfg, u, tx.rows.creds[u].value, tx.cmd.submission, CodeSeen(tx), tx.at.value)
  }

  lemma MfaReachesSession(cfg: Config, t: TxId, tx: Tx, wr: Writes)
    requires tx.cmd.MfaLogin? && PlanMfaLogin(cfg, t, tx) == Finish(wr)
    ensures FactorRowsSeen(tx)
    ensures var p := tx.peek.pending.value.value; PlanMfaSession(cfg, t, tx, p.user, p.epoch, FactorOf(cfg, tx)) == Finish(wr)
  {
  }

  lemma WithinLocksMfa(cfg: Config, t: TxId, tx: Tx, check: FactorCheck, wr: Writes)
    requires FactorRowsSeen(tx) && !check.Refused?
    requires var u := tx.peek.pending.value.value.user;
      PlanMfaSession(cfg, t, tx, u, tx.peek.pending.value.value.epoch, check) == Finish(wr)
    requires check.w.users == map[] && check.w.sessions == map[] && check.w.tokens == map[] && check.w.clearUnusedCodesOf.None?
    requires var u := tx.peek.pending.value.value.user;
      check.w.creds.Keys <= {u} && (u in check.w.creds ==> CredEvolves(tx.rows.creds[u].value, check.w.creds[u]))
    requires var sub := tx.cmd.submission;
      check.w.codes == map[] || (sub.SubmittedRecovery? && CodeSeen(tx).Some?
      && check.w.codes.Keys == {sub.code} && check.w.codes[sub.code].owner == CodeSeen(tx).value.owner)
    ensures WithinLocks(t, tx, wr)
  {
    var p := tx.peek.pending.value.value;
    MfaSessionWrites(cfg, t, tx, p.user, p.epoch, check, wr);
  }

  lemma FinishedMfaLogin(cfg: Config, t: TxId, tx: Tx, wr: Writes)
    requires tx.cmd.MfaLogin? && PlanMfaLogin(cfg, t, tx) == Finish(wr)
    ensures WithinLocks(t, tx, wr)
  {
    MfaReachesSession(cfg, t, tx, wr);
    var u := tx.peek.pending.value.value.user;
    CheckedFactor(cfg, u, tx.rows.creds[u].value, tx.cmd.submission, CodeSeen(tx), tx.at.value);
    WithinLocksMfa(cfg, t, tx, FactorOf(cfg, tx), wr);
  }

  lemma MfaSessionWrites(cfg: Config, t: TxId, tx: Tx, u: UserId, epoch: nat, check: FactorCheck, wr: Writes)
    requires tx.at.Read? && PlanMfaSession(cfg, t, tx, u, epoch, check) == Finish(wr)
    requires check.w.sessions == map[]
    ensures wr.users == check.w.users && wr.tokens == check.w.tokens && wr.creds == check.w.creds
    ensures wr.codes == check.w.codes && wr.clearUnusedCodesOf == check.w.clearUnusedCodesOf
    ensures wr.sessions != map[] ==>
      wr.sessions.Keys == {t} && wr.sessions[t].owner == u && !wr.sessions[t].Revoked() && Holds(tx.rows, UserRow(u))
  {
  }

  /** A reset that finishes holds its token and the token's account, and writes what it decided on the rows it holds. */
  lemma ResetDecides(tx: Tx, wr: Writes)
    requires tx.cmd.ConfirmReset? && PlanReset(tx) == Finish(wr)
    ensures var k := tx.cmd.token;
      && Holds(tx.rows, TokenRow(k)) && tx.at.Read?
      && (var token := tx.rows.tokens[k].value;
          && token.usedAt.None? && Holds(tx.rows, UserRow(token.owner))
          && wr == DecideReset(k, token, tx.rows.users[token.owner].value, tx.cmd.newHash,
                               Found(tx.rows.tokens) - {k}, Found(tx.rows.sessions), tx.at.value))
  {
  }

  lemma FinishedConfirmReset(cfg: Config, t: TxId, tx: Tx, wr: Writes)
    requires tx.cmd.ConfirmReset? && PlanReset(tx) == Finish(wr)
    ensures WithinLocks(t, tx, wr)
  {
    ResetDecides(tx, wr);
    var k := tx.cmd.token;
    DecidedWithinLocks(t, tx, k, tx.rows.tokens[k].value, tx.cmd.newHash, tx.at.value, wr);
  }

  lemma DecidedWithinLocks(t: TxId, tx: Tx, k: ResetId, token: ResetToken, newHash: string, at: Time, wr: Writes)
    requires Holds(tx.rows, TokenRow(k)) && token == tx.rows.tokens[k].value && token.usedAt.None? && Holds(tx.rows, UserRow(token.owner))
    requires wr == DecideReset(k, token, tx.rows.users[token.owner].value, newHash, Found(tx.rows.tokens) - {k}, Found(tx.rows.sessions), at)
    ensures WithinLocks(t, tx, wr)
  {
  }

  lemma FinishedSetActive(cfg: Config, t: TxId, tx: Tx, wr: Writes)
    requires tx.cmd.SetActive? && PlanSetActive(tx) == Finish(wr)
    ensures WithinLocks(t, tx, wr)
  {
  }

  lemma FinishedLogout(cfg: Config, t: TxId, tx: Tx, wr: Writes)
    requires tx.cmd.Logout? && PlanLogout(tx) == Finish(wr)
    ensures WithinLocks(t, tx, wr)
  {
  }

  lemma FinishedConfirmSetup(cfg: Config, t: TxId, tx: Tx, wr: Writes)
    requires tx.cmd.ConfirmSetup? && PlanConfirmSetup(cfg, tx) == Finish(wr)
    ensures WithinLocks(t, tx, wr)
  {
  }

  lemma FinishedWrites(cfg: Config, t: TxId, tx: Tx, wr: Writes)
    requires Plan(cfg, t, tx) == Finish(wr)
    ensures WithinLocks(t, tx, wr)
  {
    match tx.cmd
    case Login(_, _) => FinishedLogin(cfg, t, tx, wr);
    case Refresh(_) => FinishedRefresh(cfg, t, tx, wr);
    case MfaLogin(_, _) => FinishedMfaLogin(cfg, t, tx, wr);
    case ConfirmReset(_, _) => FinishedConfirmReset(cfg, t, tx, wr);
    case SetActive(_, _) => FinishedSetActive(cfg, t, tx, wr);
    case Logout(_) => FinishedLogout(cfg, t, tx, wr);
    case ConfirmSetup(_, _, _) => FinishedConfirmSetup(cfg, t, tx, wr);
  }

  // ---- Commits ----------------------------------------------------------------

  /** A commit about to happen, seen only through what its write set may touch. */
  ghost predicate Committing(w: World, t: TxId, wr: Writes) {
    && LocksMatchViews(w) && Numbered(w) && Referential(w.db)
    && t in w.txs && WithinLocks(t, w.txs[t], wr)
    && (w.txs[t].cmd.ConfirmSetup? ==> w.txs[t].cmd.newCodes !! w.db.codes.Keys)
  }

  lemma HeldIsCurrent(w: World, t: TxId, r: Row)
    requires LocksMatchViews(w) && t in w.txs && Holds(w.txs[t].rows, r)
    ensures r in w.locks && w.locks[r] == t && Current(w.db, w.txs[t].rows, r)
  {
  }

  /** Two transactions never hold the same row. */
  lemma HeldByOne(w: World, t: TxId, other: TxId, r: Row)
    requires LocksMatchViews(w) && t in w.txs && other in w.txs && Holds(w.txs[t].rows, r) && Holds(w.txs[other].rows, r)
    ensures t == other
  {
    HeldIsCurrent(w, t, r);
    HeldIsCurrent(w, other, r);
  }

  /** Confirming enrolment clears no code: an unconfirmed credential has none. */
  lemma NothingToClear(w: World, t: TxId, wr: Writes)
    requires Committing(w, t, wr)
    ensures Apply(w.db, wr).codes == w.db.codes + wr.codes
  {
    if wr.clearUnusedCodesOf.Some? {
      HeldIsCurrent(w, t, CredRow(wr.clearUnusedCodesOf.value));
    }
    assert KeepCodes(w.db.codes, wr.clearUnusedCodesOf) == w.db.codes;
  }

  /** No commit changes a row that another transaction has locked. */
  lemma OthersStayCurrent(w: World, t: TxId, wr: Writes, other: TxId, r: Row)
    requires Committing(w, t, wr)
    requires other in w.txs && other != t && Holds(w.txs[other].rows, r)
    ensures Current(Apply(w.db, wr), w.txs[other].rows, r)
  {
    HeldIsCurrent(w, other, r);
    assert !Holds(w.txs[t].rows, r) by {
      if Holds(w.txs[t].rows, r) {
        HeldByOne(w, t, other, r);
      }
    }
    match r
    case UserRow(u) => assert u !in wr.users;
    case SessionRow(s) => assert s !in wr.sessions;
    case TokenRow(k) => assert k !in wr.tokens;
    case CredRow(u) => assert u !in wr.creds;
    case CodeRow(c) =>
      NothingToClear(w, t, wr);
      assert c !in wr.codes;
  }

  /** A session row only ever evolves; a row that was not there is the one this transaction mints. */
  lemma SessionAfter(w: World, t: TxId, wr: Writes, s: SessionId)
    requires Committing(w, t, wr)
    ensures s in w.db.sessions ==>
      s in Apply(w.db, wr).sessions && SessionEvolves(w.db.sessions[s], Apply(w.db, wr).sessions[s])
    ensures s !in w.db.sessions && s in Apply(w.db, wr).sessions ==>
      s == t && Holds(w.txs[t].rows, UserRow(wr.sessions[s].owner)) && Apply(w.db, wr).sessions[s] == wr.sessions[s]
  {
    if s in wr.sessions && Holds(w.txs[t].rows, SessionRow(s)) {
      HeldIsCurrent(w, t, SessionRow(s));
    }
  }

  lemma TokenAfter(w: World, t: TxId, wr: Writes, k: ResetId)
    requires Committing(w, t, wr)
    ensures k in w.db.tokens <==> k in Apply(w.db, wr).tokens
    ensures k in w.db.tokens ==> TokenEvolves(w.db.tokens[k], Apply(w.db, wr).tokens[k])
  {
    if k in wr.tokens {
      HeldIsCurrent(w, t, TokenRow(k));
    }
  }

  lemma CodeAfter(w: World, t: TxId, wr: Writes, c: CodeId)
    requires Committing(w, t, wr)
    requires c in Apply(w.db, wr).codes
    ensures var db := Apply(w.db, wr); db.codes[c].owner in db.creds && db.creds[db.codes[c].owner].Enabled()
  {
    var db := Apply(w.db, wr);
    NothingToClear(w, t, wr);
    var u := db.codes[c].owner;
    if c in wr.codes && Holds(w.txs[t].rows, CodeRow(c)) {
      HeldIsCurrent(w, t, CodeRow(c));
    }
    if u in wr.creds {
      HeldIsCurrent(w, t, CredRow(u));
    }
  }

  lemma CommitReferential(w: World, t: TxId, wr: Writes)
    requires Committing(w, t, wr)
    ensures Referential(Apply(w.db, wr))
  {
    var db := Apply(w.db, wr);
    forall s | s in db.sessions ensures db.sessions[s].owner in db.users {
      SessionAfter(w, t, wr, s);
      if s !in w.db.sessions {
        HeldIsCurrent(w, t, UserRow(wr.sessions[s].owner));
      }
    }
    forall k | k in db.tokens ensures db.tokens[k].owner in db.users {
      TokenAfter(w, t, wr, k);
    }
    forall c | c in db.codes ensures db.codes[c].owner in db.creds && db.creds[db.codes[c].owner].Enabled() {
      CodeAfter(w, t, wr, c);
    }
  }

  lemma OthersKeepConsuming(w: World, t: TxId, wr: Writes, other: TxId)
    requires Committing(w, t, wr) && other in w.txs && ConsumeOk(w.db, w.txs[other])
    ensures ConsumeOk(Apply(w.db, wr), w.txs[other])
  {
    forall k ensures (k in w.db.tokens <==> k in Apply(w.db, wr).tokens)
                  && (k in w.db.tokens ==> TokenEvolves(w.db.tokens[k], Apply(w.db, wr).tokens[k])) {
      TokenAfter(w, t, wr, k);
    }
  }

  /** Nobody mints a session for an account another transaction is sweeping. */
  lemma OthersKeepRevoking(w: World, t: TxId, wr: Writes, other: TxId)
    requires Committing(w, t, wr) && other in w.txs && other != t && RevokeOk(w.db, w.txs[other])
    ensures RevokeOk(Apply(w.db, wr), w.txs[other])
  {
    var tx, db := w.txs[other], Apply(w.db, wr);
    if tx.sweep.Read? {
      var u := SweepUser(tx).value;
      forall s ensures (s in w.db.sessions ==> s in db.sessions && SessionEvolves(w.db.sessions[s], db.sessions[s]))
                    && (s in db.sessions && db.sessions[s].owner == u ==> s in w.db.sessions) {
        SessionAfter(w, t, wr, s);
        if s in db.sessions && s !in w.db.sessions && db.sessions[s].owner == u {
          HeldByOne(w, t, other, UserRow(u));
        }
      }
    }
  }

  lemma CommitNumbered(w: World, t: TxId, wr: Writes, next: World)
    requires Committing(w, t, wr)
    requires next.db == Apply(w.db, wr) && next.nextTx == w.nextTx && next.txs == w.txs - {t}
    ensures Numbered(next)
  {
    forall s | s in next.db.sessions ensures s < next.nextTx && s !in next.txs {
      SessionAfter(w, t, wr, s);
    }
  }

  lemma CommitLocks(w: World, t: TxId, wr: Writes, next: World)
    requires Committing(w, t, wr)
    requires next.db == Apply(w.db, wr)
    requires next.locks == Release(w, t).locks && next.txs == w.txs - {t}
    ensures LocksMatchViews(next)
  {
    forall other, r | other in next.txs && Holds(next.txs[other].rows, r)
      ensures r in next.locks && next.locks[r] == other && Current(next.db, next.txs[other].rows, r)
    {
      HeldIsCurrent(w, other, r);
      OthersStayCurrent(w, t, wr, other, r);
    }
  }

  lemma CommitKeepsOthers(w: World, t: TxId, wr: Writes, next: World)
    requires LockInv(w) && Committing(w, t, wr) && next == StepCommit(w, t, wr)
    ensures LockInv(next)
  {
    CommitReferential(w, t, wr);
    CommitNumbered(w, t, wr, next);
    CommitLocks(w, t, wr, next);
    forall other | other in next.txs
      ensures TxOk(next.db, next.txs[other])
    {
      OthersKeepConsuming(w, t, wr, other);
      OthersKeepRevoking(w, t, wr, other);
    }
  }

  /** The lock discipline survives every commit. */
  lemma CommitKeepsLockInv(cfg: Config, w: World, t: TxId)
    requires LockInv(w) && Enabled(cfg, w, Commit(t))
    ensures LockInv(Step(cfg, w, Commit(t)))
  {
    var wr := Plan(cfg, t, w.txs[t]).writes;
    FinishedWrites(cfg, t, w.txs[t], wr);
    CommitKeepsOthers(w, t, wr, StepCommit(w, t, wr));
  }

  // ---- Observations -----------------------------------------------------------

  /** The locks each program takes, and when. */
  predicate LockFits(tx: Tx, r: Row) {
    match r
    case UserRow(u) => u !in tx.rows.users && !tx.cmd.Logout? && tx.siblings.Unread? && tx.sweep.Unread?
    case SessionRow(s) =>
      || (tx.sweep.Unread? && tx.cmd.Refresh? && s == tx.cmd.presented.session && s !in tx.rows.sessions)
      || (tx.sweep.Unread? && tx.cmd.Logout? && s == tx.cmd.session && s !in tx.rows.sessions)
      || (tx.sweep.Read? && tx.sweep.value != [] && s == tx.sweep.value[0])
    case TokenRow(k) =>
      tx.cmd.ConfirmReset? && tx.sweep.Unread?
      && if tx.siblings.Unread? then k == tx.cmd.token && k !in tx.rows.tokens
         else tx.siblings.value != [] && k == tx.siblings.value[0]
    case CredRow(u) => (tx.cmd.MfaLogin? || tx.cmd.ConfirmSetup?) && u !in tx.rows.creds
    case CodeRow(c) => tx.cmd.MfaLogin? && c !in tx.rows.codes
  }

  lemma PlannedLock(cfg: Config, t: TxId, tx: Tx, r: Row)
    requires Shape(tx) && Plan(cfg, t, tx) == Lock(r)
    ensures LockFits(tx, r)
  {
  }

  lemma ObservedShape(db: Db, tx: Tx, r: Row)
    requires Shape(tx) && LockFits(tx, r)
    ensures Shape(Observe(db, tx, r))
  {
  }

  /** A locking read adds exactly the row it found to what the transaction holds. */
  lemma ReadRowHolds(db: Db, rows: Rows, r: Row)
    ensures Holds(ReadRow(db, rows, r), r) == Exists(db, r) && Current(db, ReadRow(db, rows, r), r)
  {
  }

  lemma ReadRowOthers(db: Db, rows: Rows, r: Row, q: Row)
    requires q != r
    ensures Holds(ReadRow(db, rows, r), q) == Holds(rows, q) && Current(db, ReadRow(db, rows, r), q) == Current(db, rows, q)
  {
  }

  lemma ObservedConsume(db: Db, tx: Tx, r: Row)
    requires Shape(tx) && LockFits(tx, r) && ConsumeOk(db, tx)
    ensures ConsumeOk(db, Observe(db, tx, r))
  {
  }

  lemma ObservedRevoke(db: Db, tx: Tx, r: Row)
    requires Shape(tx) && LockFits(tx, r) && RevokeOk(db, tx)
    ensures RevokeOk(db, Observe(db, tx, r))
  {
  }

  /** One transaction moved; every other one and the tables are as they were. */
  ghost predicate OnlyMoved(w: World, t: TxId, next: World) {
    && t in w.txs && t in next.txs && next.db == w.db && next.nextTx == w.nextTx && next.txs == w.txs[t := next.txs[t]]
  }

  lemma LockKeepsLocks(w: World, t: TxId, r: Row, next: World)
    requires LocksMatchViews(w) && OnlyMoved(w, t, next) && r !in w.locks
    requires next.txs[t].rows == ReadRow(w.db, w.txs[t].rows, r)
    requires next.locks == if Exists(w.db, r) then w.locks[r := t] else w.locks
    ensures LocksMatchViews(next)
  {
    ReadRowHolds(w.db, w.txs[t].rows, r);
    forall other, q | other in next.txs && Holds(next.txs[other].rows, q)
      ensures q in next.locks && next.locks[q] == other && Current(next.db, next.txs[other].rows, q)
    {
      if other == t && q != r {
        ReadRowOthers(w.db, w.txs[t].rows, r, q);
      }
      if other != t || q != r {
        HeldIsCurrent(w, other, q);
      }
    }
    forall q | q in next.locks ensures next.locks[q] in next.txs && Holds(next.txs[next.locks[q]].rows, q) {
      if q != r {
        ReadRowOthers(w.db, w.txs[t].rows, r, q);
      }
    }
  }

  lemma SameRowsKeepLocks(w: World, t: TxId, next: World)
    requires LocksMatchViews(w) && OnlyMoved(w, t, next) && next.locks == w.locks && next.txs[t].rows == w.txs[t].rows
    ensures LocksMatchViews(next)
  {
    forall other, q | other in next.txs && Holds(next.txs[other].rows, q)
      ensures q in next.locks && next.locks[q] == other && Current(next.db, next.txs[other].rows, q)
    {
      HeldIsCurrent(w, other, q);
    }
  }

  lemma StartedConsume(cfg: Config, w: World, t: TxId, u: UserId, k: ResetId, order: seq<nat>)
    requires LocksMatchViews(w) && t in w.txs && Shape(w.txs[t]) && Plan(cfg, t, w.txs[t]) == StartConsume(u, k)
    requires Enumerates(order, Outstanding(w.db, u, k))
    ensures TxOk(w.db, Advance(w, w.txs[t], StartConsume(u, k), order))
  {
    HeldIsCurrent(w, t, TokenRow(k));
    assert forall x :: x in order <==> x in Outstanding(w.db, u, k);
  }

  lemma StartedRevoke(cfg: Config, w: World, t: TxId, tx: Tx, u: UserId, order: seq<nat>)
    requires Shape(tx) && ConsumeOk(w.db, tx) && Plan(cfg, t, tx) == StartRevoke(u)
    requires Enumerates(order, LiveSessions(w.db.sessions, u))
    ensures TxOk(w.db, Advance(w, tx, StartRevoke(u), order))
  {
    assert forall x :: x in order <==> x in LiveSessions(w.db.sessions, u);
  }

  predicate SameLockedView(a: Tx, b: Tx) {
    a.cmd == b.cmd && a.rows == b.rows && a.siblings == b.siblings && a.sweep == b.sweep && a.snapshot == b.snapshot
  }

  lemma SameTx(db: Db, a: Tx, b: Tx)
    requires SameLockedView(a, b) && TxOk(db, a)
    ensures TxOk(db, b)
  {
  }

  lemma UnlockedAction(w: World, tx: Tx, a: Action, order: seq<nat>)
    requires !a.Lock? && !a.StartConsume? && !a.StartRevoke?
    ensures SameLockedView(tx, Advance(w, tx, a, order))
  {
  }

  /** The moved transaction keeps its own invariants whatever the action was. */
  lemma MovedTx(cfg: Config, w: World, t: TxId, a: Action, order: seq<nat>)
    requires LocksMatchViews(w) && t in w.txs && TxOk(w.db, w.txs[t])
    requires a == Plan(cfg, t, w.txs[t]) && ActEnabled(w, w.txs[t], a, order)
    ensures TxOk(w.db, Advance(w, w.txs[t], a, order))
  {
    var tx := w.txs[t];
    match a
    case Lock(r) =>
      PlannedLock(cfg, t, tx, r);
      ObservedShape(w.db, tx, r);
      ObservedConsume(w.db, tx, r);
      ObservedRevoke(w.db, tx, r);
    case StartConsume(u, k) =>
      StartedConsume(cfg, w, t, u, k, order);
    case StartRevoke(u) =>
      StartedRevoke(cfg, w, t, tx, u, order);
    case _ =>
      UnlockedAction(w, tx, a, order);
      SameTx(w.db, tx, Advance(w, tx, a, order));
  }

  lemma ActFrame(cfg: Config, w: World, t: TxId, a: Action, order: seq<nat>)
    requires t in w.txs
    ensures var next := StepAct(cfg, w, t, a, order);
      && OnlyMoved(w, t, next) && next.txs[t] == Advance(w, w.txs[t], a, order)
      && next.locks == if a.Lock? && Exists(w.db, a.row) then w.locks[a.row := t] else w.locks
  {
  }

  lemma ActKeepsOthers(w: World, t: TxId, a: Action, order: seq<nat>, next: World)
    requires LockInv(w) && t in w.txs && ActEnabled(w, w.txs[t], a, order)
    requires OnlyMoved(w, t, next) && TxOk(w.db, next.txs[t]) && next.txs[t] == Advance(w, w.txs[t], a, order)
    requires next.locks == if a.Lock? && Exists(w.db, a.row) then w.locks[a.row := t] else w.locks
    ensures LockInv(next)
  {
    ActKeepsLocks(w, t, a, order, next);
    MovedNumbered(w, t, next);
    MovedTxs(w, t, next);
  }

  lemma ActKeepsLocks(w: World, t: TxId, a: Action, order: seq<nat>, next: World)
    requires LocksMatchViews(w) && OnlyMoved(w, t, next) && ActEnabled(w, w.txs[t], a, order)
    requires next.txs[t] == Advance(w, w.txs[t], a, order)
    requires next.locks == if a.Lock? && Exists(w.db, a.row) then w.locks[a.row := t] else w.locks
    ensures LocksMatchViews(next)
  {
    if a.Lock? {
      LockKeepsLocks(w, t, a.row, next);
    } else {
      SameRowsKeepLocks(w, t, next);
    }
  }

  lemma MovedNumbered(w: World, t: TxId, next: World)
    requires Numbered(w) && OnlyMoved(w, t, next)
    ensures Numbered(next)
  {
  }

  lemma MovedTxs(w: World, t: TxId, next: World)
    requires OnlyMoved(w, t, next) && TxOk(w.db, next.txs[t]) && forall x :: x in w.txs ==> TxOk(w.db, w.txs[x])
    ensures forall x :: x in next.txs ==> TxOk(next.db, next.txs[x])
  {
  }

  lemma ActKeepsLockInv(cfg: Config, w: World, t: TxId, order: seq<nat>)
    requires LockInv(w) && Enabled(cfg, w, Act(t, order))
    ensures LockInv(Step(cfg, w, Act(t, order)))
  {
    var a := Plan(cfg, t, w.txs[t]);
    MovedTx(cfg, w, t, a, order);
    ActFrame(cfg, w, t, a, order);
    ActKeepsOthers(w, t, a, order, StepAct(cfg, w, t, a, order));
  }

  // ---- Every step -------------------------------------------------------------

  lemma RollbackKeepsLockInv(w: World, t: TxId)
    requires LockInv(w) && t in w.txs
    ensures LockInv(Release(w, t))
  {
    forall other, r | other in w.txs && other != t && Holds(w.txs[other].rows, r)
      ensures r in Release(w, t).locks
    {
      HeldIsCurrent(w, other, r);
    }
  }

  lemma StartOk(db: Db, cmd: Command)
    ensures TxOk(db, Start(cmd))
    ensures forall r :: !Holds(Start(cmd).rows, r)
  {
  }

  lemma BegunLocks(w: World, cmd: Command, next: World)
    requires LocksMatchViews(w) && w.nextTx !in w.txs && next.db == w.db && next.locks == w.locks
    requires next.txs == w.txs[w.nextTx := Start(cmd)]
    ensures LocksMatchViews(next)
  {
    StartOk(w.db, cmd);
    forall t, r | t in next.txs && Holds(next.txs[t].rows, r)
      ensures r in next.locks && next.locks[r] == t && Current(next.db, next.txs[t].rows, r)
    {
      HeldIsCurrent(w, t, r);
    }
  }

  lemma BeginKeepsLockInv(w: World, cmd: Command, next: World)
    requires LockInv(w) && next.db == w.db && next.locks == w.locks
    requires next.txs == w.txs[w.nextTx := Start(cmd)] && next.nextTx == w.nextTx + 1
    ensures LockInv(next)
  {
    StartOk(w.db, cmd);
    BegunLocks(w, cmd, next);
  }

  lemma OutsideKeepsLocks(w: World, next: World)
    requires LocksMatchViews(w) && next.locks == w.locks && next.txs == w.txs
    requires forall t, r :: t in w.txs && Holds(w.txs[t].rows, r) && r in w.locks && Current(w.db, w.txs[t].rows, r) ==>
               Current(next.db, w.txs[t].rows, r)
    ensures LocksMatchViews(next)
  {
    forall t, r | t in next.txs && Holds(next.txs[t].rows, r)
      ensures r in next.locks && next.locks[r] == t && Current(next.db, next.txs[t].rows, r)
    {
      HeldIsCurrent(w, t, r);
    }
  }

  lemma NewRowsKeepTx(db: Db, more: Db, tx: Tx)
    requires TxOk(db, tx) && more.sessions == db.sessions
    requires forall k :: k in db.tokens ==> k in more.tokens && more.tokens[k] == db.tokens[k]
    ensures TxOk(more, tx)
  {
  }

  lemma NewRowsKeepTxs(w: World, next: World)
    requires next.txs == w.txs && next.db.sessions == w.db.sessions && forall t :: t in w.txs ==> TxOk(w.db, w.txs[t])
    requires forall k :: k in w.db.tokens ==> k in next.db.tokens && next.db.tokens[k] == w.db.tokens[k]
    ensures forall t :: t in next.txs ==> TxOk(next.db, next.txs[t])
  {
    forall t | t in next.txs ensures TxOk(next.db, next.txs[t]) {
      NewRowsKeepTx(w.db, next.db, w.txs[t]);
    }
  }

  /** Rows that appear, or change while nobody has them locked, disturb no transaction. */
  lemma NewRowsKeepLockInv(w: World, next: World)
    requires LockInv(w) && next == w.(db := next.db) && Referential(next.db) && next.db.sessions == w.db.sessions
    requires forall k :: k in w.db.tokens ==> k in next.db.tokens && next.db.tokens[k] == w.db.tokens[k]
    requires forall u :: u in w.db.users ==> u in next.db.users && next.db.users[u] == w.db.users[u]
    requires forall u :: u in w.db.creds && CredRow(u) in w.locks ==> u in next.db.creds && next.db.creds[u] == w.db.creds[u]
    requires next.db.codes == w.db.codes
    ensures LockInv(next)
  {
    assert LocksMatchViews(next) by {
      OutsideKeepsLocks(w, next);
    }
    NewRowsKeepTxs(w, next);
  }

  /** A step outside any transaction. */
  lemma OutsideKeepsLockInv(cfg: Config, w: World, e: Event)
    requires LockInv(w) && Enabled(cfg, w, e) && !e.Begin? && !e.Act? && !e.Commit? && !e.Rollback?
    ensures LockInv(Step(cfg, w, e))
  {
    if e.Tick? || e.ExpireChallenge? {
      OutsideKeepsLocks(w, Step(cfg, w, e));
    } else {
      NewRowsKeepLockInv(w, Step(cfg, w, e));
    }
  }

  /** The lock discipline holds in every state of every interleaving. */
  lemma StepKeepsLockInv(cfg: Config, w: World, e: Event)
    requires LockInv(w) && Enabled(cfg, w, e)
    ensures LockInv(Step(cfg, w, e))
  {
    match e
    case Act(t, order) => ActKeepsLockInv(cfg, w, t, order);
    case Commit(t) => CommitKeepsLockInv(cfg, w, t);
    case Rollback(t) => RollbackKeepsLockInv(w, t);
    case Begin(cmd) => BeginKeepsLockInv(w, cmd, Step(cfg, w, e));
    case _ => OutsideKeepsLockInv(cfg, w, e);
  }
}
