/**
 The fast form refines the simple one: whatever the interleaving, what a
 transaction commits is exactly what the indivisible command would have done to
 the tables it commits onto. Login locks late, refresh and MFA login peek first,
 and the revocations lock their rows one at a time; none of it shows.
 */
module Refinement {
  import opened Text
  import opened Units
  import opened Accounts
  import opened Serial
  import opened Transactions
  import opened Locking

  function ClockSeen(tx: Tx): Time {
    if tx.at.Read? then tx.at.value else 0
  }

  /** The indivisible command a transaction stands for, given what no lock pins down. */
  function Atomic(cfg: Config, db: Db, t: TxId, tx: Tx): Option<Writes> {
    match tx.cmd
    case Login(u, password) => AtomicLogin(cfg, db, t, u, password, tx.peek.gate == Read(true), ClockSeen(tx))
    case Refresh(presented) => AtomicRefresh(cfg, db, presented, tx.peek.flag.Read? && tx.peek.flag.value.live, ClockSeen(tx))
    case MfaLogin(_, sub) =>
      if tx.peek.pending.Unread? || tx.peek.pending.value.None? then None
      else
        AtomicMfaLogin(cfg, db, t, tx.peek.pending.value.value.user, tx.peek.pending.value.value.epoch, sub,
                       ClockSeen(tx), if tx.at2.Read? then tx.at2.value else 0)
    case ConfirmReset(k, newHash) => AtomicReset(db, k, newHash, tx.snapshot, ClockSeen(tx))
    case SetActive(u, active) => AtomicSetActive(db, u, active, ClockSeen(tx))
    case Logout(s) => AtomicLogout(db, s, ClockSeen(tx))
    case ConfirmSetup(claims, digits, newCodes) => AtomicConfirmSetup(cfg, db, claims, digits, newCodes, ClockSeen(tx))
  }

  lemma LoginIsAtomic(cfg: Config, w: World, t: TxId, wr: Writes)
    requires LocksMatchViews(w) && t in w.txs && w.txs[t].cmd.Login? && PlanLogin(cfg, t, w.txs[t]) == Finish(wr)
    ensures Atomic(cfg, w.db, t, w.txs[t]) == Some(wr)
  {
    HeldIsCurrent(w, t, UserRow(w.txs[t].cmd.user));
  }

  /** A session's owner never changes, so the unlocked peek that picks the account to lock is harmless. */
  lemma RefreshIsAtomic(cfg: Config, w: World, t: TxId, wr: Writes)
    requires LocksMatchViews(w) && t in w.txs && w.txs[t].cmd.Refresh? && PlanRefresh(cfg, w.txs[t]) == Finish(wr)
    requires OwnerOk(w.db, w.txs[t])
    ensures Atomic(cfg, w.db, t, w.txs[t]) == Some(wr)
  {
    var tx := w.txs[t];
    HeldIsCurrent(w, t, SessionRow(tx.cmd.presented.session));
    HeldIsCurrent(w, t, UserRow(tx.peek.owner.value.value));
  }

  /** The owner a refresh peeked at, and the account it then locked, are those of the session in the table. */
  predicate OwnerOk(db: Db, tx: Tx) {
    tx.cmd.Refresh? ==>
      && (tx.peek.owner.Unread? ==> tx.rows.users == map[])
      && (tx.peek.owner.Read? && tx.peek.owner.value.Some? ==>
            && tx.cmd.presented.session in db.sessions
            && db.sessions[tx.cmd.presented.session].owner == tx.peek.owner.value.value
            && (tx.peek.owner.value.value in tx.rows.users ==> tx.rows.users[tx.peek.owner.value.value].Some?))
  }

  lemma LogoutIsAtomic(cfg: Config, w: World, t: TxId, wr: Writes)
    requires LocksMatchViews(w) && t in w.txs && w.txs[t].cmd.Logout? && PlanLogout(w.txs[t]) == Finish(wr)
    ensures Atomic(cfg, w.db, t, w.txs[t]) == Some(wr)
  {
    HeldIsCurrent(w, t, SessionRow(w.txs[t].cmd.session));
  }

  lemma ConfirmSetupIsAtomic(cfg: Config, w: World, t: TxId, wr: Writes)
    requires LocksMatchViews(w) && t in w.txs && w.txs[t].cmd.ConfirmSetup? && PlanConfirmSetup(cfg, w.txs[t]) == Finish(wr)
    ensures Atomic(cfg, w.db, t, w.txs[t]) == Some(wr)
  {
    HeldIsCurrent(w, t, CredRow(w.txs[t].cmd.claims.user));
  }

  lemma MfaLoginIsAtomic(cfg: Config, w: World, t: TxId, wr: Writes)
    requires LocksMatchViews(w) && t in w.txs && w.txs[t].cmd.MfaLogin? && PlanMfaLogin(cfg, t, w.txs[t]) == Finish(wr)
    ensures Atomic(cfg, w.db, t, w.txs[t]) == Some(wr)
  {
    var tx := w.txs[t];
    MfaReachesSession(cfg, t, tx, wr);
    var u := tx.peek.pending.value.value.user;
    HeldIsCurrent(w, t, CredRow(u));
    if tx.cmd.submission.SubmittedRecovery? {
      HeldIsCurrent(w, t, CodeRow(tx.cmd.submission.code));
    }
    if FactorOf(cfg, tx).Accepted? {
      HeldIsCurrent(w, t, UserRow(u));
    }
  }

  /** The rows an UPDATE locked one by one are, at commit, all the rows its WHERE clause still matches. */
  lemma SweptAll(w: World, t: TxId, u: UserId, at: Time)
    requires LocksMatchViews(w) && t in w.txs && RevokeOk(w.db, w.txs[t])
    requires w.txs[t].sweep == Read([]) && SweepUser(w.txs[t]) == Some(u)
    ensures RevokeAll(Found(w.txs[t].rows.sessions), at) == RevokeAll(SessionsOf(w.db.sessions, u), at)
  {
    var tx := w.txs[t];
    forall s | s in tx.rows.sessions && tx.rows.sessions[s].Some? ensures Get(w.db.sessions, s) == tx.rows.sessions[s] {
      HeldIsCurrent(w, t, SessionRow(s));
    }
    assert forall s :: s in RevokeAll(Found(tx.rows.sessions), at) <==> s in RevokeAll(SessionsOf(w.db.sessions, u), at);
  }

  lemma ConsumedAll(w: World, t: TxId, k: ResetId, u: UserId, at: Time)
    requires LocksMatchViews(w) && t in w.txs && ConsumeOk(w.db, w.txs[t])
    requires w.txs[t].siblings == Read([]) && w.txs[t].cmd.ConfirmReset? && w.txs[t].cmd.token == k
    requires w.txs[t].rows.tokens[k].value.owner == u
    ensures ConsumeAll(Found(w.txs[t].rows.tokens) - {k}, at)
         == ConsumeAll(Siblings(w.db, k, u, w.txs[t].snapshot), at)
  {
    var tx := w.txs[t];
    forall x | x in tx.rows.tokens ensures Get(w.db.tokens, x) == tx.rows.tokens[x] {
      HeldIsCurrent(w, t, TokenRow(x));
    }
  }

  lemma ResetIsAtomic(cfg: Config, w: World, t: TxId, wr: Writes)
    requires LockInv(w) && t in w.txs && w.txs[t].cmd.ConfirmReset? && PlanReset(w.txs[t]) == Finish(wr)
    ensures Atomic(cfg, w.db, t, w.txs[t]) == Some(wr)
  {
    var tx := w.txs[t];
    var k := tx.cmd.token;
    var u, at := tx.rows.tokens[k].value.owner, tx.at.value;
    HeldIsCurrent(w, t, TokenRow(k));
    HeldIsCurrent(w, t, UserRow(u));
    ConsumedAll(w, t, k, u, at);
    SweptAll(w, t, u, at);
  }

  lemma SetActiveIsAtomic(cfg: Config, w: World, t: TxId, wr: Writes)
    requires LockInv(w) && t in w.txs && w.txs[t].cmd.SetActive? && PlanSetActive(w.txs[t]) == Finish(wr)
    ensures Atomic(cfg, w.db, t, w.txs[t]) == Some(wr)
  {
    var tx := w.txs[t];
    HeldIsCurrent(w, t, UserRow(tx.cmd.user));
    if tx.rows.users[tx.cmd.user].value.active {
      SweptAll(w, t, tx.cmd.user, tx.at.value);
    }
  }

  /** Every commit of every interleaving is the indivisible command applied to the committed tables. */
  lemma CommitIsAtomic(cfg: Config, w: World, t: TxId)
    requires LockInv(w) && t in w.txs && OwnerOk(w.db, w.txs[t]) && Plan(cfg, t, w.txs[t]).Finish?
    ensures Atomic(cfg, w.db, t, w.txs[t]) == Some(Plan(cfg, t, w.txs[t]).writes)
  {
    var wr := Plan(cfg, t, w.txs[t]).writes;
    match w.txs[t].cmd
    case Login(_, _) => LoginIsAtomic(cfg, w, t, wr);
    case Refresh(_) => RefreshIsAtomic(cfg, w, t, wr);
    case MfaLogin(_, _) => MfaLoginIsAtomic(cfg, w, t, wr);
    case ConfirmReset(_, _) => ResetIsAtomic(cfg, w, t, wr);
    case SetActive(_, _) => SetActiveIsAtomic(cfg, w, t, wr);
    case Logout(_) => LogoutIsAtomic(cfg, w, t, wr);
    case ConfirmSetup(_, _, _) => ConfirmSetupIsAtomic(cfg, w, t, wr);
  }
}
