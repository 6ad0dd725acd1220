/**
 How transactions end. A commit keeps its command's promise to the letter; a
 transaction that gives up is one its command would refuse, unless it was refused
 by something it had read without a lock; and none goes on acting for ever.
 */
module Endings {
  import opened Text
  import opened Accounts
  import opened Promises
  import opened Keeping
  import opened Transactions
  import opened Locking
  import opened Refinement
  import opened Deadlock
  import opened Theorems

  // ---- Commits ----------------------------------------------------------------

  /** The promise of the command transaction `t` runs, given what no lock pins down. */
  ghost predicate CommandKept(cfg: Config, db: Db, t: TxId, tx: Tx, out: Option<Output>, after: Db) {
    match tx.cmd
    case Login(u, password) => LoginKept(cfg, db, t, u, password, tx.peek.gate == Read(true), ClockSeen(tx), out, after)
    case Refresh(presented) => RefreshKept(cfg, db, presented, tx.peek.flag.Read? && tx.peek.flag.value.live, ClockSeen(tx), out, after)
    case MfaLogin(_, sub) =>
      && tx.peek.pending.Read? && tx.peek.pending.value.Some?
      && (var p := tx.peek.pending.value.value;
          MfaLoginKept(cfg, db, t, p.user, p.epoch, sub, ClockSeen(tx), if tx.at2.Read? then tx.at2.value else 0, out, after))
    case ConfirmReset(k, newHash) => ResetKept(db, k, newHash, tx.snapshot, ClockSeen(tx), out, after)
    case SetActive(u, active) => SetActiveKept(db, u, active, ClockSeen(tx), out, after)
    case Logout(s) => LogoutKept(db, s, ClockSeen(tx), out, after)
    case ConfirmSetup(claims, digits, newCodes) => SetupKept(cfg, db, claims, digits, newCodes, ClockSeen(tx), out, after)
  }

  lemma AtomicKept(cfg: Config, db: Db, t: TxId, tx: Tx)
    requires tx.cmd.MfaLogin? ==> tx.peek.pending.Read? && tx.peek.pending.value.Some?
    ensures CommandKept(cfg, db, t, tx, Answer(Atomic(cfg, db, t, tx)), After(db, Atomic(cfg, db, t, tx)))
  {
    match tx.cmd
    case Login(u, password) => AtomicLoginKept(cfg, db, t, u, password, tx.peek.gate == Read(true), ClockSeen(tx));
    case Refresh(presented) => AtomicRefreshKept(cfg, db, presented, tx.peek.flag.Read? && tx.peek.flag.value.live, ClockSeen(tx));
    case MfaLogin(_, sub) =>
      var p := tx.peek.pending.value.value;
      AtomicMfaLoginKept(cfg, db, t, p.user, p.epoch, sub, ClockSeen(tx), if tx.at2.Read? then tx.at2.value else 0);
    case ConfirmReset(k, newHash) => AtomicResetKept(db, k, newHash, tx.snapshot, ClockSeen(tx));
    case SetActive(u, active) => AtomicSetActiveKept(db, u, active, ClockSeen(tx));
    case Logout(s) => AtomicLogoutKept(db, s, ClockSeen(tx));
    case ConfirmSetup(claims, digits, newCodes) => AtomicConfirmSetupKept(cfg, db, claims, digits, newCodes, ClockSeen(tx));
  }

  /** What the caller of a committed command holds from then on is on record, and nothing else is added to it. */
  predicate HandedOver(h: History, out: Output, h': History) {
    match out
    case NewSession(s, refresh, access, factor, _) =>
      && h'.access == h.access + {access} && h'.refresh == h.refresh[refresh := access.epoch] && h'.born == h.born[s := access.epoch]
      && h'.factors == (if factor.Some? then h.factors[s := factor.value] else h.factors)
      && h'.rotated == h.rotated && h'.redeemed == h.redeemed
    case Rotation(presented, refresh, access) =>
      && h'.access == h.access + {access} && h'.refresh == h.refresh[refresh := access.epoch] && h'.rotated == h.rotated + [presented]
      && h'.born == h.born && h'.factors == h.factors && h'.redeemed == h.redeemed
    case Enrolment(_, _, _, access) =>
      && h'.access == h.access + {access} && h'.refresh == h.refresh && h'.born == h.born && h'.factors == h.factors
      && h'.rotated == h.rotated && h'.redeemed == h.redeemed
    case Redemption(k) => h' == h.(redeemed := h.redeemed + [k], burned := h'.burned)
    case _ => h' == h
  }

  lemma RecordHandsOver(h: History, out: Output, burned: set<ResetId>)
    ensures HandedOver(h, out, Record(h, out, burned))
  {
  }

  /** Every commit of every run keeps its command's promise between the tables it lands on and the tables it leaves. */
  lemma CommitsKeepPromises(cfg: Config, ws: seq<World>, es: seq<Event>, i: nat, t: TxId)
    requires Run(cfg, ws, es) && i < |es| && es[i] == Commit(t) && t in ws[i].txs
    ensures Plan(cfg, t, ws[i].txs[t]).Finish?
    ensures CommandKept(cfg, ws[i].db, t, ws[i].txs[t], Some(Plan(cfg, t, ws[i].txs[t]).writes.out), ws[i + 1].db)
    ensures HandedOver(ws[i].h, Plan(cfg, t, ws[i].txs[t]).writes.out, ws[i + 1].h)
  {
    var wr := CommitApplies(cfg, ws, es, i, t);
    RecordHandsOver(ws[i].h, wr.out, ws[i].txs[t].snapshot);
    AtomicKept(cfg, ws[i].db, t, ws[i].txs[t]);
  }

  // ---- Refusals ---------------------------------------------------------------

  /** A locking read found no row, so it took no lock. */
  predicate FoundNothing(rows: Rows) {
    || (exists u <- rows.users.Keys :: rows.users[u].None?) || (exists s <- rows.sessions.Keys :: rows.sessions[s].None?)
    || (exists k <- rows.tokens.Keys :: rows.tokens[k].None?) || (exists u <- rows.creds.Keys :: rows.creds[u].None?)
    || exists c <- rows.codes.Keys :: rows.codes[c].None?
  }

  /** Something read without a lock stands in the way: the row or hash a login first saw, a challenge, its epoch, a code. */
  predicate RefusedUnlocked(cfg: Config, tx: Tx) {
    || FoundNothing(tx.rows)
    || match tx.cmd
       case Login(u, password) =>
         && tx.peek.user.Read?
         && (tx.peek.user.value.None?
             || (var seen := tx.peek.user.value.value;
                 || !seen.active || seen.anonymized || seen.deleted || !cfg.argon2(password, seen.passwordHash)
                 || (u in tx.rows.users && tx.rows.users[u].Some? && tx.rows.users[u].value.passwordHash != seen.passwordHash)))
       case Refresh(_) => tx.peek.owner == Read(None)
       case MfaLogin(_, _) =>
         || tx.peek.pending == Read(None) || tx.peek.codeMatch == Read(false)
         || (tx.peek.pending.Read? && tx.peek.pending.value.Some? && tx.peek.epoch.Read?
             && tx.peek.epoch.value != Some(tx.peek.pending.value.value.epoch))
       case _ => false
  }

  lemma LoginRejects(cfg: Config, w: World, t: TxId)
    requires LocksMatchViews(w) && t in w.txs && w.txs[t].cmd.Login? && PlanLogin(cfg, t, w.txs[t]).Reject?
    ensures RefusedUnlocked(cfg, w.txs[t]) || Atomic(cfg, w.db, t, w.txs[t]).None?
  {
    var u := w.txs[t].cmd.user;
    if Holds(w.txs[t].rows, UserRow(u)) {
      HeldIsCurrent(w, t, UserRow(u));
    }
  }

  lemma RefreshRejects(cfg: Config, w: World, t: TxId)
    requires LocksMatchViews(w) && t in w.txs && w.txs[t].cmd.Refresh? && OwnerOk(w.db, w.txs[t]) && PlanRefresh(cfg, w.txs[t]).Reject?
    ensures RefusedUnlocked(cfg, w.txs[t]) || Atomic(cfg, w.db, t, w.txs[t]).None?
  {
    var tx := w.txs[t];
    if !RefusedUnlocked(cfg, tx) {
      HeldIsCurrent(w, t, SessionRow(tx.cmd.presented.session));
      HeldIsCurrent(w, t, UserRow(tx.peek.owner.value.value));
    }
  }

  lemma ResetRejects(cfg: Config, w: World, t: TxId)
    requires LocksMatchViews(w) && t in w.txs && w.txs[t].cmd.ConfirmReset? && PlanReset(w.txs[t]).Reject?
    ensures RefusedUnlocked(cfg, w.txs[t]) || Atomic(cfg, w.db, t, w.txs[t]).None?
  {
    var tx := w.txs[t];
    if !RefusedUnlocked(cfg, tx) {
      HeldIsCurrent(w, t, TokenRow(tx.cmd.token));
      HeldIsCurrent(w, t, UserRow(tx.rows.tokens[tx.cmd.token].value.owner));
    }
  }

  lemma SetActiveRejects(cfg: Config, w: World, t: TxId)
    requires LocksMatchViews(w) && t in w.txs && w.txs[t].cmd.SetActive? && PlanSetActive(w.txs[t]).Reject?
    ensures RefusedUnlocked(cfg, w.txs[t]) || Atomic(cfg, w.db, t, w.txs[t]).None?
  {
    if !RefusedUnlocked(cfg, w.txs[t]) {
      HeldIsCurrent(w, t, UserRow(w.txs[t].cmd.user));
    }
  }

  lemma LogoutRejects(cfg: Config, w: World, t: TxId)
    requires LocksMatchViews(w) && t in w.txs && w.txs[t].cmd.Logout? && PlanLogout(w.txs[t]).Reject?
    ensures RefusedUnlocked(cfg, w.txs[t]) || Atomic(cfg, w.db, t, w.txs[t]).None?
  {
    if !RefusedUnlocked(cfg, w.txs[t]) {
      HeldIsCurrent(w, t, SessionRow(w.txs[t].cmd.session));
    }
  }

  lemma SetupRejects(cfg: Config, w: World, t: TxId)
    requires LocksMatchViews(w) && t in w.txs && w.txs[t].cmd.ConfirmSetup? && PlanConfirmSetup(cfg, w.txs[t]).Reject?
    ensures RefusedUnlocked(cfg, w.txs[t]) || Atomic(cfg, w.db, t, w.txs[t]).None?
  {
    if !RefusedUnlocked(cfg, w.txs[t]) {
      HeldIsCurrent(w, t, CredRow(w.txs[t].cmd.claims.user));
    }
  }

  lemma MfaLoginRejects(cfg: Config, w: World, t: TxId)
    requires LocksMatchViews(w) && t in w.txs && w.txs[t].cmd.MfaLogin? && PlanMfaLogin(cfg, t, w.txs[t]).Reject?
    ensures RefusedUnlocked(cfg, w.txs[t]) || Atomic(cfg, w.db, t, w.txs[t]).None?
  {
    var tx := w.txs[t];
    if !RefusedUnlocked(cfg, tx) {
      var u, sub := tx.peek.pending.value.value.user, tx.cmd.submission;
      HeldIsCurrent(w, t, CredRow(u));
      if sub.SubmittedRecovery? && sub.code in tx.rows.codes {
        HeldIsCurrent(w, t, CodeRow(sub.code));
      }
      if u in tx.rows.users {
        HeldIsCurrent(w, t, UserRow(u));
      }
    }
  }

  /** Whoever gives up was refused by something it read without a lock, or its command would refuse on the tables as they are. */
  lemma RejectIsRefusal(cfg: Config, w: World, t: TxId)
    requires LocksMatchViews(w) && t in w.txs && OwnerOk(w.db, w.txs[t]) && Plan(cfg, t, w.txs[t]).Reject?
    ensures RefusedUnlocked(cfg, w.txs[t]) || Atomic(cfg, w.db, t, w.txs[t]).None?
  {
    match w.txs[t].cmd
    case Login(_, _) => LoginRejects(cfg, w, t);
    case Refresh(_) => RefreshRejects(cfg, w, t);
    case MfaLogin(_, _) => MfaLoginRejects(cfg, w, t);
    case ConfirmReset(_, _) => ResetRejects(cfg, w, t);
    case SetActive(_, _) => SetActiveRejects(cfg, w, t);
    case Logout(_) => LogoutRejects(cfg, w, t);
    case ConfirmSetup(_, _, _) => SetupRejects(cfg, w, t);
  }

  /** A refusal that no unlocked read explains is the command's own: on the committed tables it promises to refuse. */
  lemma RefusalsKeepPromises(cfg: Config, ws: seq<World>, es: seq<Event>, i: nat, t: TxId)
    requires Run(cfg, ws, es) && i < |ws| && t in ws[i].txs && Plan(cfg, t, ws[i].txs[t]).Reject? && !RefusedUnlocked(cfg, ws[i].txs[t])
    ensures CommandKept(cfg, ws[i].db, t, ws[i].txs[t], None, ws[i].db)
  {
    AllWellBehaved(cfg, ws, es, i, t);
    RejectIsRefusal(cfg, ws[i], t);
    RejectKnowsChallenge(cfg, t, ws[i].txs[t]);
    AtomicKept(cfg, ws[i].db, t, ws[i].txs[t]);
  }

  lemma RejectKnowsChallenge(cfg: Config, t: TxId, tx: Tx)
    requires Plan(cfg, t, tx).Reject? && !RefusedUnlocked(cfg, tx)
    ensures tx.cmd.MfaLogin? ==> tx.peek.pending.Read? && tx.peek.pending.value.Some?
  {
  }

  /** A logout that has its row and the time finishes exactly when the committed session is not revoked. */
  lemma LogoutFinishes(cfg: Config, ws: seq<World>, es: seq<Event>, i: nat, t: TxId)
    requires Run(cfg, ws, es) && i < |ws| && t in ws[i].txs && ws[i].txs[t].cmd.Logout? && ws[i].txs[t].at.Read?
    requires ws[i].txs[t].cmd.session in ws[i].txs[t].rows.sessions
    requires ws[i].txs[t].rows.sessions[ws[i].txs[t].cmd.session].Some?
    ensures var s := ws[i].txs[t].cmd.session;
      s in ws[i].db.sessions && (Plan(cfg, t, ws[i].txs[t]).Finish? <==> ws[i].db.sessions[s].revokedAt.None?)
  {
    AllWellBehaved(cfg, ws, es, i, t);
    HeldIsCurrent(ws[i], t, SessionRow(ws[i].txs[t].cmd.session));
  }

  // ---- Progress ---------------------------------------------------------------

  function One(b: bool): nat {
    if b then 1 else 0
  }

  function PeeksUnseen(p: Peeks): nat {
    One(p.user.Unread?) + One(p.owner.Unread?) + One(p.flag.Unread?) + One(p.pending.Unread?)
    + One(!p.consumed) + One(p.epoch.Unread?) + One(p.gate.Unread?) + One(p.codeMatch.Unread?)
  }

  function TablesUnseen(rows: Rows): nat {
    One(rows.users == map[]) + One(rows.sessions == map[]) + One(rows.tokens == map[]) + One(rows.creds == map[]) + One(rows.codes == map[])
  }

  /** How much a transaction has still to find out: its unlocked reads, its first lock in each table, its clocks and statements. */
  function Unseen(tx: Tx): nat {
    PeeksUnseen(tx.peek) + TablesUnseen(tx.rows)
    + One(tx.at.Unread?) + One(tx.at2.Unread?) + One(tx.siblings.Unread?) + One(tx.sweep.Unread?) + One(!tx.published)
  }

  function Left(todo: Obs<seq<nat>>): nat {
    if todo.Read? then |todo.value| else 0
  }

  /** How many rows its statements have still to visit. */
  function ToVisit(tx: Tx): nat {
    Left(tx.siblings) + Left(tx.sweep)
  }

  predicate Nearer(before: Tx, after: Tx) {
    Unseen(after) < Unseen(before) || (Unseen(after) == Unseen(before) && ToVisit(after) < ToVisit(before))
  }

  /** Every program looks only at what it has not seen. */
  predicate Fresh(tx: Tx, a: Action) {
    match a
    case PeekUser(_) => tx.peek.user.Unread?
    case PeekOwner(_) => tx.peek.owner.Unread?
    case PeekFlag(_) => tx.peek.flag.Unread?
    case PeekEpoch(_) => tx.peek.epoch.Unread?
    case PeekGate(_) => tx.peek.gate.Unread?
    case PeekCode(_, _) => tx.peek.codeMatch.Unread?
    case Resolve(_) => tx.peek.pending.Unread?
    case Consume(_) => !tx.peek.consumed
    case Clock => tx.at.Unread?
    case Clock2 => tx.at2.Unread?
    case StartConsume(_, _) => tx.siblings.Unread?
    case StartRevoke(_) => tx.sweep.Unread?
    case _ => true
  }

  lemma PlannedFresh(cfg: Config, t: TxId, tx: Tx)
    ensures Fresh(tx, Plan(cfg, t, tx))
  {
  }

  lemma LockNearer(db: Db, tx: Tx, r: Row)
    requires Shape(tx) && Orderly(tx) && MayLock(tx, r)
    ensures Nearer(tx, Observe(db, tx, r))
  {
  }

  predicate IsPeek(a: Action) {
    a.PeekUser? || a.PeekOwner? || a.PeekFlag? || a.PeekEpoch? || a.PeekGate? || a.PeekCode? || a.Resolve? || a.Consume?
  }

  lemma PeekNearer(w: World, tx: Tx, a: Action, order: seq<nat>)
    requires Fresh(tx, a) && IsPeek(a)
    ensures var after := Advance(w, tx, a, order);
      after == tx.(peek := after.peek) && PeeksUnseen(after.peek) < PeeksUnseen(tx.peek)
  {
  }

  lemma LookNearer(w: World, tx: Tx, a: Action, order: seq<nat>)
    requires Fresh(tx, a) && ActEnabled(w, tx, a, order) && !a.Lock?
    ensures Nearer(tx, Advance(w, tx, a, order))
  {
    if IsPeek(a) {
      PeekNearer(w, tx, a, order);
    }
  }

  /**
   Whatever a transaction does brings it nearer to its end: it finds out something
   new, of eighteen things at most, or it has one row less to visit. Other
   transactions stay as they are.
   */
  lemma ActsTowardsEnd(cfg: Config, ws: seq<World>, es: seq<Event>, i: nat)
    requires Run(cfg, ws, es) && i < |es| && es[i].Act?
    ensures es[i].t in ws[i].txs && es[i].t in ws[i + 1].txs && Nearer(ws[i].txs[es[i].t], ws[i + 1].txs[es[i].t])
    ensures Unseen(ws[i].txs[es[i].t]) <= 18
    ensures forall x :: x != es[i].t && x in ws[i].txs ==> x in ws[i + 1].txs && ws[i + 1].txs[x] == ws[i].txs[x]
  {
    AllWellBehaved(cfg, ws, es, i, es[i].t);
    ActNearer(cfg, ws[i], es[i].t, es[i].order);
  }

  lemma MovedNearer(cfg: Config, w: World, t: TxId, order: seq<nat>)
    requires WellBehaved(w, t) && ActEnabled(w, w.txs[t], Plan(cfg, t, w.txs[t]), order)
    ensures Nearer(w.txs[t], Advance(w, w.txs[t], Plan(cfg, t, w.txs[t]), order))
  {
    var tx, a := w.txs[t], Plan(cfg, t, w.txs[t]);
    if a.Lock? {
      PlannedMayLock(cfg, t, tx, a.row);
      LockNearer(w.db, tx, a.row);
    } else {
      PlannedFresh(cfg, t, tx);
      LookNearer(w, tx, a, order);
    }
  }

  lemma ActNearer(cfg: Config, w: World, t: TxId, order: seq<nat>)
    requires Enabled(cfg, w, Act(t, order)) && WellBehaved(w, t)
    ensures var next := Step(cfg, w, Act(t, order));
      && t in next.txs && Nearer(w.txs[t], next.txs[t])
      && forall x :: x != t && x in w.txs ==> x in next.txs && next.txs[x] == w.txs[x]
  {
    MovedNearer(cfg, w, t, order);
    ActFrame(cfg, w, t, Plan(cfg, t, w.txs[t]), order);
  }
}
