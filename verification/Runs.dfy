/** The invariant of every interleaving, and the run-level theorems it yields. */
module Runs {
  import opened Text
  import opened Accounts
  import opened Transactions
  import opened Locking
  import opened Refinement
  import opened Safety
  import opened Ledger
  import opened Factors
  import opened Protocol

  /** What an in-flight transaction was entitled to start from. */
  predicate EntryOk(w: World, tx: Tx) {
    OwnerOk(w.db, tx) && (tx.cmd.ConfirmSetup? ==> tx.cmd.claims in w.h.access)
  }

  ghost predicate Inv(w: World) {
    LockInv(w) && DbInv(w.db, w.h) && forall t {:trigger EntryOk(w, w.txs[t])} :: t in w.txs ==> EntryOk(w, w.txs[t])
  }

  lemma InitInv(w: World)
    requires Init(w)
    ensures Inv(w)
  {
    assert AllBalanced(w.db) by {
      forall u ensures Balanced(w.db, u) {
        assert RevokedSessions(w.db, u) == {};
      }
    }
  }

  // ---- Commits ----------------------------------------------------------------

  lemma VisibleTokens(w: World, t: TxId)
    requires LockInv(w) && t in w.txs && w.txs[t].cmd.ConfirmReset? && w.txs[t].siblings.Read?
    ensures var k := w.txs[t].cmd.token;
      k in w.db.tokens && forall x :: x in w.txs[t].snapshot ==> x in w.db.tokens && w.db.tokens[x].owner == w.db.tokens[k].owner
  {
    assert TxOk(w.db, w.txs[t]);
    HeldIsCurrent(w, t, TokenRow(w.txs[t].cmd.token));
  }

  lemma AtomicKeepsDbInv(cfg: Config, w: World, t: TxId, wr: Writes)
    requires DbInv(w.db, w.h) && LockInv(w) && t in w.txs && EntryOk(w, w.txs[t]) && Atomic(cfg, w.db, t, w.txs[t]) == Some(wr)
    requires w.txs[t].cmd.ConfirmSetup? ==> w.txs[t].cmd.newCodes !! w.db.codes.Keys
    requires w.txs[t].cmd.ConfirmReset? ==> w.txs[t].siblings.Read?
    ensures DbInv(Apply(w.db, wr), Record(w.h, wr.out, w.txs[t].snapshot))
  {
    var tx, db, h := w.txs[t], w.db, w.h;
    match tx.cmd
    case Login(u, password) =>
      LoginKeeps(cfg, db, h, t, u, password, tx.peek.gate == Read(true), ClockSeen(tx), wr, tx.snapshot);
    case Refresh(presented) =>
      RefreshKeeps(cfg, db, h, presented, tx.peek.flag.Read? && tx.peek.flag.value.live, ClockSeen(tx), wr, tx.snapshot);
    case MfaLogin(_, sub) =>
      var p := tx.peek.pending.value.value;
      MfaLoginKeeps(cfg, db, h, t, p.user, p.epoch, sub, ClockSeen(tx), if tx.at2.Read? then tx.at2.value else 0, wr, tx.snapshot);
    case ConfirmReset(k, newHash) =>
      VisibleTokens(w, t);
      ResetKeeps(db, h, k, newHash, tx.snapshot, ClockSeen(tx), wr);
    case SetActive(u, active) =>
      SetActiveKeeps(db, h, u, active, ClockSeen(tx), wr, tx.snapshot);
    case Logout(s) =>
      LogoutKeeps(db, h, s, ClockSeen(tx), wr, tx.snapshot);
    case ConfirmSetup(claims, digits, newCodes) =>
      ConfirmSetupKeeps(cfg, db, h, claims, digits, newCodes, ClockSeen(tx), wr, tx.snapshot);
  }

  lemma ResetFinishesSwept(cfg: Config, t: TxId, tx: Tx)
    requires tx.cmd.ConfirmReset? && Plan(cfg, t, tx).Finish?
    ensures tx.siblings.Read?
  {
  }

  lemma AccessGrows(h: History, out: Output, burned: set<ResetId>)
    ensures h.access <= Record(h, out, burned).access
  {
  }

  lemma OthersStayEntitled(w: World, t: TxId, wr: Writes, other: TxId)
    requires Committing(w, t, wr) && other in w.txs && EntryOk(w, w.txs[other])
    ensures EntryOk(StepCommit(w, t, wr), w.txs[other])
  {
    AccessGrows(w.h, wr.out, w.txs[t].snapshot);
    if w.txs[other].cmd.Refresh? {
      SessionAfter(w, t, wr, w.txs[other].cmd.presented.session);
    }
  }

  lemma CommitKeepsInv(cfg: Config, w: World, t: TxId)
    requires Inv(w) && Enabled(cfg, w, Commit(t))
    ensures Inv(Step(cfg, w, Commit(t)))
  {
    var wr := Plan(cfg, t, w.txs[t]).writes;
    var next := StepCommit(w, t, wr);
    assert EntryOk(w, w.txs[t]);
    CommitKeepsLockInv(cfg, w, t);
    CommitIsAtomic(cfg, w, t);
    if w.txs[t].cmd.ConfirmReset? {
      ResetFinishesSwept(cfg, t, w.txs[t]);
    }
    AtomicKeepsDbInv(cfg, w, t, wr);
    FinishedWrites(cfg, t, w.txs[t], wr);
    forall other | other in next.txs ensures EntryOk(next, next.txs[other]) {
      assert EntryOk(w, w.txs[other]);
      OthersStayEntitled(w, t, wr, other);
    }
  }

  // ---- Everything else --------------------------------------------------------

  lemma MovedEntitled(cfg: Config, w: World, t: TxId, a: Action, order: seq<nat>)
    requires Referential(w.db) && t in w.txs && EntryOk(w, w.txs[t]) && a == Plan(cfg, t, w.txs[t])
    ensures EntryOk(w, Advance(w, w.txs[t], a, order))
  {
  }

  lemma EntriesAfterAct(w: World, t: TxId, next: World)
    requires OnlyMoved(w, t, next) && next.h == w.h && EntryOk(w, next.txs[t])
    requires forall x {:trigger EntryOk(w, w.txs[x])} :: x in w.txs ==> EntryOk(w, w.txs[x])
    ensures forall x {:trigger EntryOk(next, next.txs[x])} :: x in next.txs ==> EntryOk(next, next.txs[x])
  {
    forall x | x in next.txs ensures EntryOk(next, next.txs[x]) {
      assert x != t ==> EntryOk(w, w.txs[x]);
    }
  }

  lemma ActKeepsHistory(cfg: Config, w: World, t: TxId, a: Action, order: seq<nat>)
    requires t in w.txs
    ensures StepAct(cfg, w, t, a, order).h == w.h
  {
  }

  lemma ActKeepsInv(cfg: Config, w: World, t: TxId, order: seq<nat>)
    requires Inv(w) && Enabled(cfg, w, Act(t, order))
    ensures Inv(Step(cfg, w, Act(t, order)))
  {
    var a := Plan(cfg, t, w.txs[t]);
    ActKeepsLockInv(cfg, w, t, order);
    ActFrame(cfg, w, t, a, order);
    ActKeepsHistory(cfg, w, t, a, order);
    assert EntryOk(w, w.txs[t]);
    MovedEntitled(cfg, w, t, a, order);
    EntriesAfterAct(w, t, StepAct(cfg, w, t, a, order));
  }

  lemma RegisterKeepsDb(db: Db, h: History, u: UserId, row: User)
    requires DbInv(db, h) && u !in db.users && row.epoch == 0 && row.active
    ensures DbInv(db.(users := db.users[u := row]), h)
  {
    var db' := db.(users := db.users[u := row]);
    forall s | s in db'.sessions ensures SessionEpochOk(db', h, s) {
      assert SessionEpochOk(db, h, s);
    }
    forall a | a in h.access ensures AccessOk(db', h, a) {
      assert AccessOk(db, h, a);
    }
    SameTokensRefreshes(db, h, db', h);
    forall v ensures Balanced(db', v) {
      assert Balanced(db, v) && RevokedSessions(db', v) == RevokedSessions(db, v);
    }
    SameFactors(db, h, db', h);
  }

  lemma OtherTablesKeepDb(db: Db, h: History, db': Db)
    requires DbInv(db, h) && db'.users == db.users && db'.sessions == db.sessions && db'.audit == db.audit && db'.codes == db.codes
    requires forall k :: k in db.tokens ==> k in db'.tokens && db'.tokens[k] == db.tokens[k]
    requires db.creds.Keys <= db'.creds.Keys
    requires forall u :: u in db.creds ==> db'.creds[u].lastStep == db.creds[u].lastStep && db'.creds[u].enabledAt == db.creds[u].enabledAt
    requires forall u :: u in db'.creds && u !in db.creds ==> db'.creds[u].lastStep.None?
    ensures DbInv(db', h)
  {
    QuietEpochs(db, h, {}, db', h);
    SameTokensRefreshes(db, h, db', h);
    forall v ensures Balanced(db', v) {
      assert Balanced(db, v) && RevokedSessions(db', v) == RevokedSessions(db, v);
    }
    SameFactors(db, h, db', h);
  }

  lemma OutsideKeepsDb(cfg: Config, w: World, e: Event)
    requires DbInv(w.db, w.h) && Enabled(cfg, w, e) && !e.Act? && !e.Commit?
    ensures DbInv(Step(cfg, w, e).db, w.h)
  {
    match e
    case Register(u, row) => RegisterKeepsDb(w.db, w.h, u, row);
    case IssueReset(_, _) => OtherTablesKeepDb(w.db, w.h, Step(cfg, w, e).db);
    case Enrol(_, _) => OtherTablesKeepDb(w.db, w.h, Step(cfg, w, e).db);
    case _ =>
  }

  lemma OutsideKeepsEntries(cfg: Config, w: World, e: Event, t: TxId)
    requires Inv(w) && Enabled(cfg, w, e) && !e.Act? && !e.Commit? && t in Step(cfg, w, e).txs
    ensures EntryOk(Step(cfg, w, e), Step(cfg, w, e).txs[t])
  {
    if t in w.txs {
      assert EntryOk(w, w.txs[t]);
    }
  }

  lemma StepKeepsInv(cfg: Config, w: World, e: Event)
    requires Inv(w) && Enabled(cfg, w, e)
    ensures Inv(Step(cfg, w, e))
  {
    if e.Act? {
      ActKeepsInv(cfg, w, e.t, e.order);
    } else if e.Commit? {
      CommitKeepsInv(cfg, w, e.t);
    } else {
      var next := Step(cfg, w, e);
      StepKeepsLockInv(cfg, w, e);
      OutsideKeepsDb(cfg, w, e);
      assert next.h == w.h;
      forall t | t in next.txs ensures EntryOk(next, next.txs[t]) {
        OutsideKeepsEntries(cfg, w, e, t);
      }
    }
  }

  lemma {:induction false} RunInv(cfg: Config, ws: seq<World>, es: seq<Event>, i: nat)
    requires Run(cfg, ws, es) && i < |ws|
    ensures Inv(ws[i])
  {
    if i == 0 {
      InitInv(ws[0]);
    } else {
      RunInv(cfg, ws, es, i - 1);
      StepKeepsInv(cfg, ws[i - 1], es[i - 1]);
    }
  }
}
