/**
 Row locks deadlock in one way only: every cycle of waits runs through a reset
 that waits, in its consume statement, for a reset of the same account on another
 token. A fixed ranking of rows is not enough to see it: a refresh and a sweep
 both hold an account while they wait for one of its sessions, and it is ownership
 that keeps them apart.
 */
module Deadlock {
  import opened Text
  import opened Accounts
  import opened Transactions
  import opened Locking
  import opened Refinement
  import opened Runs

  // ---- What each program may hold ---------------------------------------------

  /** A statement still to visit `todo` has not locked any of it yet, and visits nothing twice. */
  predicate Unvisited<V>(todo: Obs<seq<nat>>, locked: map<nat, V>) {
    todo.Read? ==> Distinct(todo.value) && forall i :: 0 <= i < |todo.value| ==> todo.value[i] !in locked
  }

  /** The one account a transaction may lock, once it knows it. */
  function AccountOf(tx: Tx): Option<UserId> {
    match tx.cmd
    case Login(u, _) => Some(u)
    case SetActive(u, _) => Some(u)
    case Refresh(_) => if tx.peek.owner.Read? then tx.peek.owner.value else None
    case MfaLogin(_, _) => if tx.peek.pending.Read? && tx.peek.pending.value.Some? then Some(tx.peek.pending.value.value.user) else None
    case ConfirmReset(k, _) => if Holds(tx.rows, TokenRow(k)) then Some(tx.rows.tokens[k].value.owner) else None
    case Logout(_) => None
    case ConfirmSetup(claims, _, _) => Some(claims.user)
  }

  function AtMost(u: Option<UserId>): set<UserId> {
    if u.None? then {} else {u.value}
  }

  /** Locks are taken in program order: credential, recovery code, account; account, then session. */
  predicate Orderly(tx: Tx) {
    && tx.rows.users.Keys <= AtMost(AccountOf(tx)) && tx.rows.creds.Keys <= AtMost(AccountOf(tx))
    && (tx.cmd.Refresh? && tx.rows.sessions != map[] ==> tx.rows.users != map[])
    && (tx.cmd.MfaLogin? ==>
          && tx.rows.codes.Keys <= (if tx.cmd.submission.SubmittedRecovery? then {tx.cmd.submission.code} else {})
          && (tx.rows.codes != map[] || tx.rows.users != map[] ==> tx.rows.creds != map[])
          && (tx.rows.users != map[] && tx.cmd.submission.SubmittedRecovery? ==> tx.rows.codes != map[]))
    && (tx.cmd.ConfirmSetup? ==> tx.rows.users == map[])
    && Unvisited(tx.siblings, tx.rows.tokens) && Unvisited(tx.sweep, tx.rows.sessions)
  }

  lemma TailUnvisited<V>(todo: Obs<seq<nat>>, locked: map<nat, V>, v: V)
    requires Unvisited(todo, locked) && todo.Read? && todo.value != []
    ensures Unvisited(Tail(todo), locked[todo.value[0] := v])
  {
  }

  /** What holds whenever a program asks for the lock on `r`. */
  predicate MayLock(tx: Tx, r: Row) {
    match r
    case UserRow(u) =>
      && AccountOf(tx) == Some(u) && u !in tx.rows.users && !tx.cmd.ConfirmSetup?
      && (tx.cmd.MfaLogin? ==>
            u in tx.rows.creds && (tx.cmd.submission.SubmittedRecovery? ==> tx.cmd.submission.code in tx.rows.codes))
    case CredRow(u) => AccountOf(tx) == Some(u) && u !in tx.rows.creds && (tx.cmd.MfaLogin? || tx.cmd.ConfirmSetup?)
    case CodeRow(c) =>
      && tx.cmd.MfaLogin? && tx.cmd.submission == SubmittedRecovery(c) && c !in tx.rows.codes
      && AccountOf(tx).Some? && AccountOf(tx).value in tx.rows.creds
    case SessionRow(s) =>
      || (tx.cmd.Refresh? && s == tx.cmd.presented.session && s !in tx.rows.sessions && AccountOf(tx).Some? && AccountOf(tx).value in tx.rows.users)
      || (tx.cmd.Logout? && s == tx.cmd.session && s !in tx.rows.sessions)
      || ((tx.cmd.SetActive? || tx.cmd.ConfirmReset?) && tx.sweep.Read? && tx.sweep.value != [] && s == tx.sweep.value[0])
    case TokenRow(k) =>
      && tx.cmd.ConfirmReset? && tx.sweep.Unread?
      && if tx.siblings.Unread? then k == tx.cmd.token && k !in tx.rows.tokens
         else tx.siblings.value != [] && k == tx.siblings.value[0]
  }

  lemma LoginMayLock(cfg: Config, t: TxId, tx: Tx, r: Row)
    requires tx.cmd.Login? && PlanLogin(cfg, t, tx) == Lock(r)
    ensures MayLock(tx, r)
  {
  }

  lemma RefreshMayLock(cfg: Config, tx: Tx, r: Row)
    requires tx.cmd.Refresh? && Shape(tx) && PlanRefresh(cfg, tx) == Lock(r)
    ensures MayLock(tx, r)
  {
  }

  lemma MfaLoginMayLock(cfg: Config, t: TxId, tx: Tx, r: Row)
    requires tx.cmd.MfaLogin? && PlanMfaLogin(cfg, t, tx) == Lock(r)
    ensures MayLock(tx, r)
  {
  }

  lemma ResetMayLock(tx: Tx, r: Row)
    requires tx.cmd.ConfirmReset? && Shape(tx) && PlanReset(tx) == Lock(r)
    ensures MayLock(tx, r)
  {
  }

  lemma OthersMayLock(cfg: Config, t: TxId, tx: Tx, r: Row)
    requires tx.cmd.SetActive? || tx.cmd.Logout? || tx.cmd.ConfirmSetup?
    requires Shape(tx) && Plan(cfg, t, tx) == Lock(r)
    ensures MayLock(tx, r)
  {
  }

  lemma PlannedMayLock(cfg: Config, t: TxId, tx: Tx, r: Row)
    requires Shape(tx) && Plan(cfg, t, tx) == Lock(r)
    ensures MayLock(tx, r)
  {
    match tx.cmd
    case Login(_, _) => LoginMayLock(cfg, t, tx, r);
    case Refresh(_) => RefreshMayLock(cfg, tx, r);
    case MfaLogin(_, _) => MfaLoginMayLock(cfg, t, tx, r);
    case ConfirmReset(_, _) => ResetMayLock(tx, r);
    case _ => OthersMayLock(cfg, t, tx, r);
  }

  lemma ObservedOrderly(db: Db, tx: Tx, r: Row)
    requires Orderly(tx) && Shape(tx) && MayLock(tx, r)
    ensures Orderly(Observe(db, tx, r))
  {
    if r.SessionRow? && tx.sweep.Read? {
      TailUnvisited(tx.sweep, tx.rows.sessions, Get(db.sessions, r.s));
    } else if r.TokenRow? && tx.siblings.Read? {
      TailUnvisited(tx.siblings, tx.rows.tokens, Get(db.tokens, r.k));
    }
  }

  /** What holds whenever a program asks for anything but a lock. */
  predicate MayAct(tx: Tx, a: Action) {
    && (a.PeekOwner? ==> tx.cmd.Refresh? && tx.peek.owner.Unread?) && (a.Resolve? ==> tx.cmd.MfaLogin? && tx.peek.pending.Unread?)
    && (a.StartConsume? ==> tx.cmd.ConfirmReset? && tx.siblings.Unread? && a.except == tx.cmd.token)
    && (a.StartRevoke? ==> tx.sweep.Unread? && (tx.cmd.SetActive? || tx.cmd.ConfirmReset?))
  }

  lemma PlannedMayAct(cfg: Config, t: TxId, tx: Tx)
    ensures MayAct(tx, Plan(cfg, t, tx))
  {
  }

  lemma ListedUnlocked(order: seq<nat>, listed: set<nat>, k: nat)
    requires Enumerates(order, listed) && k !in listed
    ensures forall i :: 0 <= i < |order| ==> order[i] != k
  {
    forall i | 0 <= i < |order| ensures order[i] in listed {
      assert order[i] in (set x | x in order);
    }
  }

  lemma AdvancedOrderly(w: World, tx: Tx, a: Action, order: seq<nat>)
    requires Orderly(tx) && Shape(tx) && !a.Lock? && MayAct(tx, a) && ActEnabled(w, tx, a, order)
    ensures Orderly(Advance(w, tx, a, order))
  {
    if a.StartConsume? {
      ListedUnlocked(order, Outstanding(w.db, a.user, a.except), a.except);
    }
  }

  lemma StartOrderly(cmd: Command)
    ensures Orderly(Start(cmd))
  {
  }

  ghost predicate AllOrderly(w: World) {
    forall t {:trigger Orderly(w.txs[t])} :: t in w.txs ==> Orderly(w.txs[t])
  }

  lemma ActOrderly(cfg: Config, w: World, t: TxId, order: seq<nat>)
    requires t in w.txs && Shape(w.txs[t]) && Orderly(w.txs[t]) && ActEnabled(w, w.txs[t], Plan(cfg, t, w.txs[t]), order)
    ensures Orderly(Advance(w, w.txs[t], Plan(cfg, t, w.txs[t]), order))
  {
    var tx, a := w.txs[t], Plan(cfg, t, w.txs[t]);
    if a.Lock? {
      PlannedMayLock(cfg, t, tx, a.row);
      ObservedOrderly(w.db, tx, a.row);
    } else {
      PlannedMayAct(cfg, t, tx);
      AdvancedOrderly(w, tx, a, order);
    }
  }

  lemma StepOrderly(cfg: Config, w: World, e: Event)
    requires LockInv(w) && AllOrderly(w) && Enabled(cfg, w, e)
    ensures AllOrderly(Step(cfg, w, e))
  {
    if e.Act? {
      assert TxOk(w.db, w.txs[e.t]) && Orderly(w.txs[e.t]);
      ActOrderly(cfg, w, e.t, e.order);
      ActFrame(cfg, w, e.t, Plan(cfg, e.t, w.txs[e.t]), e.order);
    } else if e.Begin? {
      StartOrderly(e.cmd);
    }
  }

  lemma {:induction false} RunOrderly(cfg: Config, ws: seq<World>, es: seq<Event>, i: nat)
    requires Run(cfg, ws, es) && i < |ws|
    ensures AllOrderly(ws[i])
  {
    if i > 0 {
      RunOrderly(cfg, ws, es, i - 1);
      RunInv(cfg, ws, es, i - 1);
      StepOrderly(cfg, ws[i - 1], es[i - 1]);
    }
  }

  // ---- Waiting ----------------------------------------------------------------

  /** Transaction `t` is stopped at a row that `holder` has locked. */
  predicate WaitsFor(cfg: Config, w: World, t: TxId, holder: TxId) {
    && t in w.txs && Plan(cfg, t, w.txs[t]).Lock?
    && Plan(cfg, t, w.txs[t]).row in w.locks && w.locks[Plan(cfg, t, w.txs[t]).row] == holder
  }

  predicate Waiting(cfg: Config, w: World, t: TxId) {
    t in w.txs && Plan(cfg, t, w.txs[t]).Lock? && Plan(cfg, t, w.txs[t]).row in w.locks
  }

  /** The rank of what a stopped transaction wants; a logout wants its session without holding the account. */
  function WantRank(tx: Tx, r: Row): nat {
    match r
    case CredRow(_) => 0
    case CodeRow(_) => 1
    case TokenRow(_) => 2
    case UserRow(_) => 3
    case SessionRow(_) => if tx.cmd.Logout? then 4 else 5
  }

  function Rank(cfg: Config, w: World, t: TxId): nat
    requires Waiting(cfg, w, t)
  {
    WantRank(w.txs[t], Plan(cfg, t, w.txs[t]).row)
  }

  /** The account a reset is about, from the moment its token exists. */
  predicate Resets(w: World, t: TxId, u: UserId) {
    && t in w.txs && w.txs[t].cmd.ConfirmReset?
    && w.txs[t].cmd.token in w.db.tokens && w.db.tokens[w.txs[t].cmd.token].owner == u
  }

  /** Two resets of one account on different tokens, the first of them in its consume statement. */
  predicate TokensClash(w: World, a: TxId, b: TxId) {
    && a in w.txs && b in w.txs && w.txs[a].cmd.ConfirmReset? && w.txs[b].cmd.ConfirmReset?
    && (var k, m := w.txs[a].cmd.token, w.txs[b].cmd.token;
        k in w.db.tokens && m in w.db.tokens && k != m && w.db.tokens[k].owner == w.db.tokens[m].owner)
    && w.txs[a].siblings.Read?
  }

  /** No two of these redeem different tokens of one account. One link submitted twice is allowed. */
  ghost predicate OneTokenPerAccount(w: World, txs: set<TxId>) {
    forall a, b, u :: a in txs && b in txs && Resets(w, a, u) && Resets(w, b, u) ==> w.txs[a].cmd.token == w.txs[b].cmd.token
  }

  /** What the invariants say about one transaction, gathered in one place. */
  ghost predicate WellBehaved(w: World, t: TxId) {
    t in w.txs && TxOk(w.db, w.txs[t]) && OwnerOk(w.db, w.txs[t]) && Orderly(w.txs[t])
  }

  lemma HoldsCredential(tx: Tx, u: UserId, q: Row)
    requires Shape(tx) && Orderly(tx) && Holds(tx.rows, CredRow(u)) && MayLock(tx, q)
    ensures q.CodeRow? || q.UserRow?
  {
  }

  lemma HoldsCode(tx: Tx, c: CodeId, q: Row)
    requires Shape(tx) && Orderly(tx) && Holds(tx.rows, CodeRow(c)) && MayLock(tx, q)
    ensures q.UserRow?
  {
  }

  lemma HoldsAccount(tx: Tx, u: UserId, q: Row)
    requires Shape(tx) && Orderly(tx) && Holds(tx.rows, UserRow(u)) && MayLock(tx, q)
    ensures q.SessionRow? || q.TokenRow?
    ensures q.SessionRow? ==> !tx.cmd.Logout?
  {
  }

  /** Only a sweep goes on to another session after locking one. */
  lemma HoldsSession(tx: Tx, s: SessionId, q: Row)
    requires Shape(tx) && Orderly(tx) && Holds(tx.rows, SessionRow(s)) && MayLock(tx, q)
    ensures q.SessionRow? && tx.sweep.Read? && !tx.cmd.Logout? && !tx.cmd.Refresh?
  {
  }

  /** A reset that has locked a token, or wants one, is a reset of that token's account. */
  lemma TokenAccount(w: World, t: TxId, k: ResetId)
    requires LocksMatchViews(w) && WellBehaved(w, t) && k in w.db.tokens
    requires Holds(w.txs[t].rows, TokenRow(k)) || MayLock(w.txs[t], TokenRow(k))
    ensures Resets(w, t, w.db.tokens[k].owner)
  {
    var tx := w.txs[t];
    if tx.siblings.Read? {
      HeldIsCurrent(w, t, TokenRow(tx.cmd.token));
    } else if Holds(tx.rows, TokenRow(k)) {
      HeldIsCurrent(w, t, TokenRow(k));
    }
  }

  /** A transaction never stops at a row it already has. */
  lemma NotItsOwn(tx: Tx, r: Row)
    requires Orderly(tx) && MayLock(tx, r)
    ensures !Holds(tx.rows, r)
  {
  }

  /** A reset that has locked a token goes on to the account, its sessions or a sibling token. */
  lemma HoldsToken(tx: Tx, k: ResetId, q: Row)
    requires Shape(tx) && Orderly(tx) && Holds(tx.rows, TokenRow(k)) && MayLock(tx, q)
    ensures q.UserRow? || (q.SessionRow? && !tx.cmd.Logout?) || (q.TokenRow? && tx.siblings.Read?)
  {
  }

  /** Before it holds its own token a reset holds nothing. */
  lemma FirstTokenHoldsNothing(tx: Tx, k: ResetId, r: Row)
    requires Shape(tx) && Orderly(tx) && MayLock(tx, TokenRow(k)) && tx.siblings.Unread?
    ensures !Holds(tx.rows, r)
  {
  }

  /** A consume statement is only ever stopped by a reset on another token of the account. */
  lemma SiblingWait(w: World, t: TxId, k: ResetId)
    requires LocksMatchViews(w) && WellBehaved(w, t) && MayLock(w.txs[t], TokenRow(k)) && w.txs[t].siblings.Read?
    requires TokenRow(k) in w.locks && WellBehaved(w, w.locks[TokenRow(k)])
    ensures TokensClash(w, t, w.locks[TokenRow(k)])
  {
    var holder := w.locks[TokenRow(k)];
    HeldIsCurrent(w, holder, TokenRow(k));
    TokenAccount(w, t, k);
    TokenAccount(w, holder, k);
    if w.txs[t].cmd.token == w.txs[holder].cmd.token {
      HeldByOne(w, t, holder, TokenRow(w.txs[t].cmd.token));
      NotItsOwn(w.txs[t], TokenRow(k));
      assert false;
    }
  }

  /** Whoever wants a session, other than a logout, already holds the session's account. */
  lemma SessionWanterHoldsAccount(w: World, t: TxId, s: SessionId)
    requires LocksMatchViews(w) && WellBehaved(w, t) && MayLock(w.txs[t], SessionRow(s)) && s in w.db.sessions && !w.txs[t].cmd.Logout?
    ensures Holds(w.txs[t].rows, UserRow(w.db.sessions[s].owner))
  {
  }

  /** Whoever holds a session, other than a logout, holds its account as well. */
  lemma SessionHolderHoldsAccount(w: World, t: TxId, s: SessionId)
    requires LocksMatchViews(w) && WellBehaved(w, t) && Holds(w.txs[t].rows, SessionRow(s)) && !w.txs[t].cmd.Logout?
    ensures s in w.db.sessions && Holds(w.txs[t].rows, UserRow(w.db.sessions[s].owner))
  {
    HeldIsCurrent(w, t, SessionRow(s));
  }

  lemma SessionEdge(w: World, t: TxId, s: SessionId, holder: TxId, q: Row)
    requires LocksMatchViews(w) && WellBehaved(w, t) && WellBehaved(w, holder)
    requires MayLock(w.txs[t], SessionRow(s)) && Holds(w.txs[holder].rows, SessionRow(s)) && MayLock(w.txs[holder], q)
    ensures WantRank(w.txs[t], SessionRow(s)) < WantRank(w.txs[holder], q)
  {
    HoldsSession(w.txs[holder], s, q);
    if !w.txs[t].cmd.Logout? {
      SessionHolderHoldsAccount(w, holder, s);
      SessionWanterHoldsAccount(w, t, s);
      HeldByOne(w, t, holder, UserRow(w.db.sessions[s].owner));
      NotItsOwn(w.txs[t], SessionRow(s));
      assert false;
    }
  }

  /** Along an edge of the wait-for graph the rank goes up, unless what lies beyond is a clash of two resets. */
  lemma EdgeRank(w: World, t: TxId, r: Row, holder: TxId, q: Row)
    requires LocksMatchViews(w) && WellBehaved(w, t) && WellBehaved(w, holder)
    requires MayLock(w.txs[t], r) && r in w.locks && w.locks[r] == holder
    requires MayLock(w.txs[holder], q) && q in w.locks && WellBehaved(w, w.locks[q])
    ensures WantRank(w.txs[t], r) < WantRank(w.txs[holder], q) || TokensClash(w, holder, w.locks[q])
  {
    if q.TokenRow? && w.txs[holder].siblings.Read? {
      SiblingWait(w, holder, q.k);
    } else if q.TokenRow? {
      FirstTokenHoldsNothing(w.txs[holder], q.k, r);
      assert false;
    } else {
      match r
      case CredRow(u) => HoldsCredential(w.txs[holder], u, q);
      case CodeRow(c) => HoldsCode(w.txs[holder], c, q);
      case UserRow(u) => HoldsAccount(w.txs[holder], u, q);
      case SessionRow(s) => SessionEdge(w, t, s, holder, q);
      case TokenRow(k) => HoldsToken(w.txs[holder], k, q);
    }
  }

  lemma AllWellBehaved(cfg: Config, ws: seq<World>, es: seq<Event>, i: nat, t: TxId)
    requires Run(cfg, ws, es) && i < |ws| && t in ws[i].txs
    ensures LocksMatchViews(ws[i]) && WellBehaved(ws[i], t)
  {
    RunInv(cfg, ws, es, i);
    RunOrderly(cfg, ws, es, i);
    assert EntryOk(ws[i], ws[i].txs[t]) && Orderly(ws[i].txs[t]);
  }

  lemma HolderInFlight(w: World, r: Row)
    requires LocksMatchViews(w) && r in w.locks
    ensures w.locks[r] in w.txs
  {
  }

  /**
   In every reachable state each wait leads to a transaction of higher rank, or
   that transaction is itself stopped by another reset of its account.
   */
  lemma WaitsClimb(cfg: Config, ws: seq<World>, es: seq<Event>, i: nat, t: TxId, holder: TxId, beyond: TxId)
    requires Run(cfg, ws, es) && i < |ws| && WaitsFor(cfg, ws[i], t, holder) && WaitsFor(cfg, ws[i], holder, beyond)
    ensures Rank(cfg, ws[i], t) < Rank(cfg, ws[i], holder) || TokensClash(ws[i], holder, beyond)
  {
    var w := ws[i];
    var r, q := Plan(cfg, t, w.txs[t]).row, Plan(cfg, holder, w.txs[holder]).row;
    AllWellBehaved(cfg, ws, es, i, t);
    HolderInFlight(w, q);
    AllWellBehaved(cfg, ws, es, i, holder);
    AllWellBehaved(cfg, ws, es, i, beyond);
    PlannedMayLock(cfg, t, w.txs[t], r);
    PlannedMayLock(cfg, holder, w.txs[holder], q);
    EdgeRank(w, t, r, holder, q);
  }

  /** A chain of waits, each transaction stopped at a row the next one has. */
  predicate WaitChain(cfg: Config, w: World, chain: seq<TxId>) {
    forall n :: 0 <= n < |chain| - 1 ==> WaitsFor(cfg, w, chain[n], chain[n + 1])
  }

  /** Somewhere along the chain one reset waits for another of its account. */
  predicate ClashAlong(w: World, chain: seq<TxId>) {
    exists n :: 0 <= n < |chain| - 1 && TokensClash(w, chain[n], chain[n + 1])
  }

  lemma {:induction false} ChainClimbs(cfg: Config, ws: seq<World>, es: seq<Event>, i: nat, chain: seq<TxId>, beyond: TxId)
    requires Run(cfg, ws, es) && i < |ws| && WaitChain(cfg, ws[i], chain) && |chain| > 1
    requires WaitsFor(cfg, ws[i], chain[|chain| - 1], beyond)
    requires !ClashAlong(ws[i], chain) && !TokensClash(ws[i], chain[|chain| - 1], beyond)
    ensures Waiting(cfg, ws[i], chain[0]) && Rank(cfg, ws[i], chain[0]) < Rank(cfg, ws[i], chain[|chain| - 1])
    decreases |chain|
  {
    var last := |chain| - 1;
    assert WaitsFor(cfg, ws[i], chain[last - 1], chain[last]);
    WaitsClimb(cfg, ws, es, i, chain[last - 1], chain[last], beyond);
    if |chain| > 2 {
      assert !TokensClash(ws[i], chain[last - 1], chain[last]);
      ChainClimbs(cfg, ws, es, i, chain[..last], chain[last]);
    }
  }

  /** Every cycle of waits, in every reachable state, runs through a reset that waits for another reset of its account, on another token. */
  lemma CyclesClash(cfg: Config, ws: seq<World>, es: seq<Event>, i: nat, chain: seq<TxId>)
    requires Run(cfg, ws, es) && i < |ws| && WaitChain(cfg, ws[i], chain) && |chain| > 1 && chain[0] == chain[|chain| - 1]
    ensures exists n :: 0 <= n < |chain| - 1 && TokensClash(ws[i], chain[n], chain[n + 1])
  {
    assert WaitsFor(cfg, ws[i], chain[0], chain[1]);
    if !ClashAlong(ws[i], chain) {
      assert !TokensClash(ws[i], chain[0], chain[1]);
      ChainClimbs(cfg, ws, es, i, chain, chain[1]);
      assert false;
    }
  }

  /** Transactions of which no two redeem different tokens of one account form no cycle, whatever else is in flight. */
  lemma NoWaitCycle(cfg: Config, ws: seq<World>, es: seq<Event>, i: nat, chain: seq<TxId>)
    requires Run(cfg, ws, es) && i < |ws| && WaitChain(cfg, ws[i], chain) && |chain| > 1
    requires OneTokenPerAccount(ws[i], (set t | t in chain))
    ensures chain[0] != chain[|chain| - 1]
  {
    if chain[0] == chain[|chain| - 1] {
      CyclesClash(cfg, ws, es, i, chain);
      var n :| 0 <= n < |chain| - 1 && TokensClash(ws[i], chain[n], chain[n + 1]);
      ClashingTokens(ws[i], (set t | t in chain), chain[n], chain[n + 1]);
      assert false;
    }
  }

  lemma ClashingTokens(w: World, txs: set<TxId>, a: TxId, b: TxId)
    requires a in txs && b in txs && TokensClash(w, a, b)
    ensures !OneTokenPerAccount(w, txs)
  {
    var u := w.db.tokens[w.txs[a].cmd.token].owner;
    assert Resets(w, a, u) && Resets(w, b, u);
  }

  // ---- Progress ---------------------------------------------------------------

  lemma {:induction false} CanList(s: set<nat>) returns (order: seq<nat>)
    ensures Distinct(order) && forall x :: x in order <==> x in s
    decreases |s|
  {
    if s == {} {
      order := [];
    } else {
      var x :| x in s;
      var rest := CanList(s - {x});
      assert forall i :: 0 <= i < |rest| ==> rest[i] in rest;
      order := [x] + rest;
    }
  }

  /** Every finite set can be visited in some order. */
  lemma CanEnumerate(s: set<nat>) returns (order: seq<nat>)
    ensures Enumerates(order, s)
  {
    order := CanList(s);
    assert (set x | x in order) == s;
  }

  /** A transaction that can go on: its next action is enabled, it is ready to commit, or it gives up. */
  ghost predicate CanGoOn(cfg: Config, w: World, t: TxId) {
    && t in w.txs
    && (|| (exists order :: Enabled(cfg, w, Act(t, order)))
        || (w.txs[t].published && Plan(cfg, t, w.txs[t]).Finish?)
        || Plan(cfg, t, w.txs[t]).Reject?)
  }

  lemma NotWaitingGoesOn(cfg: Config, w: World, t: TxId)
    requires t in w.txs && !Waiting(cfg, w, t)
    ensures CanGoOn(cfg, w, t)
  {
    var a := Plan(cfg, t, w.txs[t]);
    var order: seq<nat> := [];
    if a.StartConsume? {
      order := CanEnumerate(Outstanding(w.db, a.user, a.except));
    } else if a.StartRevoke? {
      order := CanEnumerate(LiveSessions(w.db.sessions, a.user));
    }
    if !(a.Finish? && w.txs[t].published) && !a.Reject? {
      assert Enabled(cfg, w, Act(t, order));
    }
  }

  /** No reset waits for another reset of its account. */
  ghost predicate NoClash(cfg: Config, w: World) {
    forall a, b :: WaitsFor(cfg, w, a, b) ==> !TokensClash(w, a, b)
  }

  /** Where a stopped transaction points. */
  lemma Holder(cfg: Config, ws: seq<World>, es: seq<Event>, i: nat, t: TxId) returns (holder: TxId)
    requires Run(cfg, ws, es) && i < |ws| && NoClash(cfg, ws[i]) && Waiting(cfg, ws[i], t)
    ensures holder in ws[i].txs && Rank(cfg, ws[i], t) <= 5
    ensures Waiting(cfg, ws[i], holder) ==> Rank(cfg, ws[i], t) < Rank(cfg, ws[i], holder)
  {
    var r := Plan(cfg, t, ws[i].txs[t]).row;
    holder := ws[i].locks[r];
    AllWellBehaved(cfg, ws, es, i, t);
    HolderInFlight(ws[i], r);
    if Waiting(cfg, ws[i], holder) {
      var beyond := ws[i].locks[Plan(cfg, holder, ws[i].txs[holder]).row];
      assert WaitsFor(cfg, ws[i], holder, beyond);
      WaitsClimb(cfg, ws, es, i, t, holder, beyond);
    }
  }

  lemma {:induction false} FollowWaits(cfg: Config, ws: seq<World>, es: seq<Event>, i: nat, t: TxId, height: nat) returns (free: TxId)
    requires Run(cfg, ws, es) && i < |ws| && NoClash(cfg, ws[i]) && t in ws[i].txs
    requires Waiting(cfg, ws[i], t) ==> 6 <= height + Rank(cfg, ws[i], t)
    ensures free in ws[i].txs && !Waiting(cfg, ws[i], free)
    decreases height
  {
    if Waiting(cfg, ws[i], t) {
      var holder := Holder(cfg, ws, es, i, t);
      free := FollowWaits(cfg, ws, es, i, holder, height - 1);
    } else {
      free := t;
    }
  }

  /** As long as anything is in flight, some transaction can go on, or one reset waits for another of its account. */
  lemma SomeoneGoesOn(cfg: Config, ws: seq<World>, es: seq<Event>, i: nat)
    requires Run(cfg, ws, es) && i < |ws| && ws[i].txs != map[]
    ensures (exists t :: CanGoOn(cfg, ws[i], t)) || (exists a, b :: WaitsFor(cfg, ws[i], a, b) && TokensClash(ws[i], a, b))
    ensures OneTokenPerAccount(ws[i], ws[i].txs.Keys) ==> exists t :: CanGoOn(cfg, ws[i], t)
  {
    if NoClash(cfg, ws[i]) {
      var t :| t in ws[i].txs;
      var free := FollowWaits(cfg, ws, es, i, t, 6);
      NotWaitingGoesOn(cfg, ws[i], free);
    } else {
      var a, b :| WaitsFor(cfg, ws[i], a, b) && TokensClash(ws[i], a, b);
      ClashingTokens(ws[i], ws[i].txs.Keys, a, b);
    }
  }
}
