/**
 The converse of refinement. Every program, begun when nothing is locked and left
 to itself, comes to an end, and what it tells its caller and leaves in the tables
 is what its command promises for the state it began in.
 */
module Alone {
  import opened Text
  import opened Accounts
  import opened Promises
  import opened Keeping
  import opened Transactions
  import opened Locking
  import opened Refinement
  import opened Deadlock
  import opened Standing
  import opened Continuations
  import opened Theorems
  import opened Claims
  import opened Gate
  import opened Endings

  // ---- What a transaction has been told ---------------------------------------

  function OwnerIn(db: Db, s: SessionId): Option<UserId> {
    if s in db.sessions then Some(db.sessions[s].owner) else None
  }

  function EpochIn(db: Db, u: UserId): Option<nat> {
    if u in db.users then Some(db.users[u].epoch) else None
  }

  predicate FlagStands(w: World, s: SessionId) {
    s in w.flags && w.now < w.flags[s]
  }

  predicate Unused(db: Db, c: CodeId, u: UserId) {
    c in db.codes && db.codes[c].owner == u && db.codes[c].usedAt.None?
  }

  /** Every row it looked for is as the tables of `w` have it. */
  ghost predicate RowsTrue(db: Db, rows: Rows) {
    && (forall u :: u in rows.users ==> rows.users[u] == Get(db.users, u))
    && (forall s :: s in rows.sessions ==> rows.sessions[s] == Get(db.sessions, s))
    && (forall k :: k in rows.tokens ==> rows.tokens[k] == Get(db.tokens, k))
    && (forall u :: u in rows.creds ==> rows.creds[u] == Get(db.creds, u))
    && (forall c :: c in rows.codes ==> rows.codes[c] == Get(db.codes, c))
  }

  /** Everything it read without a lock is as `w` has it. */
  predicate PeeksTrue(w: World, tx: Tx) {
    match tx.cmd
    case Login(u, _) =>
      && (tx.peek.user.Read? ==> tx.peek.user.value == Get(w.db.users, u))
      && (tx.peek.gate.Read? ==> tx.peek.gate.value == IsEnabled(w.db, u))
    case Refresh(presented) =>
      && (tx.peek.flag.Read? ==> tx.peek.flag.value.live == FlagStands(w, presented.session))
      && (tx.peek.owner.Read? ==> tx.peek.owner.value == OwnerIn(w.db, presented.session))
    case MfaLogin(ch, sub) =>
      && (tx.peek.pending.Read? ==> tx.peek.pending.value == Get(w.challenges, ch))
      && (tx.peek.consumed ==> tx.peek.pending.Read?)
      && (tx.peek.epoch.Read? ==> ch in w.challenges && tx.peek.epoch.value == EpochIn(w.db, w.challenges[ch].user))
      && (tx.peek.codeMatch.Read? ==>
            ch in w.challenges && sub.SubmittedRecovery? && tx.peek.codeMatch.value == Unused(w.db, sub.code, w.challenges[ch].user))
    case ConfirmReset(k, _) =>
      tx.siblings.Read? ==> k in w.db.tokens && tx.snapshot == set x | x in w.db.tokens && w.db.tokens[x].owner == w.db.tokens[k].owner
    case _ => true
  }

  predicate ClocksTrue(w: World, tx: Tx) {
    (tx.at.Read? ==> tx.at.value == w.now) && (tx.at2.Read? ==> tx.at2.value == w.now)
  }

  ghost predicate Truthful(w: World, tx: Tx) {
    RowsTrue(w.db, tx.rows) && PeeksTrue(w, tx) && ClocksTrue(w, tx)
  }

  /** The tables, the clock and the flags `v` offers transaction `tx` are those of `w`, and so are the challenges until it deletes its own. */
  predicate SameSurroundings(w: World, v: World, tx: Tx) {
    && v.db == w.db && v.now == w.now && (!tx.published ==> v.flags == w.flags)
    && (tx.cmd.MfaLogin? && !tx.peek.consumed ==> v.challenges == w.challenges)
  }

  lemma RowSeenTrue(w: World, v: World, tx: Tx, r: Row)
    requires RowsTrue(w.db, tx.rows) && v.db == w.db
    ensures RowsTrue(w.db, Observe(v.db, tx, r).rows)
  {
  }

  /** What a program asks for is always about its own command, and about what it has been told so far. */
  predicate Asks(tx: Tx, a: Action) {
    match a
    case PeekUser(u) => tx.cmd.Login? && u == tx.cmd.user
    case PeekGate(u) => tx.cmd.Login? && u == tx.cmd.user
    case PeekOwner(s) => tx.cmd.Refresh? && s == tx.cmd.presented.session
    case PeekFlag(s) => tx.cmd.Refresh? && s == tx.cmd.presented.session && tx.peek.flag.Unread?
    case Resolve(ch) => tx.cmd.MfaLogin? && ch == tx.cmd.challenge && tx.peek.pending.Unread?
    case Consume(ch) => tx.cmd.MfaLogin? && ch == tx.cmd.challenge && tx.peek.pending.Read?
    case PeekEpoch(u) =>
      tx.cmd.MfaLogin? && tx.peek.pending.Read? && tx.peek.pending.value.Some? && u == tx.peek.pending.value.value.user
    case PeekCode(c, u) =>
      && tx.cmd.MfaLogin? && tx.cmd.submission == SubmittedRecovery(c)
      && tx.peek.pending.Read? && tx.peek.pending.value.Some? && u == tx.peek.pending.value.value.user
    case StartConsume(u, k) => tx.cmd.ConfirmReset? && k == tx.cmd.token && Holds(tx.rows, TokenRow(k)) && tx.rows.tokens[k].value.owner == u
    case _ => true
  }

  lemma PlannedAsks(cfg: Config, t: TxId, tx: Tx)
    ensures Asks(tx, Plan(cfg, t, tx))
  {
  }

  predicate AsksRedis(a: Action) {
    a.PeekFlag? || a.Resolve? || a.Consume?
  }

  predicate AsksTables(a: Action) {
    a.PeekUser? || a.PeekOwner? || a.PeekEpoch? || a.PeekGate? || a.PeekCode?
  }

  lemma RedisTrue(w: World, v: World, tx: Tx, a: Action, order: seq<nat>)
    requires AsksRedis(a) && Asks(tx, a) && PeeksTrue(w, tx) && SameSurroundings(w, v, tx) && !tx.published
    ensures PeeksTrue(w, Advance(v, tx, a, order))
  {
  }

  lemma TablesTrue(w: World, v: World, tx: Tx, a: Action, order: seq<nat>)
    requires AsksTables(a) && Asks(tx, a) && PeeksTrue(w, tx) && v.db == w.db
    ensures PeeksTrue(w, Advance(v, tx, a, order))
  {
  }

  lemma RestTrue(w: World, v: World, tx: Tx, a: Action, order: seq<nat>)
    requires !AsksRedis(a) && !AsksTables(a) && Asks(tx, a) && PeeksTrue(w, tx) && RowsTrue(w.db, tx.rows) && v.db == w.db
    ensures PeeksTrue(w, Advance(v, tx, a, order))
  {
    if a.Lock? {
      assert Advance(v, tx, a, order).peek == tx.peek;
    }
  }

  lemma AskedTrue(w: World, v: World, tx: Tx, a: Action, order: seq<nat>)
    requires Asks(tx, a) && Truthful(w, tx) && SameSurroundings(w, v, tx) && (AsksRedis(a) ==> !tx.published)
    ensures PeeksTrue(w, Advance(v, tx, a, order))
  {
    if AsksRedis(a) {
      RedisTrue(w, v, tx, a, order);
    } else if AsksTables(a) {
      TablesTrue(w, v, tx, a, order);
    } else {
      RestTrue(w, v, tx, a, order);
    }
  }

  lemma ClocksStayTrue(w: World, v: World, tx: Tx, a: Action, order: seq<nat>)
    requires ClocksTrue(w, tx) && v.now == w.now
    ensures ClocksTrue(w, Advance(v, tx, a, order))
  {
  }

  lemma AdvanceTruthful(w: World, v: World, tx: Tx, a: Action, order: seq<nat>)
    requires Asks(tx, a) && Truthful(w, tx) && SameSurroundings(w, v, tx) && (AsksRedis(a) ==> !tx.published)
    ensures Truthful(w, Advance(v, tx, a, order))
  {
    AskedTrue(w, v, tx, a, order);
    ClocksStayTrue(w, v, tx, a, order);
    if a.Lock? {
      RowSeenTrue(w, v, tx, a.row);
    }
  }

  // ---- Going on alone ---------------------------------------------------------

  /** In `v` transaction `t`, which began in `w`, holds all the locks there are and has been told the truth about `w`. */
  ghost predicate Going(cfg: Config, w: World, v: World, t: TxId, cmd: Command) {
    && t in v.txs && v.txs[t].cmd == cmd && (forall r :: r in v.locks ==> v.locks[r] == t)
    && Truthful(w, v.txs[t]) && SameSurroundings(w, v, v.txs[t])
    && (v.txs[t].published ==> Plan(cfg, t, v.txs[t]).Finish?)
  }

  lemma BegunGoing(cfg: Config, w: World, cmd: Command)
    requires w.locks == map[] && Enabled(cfg, w, Begin(cmd))
    ensures Going(cfg, w, Step(cfg, w, Begin(cmd)), w.nextTx, cmd)
  {
  }

  lemma ActSurroundings(cfg: Config, w: World, v: World, t: TxId, a: Action, order: seq<nat>)
    requires t in v.txs && SameSurroundings(w, v, v.txs[t]) && Asks(v.txs[t], a)
    requires a.Finish? && v.txs[t].cmd.MfaLogin? ==> !a.writes.out.Challenge?
    ensures SameSurroundings(w, StepAct(cfg, v, t, a, order), Advance(v, v.txs[t], a, order))
  {
    var next := StepAct(cfg, v, t, a, order);
    ActOnChallenges(cfg, v, t, a, order);
    assert next.db == v.db && next.now == v.now;
    if !a.Finish? {
      QuietActFrame(cfg, v, t, a, order);
    }
  }

  lemma MfaNeverChallenges(cfg: Config, t: TxId, tx: Tx)
    requires tx.cmd.MfaLogin? && Plan(cfg, t, tx).Finish?
    ensures !Plan(cfg, t, tx).writes.out.Challenge?
  {
    HandedOut(cfg, t, tx, Plan(cfg, t, tx).writes);
  }

  lemma ActGoing(cfg: Config, w: World, v: World, t: TxId, cmd: Command, order: seq<nat>)
    requires Going(cfg, w, v, t, cmd) && Enabled(cfg, v, Act(t, order))
    ensures Going(cfg, w, Step(cfg, v, Act(t, order)), t, cmd)
  {
    var tx, a := v.txs[t], Plan(cfg, t, v.txs[t]);
    PlannedAsks(cfg, t, tx);
    if a.Finish? && tx.cmd.MfaLogin? {
      MfaNeverChallenges(cfg, t, tx);
    }
    AdvanceTruthful(w, v, tx, a, order);
    ActSurroundings(cfg, w, v, t, a, order);
    ActFrame(cfg, v, t, a, order);
    AdvanceCommand(v, tx, a, order);
    StaysPublished(cfg, v, t, tx, a, order);
  }

  lemma StaysPublished(cfg: Config, v: World, t: TxId, tx: Tx, a: Action, order: seq<nat>)
    requires a == Plan(cfg, t, tx) && (tx.published ==> a.Finish?)
    ensures Advance(v, tx, a, order).published ==> Plan(cfg, t, Advance(v, tx, a, order)).Finish?
  {
    if a.Finish? {
      PlanIgnoresPublished(cfg, t, tx, true);
    }
  }

  /** Holding all the locks there are, it never waits. */
  lemma NeverWaits(cfg: Config, w: World, v: World, t: TxId, cmd: Command)
    requires Going(cfg, w, v, t, cmd) && LocksMatchViews(v) && WellBehaved(v, t)
    ensures !Waiting(cfg, v, t)
  {
    if Waiting(cfg, v, t) {
      PlannedMayLock(cfg, t, v.txs[t], Plan(cfg, t, v.txs[t]).row);
      NotItsOwn(v.txs[t], Plan(cfg, t, v.txs[t]).row);
    }
  }

  predicate AtItsEnd(cfg: Config, t: TxId, tx: Tx) {
    Plan(cfg, t, tx).Reject? || (tx.published && Plan(cfg, t, tx).Finish?)
  }

  lemma NextAct(cfg: Config, w: World, ws: seq<World>, es: seq<Event>, t: TxId, cmd: Command) returns (order: seq<nat>)
    requires Run(cfg, ws, es) && Going(cfg, w, Last(ws), t, cmd) && !AtItsEnd(cfg, t, Last(ws).txs[t])
    ensures Enabled(cfg, Last(ws), Act(t, order))
  {
    AllWellBehaved(cfg, ws, es, |ws| - 1, t);
    NeverWaits(cfg, w, Last(ws), t, cmd);
    NotWaitingGoesOn(cfg, Last(ws), t);
    order :| Enabled(cfg, Last(ws), Act(t, order));
  }

  lemma ActsOn(cfg: Config, w: World, ws: seq<World>, es: seq<Event>, t: TxId, cmd: Command) returns (ws': seq<World>, es': seq<Event>)
    requires Run(cfg, ws, es) && Going(cfg, w, Last(ws), t, cmd) && !AtItsEnd(cfg, t, Last(ws).txs[t])
    ensures Run(cfg, ws', es') && ws <= ws' && es <= es' && Going(cfg, w, Last(ws'), t, cmd)
    ensures Nearer(Last(ws).txs[t], Last(ws').txs[t])
  {
    var order := NextAct(cfg, w, ws, es, t, cmd);
    var next := Step(cfg, Last(ws), Act(t, order));
    OneOn(cfg, ws, es, Act(t, order), next);
    ActGoing(cfg, w, Last(ws), t, cmd, order);
    AllWellBehaved(cfg, ws, es, |ws| - 1, t);
    ActNearer(cfg, Last(ws), t, order);
    ws', es' := ws + [next], es + [Act(t, order)];
  }

  lemma {:induction false} GoesToItsEnd(cfg: Config, w: World, ws: seq<World>, es: seq<Event>, t: TxId, cmd: Command)
    returns (ws': seq<World>, es': seq<Event>)
    requires Run(cfg, ws, es) && Going(cfg, w, Last(ws), t, cmd)
    ensures Run(cfg, ws', es') && ws <= ws' && es <= es' && Going(cfg, w, Last(ws'), t, cmd) && AtItsEnd(cfg, t, Last(ws').txs[t])
    decreases Unseen(Last(ws).txs[t]), ToVisit(Last(ws).txs[t])
  {
    ws', es' := ws, es;
    if !AtItsEnd(cfg, t, Last(ws).txs[t]) {
      ws', es' := ActsOn(cfg, w, ws, es, t, cmd);
      ws', es' := GoesToItsEnd(cfg, w, ws', es', t, cmd);
    }
  }

  // ---- What it comes to -------------------------------------------------------

  /** The promise of a command begun in `w` as transaction `t`, on what the tables, Redis and the clock say there. */
  ghost predicate Promised(cfg: Config, w: World, t: TxId, cmd: Command, out: Option<Output>, after: Db) {
    match cmd
    case Login(u, password) => LoginKept(cfg, w.db, t, u, password, IsEnabled(w.db, u), w.now, out, after)
    case Refresh(presented) => RefreshKept(cfg, w.db, presented, FlagStands(w, presented.session), w.now, out, after)
    case MfaLogin(ch, sub) =>
      if ch !in w.challenges || EpochIn(w.db, w.challenges[ch].user) != Some(w.challenges[ch].epoch) then Refuses(w.db, out, after)
      else MfaLoginKept(cfg, w.db, t, w.challenges[ch].user, w.challenges[ch].epoch, sub, w.now, w.now, out, after)
    case ConfirmReset(k, newHash) => ResetKept(w.db, k, newHash, w.db.tokens.Keys, w.now, out, after)
    case SetActive(u, active) => SetActiveKept(w.db, u, active, w.now, out, after)
    case Logout(s) => LogoutKept(w.db, s, w.now, out, after)
    case ConfirmSetup(claims, digits, newCodes) => SetupKept(cfg, w.db, claims, digits, newCodes, w.now, out, after)
  }

  lemma LoginRefused(cfg: Config, w: World, t: TxId, tx: Tx)
    requires tx.cmd.Login? && Truthful(w, tx) && PlanLogin(cfg, t, tx).Reject?
    ensures Promised(cfg, w, t, tx.cmd, None, w.db)
  {
  }

  lemma RefreshRefused(cfg: Config, w: World, t: TxId, tx: Tx)
    requires tx.cmd.Refresh? && Truthful(w, tx) && PlanRefresh(cfg, tx).Reject?
    ensures Promised(cfg, w, t, tx.cmd, None, w.db)
  {
  }

  lemma ResetRefused(cfg: Config, w: World, t: TxId, tx: Tx)
    requires tx.cmd.ConfirmReset? && Truthful(w, tx) && PlanReset(tx).Reject?
    ensures Promised(cfg, w, t, tx.cmd, None, w.db)
  {
  }

  lemma OthersRefused(cfg: Config, w: World, t: TxId, tx: Tx)
    requires tx.cmd.SetActive? || tx.cmd.Logout?
    requires Truthful(w, tx) && Plan(cfg, t, tx).Reject?
    ensures Promised(cfg, w, t, tx.cmd, None, w.db)
  {
  }

  lemma SetupRefused(cfg: Config, w: World, t: TxId, tx: Tx)
    requires tx.cmd.ConfirmSetup? && Truthful(w, tx) && PlanConfirmSetup(cfg, tx).Reject?
    ensures Promised(cfg, w, t, tx.cmd, None, w.db)
  {
    if tx.cmd.claims.user in w.db.creds {
      SetupSteps(cfg, w.db, tx.cmd.claims.user, tx.cmd.digits, w.now);
    }
  }

  lemma MfaLoginRefused(cfg: Config, w: World, t: TxId, tx: Tx)
    requires tx.cmd.MfaLogin? && Truthful(w, tx) && PlanMfaLogin(cfg, t, tx).Reject?
    ensures Promised(cfg, w, t, tx.cmd, None, w.db)
  {
    var ch := tx.cmd.challenge;
    if ch in w.challenges && w.challenges[ch].user in w.db.creds {
      CheckTold(cfg, w.db, w.challenges[ch].user, tx.cmd.submission, w.now);
    }
  }

  lemma Refused(cfg: Config, w: World, t: TxId, tx: Tx)
    requires Truthful(w, tx) && Plan(cfg, t, tx).Reject?
    ensures Promised(cfg, w, t, tx.cmd, None, w.db)
  {
    match tx.cmd
    case Login(_, _) => LoginRefused(cfg, w, t, tx);
    case Refresh(_) => RefreshRefused(cfg, w, t, tx);
    case MfaLogin(_, _) => MfaLoginRefused(cfg, w, t, tx);
    case ConfirmReset(_, _) => ResetRefused(cfg, w, t, tx);
    case ConfirmSetup(_, _, _) => SetupRefused(cfg, w, t, tx);
    case _ => OthersRefused(cfg, w, t, tx);
  }

  lemma MfaLoginDone(cfg: Config, w: World, t: TxId, tx: Tx, out: Option<Output>, after: Db)
    requires tx.cmd.MfaLogin? && Truthful(w, tx) && PlanMfaLogin(cfg, t, tx).Finish? && CommandKept(cfg, w.db, t, tx, out, after)
    ensures Promised(cfg, w, t, tx.cmd, out, after)
  {
    var p := w.challenges[tx.cmd.challenge];
    CheckTold(cfg, w.db, p.user, tx.cmd.submission, w.now);
  }

  lemma ResetDone(cfg: Config, w: World, t: TxId, tx: Tx, out: Option<Output>, after: Db)
    requires tx.cmd.ConfirmReset? && Truthful(w, tx) && PlanReset(tx).Finish? && CommandKept(cfg, w.db, t, tx, out, after)
    ensures Promised(cfg, w, t, tx.cmd, out, after)
  {
  }

  lemma OthersDone(cfg: Config, w: World, t: TxId, tx: Tx, out: Option<Output>, after: Db)
    requires !tx.cmd.MfaLogin? && !tx.cmd.ConfirmReset?
    requires Truthful(w, tx) && Plan(cfg, t, tx).Finish? && CommandKept(cfg, w.db, t, tx, out, after)
    ensures Promised(cfg, w, t, tx.cmd, out, after)
  {
  }

  lemma Done(cfg: Config, w: World, t: TxId, tx: Tx, out: Option<Output>, after: Db)
    requires Truthful(w, tx) && Plan(cfg, t, tx).Finish? && CommandKept(cfg, w.db, t, tx, out, after)
    ensures Promised(cfg, w, t, tx.cmd, out, after)
  {
    match tx.cmd
    case MfaLogin(_, _) => MfaLoginDone(cfg, w, t, tx, out, after);
    case ConfirmReset(_, _) => ResetDone(cfg, w, t, tx, out, after);
    case _ => OthersDone(cfg, w, t, tx, out, after);
  }

  lemma AllReleased(v: World, t: TxId)
    requires forall r :: r in v.locks ==> v.locks[r] == t
    ensures Release(v, t).locks == map[] && t !in Release(v, t).txs
  {
  }

  lemma GivesUp(cfg: Config, w: World, ws: seq<World>, es: seq<Event>, t: TxId, cmd: Command) returns (ws': seq<World>, es': seq<Event>)
    requires Run(cfg, ws, es) && Going(cfg, w, Last(ws), t, cmd) && Plan(cfg, t, Last(ws).txs[t]).Reject?
    ensures Run(cfg, ws', es') && ws <= ws' && es <= es' && Last(ws').locks == map[]
    ensures Promised(cfg, w, t, cmd, None, Last(ws').db)
  {
    ws', es' := MayRollBack(cfg, ws, es, t, true);
    AllReleased(Last(ws), t);
    Refused(cfg, w, t, Last(ws).txs[t]);
  }

  lemma FinishPromised(cfg: Config, w: World, t: TxId, tx: Tx, wr: Writes)
    requires Truthful(w, tx) && Plan(cfg, t, tx) == Finish(wr) && Atomic(cfg, w.db, t, tx) == Some(wr)
    ensures Promised(cfg, w, t, tx.cmd, Some(wr.out), Apply(w.db, wr))
  {
    AtomicKept(cfg, w.db, t, tx);
    Done(cfg, w, t, tx, Some(wr.out), Apply(w.db, wr));
  }

  lemma CommitPromised(cfg: Config, w: World, ws: seq<World>, es: seq<Event>, t: TxId, cmd: Command, wr: Writes)
    requires Run(cfg, ws, es) && Going(cfg, w, Last(ws), t, cmd) && Plan(cfg, t, Last(ws).txs[t]) == Finish(wr)
    ensures Promised(cfg, w, t, cmd, Some(wr.out), Apply(w.db, wr))
  {
    CommittedAtomically(cfg, ws, es, |ws| - 1, t);
    FinishPromised(cfg, w, t, Last(ws).txs[t], wr);
  }

  lemma GoesThrough(cfg: Config, w: World, ws: seq<World>, es: seq<Event>, t: TxId, cmd: Command, wr: Writes)
    returns (ws': seq<World>, es': seq<Event>)
    requires Run(cfg, ws, es) && Going(cfg, w, Last(ws), t, cmd) && Last(ws).txs[t].published && Plan(cfg, t, Last(ws).txs[t]) == Finish(wr)
    requires cmd.ConfirmSetup? ==> cmd.newCodes !! w.db.codes.Keys
    ensures Run(cfg, ws', es') && ws <= ws' && es <= es' && Last(ws').locks == map[] && Last(ws').db == Apply(w.db, wr)
  {
    var v := Last(ws);
    ws', es' := Commits(cfg, ws, es, t, wr);
    AllReleased(v.(db := Apply(v.db, wr), h := Record(v.h, wr.out, v.txs[t].snapshot)), t);
  }

  lemma Concludes(cfg: Config, w: World, ws: seq<World>, es: seq<Event>, t: TxId, cmd: Command)
    returns (ws': seq<World>, es': seq<Event>, out: Option<Output>)
    requires Run(cfg, ws, es) && Going(cfg, w, Last(ws), t, cmd) && AtItsEnd(cfg, t, Last(ws).txs[t])
    requires cmd.ConfirmSetup? ==> cmd.newCodes !! w.db.codes.Keys
    ensures Run(cfg, ws', es') && ws <= ws' && es <= es' && Last(ws').locks == map[]
    ensures Promised(cfg, w, t, cmd, out, Last(ws').db)
  {
    var a := Plan(cfg, t, Last(ws).txs[t]);
    if a.Reject? {
      out := None;
      ws', es' := GivesUp(cfg, w, ws, es, t, cmd);
    } else {
      out := Some(a.writes.out);
      CommitPromised(cfg, w, ws, es, t, cmd, a.writes);
      ws', es' := GoesThrough(cfg, w, ws, es, t, cmd, a.writes);
    }
  }

  /**
   From every reachable state in which nothing is locked, any command can be run to
   its end without another step in between, and that keeps its promise on the state
   it began in: the right answer, and the right tables.
   */
  lemma AloneKeepsPromise(cfg: Config, ws: seq<World>, es: seq<Event>, cmd: Command)
    returns (ws': seq<World>, es': seq<Event>, out: Option<Output>)
    requires Run(cfg, ws, es) && Last(ws).locks == map[] && Enabled(cfg, Last(ws), Begin(cmd))
    requires cmd.ConfirmSetup? ==> cmd.newCodes !! Last(ws).db.codes.Keys
    ensures Run(cfg, ws', es') && ws <= ws' && es <= es' && Last(ws').locks == map[]
    ensures Promised(cfg, Last(ws), Last(ws).nextTx, cmd, out, Last(ws').db)
  {
    var w, t := Last(ws), Last(ws).nextTx;
    var begun := Step(cfg, w, Begin(cmd));
    BegunGoing(cfg, w, cmd);
    OneOn(cfg, ws, es, Begin(cmd), begun);
    ws', es' := GoesToItsEnd(cfg, w, ws + [begun], es + [Begin(cmd)], t, cmd);
    ws', es', out := Concludes(cfg, w, ws', es', t, cmd);
  }
}
