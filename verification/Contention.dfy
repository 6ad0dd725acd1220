/**
 Why the deadlock guarantee speaks of one token per account: wherever an account
 has two outstanding reset tokens, a reset of each can come to wait for the other.
 One has its own token and the account and wants the other's token; the other has
 its token and wants the account. The database then rolls one of them back.
 */
module Contention {
  import opened Text
  import opened Accounts
  import opened Transactions
  import opened Deadlock
  import opened Continuations

  /** An account with a redeemable token and another unused one, with none of the three rows locked. */
  predicate Contended(w: World, u: UserId, k: ResetId, m: ResetId) {
    && u in w.db.users && k in w.db.tokens && m in w.db.tokens && k != m
    && w.db.tokens[k].owner == u && Redeemable(w.db.tokens[k], w.db.users[u], w.now)
    && w.db.tokens[m].owner == u && w.db.tokens[m].usedAt.None?
    && TokenRow(k) !in w.locks && TokenRow(m) !in w.locks && UserRow(u) !in w.locks
  }

  function Begun(k: ResetId): Tx {
    Start(ConfirmReset(k, "new"))
  }

  function HasToken(db: Db, k: ResetId): Tx {
    Begun(k).(rows := Begun(k).rows.(tokens := map[k := Get(db.tokens, k)]))
  }

  function HasAccount(db: Db, k: ResetId, u: UserId): Tx {
    HasToken(db, k).(rows := HasToken(db, k).rows.(users := map[u := Get(db.users, u)]))
  }

  function Visible(db: Db, u: UserId): set<ResetId> {
    set k | k in db.tokens && db.tokens[k].owner == u
  }

  function Consuming(w: World, k: ResetId, u: UserId, order: seq<nat>): Tx {
    HasAccount(w.db, k, u).(at := Read(w.now), siblings := Read(order), snapshot := Visible(w.db, u))
  }

  /** The world with two more transactions in it, numbered next, and these locks. */
  function Scene(w: World, first: Tx, second: Tx, locks: map<Row, TxId>): World {
    w.(txs := w.txs[w.nextTx := first][w.nextTx + 1 := second], locks := locks, nextTx := w.nextTx + 2)
  }

  lemma Moved(w: World, first: Tx, second: Tx, moved: Tx)
    ensures w.txs[w.nextTx := first][w.nextTx + 1 := second][w.nextTx := moved] == w.txs[w.nextTx := moved][w.nextTx + 1 := second]
    ensures w.txs[w.nextTx := first][w.nextTx + 1 := second][w.nextTx + 1 := moved] == w.txs[w.nextTx := first][w.nextTx + 1 := moved]
  {
  }

  lemma Cast(w: World, first: Tx, second: Tx, locks: map<Row, TxId>)
    ensures var scene := Scene(w, first, second, locks);
      && w.nextTx in scene.txs && scene.txs[w.nextTx] == first && w.nextTx + 1 in scene.txs && scene.txs[w.nextTx + 1] == second
      && scene.db == w.db && scene.now == w.now && scene.locks == locks
  {
  }

  // ---- The seven steps --------------------------------------------------------

  /** The events: both begin, each locks its token, the first goes on to the account, the clock and the consume statement. */
  function EventAt(w: World, k: ResetId, m: ResetId, order: seq<nat>, i: nat): Event {
    match i
    case 0 => Begin(ConfirmReset(k, "new"))
    case 1 => Begin(ConfirmReset(m, "new"))
    case 3 => Act(w.nextTx + 1, [])
    case 6 => Act(w.nextTx, order)
    case _ => Act(w.nextTx, [])
  }

  function LocksAt(w: World, u: UserId, k: ResetId, m: ResetId, i: nat): map<Row, TxId> {
    if i < 3 then w.locks
    else if i == 3 then w.locks[TokenRow(k) := w.nextTx]
    else if i == 4 then w.locks[TokenRow(k) := w.nextTx][TokenRow(m) := w.nextTx + 1]
    else w.locks[TokenRow(k) := w.nextTx][TokenRow(m) := w.nextTx + 1][UserRow(u) := w.nextTx]
  }

  function FirstAt(w: World, u: UserId, k: ResetId, order: seq<nat>, i: nat): Tx {
    match i
    case 0 => Begun(k)
    case 1 => Begun(k)
    case 2 => Begun(k)
    case 3 => HasToken(w.db, k)
    case 4 => HasToken(w.db, k)
    case 5 => HasAccount(w.db, k, u)
    case 6 => HasAccount(w.db, k, u).(at := Read(w.now))
    case _ => Consuming(w, k, u, order)
  }

  function WorldAt(w: World, u: UserId, k: ResetId, m: ResetId, order: seq<nat>, i: nat): World {
    if i == 0 then w
    else if i == 1 then w.(txs := w.txs[w.nextTx := Begun(k)], nextTx := w.nextTx + 1)
    else Scene(w, FirstAt(w, u, k, order, i), if i < 4 then Begun(m) else HasToken(w.db, m), LocksAt(w, u, k, m, i))
  }

  lemma FirstLocks(cfg: Config, w: World, first: Tx, second: Tx, locks: map<Row, TxId>, r: Row, seen: Tx)
    requires Plan(cfg, w.nextTx, first) == Lock(r) && r !in locks && Exists(w.db, r) && seen == Observe(w.db, first, r)
    ensures Happens(cfg, Scene(w, first, second, locks), Act(w.nextTx, []), Scene(w, seen, second, locks[r := w.nextTx]))
  {
    Cast(w, first, second, locks);
    Moved(w, first, second, seen);
    Acts(cfg, Scene(w, first, second, locks), w.nextTx, Lock(r), [], Scene(w, seen, second, locks[r := w.nextTx]));
  }

  lemma SecondLocks(cfg: Config, w: World, first: Tx, second: Tx, locks: map<Row, TxId>, r: Row, seen: Tx)
    requires Plan(cfg, w.nextTx + 1, second) == Lock(r) && r !in locks && Exists(w.db, r) && seen == Observe(w.db, second, r)
    ensures Happens(cfg, Scene(w, first, second, locks), Act(w.nextTx + 1, []), Scene(w, first, seen, locks[r := w.nextTx + 1]))
  {
    Cast(w, first, second, locks);
    Moved(w, first, second, seen);
    Acts(cfg, Scene(w, first, second, locks), w.nextTx + 1, Lock(r), [], Scene(w, first, seen, locks[r := w.nextTx + 1]));
  }

  lemma FirstReadsClock(cfg: Config, w: World, u: UserId, k: ResetId, second: Tx, locks: map<Row, TxId>)
    requires u in w.db.users && k in w.db.tokens && w.db.tokens[k].owner == u
    ensures Happens(cfg, Scene(w, HasAccount(w.db, k, u), second, locks), Act(w.nextTx, []),
                    Scene(w, HasAccount(w.db, k, u).(at := Read(w.now)), second, locks))
  {
    var first := HasAccount(w.db, k, u);
    Cast(w, first, second, locks);
    Moved(w, first, second, first.(at := Read(w.now)));
    Acts(cfg, Scene(w, first, second, locks), w.nextTx, Clock, [], Scene(w, first.(at := Read(w.now)), second, locks));
  }

  lemma WantsToConsume(cfg: Config, w: World, u: UserId, k: ResetId, m: ResetId)
    requires Contended(w, u, k, m)
    ensures Plan(cfg, w.nextTx, HasAccount(w.db, k, u).(at := Read(w.now))) == StartConsume(u, k)
  {
  }

  lemma FirstConsumes(cfg: Config, w: World, u: UserId, k: ResetId, first: Tx, second: Tx, locks: map<Row, TxId>, order: seq<nat>)
    requires Plan(cfg, w.nextTx, first) == StartConsume(u, k) && Enumerates(order, Outstanding(w.db, u, k))
    ensures Happens(cfg, Scene(w, first, second, locks), Act(w.nextTx, order),
                    Scene(w, first.(siblings := Read(order), snapshot := Visible(w.db, u)), second, locks))
  {
    var consuming := first.(siblings := Read(order), snapshot := Visible(w.db, u));
    Cast(w, first, second, locks);
    Moved(w, first, second, consuming);
    Acts(cfg, Scene(w, first, second, locks), w.nextTx, StartConsume(u, k), order, Scene(w, consuming, second, locks));
  }

  /** What the two resets ask for, and what they see, on the way. */
  lemma Wants(cfg: Config, db: Db, t: TxId, u: UserId, k: ResetId)
    requires u in db.users && k in db.tokens && db.tokens[k].owner == u
    ensures Plan(cfg, t, Begun(k)) == Lock(TokenRow(k)) && Observe(db, Begun(k), TokenRow(k)) == HasToken(db, k)
    ensures Plan(cfg, t, HasToken(db, k)) == Lock(UserRow(u)) && Observe(db, HasToken(db, k), UserRow(u)) == HasAccount(db, k, u)
  {
  }

  lemma EachBegins(cfg: Config, w: World, u: UserId, k: ResetId, m: ResetId, order: seq<nat>, i: nat)
    requires i < 2
    ensures Happens(cfg, WorldAt(w, u, k, m, order, i), EventAt(w, k, m, order, i), WorldAt(w, u, k, m, order, i + 1))
  {
  }

  lemma FirstTakesToken(cfg: Config, w: World, u: UserId, k: ResetId, m: ResetId, order: seq<nat>)
    requires Contended(w, u, k, m)
    ensures Happens(cfg, WorldAt(w, u, k, m, order, 2), EventAt(w, k, m, order, 2), WorldAt(w, u, k, m, order, 3))
  {
    Wants(cfg, w.db, w.nextTx, u, k);
    FirstLocks(cfg, w, Begun(k), Begun(m), w.locks, TokenRow(k), HasToken(w.db, k));
  }

  lemma SecondTakesToken(cfg: Config, w: World, u: UserId, k: ResetId, m: ResetId, order: seq<nat>)
    requires Contended(w, u, k, m)
    ensures Happens(cfg, WorldAt(w, u, k, m, order, 3), EventAt(w, k, m, order, 3), WorldAt(w, u, k, m, order, 4))
  {
    var locks := LocksAt(w, u, k, m, 3);
    assert WorldAt(w, u, k, m, order, 3) == Scene(w, HasToken(w.db, k), Begun(m), locks);
    assert WorldAt(w, u, k, m, order, 4) == Scene(w, HasToken(w.db, k), HasToken(w.db, m), locks[TokenRow(m) := w.nextTx + 1]);
    Wants(cfg, w.db, w.nextTx + 1, u, m);
    SecondLocks(cfg, w, HasToken(w.db, k), Begun(m), locks, TokenRow(m), HasToken(w.db, m));
  }

  lemma FirstTakesAccount(cfg: Config, w: World, u: UserId, k: ResetId, m: ResetId, order: seq<nat>)
    requires Contended(w, u, k, m)
    ensures Happens(cfg, WorldAt(w, u, k, m, order, 4), EventAt(w, k, m, order, 4), WorldAt(w, u, k, m, order, 5))
  {
    var locks := LocksAt(w, u, k, m, 4);
    assert WorldAt(w, u, k, m, order, 4) == Scene(w, HasToken(w.db, k), HasToken(w.db, m), locks);
    assert WorldAt(w, u, k, m, order, 5) == Scene(w, HasAccount(w.db, k, u), HasToken(w.db, m), locks[UserRow(u) := w.nextTx]);
    Wants(cfg, w.db, w.nextTx, u, k);
    FirstLocks(cfg, w, HasToken(w.db, k), HasToken(w.db, m), locks, UserRow(u), HasAccount(w.db, k, u));
  }

  lemma EachTakes(cfg: Config, w: World, u: UserId, k: ResetId, m: ResetId, order: seq<nat>, i: nat)
    requires Contended(w, u, k, m) && i < 5
    ensures Happens(cfg, WorldAt(w, u, k, m, order, i), EventAt(w, k, m, order, i), WorldAt(w, u, k, m, order, i + 1))
  {
    if i < 2 {
      EachBegins(cfg, w, u, k, m, order, i);
    } else if i == 2 {
      FirstTakesToken(cfg, w, u, k, m, order);
    } else if i == 3 {
      SecondTakesToken(cfg, w, u, k, m, order);
    } else {
      FirstTakesAccount(cfg, w, u, k, m, order);
    }
  }

  lemma FirstGoesOn(cfg: Config, w: World, u: UserId, k: ResetId, m: ResetId, order: seq<nat>, i: nat)
    requires Contended(w, u, k, m) && Enumerates(order, Outstanding(w.db, u, k)) && 5 <= i < 7
    ensures Happens(cfg, WorldAt(w, u, k, m, order, i), EventAt(w, k, m, order, i), WorldAt(w, u, k, m, order, i + 1))
  {
    var locks := LocksAt(w, u, k, m, i);
    if i == 5 {
      FirstReadsClock(cfg, w, u, k, HasToken(w.db, m), locks);
    } else {
      WantsToConsume(cfg, w, u, k, m);
      FirstConsumes(cfg, w, u, k, HasAccount(w.db, k, u).(at := Read(w.now)), HasToken(w.db, m), locks, order);
    }
  }

  /** The statement may visit the other token first. */
  lemma VisitsFirst(w: World, u: UserId, k: ResetId, m: ResetId) returns (order: seq<nat>)
    requires Contended(w, u, k, m)
    ensures Enumerates(order, Outstanding(w.db, u, k)) && order != [] && order[0] == m
  {
    var rest := CanList(Outstanding(w.db, u, k) - {m});
    order := [m] + rest;
    assert forall i :: 0 <= i < |rest| ==> rest[i] in rest;
    assert (set x | x in order) == Outstanding(w.db, u, k);
  }

  lemma ConsumerWants(cfg: Config, w: World, u: UserId, k: ResetId, m: ResetId, order: seq<nat>)
    requires Contended(w, u, k, m) && order != [] && order[0] == m
    ensures Plan(cfg, w.nextTx, Consuming(w, k, u, order)) == Lock(TokenRow(m))
  {
  }

  lemma WaitForEachOther(cfg: Config, w: World, u: UserId, k: ResetId, m: ResetId, order: seq<nat>)
    requires Contended(w, u, k, m) && order != [] && order[0] == m
    ensures var end := WorldAt(w, u, k, m, order, 7); WaitsFor(cfg, end, w.nextTx, w.nextTx + 1) && WaitsFor(cfg, end, w.nextTx + 1, w.nextTx)
  {
    Cast(w, Consuming(w, k, u, order), HasToken(w.db, m), LocksAt(w, u, k, m, 7));
    ConsumerWants(cfg, w, u, k, m, order);
    Wants(cfg, w.db, w.nextTx + 1, u, m);
  }

  lemma SevenSteps(cfg: Config, w: World, u: UserId, k: ResetId, m: ResetId, order: seq<nat>, path: seq<World>, es: seq<Event>)
    requires Contended(w, u, k, m) && Enumerates(order, Outstanding(w.db, u, k))
    requires path == seq(8, i requires 0 <= i < 8 => WorldAt(w, u, k, m, order, i))
    requires es == seq(7, i requires 0 <= i < 7 => EventAt(w, k, m, order, i))
    ensures Path(cfg, path, es)
  {
    forall i | 0 <= i < 7 ensures Happens(cfg, path[i], es[i], path[i + 1]) {
      if i < 5 {
        EachTakes(cfg, w, u, k, m, order, i);
      } else {
        FirstGoesOn(cfg, w, u, k, m, order, i);
      }
    }
  }

  lemma Astray(cfg: Config, ws: seq<World>, es: seq<Event>, u: UserId, k: ResetId, m: ResetId, order: seq<nat>)
    returns (ws': seq<World>, es': seq<Event>)
    requires Run(cfg, ws, es) && Contended(Last(ws), u, k, m) && Enumerates(order, Outstanding(Last(ws).db, u, k))
    ensures Run(cfg, ws', es') && ws <= ws' && es <= es' && Last(ws') == WorldAt(Last(ws), u, k, m, order, 7)
  {
    var w := Last(ws);
    var path := seq(8, i requires 0 <= i < 8 => WorldAt(w, u, k, m, order, i));
    var more := seq(7, i requires 0 <= i < 7 => EventAt(w, k, m, order, i));
    SevenSteps(cfg, w, u, k, m, order, path, more);
    Follow(cfg, ws, es, path, more);
    ws', es' := ws + path[1..], es + more;
  }

  /**
   From every reachable state in which an account has two outstanding tokens and
   none of the three rows is locked, there is a continuation that ends with the
   two resets waiting for each other.
   */
  lemma TwoResetsCanDeadlock(cfg: Config, ws: seq<World>, es: seq<Event>, u: UserId, k: ResetId, m: ResetId)
    returns (ws': seq<World>, es': seq<Event>)
    requires Run(cfg, ws, es) && Contended(Last(ws), u, k, m)
    ensures Run(cfg, ws', es') && ws <= ws' && es <= es'
    ensures var a := Last(ws).nextTx; WaitsFor(cfg, Last(ws'), a, a + 1) && WaitsFor(cfg, Last(ws'), a + 1, a)
  {
    var order := VisitsFirst(Last(ws), u, k, m);
    ws', es' := Astray(cfg, ws, es, u, k, m, order);
    WaitForEachOther(cfg, Last(ws), u, k, m, order);
  }

  // ---- Such states are reached ------------------------------------------------

  const Account := User("hash", Customer, true, true, false, false, 0)
  const Link := ResetToken(0, 1, None)

  /** Signing up and asking for two links is enough. */
  lemma ContendedIsReached(cfg: Config) returns (ws: seq<World>, es: seq<Event>)
    ensures Run(cfg, ws, es) && Contended(Last(ws), 0, 0, 1)
  {
    var one := EmptyDb.(users := map[0 := Account]);
    var two := one.(tokens := map[0 := Link]);
    var three := one.(tokens := map[0 := Link, 1 := Link]);
    ws := [Quiet(EmptyDb, 0), Quiet(one, 0), Quiet(two, 0), Quiet(three, 0)];
    es := [Register(0, Account), IssueReset(0, Link), IssueReset(1, Link)];
    assert Happens(cfg, Quiet(EmptyDb, 0), Register(0, Account), Quiet(one, 0));
    assert Happens(cfg, Quiet(one, 0), IssueReset(0, Link), Quiet(two, 0));
    assert Happens(cfg, Quiet(two, 0), IssueReset(1, Link), Quiet(three, 0));
  }
}
