/** Carrying a run on by steps of one's own choosing. */
module Continuations {
  import opened Units
  import opened Accounts
  import opened Transactions

  predicate Happens(cfg: Config, w: World, e: Event, next: World) {
    Enabled(cfg, w, e) && next == Step(cfg, w, e)
  }

  function Last(ws: seq<World>): World
    requires ws != []
  {
    ws[|ws| - 1]
  }

  /** A path of worlds and the events between them. */
  ghost predicate Path(cfg: Config, path: seq<World>, es: seq<Event>) {
    |path| == |es| + 1 && forall i {:trigger path[i]} :: 0 <= i < |es| ==> Happens(cfg, path[i], es[i], path[i + 1])
  }

  /** A run followed by a path from where it ends is a run. */
  lemma Follow(cfg: Config, ws: seq<World>, es: seq<Event>, path: seq<World>, more: seq<Event>)
    requires Run(cfg, ws, es) && Path(cfg, path, more) && path[0] == Last(ws)
    ensures Run(cfg, ws + path[1..], es + more) && Last(ws + path[1..]) == Last(path)
  {
    var ws', es' := ws + path[1..], es + more;
    forall i | 0 <= i < |es'| ensures Enabled(cfg, ws'[i], es'[i]) && ws'[i + 1] == Step(cfg, ws'[i], es'[i]) {
      if i < |es| {
        assert Enabled(cfg, ws[i], es[i]) && ws[i + 1] == Step(cfg, ws[i], es[i]);
      } else {
        assert Happens(cfg, path[i - |es|], more[i - |es|], path[i - |es| + 1]);
      }
    }
  }

  /** Two steps on. */
  lemma TwoOn(cfg: Config, ws: seq<World>, es: seq<Event>, e: Event, w: World, f: Event, v: World)
    requires Run(cfg, ws, es) && Happens(cfg, Last(ws), e, w) && Happens(cfg, w, f, v)
    ensures Run(cfg, ws + [w, v], es + [e, f])
  {
    var path := [Last(ws), w, v];
    assert Path(cfg, path, [e, f]);
    Follow(cfg, ws, es, path, [e, f]);
    assert path[1..] == [w, v];
  }

  lemma OneOn(cfg: Config, ws: seq<World>, es: seq<Event>, e: Event, w: World)
    requires Run(cfg, ws, es) && Happens(cfg, Last(ws), e, w)
    ensures Run(cfg, ws + [w], es + [e])
  {
    var path := [Last(ws), w];
    assert Path(cfg, path, [e]);
    Follow(cfg, ws, es, path, [e]);
    assert path[1..] == [w];
  }

  lemma Acts(cfg: Config, w: World, t: TxId, a: Action, order: seq<nat>, next: World)
    requires t in w.txs && Plan(cfg, t, w.txs[t]) == a && ActEnabled(w, w.txs[t], a, order) && next == StepAct(cfg, w, t, a, order)
    ensures Happens(cfg, w, Act(t, order), next)
  {
  }

  /** Nothing in flight and nothing handed out. */
  function Quiet(db: Db, now: Time): World {
    World(db, NoHistory, map[], map[], 0, now, map[], map[], map[], 0)
  }

  // ---- One transaction on its own ---------------------------------------------

  /** `w` with transaction `t` at `tx` and these locks. */
  function Solo(w: World, t: TxId, tx: Tx, locks: map<Row, TxId>): World {
    w.(txs := w.txs[t := tx], locks := locks)
  }

  lemma SoloBegins(cfg: Config, w: World, cmd: Command)
    requires Enabled(cfg, w, Begin(cmd))
    ensures Happens(cfg, w, Begin(cmd), Solo(w.(nextTx := w.nextTx + 1), w.nextTx, Start(cmd), w.locks))
  {
  }

  lemma SoloLocks(cfg: Config, w: World, t: TxId, tx: Tx, locks: map<Row, TxId>, r: Row, seen: Tx)
    requires Plan(cfg, t, tx) == Lock(r) && r !in locks && Exists(w.db, r) && seen == Observe(w.db, tx, r)
    ensures Happens(cfg, Solo(w, t, tx, locks), Act(t, []), Solo(w, t, seen, locks[r := t]))
  {
    assert w.txs[t := tx][t := seen] == w.txs[t := seen];
    Acts(cfg, Solo(w, t, tx, locks), t, Lock(r), [], Solo(w, t, seen, locks[r := t]));
  }

  /** A look at the clock, at Redis, or at a table without a lock. */
  lemma SoloLooks(cfg: Config, w: World, t: TxId, tx: Tx, locks: map<Row, TxId>, a: Action, seen: Tx)
    requires Plan(cfg, t, tx) == a && (a.Clock? || a.PeekFlag? || a.PeekOwner? || a.PeekUser? || a.PeekGate?) && seen == Advance(w, tx, a, [])
    ensures Happens(cfg, Solo(w, t, tx, locks), Act(t, []), Solo(w, t, seen, locks))
  {
    assert w.txs[t := tx][t := seen] == w.txs[t := seen];
    Acts(cfg, Solo(w, t, tx, locks), t, a, [], Solo(w, t, seen, locks));
  }

  lemma SoloFinishes(cfg: Config, w: World, t: TxId, tx: Tx, locks: map<Row, TxId>, wr: Writes)
    requires Plan(cfg, t, tx) == Finish(wr) && !tx.published
    ensures Happens(cfg, Solo(w, t, tx, locks), Act(t, []), StepAct(cfg, Solo(w, t, tx, locks), t, Finish(wr), []))
  {
    Acts(cfg, Solo(w, t, tx, locks), t, Finish(wr), [], StepAct(cfg, Solo(w, t, tx, locks), t, Finish(wr), []));
  }

  /** A transaction ready to finish publishes. */
  lemma Publishes(cfg: Config, w: World, t: TxId, tx: Tx, locks: map<Row, TxId>, wr: Writes, ws: seq<World>, es: seq<Event>)
    returns (ws': seq<World>, es': seq<Event>)
    requires Run(cfg, ws, es) && Last(ws) == Solo(w, t, tx, locks) && Plan(cfg, t, tx) == Finish(wr) && !tx.published
    ensures Run(cfg, ws', es') && ws <= ws' && es <= es' && Last(ws') == StepAct(cfg, Solo(w, t, tx, locks), t, Finish(wr), [])
  {
    var next := StepAct(cfg, Solo(w, t, tx, locks), t, Finish(wr), []);
    SoloFinishes(cfg, w, t, tx, locks, wr);
    OneOn(cfg, ws, es, Act(t, []), next);
    ws', es' := ws + [next], es + [Act(t, [])];
  }

  lemma NothingToPublish(cfg: Config, w: World, t: TxId, tx: Tx, locks: map<Row, TxId>, wr: Writes)
    requires wr.out.Rotation? || (wr.out.NewSession? && wr.out.factor.None?)
    ensures StepAct(cfg, Solo(w, t, tx, locks), t, Finish(wr), []) == Solo(w, t, tx.(published := true), locks)
  {
    assert w.txs[t := tx][t := tx.(published := true)] == w.txs[t := tx.(published := true)];
  }

  /** A transaction in flight may be rolled back, or left where it is. */
  lemma MayRollBack(cfg: Config, ws: seq<World>, es: seq<Event>, t: TxId, rolledBack: bool) returns (ws': seq<World>, es': seq<Event>)
    requires Run(cfg, ws, es) && t in Last(ws).txs
    ensures Run(cfg, ws', es') && ws <= ws' && es <= es' && (rolledBack ==> Rollback(t) in es')
    ensures Last(ws') == if rolledBack then Release(Last(ws), t) else Last(ws)
  {
    ws', es' := ws, es;
    if rolledBack {
      assert Happens(cfg, Last(ws), Rollback(t), Release(Last(ws), t));
      OneOn(cfg, ws, es, Rollback(t), Release(Last(ws), t));
      ws', es' := ws + [Release(Last(ws), t)], es + [Rollback(t)];
    }
  }

  lemma Commits(cfg: Config, ws: seq<World>, es: seq<Event>, t: TxId, wr: Writes) returns (ws': seq<World>, es': seq<Event>)
    requires Run(cfg, ws, es) && t in Last(ws).txs && Last(ws).txs[t].published && Plan(cfg, t, Last(ws).txs[t]) == Finish(wr)
    requires Last(ws).txs[t].cmd.ConfirmSetup? ==> Last(ws).txs[t].cmd.newCodes !! Last(ws).db.codes.Keys
    ensures Run(cfg, ws', es') && ws <= ws' && es <= es' && Last(ws') == StepCommit(Last(ws), t, wr)
  {
    var next := StepCommit(Last(ws), t, wr);
    assert Happens(cfg, Last(ws), Commit(t), next);
    OneOn(cfg, ws, es, Commit(t), next);
    ws', es' := ws + [next], es + [Commit(t)];
  }
}
