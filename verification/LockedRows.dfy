/**
 Locked read-modify-write with an audit row, for any table: a transaction locks
 one row, decides from the committed value what to store, flushes it past the
 table's unique index, and commits the new value together with an audit row that
 names both. Any number of transactions interleave and any may be rolled back.
 */
module LockedRows {
  import opened Text

  type TxId = nat

  datatype Entry<Id, V> = Entry(id: Id, before: Option<V>, after: V)

  /**
   A kind of table. `decide` gives the value a command stores in place of the one
   it found, or refuses; `clash` says two rows share a key of the unique index.
   */
  datatype Rules<!Id(==), !V, !C> = Rules(
    target: C -> Id,
    decide: (C, Option<V>) -> Option<V>,
    clash: (V, V) -> bool)

  datatype Seen<V> = Unread | Read(row: Option<V>)

  /** `flushed` is the value sent to the database and not yet committed. */
  datatype Tx<V, C> = Tx(cmd: C, seen: Seen<V>, flushed: Option<V>)

  datatype Store<!Id(==), V, C> = Store(
    rows: map<Id, V>, audit: seq<Entry<Id, V>>, locks: map<Id, TxId>, txs: map<TxId, Tx<V, C>>, next: TxId)

  datatype Event<C> = Begin(cmd: C) | Lock(t: TxId) | Flush(t: TxId) | Commit(t: TxId) | Rollback(t: TxId)

  function Row<Id, V>(rows: map<Id, V>, id: Id): Option<V> {
    if id in rows then Some(rows[id]) else None
  }

  predicate Apart<Id, V, C>(rules: Rules<Id, V, C>, v: V, w: V) {
    !rules.clash(v, w) && !rules.clash(w, v)
  }

  /** The unique index, on committed rows. */
  ghost predicate Unique<Id(!new), V, C>(rules: Rules<Id, V, C>, rows: map<Id, V>) {
    forall a, b :: a in rows && b in rows && a != b ==> Apart(rules, rows[a], rows[b])
  }

  ghost predicate Init<Id(!new), V, C>(rules: Rules<Id, V, C>, s: Store<Id, V, C>) {
    s.audit == [] && s.locks == map[] && s.txs == map[] && Unique(rules, s.rows)
  }

  /** What transaction `t` would store. */
  function Decided<Id, V, C>(rules: Rules<Id, V, C>, s: Store<Id, V, C>, t: TxId): Option<V>
    requires t in s.txs
  {
    if s.txs[t].seen.Unread? then None else rules.decide(s.txs[t].cmd, s.txs[t].seen.row)
  }

  function TargetOf<Id, V, C>(rules: Rules<Id, V, C>, s: Store<Id, V, C>, t: TxId): Id
    requires t in s.txs
  {
    rules.target(s.txs[t].cmd)
  }

  /**
   The index admits a value for row `id`: no other row has its key, neither in its
   committed version nor in one another transaction has flushed. Otherwise the
   database makes the flush wait, or fails it.
   */
  ghost predicate Admits<Id(!new), V, C>(rules: Rules<Id, V, C>, s: Store<Id, V, C>, id: Id, v: V) {
    && (forall q :: q in s.rows && q != id ==> Apart(rules, v, s.rows[q]))
    && (forall x :: x in s.txs && s.txs[x].flushed.Some? && TargetOf(rules, s, x) != id ==> Apart(rules, v, s.txs[x].flushed.value))
  }

  /** An insert takes no lock, since there is no row; its identifier is new. */
  ghost predicate NewId<Id, V, C>(rules: Rules<Id, V, C>, s: Store<Id, V, C>, id: Id) {
    id !in s.rows && forall x :: x in s.txs && s.txs[x].flushed.Some? ==> TargetOf(rules, s, x) != id
  }

  ghost predicate Enabled<Id(!new), V, C>(rules: Rules<Id, V, C>, s: Store<Id, V, C>, e: Event<C>) {
    match e
    case Begin(_) => true
    case Lock(t) => t in s.txs && s.txs[t].seen.Unread? && TargetOf(rules, s, t) !in s.locks
    case Flush(t) =>
      && t in s.txs && s.txs[t].flushed.None? && Decided(rules, s, t).Some?
      && (s.txs[t].seen.row.None? ==> NewId(rules, s, TargetOf(rules, s, t)))
      && Admits(rules, s, TargetOf(rules, s, t), Decided(rules, s, t).value)
    case Commit(t) => t in s.txs && s.txs[t].flushed.Some?
    case Rollback(t) => t in s.txs
  }

  function RowSeen<V, C>(tx: Tx<V, C>): Option<V> {
    if tx.seen.Read? then tx.seen.row else None
  }

  function Release<Id, V, C>(s: Store<Id, V, C>, t: TxId): Store<Id, V, C> {
    s.(locks := map id | id in s.locks && s.locks[id] != t :: s.locks[id], txs := s.txs - {t})
  }

  ghost function Step<Id(!new), V, C>(rules: Rules<Id, V, C>, s: Store<Id, V, C>, e: Event<C>): Store<Id, V, C>
    requires Enabled(rules, s, e)
  {
    match e
    case Begin(cmd) => s.(txs := s.txs[s.next := Tx(cmd, Unread, None)], next := s.next + 1)
    case Lock(t) =>
      var id := TargetOf(rules, s, t);
      var read := s.(txs := s.txs[t := s.txs[t].(seen := Read(Row(s.rows, id)))]);
      if id in s.rows then read.(locks := s.locks[id := t]) else read
    case Flush(t) => s.(txs := s.txs[t := s.txs[t].(flushed := Decided(rules, s, t))])
    case Commit(t) =>
      var id, value := TargetOf(rules, s, t), s.txs[t].flushed.value;
      Release(s.(rows := s.rows[id := value], audit := s.audit + [Entry(id, RowSeen(s.txs[t]), value)]), t)
    case Rollback(t) => Release(s, t)
  }

  ghost predicate Run<Id(!new), V, C>(rules: Rules<Id, V, C>, ss: seq<Store<Id, V, C>>, es: seq<Event<C>>) {
    && |ss| == |es| + 1 && Init(rules, ss[0])
    && forall i :: 0 <= i < |es| ==> Enabled(rules, ss[i], es[i]) && ss[i + 1] == Step(rules, ss[i], es[i])
  }

  // ---- The lock invariant -----------------------------------------------------

  /**
   A transaction that found its row has it locked, and the committed row is still
   the one it found; what it flushed is what it decided from that.
   */
  ghost predicate HeldOk<Id, V, C>(rules: Rules<Id, V, C>, s: Store<Id, V, C>, t: TxId)
    requires t in s.txs
  {
    var id, tx := TargetOf(rules, s, t), s.txs[t];
    && t < s.next
    && (tx.seen.Read? && tx.seen.row.Some? ==> id in s.locks && s.locks[id] == t && Row(s.rows, id) == tx.seen.row)
    && (tx.flushed.Some? ==> tx.flushed == Decided(rules, s, t) && Row(s.rows, id) == tx.seen.row)
  }

  ghost predicate LocksOk<Id(!new), V, C>(rules: Rules<Id, V, C>, s: Store<Id, V, C>) {
    && (forall t {:trigger HeldOk(rules, s, t)} :: t in s.txs ==> HeldOk(rules, s, t))
    && (forall x, y :: Flushed(s, x) && Flushed(s, y) && x != y ==> TargetOf(rules, s, x) != TargetOf(rules, s, y))
  }

  predicate Flushed<Id, V, C>(s: Store<Id, V, C>, t: TxId) {
    t in s.txs && s.txs[t].flushed.Some?
  }

  lemma FlushIsAlone<Id(!new), V, C>(rules: Rules<Id, V, C>, s: Store<Id, V, C>, t: TxId, x: TxId)
    requires LocksOk(rules, s) && Enabled(rules, s, Flush(t)) && Flushed(s, x) && x != t
    ensures TargetOf(rules, s, x) != TargetOf(rules, s, t)
  {
    assert HeldOk(rules, s, t) && HeldOk(rules, s, x);
  }

  lemma StepLocksOk<Id(!new), V, C>(rules: Rules<Id, V, C>, s: Store<Id, V, C>, e: Event<C>)
    requires LocksOk(rules, s) && Enabled(rules, s, e)
    ensures LocksOk(rules, Step(rules, s, e))
  {
    var after := Step(rules, s, e);
    forall t | t in after.txs ensures HeldOk(rules, after, t) {
      assert t in s.txs ==> HeldOk(rules, s, t);
      assert e.Commit? ==> HeldOk(rules, s, e.t);
    }
    if e.Flush? {
      forall x | Flushed(s, x) && x != e.t ensures TargetOf(rules, s, x) != TargetOf(rules, s, e.t) {
        FlushIsAlone(rules, s, e.t, x);
      }
    }
    forall x, y | Flushed(after, x) && Flushed(after, y) && x != y ensures TargetOf(rules, after, x) != TargetOf(rules, after, y) {
      assert (Flushed(s, x) || (e.Flush? && x == e.t)) && (Flushed(s, y) || (e.Flush? && y == e.t));
    }
  }

  // ---- The unique index -------------------------------------------------------

  /** No key is shared by two rows in any of their versions, committed or flushed. */
  ghost predicate IndexOk<Id(!new), V, C>(rules: Rules<Id, V, C>, s: Store<Id, V, C>) {
    && Unique(rules, s.rows)
    && (forall t :: Flushed(s, t) ==> Admits(rules, s, TargetOf(rules, s, t), s.txs[t].flushed.value))
  }

  lemma FlushIndexOk<Id(!new), V, C>(rules: Rules<Id, V, C>, s: Store<Id, V, C>, t: TxId)
    requires IndexOk(rules, s) && Enabled(rules, s, Flush(t))
    ensures IndexOk(rules, Step(rules, s, Flush(t)))
  {
    var after, v := Step(rules, s, Flush(t)), Decided(rules, s, t).value;
    forall x | Flushed(after, x) ensures Admits(rules, after, TargetOf(rules, after, x), after.txs[x].flushed.value) {
      if x != t {
        assert Flushed(s, x) && Admits(rules, s, TargetOf(rules, s, x), s.txs[x].flushed.value);
      }
    }
  }

  lemma CommitIndexOk<Id(!new), V, C>(rules: Rules<Id, V, C>, s: Store<Id, V, C>, t: TxId)
    requires LocksOk(rules, s) && IndexOk(rules, s) && Enabled(rules, s, Commit(t))
    ensures IndexOk(rules, Step(rules, s, Commit(t)))
  {
    var after, id, v := Step(rules, s, Commit(t)), TargetOf(rules, s, t), s.txs[t].flushed.value;
    assert Flushed(s, t) && Admits(rules, s, id, v);
    forall x | Flushed(after, x) ensures Admits(rules, after, TargetOf(rules, after, x), after.txs[x].flushed.value) {
      assert Flushed(s, x) && Admits(rules, s, TargetOf(rules, s, x), s.txs[x].flushed.value);
    }
  }

  lemma StepIndexOk<Id(!new), V, C>(rules: Rules<Id, V, C>, s: Store<Id, V, C>, e: Event<C>)
    requires LocksOk(rules, s) && IndexOk(rules, s) && Enabled(rules, s, e)
    ensures IndexOk(rules, Step(rules, s, e))
  {
    match e
    case Flush(t) => FlushIndexOk(rules, s, t);
    case Commit(t) => CommitIndexOk(rules, s, t);
    case _ =>
      var after := Step(rules, s, e);
      forall x | Flushed(after, x) ensures Admits(rules, after, TargetOf(rules, after, x), after.txs[x].flushed.value) {
        assert Flushed(s, x) && Admits(rules, s, TargetOf(rules, s, x), s.txs[x].flushed.value);
      }
  }

  /** In every state: one holder per row, views current, and no key shared, although the index is only consulted at flushes. */
  lemma {:induction false} RunOk<Id(!new), V, C>(rules: Rules<Id, V, C>, ss: seq<Store<Id, V, C>>, es: seq<Event<C>>, i: nat)
    requires Run(rules, ss, es) && i < |ss|
    ensures LocksOk(rules, ss[i]) && IndexOk(rules, ss[i])
  {
    if i > 0 {
      RunOk(rules, ss, es, i - 1);
      StepLocksOk(rules, ss[i - 1], es[i - 1]);
      StepIndexOk(rules, ss[i - 1], es[i - 1]);
    }
  }

  // ---- The simple form --------------------------------------------------------

  /** One indivisible command: decide on the committed row, store within the index, and record what was replaced. */
  ghost predicate AtomicStep<Id(!new), V, C>(rules: Rules<Id, V, C>, s: Store<Id, V, C>, c: C, after: Store<Id, V, C>) {
    var id := rules.target(c);
    var decided := rules.decide(c, Row(s.rows, id));
    && decided.Some? && Unique(rules, s.rows[id := decided.value])
    && after.rows == s.rows[id := decided.value]
    && after.audit == s.audit + [Entry(id, Row(s.rows, id), decided.value)]
  }

  /** Every commit of every interleaving is the indivisible command on the rows it lands on; nothing else moves a row. */
  lemma StepRefines<Id(!new), V, C>(rules: Rules<Id, V, C>, ss: seq<Store<Id, V, C>>, es: seq<Event<C>>, i: nat)
    requires Run(rules, ss, es) && i < |es|
    ensures if es[i].Commit? then es[i].t in ss[i].txs && AtomicStep(rules, ss[i], ss[i].txs[es[i].t].cmd, ss[i + 1])
            else ss[i + 1].rows == ss[i].rows && ss[i + 1].audit == ss[i].audit
  {
    RunOk(rules, ss, es, i);
    RunOk(rules, ss, es, i + 1);
    assert Enabled(rules, ss[i], es[i]) && ss[i + 1] == Step(rules, ss[i], es[i]);
    if es[i].Commit? {
      assert HeldOk(rules, ss[i], es[i].t);
    }
  }

  /** A row nobody has locked, and no value on its way to the table that shares a key with `v`. */
  ghost predicate InReach<Id(!new), V, C>(rules: Rules<Id, V, C>, s: Store<Id, V, C>, id: Id, v: V) {
    id !in s.locks && Admits(rules, s, id, v) && (id !in s.rows ==> NewId(rules, s, id))
  }

  /** Conversely a command that may store its value can: from every reachable state in which nothing is in its way, four steps commit it. */
  lemma CommandCommits<Id(!new), V, C>(rules: Rules<Id, V, C>, ss: seq<Store<Id, V, C>>, es: seq<Event<C>>, c: C, v: V)
    returns (ss': seq<Store<Id, V, C>>, es': seq<Event<C>>)
    requires Run(rules, ss, es)
    requires var s := ss[|ss| - 1];
      rules.decide(c, Row(s.rows, rules.target(c))) == Some(v) && InReach(rules, s, rules.target(c), v)
    ensures Run(rules, ss', es') && ss <= ss' && es <= es'
    ensures var s, end := ss[|ss| - 1], ss'[|ss'| - 1];
      && end.rows == s.rows[rules.target(c) := v]
      && end.audit == s.audit + [Entry(rules.target(c), Row(s.rows, rules.target(c)), v)]
  {
    var s := ss[|ss| - 1];
    var t := s.next;
    RunOk(rules, ss, es, |ss| - 1);
    assert t in s.txs ==> HeldOk(rules, s, t);
    var begun := Step(rules, s, Begin(c));
    var locked := Step(rules, begun, Lock(t));
    var flushed := Step(rules, locked, Flush(t));
    var committed := Step(rules, flushed, Commit(t));
    ss', es' := ss + [begun, locked, flushed, committed], es + [Begin(c), Lock(t), Flush(t), Commit(t)];
    forall i | 0 <= i < |es'| ensures Enabled(rules, ss'[i], es'[i]) && ss'[i + 1] == Step(rules, ss'[i], es'[i]) {
      if i < |es| {
        assert Enabled(rules, ss[i], es[i]) && ss[i + 1] == Step(rules, ss[i], es[i]);
      }
    }
  }

  // ---- The audit chain --------------------------------------------------------

  /** The row an auditor reconstructs from a starting value; None as soon as an entry does not start where the last one ended. */
  function Replay<Id(==), V(==)>(audit: seq<Entry<Id, V>>, id: Id, start: Option<V>): Option<Option<V>> {
    if audit == [] then Some(start)
    else
      var before, e := Replay(audit[..|audit| - 1], id, start), audit[|audit| - 1];
      if e.id != id then before
      else if before == Some(e.before) then Some(Some(e.after))
      else None
  }

  lemma {:induction false} RunReplays<Id(!new), V, C>(rules: Rules<Id, V, C>, ss: seq<Store<Id, V, C>>, es: seq<Event<C>>, i: nat, id: Id)
    requires Run(rules, ss, es) && i < |ss|
    ensures Replay(ss[i].audit, id, Row(ss[0].rows, id)) == Some(Row(ss[i].rows, id))
  {
    if i > 0 {
      RunReplays(rules, ss, es, i - 1, id);
      StepRefines(rules, ss, es, i - 1);
      if es[i - 1].Commit? {
        var last := |ss[i].audit| - 1;
        assert ss[i].audit[..last] == ss[i - 1].audit;
      }
    }
  }

  /** `audit[i]` is the latest entry of `id` before position `j`. */
  ghost predicate Latest<Id, V>(audit: seq<Entry<Id, V>>, id: Id, i: int, j: int) {
    0 <= i < j <= |audit| && audit[i].id == id && forall m :: i < m < j ==> audit[m].id != id
  }

  lemma {:induction false} ReplayPrefix<Id, V>(audit: seq<Entry<Id, V>>, id: Id, start: Option<V>, n: nat)
    requires Replay(audit, id, start).Some? && n <= |audit|
    ensures Replay(audit[..n], id, start).Some?
  {
    if n < |audit| {
      ReplayPrefix(audit[..|audit| - 1], id, start, n);
      assert audit[..|audit| - 1][..n] == audit[..n];
    } else {
      assert audit[..n] == audit;
    }
  }

  lemma {:induction false} ReplayEnds<Id, V>(audit: seq<Entry<Id, V>>, id: Id, start: Option<V>, i: int)
    requires Replay(audit, id, start).Some? && Latest(audit, id, i, |audit|)
    ensures Replay(audit, id, start) == Some(Some(audit[i].after)) && Replay(audit[..i], id, start) == Some(audit[i].before)
  {
    var last := |audit| - 1;
    if i < last {
      assert audit[..last][..i] == audit[..i];
      ReplayEnds(audit[..last], id, start, i);
    }
  }

  /**
   The audit rows of one entity form a chain: each `before` is the previous
   `after`, and the last `after` is the stored row, under every interleaving.
   */
  lemma AuditChain<Id(!new), V, C>(rules: Rules<Id, V, C>, ss: seq<Store<Id, V, C>>, es: seq<Event<C>>, n: nat, id: Id, i: int, j: int)
    requires Run(rules, ss, es) && n < |ss| && Latest(ss[n].audit, id, i, j)
    ensures var audit := ss[n].audit;
      && (j < |audit| && audit[j].id == id ==> audit[j].before == Some(audit[i].after))
      && (j == |audit| ==> Row(ss[n].rows, id) == Some(audit[i].after))
  {
    var audit, start := ss[n].audit, Row(ss[0].rows, id);
    RunReplays(rules, ss, es, n, id);
    if j == |audit| {
      ReplayEnds(audit, id, start, i);
    } else if audit[j].id == id {
      ReplayPrefix(audit, id, start, j + 1);
      ReplayPrefix(audit, id, start, j);
      ReplayEnds(audit[..j], id, start, i);
      ReplayEnds(audit[..j + 1], id, start, j);
      assert audit[..j + 1][..j] == audit[..j];
    }
  }

  // ---- What every run keeps ---------------------------------------------------

  /** Every value a command stores satisfies `good` for the row it goes to. */
  ghost predicate Stores<Id(!new), V(!new), C(!new)>(rules: Rules<Id, V, C>, good: (Id, V) -> bool) {
    forall c: C, v: Option<V> :: rules.decide(c, v).Some? && (v.Some? ==> good(rules.target(c), v.value)) ==>
      good(rules.target(c), rules.decide(c, v).value)
  }

  lemma {:induction false} RunKeeps<Id(!new), V(!new), C(!new)>(rules: Rules<Id, V, C>, good: (Id, V) -> bool, ss: seq<Store<Id, V, C>>,
                                                                es: seq<Event<C>>, i: nat)
    requires Run(rules, ss, es) && i < |ss| && Stores(rules, good) && forall id :: id in ss[0].rows ==> good(id, ss[0].rows[id])
    ensures (forall id :: id in ss[i].rows ==> good(id, ss[i].rows[id])) && Unique(rules, ss[i].rows)
    ensures ss[0].rows.Keys <= ss[i].rows.Keys
  {
    RunOk(rules, ss, es, i);
    if i > 0 {
      RunKeeps(rules, good, ss, es, i - 1);
      StepRefines(rules, ss, es, i - 1);
    }
  }

  /** No command is accepted on a row in a final state. */
  ghost predicate Terminal<Id(!new), V, C(!new)>(rules: Rules<Id, V, C>, v: V) {
    forall c: C :: rules.decide(c, Some(v)).None?
  }

  /** A row in a final state never changes again, and no audit row about it follows. */
  lemma {:induction false} TerminalForGood<Id(!new), V, C(!new)>(rules: Rules<Id, V, C>, ss: seq<Store<Id, V, C>>, es: seq<Event<C>>, i: nat, j: nat, id: Id)
    requires Run(rules, ss, es) && i <= j < |ss| && id in ss[i].rows && Terminal(rules, ss[i].rows[id])
    ensures id in ss[j].rows && ss[j].rows[id] == ss[i].rows[id]
    ensures |ss[i].audit| <= |ss[j].audit| && ss[j].audit[..|ss[i].audit|] == ss[i].audit
    ensures forall m :: |ss[i].audit| <= m < |ss[j].audit| ==> ss[j].audit[m].id != id
  {
    if i < j {
      TerminalForGood(rules, ss, es, i, j - 1, id);
      StepRefines(rules, ss, es, j - 1);
    }
  }
}
