/**
 The gate between a right password and a session. It reads the credential without
 a lock, so what it says may be out of date by the time the login finishes, but
 only in one way: a credential enabled in between may be missed. Past the gate, a
 challenge is what the login said it was and is answered once.
 */
module Gate {
  import opened Accounts
  import opened Transactions
  import opened Locking
  import opened Runs
  import opened Theorems
  import opened Claims

  // ---- What the gate has seen -------------------------------------------------

  predicate LogsIn(tx: Tx, u: UserId) {
    tx.cmd.Login? && tx.cmd.user == u
  }

  /** Every login of `u` numbered from `first` on that has asked the gate was told to challenge. */
  ghost predicate ChallengedSince(w: World, u: UserId, first: TxId) {
    forall t :: t in w.txs && first <= t && LogsIn(w.txs[t], u) && w.txs[t].peek.gate.Read? ==> w.txs[t].peek.gate.value
  }

  /** A login of `u` that was told to challenge has an enabled credential behind it. */
  ghost predicate ChallengeFounded(w: World, u: UserId) {
    forall t :: t in w.txs && LogsIn(w.txs[t], u) && w.txs[t].peek.gate == Read(true) ==> IsEnabled(w.db, u)
  }

  lemma GateLook(cfg: Config, w: World, t: TxId, order: seq<nat>, u: UserId)
    requires t in w.txs
    ensures var tx, after := w.txs[t], Advance(w, w.txs[t], Plan(cfg, t, w.txs[t]), order);
      && LogsIn(after, u) == LogsIn(tx, u)
      && (LogsIn(tx, u) && after.peek.gate != tx.peek.gate ==> after.peek.gate == Read(IsEnabled(w.db, u)))
  {
  }

  lemma StepChallenges(cfg: Config, w: World, e: Event, u: UserId, first: TxId)
    requires Enabled(cfg, w, e) && IsEnabled(w.db, u) && ChallengedSince(w, u, first)
    ensures ChallengedSince(Step(cfg, w, e), u, first)
  {
    if e.Act? {
      ActFrame(cfg, w, e.t, Plan(cfg, e.t, w.txs[e.t]), e.order);
      GateLook(cfg, w, e.t, e.order, u);
    }
  }

  lemma StepFounded(cfg: Config, w: World, e: Event, u: UserId)
    requires Enabled(cfg, w, e) && ChallengeFounded(w, u) && (IsEnabled(w.db, u) ==> IsEnabled(Step(cfg, w, e).db, u))
    ensures ChallengeFounded(Step(cfg, w, e), u)
  {
    if e.Act? {
      ActFrame(cfg, w, e.t, Plan(cfg, e.t, w.txs[e.t]), e.order);
      GateLook(cfg, w, e.t, e.order, u);
    }
  }

  lemma {:induction false} RunChallengesSince(cfg: Config, ws: seq<World>, es: seq<Event>, i: nat, j: nat, u: UserId)
    requires Run(cfg, ws, es) && i <= j < |ws| && IsEnabled(ws[i].db, u)
    ensures ChallengedSince(ws[j], u, ws[i].nextTx)
  {
    if i == j {
      RunInv(cfg, ws, es, i);
    } else {
      RunChallengesSince(cfg, ws, es, i, j - 1, u);
      EnabledForGood(cfg, ws, es, i, j - 1, u);
      StepChallenges(cfg, ws[j - 1], es[j - 1], u, ws[i].nextTx);
    }
  }

  lemma {:induction false} RunFounded(cfg: Config, ws: seq<World>, es: seq<Event>, i: nat, u: UserId)
    requires Run(cfg, ws, es) && i < |ws|
    ensures ChallengeFounded(ws[i], u)
  {
    if i > 0 {
      RunFounded(cfg, ws, es, i - 1, u);
      if IsEnabled(ws[i - 1].db, u) {
        EnabledForGood(cfg, ws, es, i - 1, i, u);
      }
      StepFounded(cfg, ws[i - 1], es[i - 1], u);
    }
  }

  // ---- What a finishing login gives -------------------------------------------

  /** A login of `u` that began no earlier than state `i` and is ready to finish in state `j`. */
  predicate Finishing(cfg: Config, ws: seq<World>, i: nat, j: nat, t: TxId, u: UserId) {
    && i <= j < |ws| && ws[i].nextTx <= t && t in ws[j].txs && LogsIn(ws[j].txs[t], u) && Plan(cfg, t, ws[j].txs[t]).Finish?
  }

  /** An admin whose credential was enabled when the login began gets a challenge for it, never a session. */
  lemma EnrolledAdminIsChallenged(cfg: Config, ws: seq<World>, es: seq<Event>, i: nat, j: nat, t: TxId, u: UserId)
    requires Run(cfg, ws, es) && Finishing(cfg, ws, i, j, t, u) && IsEnabled(ws[i].db, u)
    ensures u in ws[j].db.users
    ensures ws[j].db.users[u].role == Admin ==> Plan(cfg, t, ws[j].txs[t]).writes.out == Challenge(u, ws[j].db.users[u].epoch)
  {
    LoginChecksTheLockedRow(cfg, ws, es, j, t);
    RunChallengesSince(cfg, ws, es, i, j, u);
    AdminAsksGate(cfg, t, ws[j].txs[t]);
  }

  lemma AdminAsksGate(cfg: Config, t: TxId, tx: Tx)
    requires tx.cmd.Login? && Plan(cfg, t, tx).Finish?
    ensures Holds(tx.rows, UserRow(tx.cmd.user)) && (tx.rows.users[tx.cmd.user].value.role == Admin ==> tx.peek.gate.Read?)
  {
  }

  /** Nobody else is challenged: whoever is, is an admin with an enabled credential. */
  lemma OnlyEnrolledAdminsAreChallenged(cfg: Config, ws: seq<World>, es: seq<Event>, i: nat, t: TxId, u: UserId)
    requires Run(cfg, ws, es) && i < |ws| && t in ws[i].txs && LogsIn(ws[i].txs[t], u) && Plan(cfg, t, ws[i].txs[t]).Finish?
    ensures u in ws[i].db.users
    ensures ws[i].db.users[u].role != Admin || !IsEnabled(ws[i].db, u) ==> Plan(cfg, t, ws[i].txs[t]).writes.out.NewSession?
  {
    LoginChecksTheLockedRow(cfg, ws, es, i, t);
    RunFounded(cfg, ws, es, i, u);
  }

  // ---- Challenges -------------------------------------------------------------

  /** What an action does to the challenges: a login stores its own, an MFA login deletes the one it answers. */
  lemma ActOnChallenges(cfg: Config, w: World, t: TxId, a: Action, order: seq<nat>)
    requires t in w.txs
    ensures var next := StepAct(cfg, w, t, a, order);
      && (a.Finish? && a.writes.out.Challenge? ==>
            && next.challenges == w.challenges[w.nextChallenge := Pending(a.writes.out.user, a.writes.out.epoch)]
            && next.nextChallenge == w.nextChallenge + 1)
      && (!(a.Finish? && a.writes.out.Challenge?) ==>
            next.challenges == (if a.Consume? then w.challenges - {a.challenge} else w.challenges) && next.nextChallenge == w.nextChallenge)
  {
  }

  /** The challenge a login announces is stored under a number of its own, with the account and epoch announced. */
  lemma ChallengeIsStored(cfg: Config, ws: seq<World>, es: seq<Event>, i: nat, t: TxId, u: UserId, epoch: nat)
    requires Run(cfg, ws, es) && i < |es| && es[i].Act? && es[i].t == t && t in ws[i].txs
    requires Plan(cfg, t, ws[i].txs[t]).Finish? && Plan(cfg, t, ws[i].txs[t]).writes.out == Challenge(u, epoch)
    ensures ws[i].nextChallenge !in ws[i].challenges
    ensures ws[i + 1].challenges == ws[i].challenges[ws[i].nextChallenge := Pending(u, epoch)]
  {
    RunNumbered(cfg, ws, es, i);
    assert Enabled(cfg, ws[i], es[i]) && ws[i + 1] == Step(cfg, ws[i], es[i]);
    ActOnChallenges(cfg, ws[i], t, Plan(cfg, t, ws[i].txs[t]), es[i].order);
  }

  /** A challenge that was there and is no more. */
  predicate Gone(w: World, c: ChallengeId) {
    c !in w.challenges && c < w.nextChallenge
  }

  /** Transaction `t` has resolved challenge `c`, and has deleted it. */
  predicate Answered(w: World, t: TxId, c: ChallengeId) {
    && t in w.txs && w.txs[t].cmd.MfaLogin? && w.txs[t].cmd.challenge == c
    && w.txs[t].peek.pending.Read? && w.txs[t].peek.pending.value.Some? && w.txs[t].peek.consumed
  }

  predicate Resolved(w: World, t: TxId) {
    t in w.txs && w.txs[t].cmd.MfaLogin? && w.txs[t].peek.pending.Read? && w.txs[t].peek.pending.value.Some?
  }

  /** Challenges are numbered as they are stored, and one that was answered is gone. */
  ghost predicate ChallengesNumbered(w: World) {
    && (forall c :: c in w.challenges ==> c < w.nextChallenge)
    && (forall t :: Resolved(w, t) ==> w.txs[t].cmd.challenge < w.nextChallenge)
    && (forall t, c :: Answered(w, t, c) ==> Gone(w, c))
  }

  lemma ResolveOrConsume(cfg: Config, w: World, t: TxId, order: seq<nat>)
    requires t in w.txs
    ensures var tx, a := w.txs[t], Plan(cfg, t, w.txs[t]);
      var after := Advance(w, tx, a, order);
      && after.cmd == tx.cmd
      && (a.Resolve? || a.Consume? ==> tx.cmd.MfaLogin? && a.challenge == tx.cmd.challenge)
      && (a.Resolve? ==> tx.peek.pending.Unread? && after.peek.pending == Read(Get(w.challenges, a.challenge)))
      && (!a.Resolve? ==> after.peek.pending == tx.peek.pending)
      && (after.peek.consumed && !tx.peek.consumed ==> a.Consume?) && (a.Resolve? ==> after.peek.consumed == tx.peek.consumed)
  {
  }

  lemma ConsumeFollows(cfg: Config, t: TxId, tx: Tx)
    requires Plan(cfg, t, tx).Consume?
    ensures tx.peek.pending.Read?
  {
  }

  /** A challenge once gone stays gone. */
  lemma StepGone(cfg: Config, w: World, e: Event, c: ChallengeId)
    requires Enabled(cfg, w, e) && Gone(w, c)
    ensures Gone(Step(cfg, w, e), c)
  {
    if e.Act? {
      ActOnChallenges(cfg, w, e.t, Plan(cfg, e.t, w.txs[e.t]), e.order);
    }
  }

  lemma {:induction false} RunGone(cfg: Config, ws: seq<World>, es: seq<Event>, i: nat, j: nat, c: ChallengeId)
    requires Run(cfg, ws, es) && i <= j < |ws| && Gone(ws[i], c)
    ensures Gone(ws[j], c)
  {
    if i < j {
      RunGone(cfg, ws, es, i, j - 1, c);
      StepGone(cfg, ws[j - 1], es[j - 1], c);
    }
  }

  /** An MFA login deletes its challenge only after resolving it, and so knows then whether it was there. */
  ghost predicate ConsumedLast(w: World) {
    forall t :: t in w.txs && w.txs[t].peek.consumed ==> w.txs[t].peek.pending.Read?
  }

  lemma StepConsumedLast(cfg: Config, w: World, e: Event)
    requires Enabled(cfg, w, e) && ConsumedLast(w)
    ensures ConsumedLast(Step(cfg, w, e))
  {
    if e.Act? {
      ActFrame(cfg, w, e.t, Plan(cfg, e.t, w.txs[e.t]), e.order);
      ResolveOrConsume(cfg, w, e.t, e.order);
      if Plan(cfg, e.t, w.txs[e.t]).Consume? {
        ConsumeFollows(cfg, e.t, w.txs[e.t]);
      }
    }
  }

  lemma ActNumbered(cfg: Config, w: World, t: TxId, order: seq<nat>)
    requires Enabled(cfg, w, Act(t, order)) && ChallengesNumbered(w) && ConsumedLast(w)
    ensures ChallengesNumbered(Step(cfg, w, Act(t, order)))
  {
    var a, next := Plan(cfg, t, w.txs[t]), Step(cfg, w, Act(t, order));
    ActFrame(cfg, w, t, a, order);
    ActOnChallenges(cfg, w, t, a, order);
    ResolveOrConsume(cfg, w, t, order);
    forall x | Resolved(next, x) ensures next.txs[x].cmd.challenge < next.nextChallenge {
      assert x != t || !a.Resolve? ==> Resolved(w, x);
    }
    forall x, c | Answered(next, x, c) ensures Gone(next, c) {
      if x != t || !a.Consume? {
        assert Answered(w, x, c);
      } else {
        assert Resolved(w, x);
      }
    }
  }

  lemma OthersNumbered(cfg: Config, w: World, e: Event)
    requires Enabled(cfg, w, e) && !e.Act? && ChallengesNumbered(w)
    ensures ChallengesNumbered(Step(cfg, w, e))
  {
    var next := Step(cfg, w, e);
    forall x | Resolved(next, x) ensures next.txs[x].cmd.challenge < next.nextChallenge {
      assert Resolved(w, x);
    }
    forall x, c | Answered(next, x, c) ensures Gone(next, c) {
      assert Answered(w, x, c);
    }
  }

  lemma {:induction false} RunNumbered(cfg: Config, ws: seq<World>, es: seq<Event>, i: nat)
    requires Run(cfg, ws, es) && i < |ws|
    ensures ChallengesNumbered(ws[i]) && ConsumedLast(ws[i])
  {
    if i > 0 {
      RunNumbered(cfg, ws, es, i - 1);
      StepConsumedLast(cfg, ws[i - 1], es[i - 1]);
      if es[i - 1].Act? {
        ActNumbered(cfg, ws[i - 1], es[i - 1].t, es[i - 1].order);
      } else {
        OthersNumbered(cfg, ws[i - 1], es[i - 1]);
      }
    }
  }

  /** Once an MFA login has answered a challenge nobody finds it any more, whatever becomes of that login. */
  lemma ChallengeIsAnsweredOnce(cfg: Config, ws: seq<World>, es: seq<Event>, i: nat, j: nat, t: TxId, c: ChallengeId)
    requires Run(cfg, ws, es) && i <= j < |ws| && Answered(ws[i], t, c)
    ensures c !in ws[j].challenges
  {
    RunNumbered(cfg, ws, es, i);
    RunGone(cfg, ws, es, i, j, c);
  }
}
