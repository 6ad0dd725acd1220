/**
 MFA standing and pending logins, which live in Redis beside the tables. A flag
 says a session cleared its second factor; a challenge says an account is half
 logged in. Redis is assumed to keep a key until it expires.
 */
module Standing {
  import opened Text
  import opened Accounts
  import opened Promises
  import opened Keeping
  import opened Transactions
  import opened Locking
  import opened Safety
  import opened Runs
  import opened Theorems

  /** A flag outlives its session and names the account that proved its factor. */
  predicate FlagOk(w: World, s: SessionId)
    requires s in w.flags
  {
    && s in w.verified && s < w.nextTx
    && (s in w.db.sessions ==> w.verified[s] == w.db.sessions[s].owner && w.db.sessions[s].expiresAt <= w.flags[s])
    && (s in w.txs ==> w.txs[s].cmd.MfaLogin? && w.txs[s].published)
  }

  predicate ClaimOk(w: World, a: AccessToken) {
    a.mfa ==> a.session in w.flags
  }

  /** A refresh that found the key once set but gone found it so only after its session had expired. */
  predicate FlagSeen(w: World, tx: Tx)
    requires tx.cmd.Refresh? && tx.peek.flag.Read?
  {
    var seen, s := tx.peek.flag.value, tx.cmd.presented.session;
    && (seen.live ==> seen.everSet) && (seen.everSet ==> s in w.flags) && seen.at <= w.now
    && (tx.at.Read? ==> seen.at <= tx.at.value)
    && (seen.everSet && !seen.live ==>
          (if s in w.db.sessions then w.db.sessions[s].expiresAt else w.flags[s]) <= seen.at)
  }

  /** What a transaction ready to commit has already put in Redis. */
  predicate Announced(w: World, t: TxId, out: Output) {
    && (out.NewSession? && out.factor.Some? ==>
          t in w.flags && t in w.verified && w.verified[t] == out.access.user && out.refresh.expiresAt <= w.flags[t])
    && (out.Enrolment? ==> out.access.session in w.flags)
  }

  predicate TxStanding(cfg: Config, w: World, t: TxId)
    requires t in w.txs
  {
    var tx := w.txs[t];
    && (tx.at.Read? ==> tx.at.value <= w.now) && (tx.at2.Read? ==> tx.at2.value <= w.now)
    && (tx.cmd.Refresh? && tx.peek.flag.Read? ==> FlagSeen(w, tx))
    && (tx.cmd.Refresh? && tx.peek.flag.Unread? ==> tx.at.Unread?)
    && (tx.published ==> Plan(cfg, t, tx).Finish? && Announced(w, t, Plan(cfg, t, tx).writes.out))
  }

  predicate ExpiryOk(cfg: Config, w: World, s: SessionId)
    requires s in w.db.sessions
  {
    w.db.sessions[s].expiresAt <= w.now + cfg.refreshLifetime
  }

  /** No challenge is stamped with an epoch its account has not reached. */
  predicate PendingOk(db: Db, p: Pending) {
    p.user in db.users && p.epoch <= db.users[p.user].epoch
  }

  ghost predicate ChallengesOk(w: World) {
    && (forall c :: c in w.challenges ==> PendingOk(w.db, w.challenges[c]))
    && (forall t :: t in w.txs && w.txs[t].peek.pending.Read? && w.txs[t].peek.pending.value.Some? ==>
          PendingOk(w.db, w.txs[t].peek.pending.value.value))
  }

  ghost predicate StandingInv(cfg: Config, w: World) {
    && (forall s {:trigger FlagOk(w, s)} :: s in w.flags ==> FlagOk(w, s))
    && (forall a {:trigger ClaimOk(w, a)} :: a in w.h.access ==> ClaimOk(w, a))
    && (forall t {:trigger TxStanding(cfg, w, t)} :: t in w.txs ==> TxStanding(cfg, w, t))
    && (forall s {:trigger ExpiryOk(cfg, w, s)} :: s in w.db.sessions ==> ExpiryOk(cfg, w, s))
  }

  // ---- What each program hands out --------------------------------------------

  /** What a finished transaction says about flags, in terms of its own observations. */
  predicate Handed(cfg: Config, t: TxId, tx: Tx, wr: Writes) {
    && (wr.out.NewSession? ==>
          && wr.out.session == t && wr.out.access.session == t && wr.out.access.mfa == wr.out.factor.Some?
          && (wr.out.factor.Some? <==> tx.cmd.MfaLogin?)
          && t in wr.sessions && wr.sessions[t].owner == wr.out.access.user && wr.sessions[t].expiresAt == wr.out.refresh.expiresAt
          && (|| (tx.at.Read? && wr.out.refresh.expiresAt == tx.at.value + cfg.refreshLifetime)
              || (tx.at2.Read? && wr.out.refresh.expiresAt == tx.at2.value + cfg.refreshLifetime)))
    && (wr.out.Rotation? ==>
          && tx.cmd.Refresh? && tx.peek.flag.Read? && wr.out.access.mfa == tx.peek.flag.value.live
          && wr.out.access.session == tx.cmd.presented.session && tx.at.Read?
          && Holds(tx.rows, SessionRow(tx.cmd.presented.session))
          && !tx.rows.sessions[tx.cmd.presented.session].value.Expired(tx.at.value))
    && (wr.out.Enrolment? ==> tx.cmd.ConfirmSetup? && wr.out.access == tx.cmd.claims.(mfa := true) && wr.out.user == tx.cmd.claims.user)
    && (wr.out.Challenge? ==>
          tx.cmd.Login? && Holds(tx.rows, UserRow(wr.out.user)) && wr.out.epoch == tx.rows.users[wr.out.user].value.epoch)
    && (!wr.out.NewSession? ==> forall s :: s in wr.sessions ==> Holds(tx.rows, SessionRow(s)))
  }

  lemma HandedByLogin(cfg: Config, t: TxId, tx: Tx, wr: Writes)
    requires tx.cmd.Login? && PlanLogin(cfg, t, tx) == Finish(wr)
    ensures Handed(cfg, t, tx, wr)
  {
  }

  lemma HandedByRefresh(cfg: Config, t: TxId, tx: Tx, wr: Writes)
    requires tx.cmd.Refresh? && PlanRefresh(cfg, tx) == Finish(wr)
    ensures Handed(cfg, t, tx, wr)
  {
  }

  lemma HandedByMfaLogin(cfg: Config, t: TxId, tx: Tx, wr: Writes)
    requires tx.cmd.MfaLogin? && PlanMfaLogin(cfg, t, tx) == Finish(wr)
    ensures Handed(cfg, t, tx, wr)
  {
    MfaReachesSession(cfg, t, tx, wr);
    var p := tx.peek.pending.value.value;
    CheckedFactor(cfg, p.user, tx.rows.creds[p.user].value, tx.cmd.submission, CodeSeen(tx), tx.at.value);
    HandedByMfaSession(cfg, t, tx, p.user, p.epoch, FactorOf(cfg, tx), wr);
  }

  lemma HandedByMfaSession(cfg: Config, t: TxId, tx: Tx, u: UserId, epoch: nat, check: FactorCheck, wr: Writes)
    requires tx.cmd.MfaLogin? && tx.at.Read? && PlanMfaSession(cfg, t, tx, u, epoch, check) == Finish(wr)
    requires !check.Refused? && check.w.sessions == map[] && check.w.out.Nothing?
    ensures Handed(cfg, t, tx, wr)
  {
  }

  lemma HandedBySetup(cfg: Config, t: TxId, tx: Tx, wr: Writes)
    requires tx.cmd.ConfirmSetup? && PlanConfirmSetup(cfg, tx) == Finish(wr)
    ensures Handed(cfg, t, tx, wr)
  {
  }

  lemma HandedByRevokers(cfg: Config, t: TxId, tx: Tx, wr: Writes)
    requires tx.cmd.ConfirmReset? || tx.cmd.SetActive? || tx.cmd.Logout?
    requires Plan(cfg, t, tx) == Finish(wr)
    ensures Handed(cfg, t, tx, wr)
  {
  }

  lemma HandedOut(cfg: Config, t: TxId, tx: Tx, wr: Writes)
    requires Plan(cfg, t, tx) == Finish(wr)
    ensures Handed(cfg, t, tx, wr)
  {
    match tx.cmd
    case Login(_, _) => HandedByLogin(cfg, t, tx, wr);
    case Refresh(_) => HandedByRefresh(cfg, t, tx, wr);
    case MfaLogin(_, _) => HandedByMfaLogin(cfg, t, tx, wr);
    case ConfirmSetup(_, _, _) => HandedBySetup(cfg, t, tx, wr);
    case _ => HandedByRevokers(cfg, t, tx, wr);
  }

  // ---- Actions ----------------------------------------------------------------

  lemma MfaIgnoresPublished(cfg: Config, t: TxId, tx: Tx, b: bool)
    requires tx.cmd.MfaLogin?
    ensures PlanMfaLogin(cfg, t, tx.(published := b)) == PlanMfaLogin(cfg, t, tx)
  {
    assert CodeSeen(tx.(published := b)) == CodeSeen(tx);
  }

  lemma RevokersIgnorePublished(tx: Tx, b: bool)
    ensures tx.cmd.ConfirmReset? ==> PlanReset(tx.(published := b)) == PlanReset(tx)
    ensures tx.cmd.SetActive? ==> PlanSetActive(tx.(published := b)) == PlanSetActive(tx)
    ensures tx.cmd.Logout? ==> PlanLogout(tx.(published := b)) == PlanLogout(tx)
  {
  }

  lemma OthersIgnorePublished(cfg: Config, t: TxId, tx: Tx, b: bool)
    ensures tx.cmd.Login? ==> PlanLogin(cfg, t, tx.(published := b)) == PlanLogin(cfg, t, tx)
    ensures tx.cmd.Refresh? ==> PlanRefresh(cfg, tx.(published := b)) == PlanRefresh(cfg, tx)
    ensures tx.cmd.ConfirmSetup? ==> PlanConfirmSetup(cfg, tx.(published := b)) == PlanConfirmSetup(cfg, tx)
  {
  }

  lemma PlanIgnoresPublished(cfg: Config, t: TxId, tx: Tx, b: bool)
    ensures Plan(cfg, t, tx.(published := b)) == Plan(cfg, t, tx)
  {
    if tx.cmd.MfaLogin? {
      MfaIgnoresPublished(cfg, t, tx, b);
    } else if tx.cmd.Login? || tx.cmd.Refresh? || tx.cmd.ConfirmSetup? {
      OthersIgnorePublished(cfg, t, tx, b);
    } else {
      RevokersIgnorePublished(tx, b);
    }
  }

  /** Nothing but the moved transaction and Redis differ. */
  ghost predicate Acted(w: World, t: TxId, next: World) {
    OnlyMoved(w, t, next) && next.h == w.h && next.now == w.now && w.flags.Keys <= next.flags.Keys
  }

  /** The other transactions keep their standing whatever `t` does to itself or to the flags. */
  lemma OthersKeepStanding(cfg: Config, w: World, t: TxId, next: World, other: TxId)
    requires Acted(w, t, next) && other in w.txs && other != t && TxStanding(cfg, w, other)
    requires other in w.flags ==> w.flags[other] <= next.flags[other]
    requires forall s :: s in w.flags && s !in w.db.sessions ==> next.flags[s] == w.flags[s]
    requires other in w.verified ==> other in next.verified && w.verified[other] == next.verified[other]
    ensures TxStanding(cfg, next, other)
  {
  }

  /** Every action but the last leaves the flags alone. */
  lemma QuietActFrame(cfg: Config, w: World, t: TxId, a: Action, order: seq<nat>)
    requires t in w.txs && !a.Finish?
    ensures var next := StepAct(cfg, w, t, a, order); next.h == w.h && next.now == w.now && next.flags == w.flags && next.verified == w.verified
  {
  }

  lemma FlagPeeked(cfg: Config, w: World, t: TxId, order: seq<nat>)
    requires t in w.txs && TxStanding(cfg, w, t) && !w.txs[t].published && Plan(cfg, t, w.txs[t]).PeekFlag?
    requires var s := Plan(cfg, t, w.txs[t]).session; s in w.flags ==> FlagOk(w, s)
    ensures var tx := Advance(w, w.txs[t], Plan(cfg, t, w.txs[t]), order);
      tx.cmd.Refresh? && tx.peek.flag.Read? && tx.at.Unread? && tx.at2 == w.txs[t].at2 && FlagSeen(w, tx) && !tx.published
  {
  }

  lemma AdvanceStanding(w: World, tx: Tx, a: Action, order: seq<nat>)
    requires !a.PeekFlag? && !a.Finish?
    ensures var moved := Advance(w, tx, a, order);
      && moved.cmd == tx.cmd && moved.peek.flag == tx.peek.flag && moved.published == tx.published
      && (moved.at == tx.at || moved.at == Read(w.now)) && (moved.at2 == tx.at2 || moved.at2 == Read(w.now))
      && (moved.at != tx.at ==> a.Clock?)
  {
  }

  lemma ClockAfterFlag(cfg: Config, t: TxId, tx: Tx)
    requires tx.cmd.Refresh? && tx.peek.flag.Unread?
    ensures Plan(cfg, t, tx) == PeekFlag(tx.cmd.presented.session)
  {
  }

  lemma MovedStanding(cfg: Config, w: World, t: TxId, order: seq<nat>, next: World)
    requires Enabled(cfg, w, Act(t, order)) && !Plan(cfg, t, w.txs[t]).Finish? && TxStanding(cfg, w, t)
    requires Acted(w, t, next) && next.txs[t] == Advance(w, w.txs[t], Plan(cfg, t, w.txs[t]), order) && next.flags == w.flags
    requires forall s {:trigger FlagOk(w, s)} :: s in w.flags ==> FlagOk(w, s)
    ensures TxStanding(cfg, next, t)
  {
    var tx, a := w.txs[t], Plan(cfg, t, w.txs[t]);
    if a.PeekFlag? {
      assert a.session in w.flags ==> FlagOk(w, a.session);
      FlagPeeked(cfg, w, t, order);
    } else {
      AdvanceStanding(w, tx, a, order);
      if tx.cmd.Refresh? && tx.peek.flag.Unread? {
        ClockAfterFlag(cfg, t, tx);
      }
    }
  }

  lemma QuietActStanding(cfg: Config, w: World, t: TxId, order: seq<nat>, next: World)
    requires StandingInv(cfg, w) && Acted(w, t, next) && next.flags == w.flags && next.verified == w.verified
    requires next.txs[t].cmd == w.txs[t].cmd && next.txs[t].published == w.txs[t].published && TxStanding(cfg, next, t)
    ensures StandingInv(cfg, next)
  {
    forall s | s in next.flags ensures FlagOk(next, s) { assert FlagOk(w, s); }
    forall a | a in next.h.access ensures ClaimOk(next, a) { assert ClaimOk(w, a); }
    forall x | x in next.txs ensures TxStanding(cfg, next, x) {
      if x != t {
        assert TxStanding(cfg, w, x);
        OthersKeepStanding(cfg, w, t, next, x);
      }
    }
    forall s | s in next.db.sessions ensures ExpiryOk(cfg, next, s) { assert ExpiryOk(cfg, w, s); }
  }

  lemma SameProgram(w: World, tx: Tx, a: Action, order: seq<nat>)
    requires !a.Finish?
    ensures Advance(w, tx, a, order).cmd == tx.cmd && Advance(w, tx, a, order).published == tx.published
  {
  }

  lemma ActStanding(cfg: Config, w: World, t: TxId, order: seq<nat>)
    requires StandingInv(cfg, w) && Enabled(cfg, w, Act(t, order)) && !Plan(cfg, t, w.txs[t]).Finish?
    ensures StandingInv(cfg, Step(cfg, w, Act(t, order)))
  {
    var a := Plan(cfg, t, w.txs[t]);
    var next := StepAct(cfg, w, t, a, order);
    ActFrame(cfg, w, t, a, order);
    QuietActFrame(cfg, w, t, a, order);
    SameProgram(w, w.txs[t], a, order);
    assert TxStanding(cfg, w, t);
    MovedStanding(cfg, w, t, order, next);
    QuietActStanding(cfg, w, t, order, next);
  }

  // ---- Publishing -------------------------------------------------------------

  datatype Mark = Mark(session: SessionId, user: UserId)

  /** The completion flag a finished transaction sets before it commits. */
  function MarkOf(out: Output): Option<Mark> {
    match out
    case NewSession(s, _, access, factor, _) => if factor.None? then None else Some(Mark(s, access.user))
    case Enrolment(u, _, _, access) => Some(Mark(access.session, u))
    case _ => None
  }

  /** `after` has the mark set, good for a whole session lifetime from now and at least a second, and no other flag touched. */
  ghost predicate MarkSet(cfg: Config, w: World, mark: Option<Mark>, after: World) {
    && (mark.None? ==> after.flags == w.flags && after.verified == w.verified)
    && (mark.Some? ==>
          && after.verified == w.verified[mark.value.session := mark.value.user]
          && after.flags.Keys == w.flags.Keys + {mark.value.session}
          && after.flags[mark.value.session] == w.now + (if cfg.refreshLifetime < 1_000_000 then 1_000_000 else cfg.refreshLifetime)
          && (forall s :: s in w.flags && s != mark.value.session ==> after.flags[s] == w.flags[s]))
  }

  lemma PublishMarks(cfg: Config, w: World, out: Output)
    ensures MarkSet(cfg, w, MarkOf(out), Publish(cfg, w, out))
    ensures Publish(cfg, w, out).h == w.h && Publish(cfg, w, out).now == w.now && Publish(cfg, w, out).txs == w.txs
  {
  }

  lemma PublishFrame(cfg: Config, w: World, t: TxId, wr: Writes, order: seq<nat>)
    requires t in w.txs
    ensures var next := StepAct(cfg, w, t, Finish(wr), order);
      next.h == w.h && next.now == w.now && next.txs[t] == w.txs[t].(published := true) && MarkSet(cfg, w, MarkOf(wr.out), next)
  {
    PublishMarks(cfg, w.(txs := w.txs[t := w.txs[t].(published := true)]), wr.out);
  }

  /** When a transaction finishes, exactly the flag its answer stands for is set, and no other is touched. */
  lemma FlagIsStored(cfg: Config, ws: seq<World>, es: seq<Event>, i: nat, t: TxId)
    requires Run(cfg, ws, es) && i < |es| && es[i].Act? && es[i].t == t && t in ws[i].txs && Plan(cfg, t, ws[i].txs[t]).Finish?
    ensures MarkSet(cfg, ws[i], MarkOf(Plan(cfg, t, ws[i].txs[t]).writes.out), ws[i + 1])
  {
    assert Enabled(cfg, ws[i], es[i]) && ws[i + 1] == Step(cfg, ws[i], es[i]);
    PublishFrame(cfg, ws[i], t, Plan(cfg, t, ws[i].txs[t]).writes, es[i].order);
  }

  /** A flag is set for the session being born, or for the live session whose holder confirmed enrolment. */
  lemma MarkedSession(cfg: Config, w: World, t: TxId, wr: Writes)
    requires Inv(w) && t in w.txs && Handed(cfg, t, w.txs[t], wr)
    ensures MarkOf(wr.out).Some? ==>
      var mark := MarkOf(wr.out).value;
      && mark.session < w.nextTx
      && (wr.out.NewSession? ==> mark == Mark(t, wr.out.access.user) && w.txs[t].cmd.MfaLogin? && t !in w.db.sessions)
      && (!wr.out.NewSession? ==>
            && mark.session == wr.out.access.session && mark.session !in w.txs
            && mark.session in w.db.sessions && w.db.sessions[mark.session].owner == mark.user)
  {
    if wr.out.Enrolment? {
      assert EntryOk(w, w.txs[t]);
      assert AccessOk(w.db, w.h, w.txs[t].cmd.claims);
    }
  }

  lemma PublishedFlags(cfg: Config, w: World, t: TxId, wr: Writes, next: World)
    requires StandingInv(cfg, w) && Acted(w, t, next) && next.txs[t] == w.txs[t].(published := true) && !w.txs[t].published
    requires MarkSet(cfg, w, MarkOf(wr.out), next)
    requires MarkOf(wr.out).Some? ==>
      var mark := MarkOf(wr.out).value;
      && mark.session < w.nextTx
      && (mark.session in w.db.sessions ==> w.db.sessions[mark.session].owner == mark.user)
      && (mark.session in w.txs ==> mark.session == t && w.txs[t].cmd.MfaLogin?)
    ensures forall s {:trigger FlagOk(next, s)} :: s in next.flags ==> FlagOk(next, s)
  {
    forall s | s in next.flags ensures FlagOk(next, s) {
      assert s in w.flags ==> FlagOk(w, s);
      assert s in w.db.sessions ==> ExpiryOk(cfg, w, s);
    }
  }

  lemma FinisherStanding(cfg: Config, w: World, t: TxId, wr: Writes, next: World)
    requires Acted(w, t, next) && next.txs[t] == w.txs[t].(published := true) && TxStanding(cfg, w, t)
    requires Plan(cfg, t, w.txs[t]) == Finish(wr) && Handed(cfg, t, w.txs[t], wr) && MarkSet(cfg, w, MarkOf(wr.out), next)
    ensures TxStanding(cfg, next, t)
  {
    PlanIgnoresPublished(cfg, t, w.txs[t], true);
  }

  lemma FinishStanding(cfg: Config, w: World, t: TxId, wr: Writes, order: seq<nat>, next: World)
    requires Inv(w) && StandingInv(cfg, w) && t in w.txs && !w.txs[t].published && Plan(cfg, t, w.txs[t]) == Finish(wr)
    requires next == StepAct(cfg, w, t, Finish(wr), order)
    ensures StandingInv(cfg, next)
  {
    HandedOut(cfg, t, w.txs[t], wr);
    ActFrame(cfg, w, t, Finish(wr), order);
    PublishFrame(cfg, w, t, wr, order);
    MarkedSession(cfg, w, t, wr);
    assert TxStanding(cfg, w, t);
    FinisherStanding(cfg, w, t, wr, next);
    PublishedFlags(cfg, w, t, wr, next);
    PublishedRest(cfg, w, t, wr, next);
  }

  lemma PublishedRest(cfg: Config, w: World, t: TxId, wr: Writes, next: World)
    requires StandingInv(cfg, w) && Acted(w, t, next) && TxStanding(cfg, next, t)
    requires MarkSet(cfg, w, MarkOf(wr.out), next) && !w.txs[t].published
    requires MarkOf(wr.out).Some? ==>
      var s := MarkOf(wr.out).value.session;
      (s in w.txs ==> s == t) && (s !in w.db.sessions ==> s == t)
    requires forall s {:trigger FlagOk(next, s)} :: s in next.flags ==> FlagOk(next, s)
    ensures StandingInv(cfg, next)
  {
    assert t in w.flags ==> FlagOk(w, t);
    forall a | a in next.h.access ensures ClaimOk(next, a) { assert ClaimOk(w, a); }
    forall x | x in next.txs ensures TxStanding(cfg, next, x) {
      if x != t {
        assert TxStanding(cfg, w, x);
        OthersKeepStanding(cfg, w, t, next, x);
      }
    }
    forall s | s in next.db.sessions ensures ExpiryOk(cfg, next, s) { assert ExpiryOk(cfg, w, s); }
  }

  // ---- Commits ----------------------------------------------------------------

  /** The tables and history moved on while Redis, the clock and the other transactions stood still. */
  ghost predicate Committed(w: World, t: TxId, next: World) {
    && t in w.txs && next.txs == w.txs - {t} && next.flags == w.flags && next.verified == w.verified
    && next.now == w.now && next.nextTx == w.nextTx
  }

  /** What a commit may do to the session table: rows keep owner and expiry, and only the minted one may appear. */
  ghost predicate SessionsMove(cfg: Config, w: World, t: TxId, out: Output, next: World) {
    && (forall s :: s in w.db.sessions ==>
          && s in next.db.sessions && next.db.sessions[s].owner == w.db.sessions[s].owner
          && next.db.sessions[s].expiresAt == w.db.sessions[s].expiresAt)
    && (forall s :: s in next.db.sessions && s !in w.db.sessions ==>
          && s == t && out.NewSession? && next.db.sessions[t].owner == out.access.user
          && next.db.sessions[t].expiresAt == out.refresh.expiresAt <= w.now + cfg.refreshLifetime)
  }

  lemma CommitMoves(cfg: Config, w: World, t: TxId, wr: Writes, next: World)
    requires Committing(w, t, wr) && Handed(cfg, t, w.txs[t], wr) && TxStanding(cfg, w, t) && next.db == Apply(w.db, wr) && next.now == w.now
    ensures SessionsMove(cfg, w, t, wr.out, next)
  {
    forall s | s in next.db.sessions ensures s in w.db.sessions || (s == t && next.db.sessions[s] == wr.sessions[s] && wr.out.NewSession?) {
      SessionAfter(w, t, wr, s);
      if s !in w.db.sessions && !wr.out.NewSession? {
        HeldIsCurrent(w, t, SessionRow(s));
      }
    }
    forall s | s in w.db.sessions
      ensures s in next.db.sessions && SessionEvolves(w.db.sessions[s], next.db.sessions[s])
    {
      SessionAfter(w, t, wr, s);
    }
  }

  lemma CommittedFlags(cfg: Config, w: World, t: TxId, out: Output, next: World)
    requires StandingInv(cfg, w) && Committed(w, t, next) && SessionsMove(cfg, w, t, out, next) && Announced(w, t, out)
    requires out.NewSession? && w.txs[t].cmd.MfaLogin? ==> out.factor.Some?
    ensures forall s {:trigger FlagOk(next, s)} :: s in next.flags ==> FlagOk(next, s)
  {
    forall s | s in next.flags ensures FlagOk(next, s) {
      assert FlagOk(w, s);
    }
  }

  lemma CommittedOthers(cfg: Config, w: World, t: TxId, out: Output, next: World, other: TxId)
    requires Committed(w, t, next) && SessionsMove(cfg, w, t, out, next) && other in next.txs && TxStanding(cfg, w, other)
    requires t in w.flags && out.NewSession? ==> Announced(w, t, out) && out.factor.Some?
    ensures TxStanding(cfg, next, other)
  {
  }

  /** The claim an access token carries was earned before the token was handed out. */
  lemma CommittedClaims(cfg: Config, w: World, t: TxId, wr: Writes, next: World)
    requires StandingInv(cfg, w) && Committed(w, t, next) && next.h == Record(w.h, wr.out, w.txs[t].snapshot)
    requires Handed(cfg, t, w.txs[t], wr) && Announced(w, t, wr.out) && TxStanding(cfg, w, t)
    ensures forall a {:trigger ClaimOk(next, a)} :: a in next.h.access ==> ClaimOk(next, a)
  {
    forall a | a in next.h.access ensures ClaimOk(next, a) {
      RecordedAccess(w.h, wr.out, w.txs[t].snapshot, a);
      assert a in w.h.access ==> ClaimOk(w, a);
    }
  }

  lemma RecordedAccess(h: History, out: Output, burned: set<ResetId>, a: AccessToken)
    requires a in Record(h, out, burned).access
    ensures a in h.access || ((out.NewSession? || out.Rotation? || out.Enrolment?) && a == out.access)
  {
  }

  lemma CommitStanding(cfg: Config, w: World, t: TxId, wr: Writes, next: World)
    requires StandingInv(cfg, w) && Committing(w, t, wr) && next == StepCommit(w, t, wr) && TxStanding(cfg, w, t)
    requires Handed(cfg, t, w.txs[t], wr) && Announced(w, t, wr.out)
    ensures StandingInv(cfg, next)
  {
    CommitMoves(cfg, w, t, wr, next);
    CommittedFlags(cfg, w, t, wr.out, next);
    CommittedClaims(cfg, w, t, wr, next);
    assert t in w.flags ==> FlagOk(w, t);
    forall x | x in next.txs ensures TxStanding(cfg, next, x) {
      assert TxStanding(cfg, w, x);
      CommittedOthers(cfg, w, t, wr.out, next, x);
    }
    forall s | s in next.db.sessions ensures ExpiryOk(cfg, next, s) {
      assert s in w.db.sessions ==> ExpiryOk(cfg, w, s);
    }
  }

  // ---- Every step -------------------------------------------------------------

  /** Steps that leave sessions, history and Redis flags alone, and the transactions they keep untouched. */
  ghost predicate Aside(w: World, next: World) {
    && next.flags == w.flags && next.verified == w.verified && next.h == w.h && next.db.sessions == w.db.sessions
    && w.now <= next.now && w.nextTx <= next.nextTx
    && forall t :: t in next.txs ==>
         (t in w.txs && next.txs[t] == w.txs[t]) || (t == w.nextTx && t !in w.txs && next.txs[t] == Start(next.txs[t].cmd))
  }

  lemma AsideStanding(cfg: Config, w: World, next: World)
    requires StandingInv(cfg, w) && Aside(w, next)
    ensures StandingInv(cfg, next)
  {
    forall s | s in next.flags ensures FlagOk(next, s) { assert FlagOk(w, s); }
    forall a | a in next.h.access ensures ClaimOk(next, a) { assert ClaimOk(w, a); }
    forall t | t in next.txs ensures TxStanding(cfg, next, t) { assert t in w.txs ==> TxStanding(cfg, w, t); }
    forall s | s in next.db.sessions ensures ExpiryOk(cfg, next, s) { assert ExpiryOk(cfg, w, s); }
  }

  lemma OutsideIsAside(cfg: Config, w: World, e: Event)
    requires Numbered(w) && Enabled(cfg, w, e) && !e.Act? && !e.Commit?
    ensures Aside(w, Step(cfg, w, e))
  {
  }

  lemma CommitStepStanding(cfg: Config, w: World, t: TxId)
    requires LockInv(w) && StandingInv(cfg, w) && Enabled(cfg, w, Commit(t))
    ensures StandingInv(cfg, Step(cfg, w, Commit(t)))
  {
    var wr := Plan(cfg, t, w.txs[t]).writes;
    HandedOut(cfg, t, w.txs[t], wr);
    FinishedWrites(cfg, t, w.txs[t], wr);
    assert TxStanding(cfg, w, t);
    CommitStanding(cfg, w, t, wr, StepCommit(w, t, wr));
  }

  lemma FinishStep(cfg: Config, w: World, t: TxId, order: seq<nat>) returns (wr: Writes)
    requires Enabled(cfg, w, Act(t, order)) && Plan(cfg, t, w.txs[t]).Finish?
    ensures t in w.txs && !w.txs[t].published && Plan(cfg, t, w.txs[t]) == Finish(wr)
    ensures Step(cfg, w, Act(t, order)) == StepAct(cfg, w, t, Finish(wr), order)
  {
    wr := Plan(cfg, t, w.txs[t]).writes;
  }

  lemma FinishStepStanding(cfg: Config, w: World, t: TxId, order: seq<nat>)
    requires Inv(w) && StandingInv(cfg, w) && Enabled(cfg, w, Act(t, order)) && Plan(cfg, t, w.txs[t]).Finish?
    ensures StandingInv(cfg, Step(cfg, w, Act(t, order)))
  {
    var wr := FinishStep(cfg, w, t, order);
    FinishStanding(cfg, w, t, wr, order, Step(cfg, w, Act(t, order)));
  }

  lemma ActStepStanding(cfg: Config, w: World, t: TxId, order: seq<nat>)
    requires Inv(w) && StandingInv(cfg, w) && Enabled(cfg, w, Act(t, order))
    ensures StandingInv(cfg, Step(cfg, w, Act(t, order)))
  {
    if Plan(cfg, t, w.txs[t]).Finish? {
      FinishStepStanding(cfg, w, t, order);
    } else {
      ActStanding(cfg, w, t, order);
    }
  }

  lemma StepStanding(cfg: Config, w: World, e: Event)
    requires Inv(w) && StandingInv(cfg, w) && Enabled(cfg, w, e)
    ensures StandingInv(cfg, Step(cfg, w, e))
  {
    if e.Commit? {
      CommitStepStanding(cfg, w, e.t);
    } else if e.Act? {
      ActStepStanding(cfg, w, e.t, e.order);
    } else {
      OutsideIsAside(cfg, w, e);
      AsideStanding(cfg, w, Step(cfg, w, e));
    }
  }

  lemma {:induction false} RunStanding(cfg: Config, ws: seq<World>, es: seq<Event>, i: nat)
    requires Run(cfg, ws, es) && i < |ws|
    ensures StandingInv(cfg, ws[i])
  {
    if i > 0 {
      RunStanding(cfg, ws, es, i - 1);
      RunInv(cfg, ws, es, i - 1);
      StepStanding(cfg, ws[i - 1], es[i - 1]);
    }
  }

  // ---- What follows -----------------------------------------------------------

  /** The flag of a new session is only set by a transaction whose submission proves a factor of the locked credential. */
  lemma LoginMarkNeedsFactor(cfg: Config, t: TxId, tx: Tx, wr: Writes)
    requires tx.cmd.MfaLogin? && PlanMfaLogin(cfg, t, tx) == Finish(wr) && MarkOf(wr.out).Some?
    ensures FactorRowsSeen(tx) && wr.out.NewSession? && wr.out.factor.Some?
    ensures var u := tx.peek.pending.value.value.user;
      && MarkOf(wr.out) == Some(Mark(t, u))
      && Proves(cfg, u, tx.rows.creds[u].value, tx.cmd.submission, CodeSeen(tx), tx.at.value, wr.out.factor.value)
      && (tx.cmd.submission.SubmittedRecovery? ==> CodeSeen(tx) == tx.rows.codes[tx.cmd.submission.code])
  {
    MfaReachesSession(cfg, t, tx, wr);
    var p := tx.peek.pending.value.value;
    CheckedFactor(cfg, p.user, tx.rows.creds[p.user].value, tx.cmd.submission, CodeSeen(tx), tx.at.value);
    SessionMark(cfg, t, tx, p.user, p.epoch, FactorOf(cfg, tx), wr);
    AcceptedProves(cfg, p.user, tx.rows.creds[p.user].value, tx.cmd.submission, CodeSeen(tx), tx.at.value, wr.out.factor.value);
  }

  lemma SessionMark(cfg: Config, t: TxId, tx: Tx, u: UserId, epoch: nat, check: FactorCheck, wr: Writes)
    requires tx.cmd.MfaLogin? && tx.at.Read? && PlanMfaSession(cfg, t, tx, u, epoch, check) == Finish(wr)
    requires !check.Refused? && check.w.out.Nothing? && MarkOf(wr.out).Some?
    ensures check.Accepted? && MarkOf(wr.out) == Some(Mark(t, u)) && wr.out.NewSession? && wr.out.factor == Some(check.factor)
  {
  }

  /** The flag of an existing session is only set by a code of the account's own secret, while its enrolment is unconfirmed. */
  lemma SetupMarkNeedsFactor(cfg: Config, t: TxId, tx: Tx, wr: Writes)
    requires tx.cmd.ConfirmSetup? && PlanConfirmSetup(cfg, tx) == Finish(wr)
    ensures MarkOf(wr.out) == Some(Mark(tx.cmd.claims.session, tx.cmd.claims.user))
    ensures tx.at.Read? && Holds(tx.rows, CredRow(tx.cmd.claims.user))
    ensures var cred := tx.rows.creds[tx.cmd.claims.user].value;
      cred.enabledAt.None? && NewestMatch(cfg, cred.secret, tx.cmd.digits, tx.at.value, wr.out.step)
  {
    StepIsNewest(cfg, tx.rows.creds[tx.cmd.claims.user].value, tx.cmd.digits, tx.at.value, wr.out.step);
  }

  /** A rotation whose transaction found the session's flag once set carries the claim: the flag outlives the session. */
  lemma FlaggedRotationKeepsClaim(cfg: Config, ws: seq<World>, es: seq<Event>, i: nat, t: TxId)
    requires Run(cfg, ws, es) && i < |ws| && t in ws[i].txs && ws[i].txs[t].cmd.Refresh?
    requires Plan(cfg, t, ws[i].txs[t]).Finish? && Plan(cfg, t, ws[i].txs[t]).writes.out.Rotation?
    requires ws[i].txs[t].peek.flag.Read? && ws[i].txs[t].peek.flag.value.everSet
    ensures Plan(cfg, t, ws[i].txs[t]).writes.out.access.mfa
  {
    var w, tx, wr := ws[i], ws[i].txs[t], Plan(cfg, t, ws[i].txs[t]).writes;
    RunInv(cfg, ws, es, i);
    RunStanding(cfg, ws, es, i);
    assert TxStanding(cfg, w, t);
    HandedOut(cfg, t, tx, wr);
    HeldIsCurrent(w, t, SessionRow(tx.cmd.presented.session));
  }

  predicate Presents(tx: Tx, s: SessionId) {
    tx.cmd.Refresh? && tx.cmd.presented.session == s
  }

  /** Every transaction numbered `from` or later that looked at the flag of `s` found it set. */
  ghost predicate SeenSince(w: World, s: SessionId, from: TxId) {
    && s in w.flags && from <= w.nextTx
    && forall t :: t in w.txs && from <= t && Presents(w.txs[t], s) && w.txs[t].peek.flag.Read? ==> w.txs[t].peek.flag.value.everSet
  }

  lemma AdvanceFlag(cfg: Config, w: World, t: TxId, order: seq<nat>, s: SessionId)
    requires t in w.txs && s in w.flags && w.txs[t].cmd.Refresh? && w.txs[t].cmd.presented.session == s
    ensures var tx := Advance(w, w.txs[t], Plan(cfg, t, w.txs[t]), order);
      tx.cmd == w.txs[t].cmd && (tx.peek.flag == w.txs[t].peek.flag || (tx.peek.flag.Read? && tx.peek.flag.value.everSet))
  {
  }

  lemma FlagsGrow(cfg: Config, w: World, t: TxId, a: Action, order: seq<nat>)
    requires t in w.txs
    ensures w.flags.Keys <= StepAct(cfg, w, t, a, order).flags.Keys
  {
    if a.Finish? {
      PublishFrame(cfg, w, t, a.writes, order);
    } else {
      QuietActFrame(cfg, w, t, a, order);
    }
  }

  lemma AdvanceCommand(w: World, tx: Tx, a: Action, order: seq<nat>)
    ensures Advance(w, tx, a, order).cmd == tx.cmd
  {
  }

  lemma StepSeenSince(cfg: Config, w: World, e: Event, s: SessionId, from: TxId)
    requires Enabled(cfg, w, e) && SeenSince(w, s, from)
    ensures SeenSince(Step(cfg, w, e), s, from)
  {
    if e.Act? {
      var a := Plan(cfg, e.t, w.txs[e.t]);
      ActFrame(cfg, w, e.t, a, e.order);
      FlagsGrow(cfg, w, e.t, a, e.order);
      AdvanceCommand(w, w.txs[e.t], a, e.order);
      if w.txs[e.t].cmd.Refresh? && w.txs[e.t].cmd.presented.session == s {
        AdvanceFlag(cfg, w, e.t, e.order, s);
      }
    }
  }

  lemma {:induction false} RunSeenSince(cfg: Config, ws: seq<World>, es: seq<Event>, i: nat, j: nat, s: SessionId)
    requires Run(cfg, ws, es) && i <= j < |ws| && s in ws[i].flags
    ensures SeenSince(ws[j], s, ws[i].nextTx)
  {
    RunInv(cfg, ws, es, i);
    if i < j {
      RunSeenSince(cfg, ws, es, i, j - 1, s);
      StepSeenSince(cfg, ws[j - 1], es[j - 1], s, ws[i].nextTx);
    }
  }

  /** Once a session's flag is set, every rotation by a refresh that starts afterwards keeps the claim. */
  lemma StandingSurvivesRotation(cfg: Config, ws: seq<World>, es: seq<Event>, i: nat, j: nat, t: TxId)
    requires Run(cfg, ws, es) && i <= j < |ws| && t in ws[j].txs && ws[j].txs[t].cmd.Refresh?
    requires ws[j].txs[t].cmd.presented.session in ws[i].flags && ws[i].nextTx <= t
    requires Plan(cfg, t, ws[j].txs[t]).Finish? && Plan(cfg, t, ws[j].txs[t]).writes.out.Rotation?
    ensures Plan(cfg, t, ws[j].txs[t]).writes.out.access.mfa
  {
    RunSeenSince(cfg, ws, es, i, j, ws[j].txs[t].cmd.presented.session);
    HandedOut(cfg, t, ws[j].txs[t], Plan(cfg, t, ws[j].txs[t]).writes);
    FlaggedRotationKeepsClaim(cfg, ws, es, j, t);
  }

  // ---- Challenges -------------------------------------------------------------

  lemma PublishedChallenges(cfg: Config, w: World, out: Output)
    ensures forall c :: c in Publish(cfg, w, out).challenges ==>
      || (c in w.challenges && Publish(cfg, w, out).challenges[c] == w.challenges[c])
      || (out.Challenge? && Publish(cfg, w, out).challenges[c] == Pending(out.user, out.epoch))
  {
  }

  lemma ActChallenges(cfg: Config, w: World, t: TxId, a: Action, order: seq<nat>)
    requires t in w.txs
    ensures forall c :: c in StepAct(cfg, w, t, a, order).challenges ==>
      || (c in w.challenges && StepAct(cfg, w, t, a, order).challenges[c] == w.challenges[c])
      || (a.Finish? && a.writes.out.Challenge? && StepAct(cfg, w, t, a, order).challenges[c] == Pending(a.writes.out.user, a.writes.out.epoch))
  {
    if a.Finish? {
      PublishedChallenges(cfg, w.(txs := w.txs[t := Advance(w, w.txs[t], a, order)]), a.writes.out);
    }
  }

  lemma AdvancePending(w: World, tx: Tx, a: Action, order: seq<nat>)
    ensures var p := Advance(w, tx, a, order).peek.pending;
      p == tx.peek.pending || (a.Resolve? && p == Read(Get(w.challenges, a.challenge)))
  {
  }

  /** A challenge is stamped with the epoch of the account row its login holds. */
  lemma StampedCurrent(cfg: Config, w: World, t: TxId)
    requires LocksMatchViews(w) && t in w.txs && Plan(cfg, t, w.txs[t]).Finish? && Plan(cfg, t, w.txs[t]).writes.out.Challenge?
    ensures var out := Plan(cfg, t, w.txs[t]).writes.out; out.user in w.db.users && w.db.users[out.user].epoch == out.epoch
  {
    var wr := Plan(cfg, t, w.txs[t]).writes;
    HandedOut(cfg, t, w.txs[t], wr);
    HeldIsCurrent(w, t, UserRow(wr.out.user));
  }

  lemma ActKeepsChallenges(cfg: Config, w: World, t: TxId, order: seq<nat>)
    requires LocksMatchViews(w) && ChallengesOk(w) && Enabled(cfg, w, Act(t, order))
    ensures ChallengesOk(Step(cfg, w, Act(t, order)))
  {
    var a := Plan(cfg, t, w.txs[t]);
    ActFrame(cfg, w, t, a, order);
    ActChallenges(cfg, w, t, a, order);
    AdvancePending(w, w.txs[t], a, order);
    if a.Finish? && a.writes.out.Challenge? {
      StampedCurrent(cfg, w, t);
    }
  }

  lemma OutsideKeepsChallenges(cfg: Config, w: World, e: Event)
    requires ChallengesOk(w) && Enabled(cfg, w, e) && !e.Act? && Later(w.db, Step(cfg, w, e).db)
    ensures ChallengesOk(Step(cfg, w, e))
  {
  }

  lemma {:induction false} RunChallenges(cfg: Config, ws: seq<World>, es: seq<Event>, i: nat)
    requires Run(cfg, ws, es) && i < |ws|
    ensures ChallengesOk(ws[i])
  {
    if i > 0 {
      RunChallenges(cfg, ws, es, i - 1);
      RunInv(cfg, ws, es, i - 1);
      if es[i - 1].Act? {
        ActKeepsChallenges(cfg, ws[i - 1], es[i - 1].t, es[i - 1].order);
      } else {
        StepLater(cfg, ws[i - 1], es[i - 1]);
        OutsideKeepsChallenges(cfg, ws[i - 1], es[i - 1]);
      }
    }
  }

  /** A challenge that exists before an account's epoch moves on never yields a session after it has. */
  lemma StaleChallengeIsDead(cfg: Config, ws: seq<World>, es: seq<Event>, i: nat, j: nat, c: ChallengeId, t: TxId)
    requires Run(cfg, ws, es) && i <= j < |ws| && c in ws[i].challenges
    requires t in ws[j].txs && ws[j].txs[t].cmd.MfaLogin? && ws[j].txs[t].peek.pending == Read(Some(ws[i].challenges[c]))
    requires var u := ws[i].challenges[c].user;
      u in ws[i].db.users && u in ws[j].db.users ==> ws[i].db.users[u].epoch < ws[j].db.users[u].epoch
    ensures !(Plan(cfg, t, ws[j].txs[t]).Finish? && Plan(cfg, t, ws[j].txs[t]).writes.out.NewSession?)
  {
    RunChallenges(cfg, ws, es, i);
    RunLater(cfg, ws, es, i, j);
    if Plan(cfg, t, ws[j].txs[t]).Finish? && Plan(cfg, t, ws[j].txs[t]).writes.out.NewSession? {
      ChallengeKeepsItsEpoch(cfg, ws, es, j, t);
      assert false;
    }
  }
}
