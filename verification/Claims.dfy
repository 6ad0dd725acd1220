/**
 What the MFA claim of an access token says about the run that led to it: some
 transaction of the token's own account accepted that account's second factor.
 The completion flag is written before the commit, so for an enrolment that is
 all it says, and the credential itself may not have been enabled.
 */
module Claims {
  import opened Text
  import opened Accounts
  import opened Promises
  import opened Transactions
  import opened Locking
  import opened Refinement
  import opened Safety
  import opened Runs
  import opened Theorems
  import opened Standing

  /** In world `w` transaction `t` is finishing, sets the flag of session `s`, and has accepted a factor of account `u`. */
  ghost predicate ProvedFactor(cfg: Config, w: World, t: TxId, s: SessionId, u: UserId) {
    && t in w.txs && Plan(cfg, t, w.txs[t]).Finish? && MarkOf(Plan(cfg, t, w.txs[t]).writes.out) == Some(Mark(s, u))
    && u in w.db.creds && (ProvedByLogin(cfg, w, t, s, u) || ProvedBySetup(cfg, w, t, s, u))
  }

  /** An MFA login that submitted a code past the enabled credential's mark, or one of its unused recovery codes. */
  ghost predicate ProvedByLogin(cfg: Config, w: World, t: TxId, s: SessionId, u: UserId)
    requires t in w.txs && u in w.db.creds
  {
    var tx := w.txs[t];
    && tx.cmd.MfaLogin? && s == t && FactorRowsSeen(tx) && tx.peek.pending.value.value.user == u
    && exists f :: Good(cfg, w.db, u, tx.cmd.submission, tx.at.value, f)
  }

  /** An enrolment confirmed by the session's holder with a code of the account's own, not yet enabled, secret. */
  ghost predicate ProvedBySetup(cfg: Config, w: World, t: TxId, s: SessionId, u: UserId)
    requires t in w.txs && u in w.db.creds
  {
    var tx := w.txs[t];
    && tx.cmd.ConfirmSetup? && tx.cmd.claims.session == s && tx.cmd.claims.user == u && tx.at.Read?
    && w.db.creds[u].enabledAt.None? && exists step :: NewestMatch(cfg, w.db.creds[u].secret, tx.cmd.digits, tx.at.value, step)
  }

  lemma LoginMarkProves(cfg: Config, w: World, t: TxId, wr: Writes)
    requires LocksMatchViews(w) && t in w.txs && w.txs[t].cmd.MfaLogin? && PlanMfaLogin(cfg, t, w.txs[t]) == Finish(wr) && MarkOf(wr.out).Some?
    ensures var mark := MarkOf(wr.out).value; mark.user in w.db.creds && ProvedByLogin(cfg, w, t, mark.session, mark.user)
  {
    LoginMarkNeedsFactor(cfg, t, w.txs[t], wr);
    var u, sub := MarkOf(wr.out).value.user, w.txs[t].cmd.submission;
    HeldIsCurrent(w, t, CredRow(u));
    if sub.SubmittedRecovery? {
      HeldIsCurrent(w, t, CodeRow(sub.code));
    }
    assert Good(cfg, w.db, u, sub, w.txs[t].at.value, wr.out.factor.value);
  }

  lemma SetupMarkProves(cfg: Config, w: World, t: TxId, wr: Writes)
    requires LocksMatchViews(w) && t in w.txs && w.txs[t].cmd.ConfirmSetup? && PlanConfirmSetup(cfg, w.txs[t]) == Finish(wr)
    ensures MarkOf(wr.out).Some?
    ensures var mark := MarkOf(wr.out).value; mark.user in w.db.creds && ProvedBySetup(cfg, w, t, mark.session, mark.user)
  {
    SetupMarkNeedsFactor(cfg, t, w.txs[t], wr);
    HeldIsCurrent(w, t, CredRow(w.txs[t].cmd.claims.user));
    assert NewestMatch(cfg, w.db.creds[w.txs[t].cmd.claims.user].secret, w.txs[t].cmd.digits, w.txs[t].at.value, wr.out.step);
  }

  lemma OnlyTwoMark(cfg: Config, t: TxId, tx: Tx, wr: Writes)
    requires Plan(cfg, t, tx) == Finish(wr) && MarkOf(wr.out).Some?
    ensures tx.cmd.MfaLogin? || tx.cmd.ConfirmSetup?
  {
    HandedOut(cfg, t, tx, wr);
  }

  lemma MarkProves(cfg: Config, w: World, t: TxId, wr: Writes)
    requires LocksMatchViews(w) && t in w.txs && Plan(cfg, t, w.txs[t]) == Finish(wr) && MarkOf(wr.out).Some?
    ensures ProvedFactor(cfg, w, t, MarkOf(wr.out).value.session, MarkOf(wr.out).value.user)
  {
    OnlyTwoMark(cfg, t, w.txs[t], wr);
    if w.txs[t].cmd.MfaLogin? {
      LoginMarkProves(cfg, w, t, wr);
    } else {
      SetupMarkProves(cfg, w, t, wr);
    }
  }

  // ---- Where a flag comes from ------------------------------------------------

  lemma ActFlags(cfg: Config, w: World, t: TxId, a: Action, order: seq<nat>, s: SessionId)
    requires t in w.txs && s in StepAct(cfg, w, t, a, order).flags
    ensures var next := StepAct(cfg, w, t, a, order);
      || (s in w.flags && Get(next.verified, s) == Get(w.verified, s))
      || (a.Finish? && s in next.verified && MarkOf(a.writes.out) == Some(Mark(s, next.verified[s])))
  {
    if a.Finish? {
      PublishFrame(cfg, w, t, a.writes, order);
    } else {
      QuietActFrame(cfg, w, t, a, order);
    }
  }

  /** A flag in the next state was there before for the same account, or this step proved the factor. */
  lemma FlagStep(cfg: Config, w: World, e: Event, s: SessionId)
    requires LocksMatchViews(w) && Enabled(cfg, w, e) && s in Step(cfg, w, e).flags
    ensures var next := Step(cfg, w, e);
      || (s in w.flags && Get(next.verified, s) == Get(w.verified, s))
      || (e.Act? && s in next.verified && ProvedFactor(cfg, w, e.t, s, next.verified[s]))
  {
    if e.Act? {
      var a := Plan(cfg, e.t, w.txs[e.t]);
      ActFlags(cfg, w, e.t, a, e.order, s);
      if a.Finish? && MarkOf(a.writes.out).Some? {
        MarkProves(cfg, w, e.t, a.writes);
      }
    }
  }

  /** Step `n` of the run is the one at which account `u` proved its factor for session `s`. */
  ghost predicate ProvedAt(cfg: Config, ws: seq<World>, es: seq<Event>, n: nat, s: SessionId, u: UserId) {
    n < |es| && n < |ws| && es[n].Act? && ProvedFactor(cfg, ws[n], es[n].t, s, u)
  }

  /** A session flagged after step `n` was flagged before it for the same account, or step `n` proved the factor. */
  ghost predicate FlagMoved(cfg: Config, ws: seq<World>, es: seq<Event>, n: nat, s: SessionId)
    requires n + 1 < |ws|
  {
    s in ws[n + 1].flags ==>
      || (s in ws[n].flags && Get(ws[n + 1].verified, s) == Get(ws[n].verified, s))
      || (s in ws[n + 1].verified && ProvedAt(cfg, ws, es, n, s, ws[n + 1].verified[s]))
  }

  lemma FlagMoves(cfg: Config, ws: seq<World>, es: seq<Event>, n: nat, s: SessionId)
    requires Run(cfg, ws, es) && n < |es|
    ensures FlagMoved(cfg, ws, es, n, s)
  {
    RunInv(cfg, ws, es, n);
    if s in ws[n + 1].flags {
      FlagStep(cfg, ws[n], es[n], s);
    }
  }

  lemma {:induction false} FlagTraced(cfg: Config, ws: seq<World>, es: seq<Event>, i: nat, s: SessionId) returns (n: nat)
    requires i < |ws| && s !in ws[0].flags && (forall m: nat :: m < i ==> FlagMoved(cfg, ws, es, m, s)) && s in ws[i].flags
    ensures n < i && s in ws[i].verified && ProvedAt(cfg, ws, es, n, s, ws[i].verified[s])
  {
    assert FlagMoved(cfg, ws, es, i - 1, s);
    if s in ws[i - 1].flags && Get(ws[i].verified, s) == Get(ws[i - 1].verified, s) {
      n := FlagTraced(cfg, ws, es, i - 1, s);
    } else {
      n := i - 1;
    }
  }

  lemma FlagOrigin(cfg: Config, ws: seq<World>, es: seq<Event>, i: nat, s: SessionId) returns (n: nat)
    requires Run(cfg, ws, es) && i < |ws| && s in ws[i].flags
    ensures n < i && s in ws[i].verified && ProvedAt(cfg, ws, es, n, s, ws[i].verified[s])
  {
    forall m: nat | m < i ensures FlagMoved(cfg, ws, es, m, s) {
      FlagMoves(cfg, ws, es, m, s);
    }
    n := FlagTraced(cfg, ws, es, i, s);
  }

  /**
   An access token with the MFA claim belongs to a session for which, at an
   earlier step of the run, a transaction accepted its own account's factor.
   */
  lemma MfaClaimsAreEarned(cfg: Config, ws: seq<World>, es: seq<Event>, i: nat, a: AccessToken)
    requires Run(cfg, ws, es) && i < |ws| && a in ws[i].h.access && a.mfa
    ensures a.session in ws[i].db.sessions && ws[i].db.sessions[a.session].owner == a.user
    ensures a.session in ws[i].verified && ws[i].verified[a.session] == a.user
    ensures exists n :: 0 <= n < i && ProvedAt(cfg, ws, es, n, a.session, a.user)
  {
    FlaggedClaim(cfg, ws, es, i, a);
    var _ := ClaimOrigin(cfg, ws, es, i, a);
  }

  lemma ClaimOrigin(cfg: Config, ws: seq<World>, es: seq<Event>, i: nat, a: AccessToken) returns (n: nat)
    requires Run(cfg, ws, es) && i < |ws| && a in ws[i].h.access && a.mfa
    ensures a.session in ws[i].db.sessions && ws[i].db.sessions[a.session].owner == a.user
    ensures n < i && ProvedAt(cfg, ws, es, n, a.session, a.user)
  {
    FlaggedClaim(cfg, ws, es, i, a);
    n := FlagOrigin(cfg, ws, es, i, a.session);
  }

  lemma FlaggedClaim(cfg: Config, ws: seq<World>, es: seq<Event>, i: nat, a: AccessToken)
    requires Run(cfg, ws, es) && i < |ws| && a in ws[i].h.access && a.mfa
    ensures a.session in ws[i].db.sessions && ws[i].db.sessions[a.session].owner == a.user
    ensures a.session in ws[i].flags && a.session in ws[i].verified && ws[i].verified[a.session] == a.user
  {
    RunInv(cfg, ws, es, i);
    RunStanding(cfg, ws, es, i);
    assert ClaimOk(ws[i], a) && AccessOk(ws[i].db, ws[i].h, a) && FlagOk(ws[i], a.session);
  }

  // ---- When the claim means an enabled credential -----------------------------

  predicate IsEnabled(db: Db, u: UserId) {
    u in db.creds && db.creds[u].Enabled()
  }

  predicate IsRecorded(db: Db, u: UserId) {
    MfaEnabled(u) in db.audit
  }

  predicate Confirms(tx: Tx, u: UserId) {
    tx.cmd.ConfirmSetup? && tx.cmd.claims.user == u
  }

  /** Step `m` commits an enrolment confirmed by account `u`. */
  predicate CommitsSetup(ws: seq<World>, es: seq<Event>, m: nat, u: UserId) {
    m < |es| && m < |ws| && es[m].Commit? && es[m].t in ws[m].txs && Confirms(ws[m].txs[es[m].t], u)
  }

  /** Whether `u` is enabled, and whether the audit log says so, is in `db'` as it was in `db`. */
  predicate SameEnablement(db: Db, db': Db, u: UserId) {
    (IsEnabled(db', u) <==> IsEnabled(db, u)) && (IsRecorded(db', u) <==> IsRecorded(db, u))
  }

  lemma SetupEnables(cfg: Config, db: Db, t: TxId, tx: Tx, wr: Writes)
    requires tx.cmd.ConfirmSetup? && Atomic(cfg, db, t, tx) == Some(wr)
    ensures var u := tx.cmd.claims.user; IsEnabled(Apply(db, wr), u) && IsRecorded(Apply(db, wr), u)
    ensures forall v :: v != tx.cmd.claims.user ==> SameEnablement(db, Apply(db, wr), v)
  {
  }

  lemma MfaLoginEnablesNone(cfg: Config, db: Db, t: TxId, tx: Tx, wr: Writes, u: UserId)
    requires tx.cmd.MfaLogin? && Atomic(cfg, db, t, tx) == Some(wr)
    ensures SameEnablement(db, Apply(db, wr), u)
  {
  }

  lemma OthersEnableNone(cfg: Config, db: Db, t: TxId, tx: Tx, wr: Writes, u: UserId)
    requires !tx.cmd.ConfirmSetup? && !tx.cmd.MfaLogin? && Atomic(cfg, db, t, tx) == Some(wr)
    ensures SameEnablement(db, Apply(db, wr), u)
  {
  }

  /** One commit: only an enrolment of the account itself enables its credential. */
  lemma OnlySetupEnables(cfg: Config, db: Db, t: TxId, tx: Tx, wr: Writes, u: UserId)
    requires Atomic(cfg, db, t, tx) == Some(wr)
    ensures if Confirms(tx, u) then IsEnabled(Apply(db, wr), u) && IsRecorded(Apply(db, wr), u) else SameEnablement(db, Apply(db, wr), u)
  {
    if tx.cmd.ConfirmSetup? {
      SetupEnables(cfg, db, t, tx, wr);
    } else if tx.cmd.MfaLogin? {
      MfaLoginEnablesNone(cfg, db, t, tx, wr, u);
    } else {
      OthersEnableNone(cfg, db, t, tx, wr, u);
    }
  }

  lemma AsideEnablesNone(cfg: Config, w: World, e: Event, u: UserId)
    requires Enabled(cfg, w, e) && !e.Commit?
    ensures SameEnablement(w.db, Step(cfg, w, e).db, u)
  {
    if e.Act? {
      ActFrame(cfg, w, e.t, Plan(cfg, e.t, w.txs[e.t]), e.order);
    }
  }

  /** One step of a run: it commits an enrolment of `u`, or leaves open what was open. */
  ghost predicate EnablementMoved(ws: seq<World>, es: seq<Event>, n: nat, u: UserId)
    requires n + 1 < |ws|
  {
    if CommitsSetup(ws, es, n, u) then IsEnabled(ws[n + 1].db, u) && IsRecorded(ws[n + 1].db, u)
    else SameEnablement(ws[n].db, ws[n + 1].db, u)
  }

  lemma EnablementMoves(cfg: Config, ws: seq<World>, es: seq<Event>, n: nat, u: UserId)
    requires Run(cfg, ws, es) && n < |es|
    ensures EnablementMoved(ws, es, n, u)
  {
    assert Enabled(cfg, ws[n], es[n]);
    if es[n].Commit? {
      var wr := CommitApplies(cfg, ws, es, n, es[n].t);
      OnlySetupEnables(cfg, ws[n].db, es[n].t, ws[n].txs[es[n].t], wr, u);
    } else {
      AsideEnablesNone(cfg, ws[n], es[n], u);
    }
  }

  /** Some step before state `i` committed an enrolment of account `u`. */
  ghost predicate Enrolled(ws: seq<World>, es: seq<Event>, i: nat, u: UserId) {
    exists m :: 0 <= m < i && CommitsSetup(ws, es, m, u)
  }

  lemma {:induction false} EnablementTraced(ws: seq<World>, es: seq<Event>, i: nat, u: UserId)
    requires i < |ws| && !IsEnabled(ws[0].db, u) && !IsRecorded(ws[0].db, u)
    requires forall m: nat :: m < i ==> EnablementMoved(ws, es, m, u)
    ensures IsEnabled(ws[i].db, u) <==> Enrolled(ws, es, i, u)
    ensures IsEnabled(ws[i].db, u) <==> IsRecorded(ws[i].db, u)
  {
    if i > 0 {
      EnablementTraced(ws, es, i - 1, u);
      assert EnablementMoved(ws, es, i - 1, u);
    }
  }

  /** An account's credential is enabled exactly when an enrolment of it has committed, and exactly when the audit log has its row. */
  lemma EnabledMeansEnrolled(cfg: Config, ws: seq<World>, es: seq<Event>, i: nat, u: UserId)
    requires Run(cfg, ws, es) && i < |ws|
    ensures IsEnabled(ws[i].db, u) <==> exists m :: 0 <= m < i && CommitsSetup(ws, es, m, u)
    ensures IsEnabled(ws[i].db, u) <==> MfaEnabled(u) in ws[i].db.audit
  {
    forall m: nat | m < i ensures EnablementMoved(ws, es, m, u) {
      EnablementMoves(cfg, ws, es, m, u);
    }
    EnablementTraced(ws, es, i, u);
  }

  /** Nothing disables a credential. */
  lemma EnabledForGood(cfg: Config, ws: seq<World>, es: seq<Event>, i: nat, j: nat, u: UserId)
    requires Run(cfg, ws, es) && i <= j < |ws| && IsEnabled(ws[i].db, u)
    ensures IsEnabled(ws[j].db, u)
  {
    EnabledMeansEnrolled(cfg, ws, es, i, u);
    EnabledMeansEnrolled(cfg, ws, es, j, u);
  }

  // ---- Where a claim without an enabled credential comes from -----------------

  /** `t` is at `w` the transaction that runs `cmd`. */
  predicate Executes(w: World, t: TxId, cmd: Command) {
    t in w.txs && w.txs[t].cmd == cmd
  }

  predicate Ends(e: Event, t: TxId) {
    e == Commit(t) || e == Rollback(t)
  }

  lemma GoesOnOrEnds(cfg: Config, w: World, e: Event, t: TxId, cmd: Command)
    requires Enabled(cfg, w, e) && Executes(w, t, cmd) && t < w.nextTx
    ensures Executes(Step(cfg, w, e), t, cmd) || Ends(e, t)
  {
    if e.Act? {
      ActFrame(cfg, w, e.t, Plan(cfg, e.t, w.txs[e.t]), e.order);
      AdvanceCommand(w, w.txs[e.t], Plan(cfg, e.t, w.txs[e.t]), e.order);
    }
  }

  /** A transaction is still running its command, or some step in between ended it. */
  lemma {:induction false} Fate(cfg: Config, ws: seq<World>, es: seq<Event>, n: nat, i: nat, t: TxId, cmd: Command) returns (m: nat)
    requires Run(cfg, ws, es) && n <= i < |ws| && Executes(ws[n], t, cmd)
    ensures n <= m <= i && Executes(ws[m], t, cmd) && (m < i ==> Ends(es[m], t))
  {
    if n == i {
      m := i;
    } else {
      m := Fate(cfg, ws, es, n, i - 1, t, cmd);
      if m == i - 1 {
        InFlightNumbered(cfg, ws, es, m, t);
        GoesOnOrEnds(cfg, ws[m], es[m], t, cmd);
        if Executes(ws[i], t, cmd) {
          m := i;
        }
      }
    }
  }

  /** The enrolment that proved the factor at step `n` had by state `i` been rolled back, or had not ended. */
  ghost predicate Uncommitted(ws: seq<World>, es: seq<Event>, n: nat, i: nat)
    requires n < i < |ws| && n < |es| && |ws| == |es| + 1 && es[n].Act?
  {
    es[n].t in ws[i].txs || exists m :: n < m < i && es[m] == Rollback(es[n].t)
  }

  /**
   A token with the MFA claim belongs to an account whose credential is enabled if
   and only if some enrolment of the account has committed. Where none has, the
   claim goes back to an enrolment that set its flag and then was rolled back or
   is still in flight.
   */
  lemma ClaimMeansEnabled(cfg: Config, ws: seq<World>, es: seq<Event>, i: nat, a: AccessToken)
    requires Run(cfg, ws, es) && i < |ws| && a in ws[i].h.access && a.mfa
    ensures IsEnabled(ws[i].db, a.user) <==> exists m :: 0 <= m < i && CommitsSetup(ws, es, m, a.user)
    ensures IsEnabled(ws[i].db, a.user) <==> MfaEnabled(a.user) in ws[i].db.audit
    ensures !IsEnabled(ws[i].db, a.user) ==>
      exists n :: 0 <= n < i && ProvedAt(cfg, ws, es, n, a.session, a.user) && ws[n].txs[es[n].t].cmd.ConfirmSetup? && Uncommitted(ws, es, n, i)
  {
    EnabledMeansEnrolled(cfg, ws, es, i, a.user);
    if !IsEnabled(ws[i].db, a.user) {
      var n := ClaimOrigin(cfg, ws, es, i, a);
      if ProvedByLogin(cfg, ws[n], es[n].t, a.session, a.user) {
        EnabledForGood(cfg, ws, es, n, i, a.user);
        assert false;
      } else {
        SetupFate(cfg, ws, es, n, i, a.user);
      }
    }
  }

  lemma SetupFate(cfg: Config, ws: seq<World>, es: seq<Event>, n: nat, i: nat, u: UserId)
    requires Run(cfg, ws, es) && n < i < |ws| && es[n].Act? && es[n].t in ws[n].txs && Confirms(ws[n].txs[es[n].t], u)
    requires forall m :: 0 <= m < i ==> !CommitsSetup(ws, es, m, u)
    ensures Uncommitted(ws, es, n, i)
  {
    var t := es[n].t;
    var m := Fate(cfg, ws, es, n, i, t, ws[n].txs[t].cmd);
    assert m < i && es[m] == Commit(t) ==> CommitsSetup(ws, es, m, u);
  }
}
