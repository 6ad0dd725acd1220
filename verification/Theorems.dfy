/** What the credential protocol promises, over every run. */
module Theorems {
  import opened Text
  import opened Maps
  import opened Units
  import opened Totp
  import opened Accounts
  import opened Serial
  import opened Promises
  import opened Keeping
  import opened Transactions
  import opened Locking
  import opened Refinement
  import opened Safety
  import opened Ledger
  import opened Factors
  import opened Protocol
  import opened Runs

  // ---- Nothing goes backwards -------------------------------------------------

  ghost predicate Later(db: Db, db': Db) {
    && (forall u :: u in db.users ==> u in db'.users && UserEvolves(db.users[u], db'.users[u]))
    && (forall s :: s in db.sessions ==> s in db'.sessions && SessionEvolves(db.sessions[s], db'.sessions[s]))
    && (forall k :: k in db.tokens ==> k in db'.tokens && TokenEvolves(db.tokens[k], db'.tokens[k]))
  }

  lemma CommitLater(w: World, t: TxId, wr: Writes)
    requires Committing(w, t, wr)
    ensures Later(w.db, Apply(w.db, wr))
  {
    forall u | u in w.db.users ensures u in Apply(w.db, wr).users && UserEvolves(w.db.users[u], Apply(w.db, wr).users[u]) {
      if u in wr.users {
        HeldIsCurrent(w, t, UserRow(u));
      }
    }
    forall s | s in w.db.sessions ensures s in Apply(w.db, wr).sessions && SessionEvolves(w.db.sessions[s], Apply(w.db, wr).sessions[s]) {
      SessionAfter(w, t, wr, s);
    }
    forall k | k in w.db.tokens ensures k in Apply(w.db, wr).tokens && TokenEvolves(w.db.tokens[k], Apply(w.db, wr).tokens[k]) {
      TokenAfter(w, t, wr, k);
    }
  }

  lemma CommitStepLater(cfg: Config, w: World, t: TxId)
    requires LockInv(w) && Enabled(cfg, w, Commit(t))
    ensures Later(w.db, Step(cfg, w, Commit(t)).db)
  {
    var wr := Plan(cfg, t, w.txs[t]).writes;
    FinishedWrites(cfg, t, w.txs[t], wr);
    CommitLater(w, t, wr);
  }

  lemma OutsideLater(cfg: Config, w: World, e: Event)
    requires Enabled(cfg, w, e) && !e.Act? && !e.Commit?
    ensures Later(w.db, Step(cfg, w, e).db)
  {
  }

  lemma StepLater(cfg: Config, w: World, e: Event)
    requires LockInv(w) && Enabled(cfg, w, e)
    ensures Later(w.db, Step(cfg, w, e).db)
  {
    match e
    case Commit(t) =>
      CommitStepLater(cfg, w, t);
    case Act(t, order) =>
      ActFrame(cfg, w, t, Plan(cfg, t, w.txs[t]), order);
    case _ =>
      OutsideLater(cfg, w, e);
  }

  ghost predicate LaterNext(ws: seq<World>, n: nat)
    requires n + 1 < |ws|
  {
    Later(ws[n].db, ws[n + 1].db)
  }

  lemma {:induction false} LaterThroughout(ws: seq<World>, i: nat, j: nat)
    requires i <= j < |ws| && forall n: nat :: i <= n < j ==> LaterNext(ws, n)
    ensures Later(ws[i].db, ws[j].db)
  {
    if i < j {
      LaterThroughout(ws, i, j - 1);
      assert LaterNext(ws, j - 1);
      LaterTransitive(ws[i].db, ws[j - 1].db, ws[j].db);
    }
  }

  /** Epochs never fall, a revoked session stays revoked at its version, a used reset token stays used. */
  lemma RunLater(cfg: Config, ws: seq<World>, es: seq<Event>, i: nat, j: nat)
    requires Run(cfg, ws, es) && i <= j < |ws|
    ensures Later(ws[i].db, ws[j].db)
  {
    forall n: nat | i <= n < j ensures LaterNext(ws, n) {
      RunInv(cfg, ws, es, n);
      StepLater(cfg, ws[n], es[n]);
    }
    LaterThroughout(ws, i, j);
  }

  lemma LaterTransitive(a: Db, b: Db, c: Db)
    requires Later(a, b) && Later(b, c)
    ensures Later(a, c)
  {
  }

  // ---- Sessions, epochs and access tokens -------------------------------------

  /** Every live session was born in its account's current epoch, and its account can authenticate. */
  lemma LiveSessionsAreCurrent(cfg: Config, ws: seq<World>, es: seq<Event>, i: nat, s: SessionId)
    requires Run(cfg, ws, es) && i < |ws| && s in ws[i].db.sessions && !ws[i].db.sessions[s].Revoked()
    ensures var w := ws[i]; var u := w.db.sessions[s].owner;
      u in w.db.users && s in w.h.born && w.h.born[s] == w.db.users[u].epoch && w.db.users[u].CanAuthenticate()
  {
    RunInv(cfg, ws, es, i);
    assert SessionEpochOk(ws[i].db, ws[i].h, s);
  }

  /** `current_claims`: the only thing checked about an access token after its signature. */
  predicate ClaimsAccepted(db: Db, a: AccessToken) {
    a.user in db.users && db.users[a.user].epoch == a.epoch
  }

  /** Although the active flag is never re-read, no accepted access token belongs to a disabled account. */
  lemma AcceptedTokensAreCurrent(cfg: Config, ws: seq<World>, es: seq<Event>, i: nat, a: AccessToken)
    requires Run(cfg, ws, es) && i < |ws| && a in ws[i].h.access && ClaimsAccepted(ws[i].db, a)
    ensures ws[i].db.users[a.user].CanAuthenticate()
    ensures a.session in ws[i].db.sessions && ws[i].db.sessions[a.session].owner == a.user
  {
    RunInv(cfg, ws, es, i);
    assert AccessOk(ws[i].db, ws[i].h, a);
    assert SessionEpochOk(ws[i].db, ws[i].h, a.session);
  }

  /** An access token once refused for its epoch is refused in every later state. */
  lemma RefusedForever(cfg: Config, ws: seq<World>, es: seq<Event>, i: nat, j: nat, a: AccessToken)
    requires Run(cfg, ws, es) && i <= j < |ws| && a in ws[i].h.access && !ClaimsAccepted(ws[i].db, a)
    ensures !ClaimsAccepted(ws[j].db, a)
  {
    RunInv(cfg, ws, es, i);
    assert AccessOk(ws[i].db, ws[i].h, a);
    assert SessionEpochOk(ws[i].db, ws[i].h, a.session);
    RunLater(cfg, ws, es, i, j);
  }

  /** The write set transaction `t` is about to commit, as the indivisible command. */
  lemma CommittedAtomically(cfg: Config, ws: seq<World>, es: seq<Event>, i: nat, t: TxId)
    requires Run(cfg, ws, es) && i < |ws| && t in ws[i].txs && Plan(cfg, t, ws[i].txs[t]).Finish?
    ensures Inv(ws[i]) && Atomic(cfg, ws[i].db, t, ws[i].txs[t]) == Some(Plan(cfg, t, ws[i].txs[t]).writes)
  {
    RunInv(cfg, ws, es, i);
    assert EntryOk(ws[i], ws[i].txs[t]);
    CommitIsAtomic(cfg, ws[i], t);
  }

  /** A refresh token only ever yields an access token of the epoch it was itself minted in. */
  lemma RotationStaysInEpoch(cfg: Config, ws: seq<World>, es: seq<Event>, i: nat, t: TxId)
    requires Run(cfg, ws, es) && i < |ws| && t in ws[i].txs && ws[i].txs[t].cmd.Refresh?
    requires Plan(cfg, t, ws[i].txs[t]).Finish? && Plan(cfg, t, ws[i].txs[t]).writes.out.Rotation?
    ensures var w, out := ws[i], Plan(cfg, t, ws[i].txs[t]).writes.out;
      && out.presented == w.txs[t].cmd.presented && out.presented in w.h.refresh
      && out.access.epoch == w.h.refresh[out.presented] && out.access.user in w.db.users
      && w.db.users[out.access.user].epoch == w.h.refresh[out.presented]
      && out.access == AccessFor(out.access.user, w.db.users[out.access.user], out.presented.session, out.access.mfa)
  {
    CommittedAtomically(cfg, ws, es, i, t);
    var w, wr := ws[i], Plan(cfg, t, ws[i].txs[t]).writes;
    RotationEpoch(cfg, w, w.txs[t].cmd.presented, w.txs[t].peek.flag.Read? && w.txs[t].peek.flag.value.live, ClockSeen(w.txs[t]), wr);
  }

  lemma RotationEpoch(cfg: Config, w: World, presented: RefreshToken, mfa: bool, at: Time, wr: Writes)
    requires DbInv(w.db, w.h) && AtomicRefresh(cfg, w.db, presented, mfa, at) == Some(wr) && wr.out.Rotation?
    ensures wr.out.presented == presented && presented in w.h.refresh && wr.out.access.epoch == w.h.refresh[presented]
    ensures wr.out.access.user in w.db.users && w.db.users[wr.out.access.user].epoch == w.h.refresh[presented]
    ensures wr.out.access == AccessFor(wr.out.access.user, w.db.users[wr.out.access.user], presented.session, mfa)
  {
    ClassifyRefresh(cfg, w.db, w.h, presented, mfa, at, wr);
    assert StoredOk(w.db, w.h, presented.session) && SessionEpochOk(w.db, w.h, presented.session);
    assert IssuedOk(w.db, w.h, presented);
  }

  /** A refresh token minted before an epoch bump never rotates again. */
  lemma StaleRefreshTokenIsDead(cfg: Config, ws: seq<World>, es: seq<Event>, i: nat, t: TxId)
    requires Run(cfg, ws, es) && i < |ws| && t in ws[i].txs && ws[i].txs[t].cmd.Refresh?
    requires var token := ws[i].txs[t].cmd.presented;
      && token in ws[i].h.refresh && token.session in ws[i].db.sessions && ws[i].db.sessions[token.session].owner in ws[i].db.users
      && ws[i].h.refresh[token] != ws[i].db.users[ws[i].db.sessions[token.session].owner].epoch
    ensures !(Plan(cfg, t, ws[i].txs[t]).Finish? && Plan(cfg, t, ws[i].txs[t]).writes.out.Rotation?)
  {
    if Plan(cfg, t, ws[i].txs[t]).Finish? && Plan(cfg, t, ws[i].txs[t]).writes.out.Rotation? {
      RotationStaysInEpoch(cfg, ws, es, i, t);
      RunInv(cfg, ws, es, i);
      var out := Plan(cfg, t, ws[i].txs[t]).writes.out;
      CommittedAtomically(cfg, ws, es, i, t);
      ClassifyRefresh(cfg, ws[i].db, ws[i].h, out.presented, out.access.mfa, ClockSeen(ws[i].txs[t]), Plan(cfg, t, ws[i].txs[t]).writes);
    }
  }

  // ---- Login ------------------------------------------------------------------

  /**
   Login verifies the password before it takes the lock, yet whenever it mints a
   session or asks for a challenge the password verifies against the row it
   commits over, and that account can authenticate there. It asks for a challenge
   exactly when that row is an admin's and the gate said so.
   */
  lemma LoginChecksTheLockedRow(cfg: Config, ws: seq<World>, es: seq<Event>, i: nat, t: TxId)
    requires Run(cfg, ws, es) && i < |ws| && t in ws[i].txs && ws[i].txs[t].cmd.Login? && Plan(cfg, t, ws[i].txs[t]).Finish?
    ensures LoginChecked(cfg, ws[i].db, t, ws[i].txs[t], Plan(cfg, t, ws[i].txs[t]).writes.out)
  {
    CommittedAtomically(cfg, ws, es, i, t);
    LoginDecided(cfg, ws[i].db, t, ws[i].txs[t], Plan(cfg, t, ws[i].txs[t]).writes);
  }

  predicate LoginChecked(cfg: Config, db: Db, t: TxId, tx: Tx, out: Output)
    requires tx.cmd.Login?
  {
    var u := tx.cmd.user;
    && Stands(db.users, u) && cfg.argon2(tx.cmd.password, db.users[u].passwordHash)
    && (out.NewSession? || out.Challenge?)
    && (out.Challenge? <==> db.users[u].role == Admin && tx.peek.gate == Read(true))
    && (out.NewSession? ==>
          out.access == AccessToken(u, t, db.users[u].role, db.users[u].emailVerified, false, db.users[u].epoch))
    && (out.Challenge? ==> out == Challenge(u, db.users[u].epoch))
  }

  lemma LoginDecided(cfg: Config, db: Db, t: TxId, tx: Tx, wr: Writes)
    requires tx.cmd.Login? && Atomic(cfg, db, t, tx) == Some(wr)
    ensures LoginChecked(cfg, db, t, tx, wr.out)
  {
  }

  // ---- MFA login --------------------------------------------------------------

  /** A session born through MFA carries the epoch of its challenge, which is the account's epoch as it commits. */
  lemma ChallengeKeepsItsEpoch(cfg: Config, ws: seq<World>, es: seq<Event>, i: nat, t: TxId)
    requires Run(cfg, ws, es) && i < |ws| && t in ws[i].txs && ws[i].txs[t].cmd.MfaLogin?
    requires Plan(cfg, t, ws[i].txs[t]).Finish? && Plan(cfg, t, ws[i].txs[t]).writes.out.NewSession?
    ensures var w, out, pending := ws[i], Plan(cfg, t, ws[i].txs[t]).writes.out, ws[i].txs[t].peek.pending;
      && pending.Read? && pending.value.Some? && out.access.user == pending.value.value.user
      && out.access.epoch == pending.value.value.epoch && out.access.user in w.db.users
      && w.db.users[out.access.user].epoch == pending.value.value.epoch && w.db.users[out.access.user].CanAuthenticate()
  {
    CommittedAtomically(cfg, ws, es, i, t);
    var tx, wr := ws[i].txs[t], Plan(cfg, t, ws[i].txs[t]).writes;
    var p := tx.peek.pending.value.value;
    var at2 := if tx.at2.Read? then tx.at2.value else 0;
    MfaLoginSpends(cfg, ws[i].db, t, p.user, p.epoch, tx.cmd.submission, ClockSeen(tx), at2, wr);
    ClassifyMfaLogin(cfg, ws[i].db, t, p.user, p.epoch, tx.cmd.submission, ClockSeen(tx), at2, wr);
  }

  /** The factor a session was born from is spent and was its own account's, and no other session was born from it. */
  lemma FactorsAreSpentOnce(cfg: Config, ws: seq<World>, es: seq<Event>, i: nat, s: SessionId)
    requires Run(cfg, ws, es) && i < |ws| && s in ws[i].h.factors
    ensures SpentOk(ws[i].db, ws[i].h, s)
    ensures forall q :: q in ws[i].h.factors && q != s ==> ws[i].h.factors[q] != ws[i].h.factors[s]
  {
    RunInv(cfg, ws, es, i);
    assert SpentOk(ws[i].db, ws[i].h, s);
  }

  /** Across one commit: the session appears, its factor is one the submission proves, and exactly that factor is spent. */
  ghost predicate FactorConsumed(cfg: Config, db: Db, db': Db, h': History, t: SessionId, u: UserId, sub: Submission, at: Time) {
    && t !in db.sessions && t in db'.sessions && db'.sessions[t].owner == u && t in h'.factors
    && Good(cfg, db, u, sub, at, h'.factors[t]) && Spent(db, u, h'.factors[t], at, db')
  }

  /** A committed MFA login that mints a session spends that session's factor in the same commit. */
  lemma MfaLoginConsumesFactor(cfg: Config, ws: seq<World>, es: seq<Event>, i: nat, t: TxId)
    requires Run(cfg, ws, es) && i < |es| && es[i] == Commit(t) && t in ws[i].txs && ws[i].txs[t].cmd.MfaLogin?
    requires Plan(cfg, t, ws[i].txs[t]).Finish? && Plan(cfg, t, ws[i].txs[t]).writes.out.NewSession?
    ensures var tx := ws[i].txs[t];
      && tx.peek.pending.Read? && tx.peek.pending.value.Some? && tx.at.Read?
      && FactorConsumed(cfg, ws[i].db, ws[i + 1].db, ws[i + 1].h, t, tx.peek.pending.value.value.user, tx.cmd.submission, tx.at.value)
  {
    var wr := CommitApplies(cfg, ws, es, i, t);
    MfaReachesSession(cfg, t, ws[i].txs[t], wr);
    NewSessionsAreNew(cfg, ws, es, i, t);
    MfaCommitted(cfg, ws[i].db, ws[i].h, t, ws[i].txs[t], wr);
  }

  lemma NewSessionsAreNew(cfg: Config, ws: seq<World>, es: seq<Event>, i: nat, t: TxId)
    requires Run(cfg, ws, es) && i < |ws| && t in ws[i].txs
    ensures t !in ws[i].db.sessions
  {
    RunInv(cfg, ws, es, i);
  }

  lemma MfaCommitted(cfg: Config, db: Db, h: History, t: TxId, tx: Tx, wr: Writes)
    requires tx.cmd.MfaLogin? && Atomic(cfg, db, t, tx) == Some(wr) && wr.out.NewSession? && t !in db.sessions && tx.at.Read?
    ensures tx.peek.pending.Read? && tx.peek.pending.value.Some?
    ensures FactorConsumed(cfg, db, Apply(db, wr), Record(h, wr.out, tx.snapshot), t, tx.peek.pending.value.value.user,
                           tx.cmd.submission, tx.at.value)
  {
    var p, at2 := tx.peek.pending.value.value, if tx.at2.Read? then tx.at2.value else 0;
    AtomicMfaLoginKept(cfg, db, t, p.user, p.epoch, tx.cmd.submission, tx.at.value, at2);
    FactorRecorded(cfg, db, h, t, p.user, p.epoch, tx.cmd.submission, tx.at.value, at2, wr, tx.snapshot);
  }

  lemma FactorRecorded(cfg: Config, db: Db, h: History, t: TxId, u: UserId, epoch: nat, sub: Submission, verifiedAt: Time, at: Time,
                       wr: Writes, burned: set<ResetId>)
    requires MfaLoginKept(cfg, db, t, u, epoch, sub, verifiedAt, at, Some(wr.out), Apply(db, wr)) && wr.out.NewSession?
    ensures exists f ::
      && Good(cfg, db, u, sub, verifiedAt, f) && Spent(db, u, f, verifiedAt, Apply(db, wr)) && t in Apply(db, wr).sessions
      && Apply(db, wr).sessions[t].owner == u && Get(Record(h, wr.out, burned).factors, t) == Some(f)
  {
    var f :| Good(cfg, db, u, sub, verifiedAt, f);
    RecordedMint(h, wr.out, burned);
  }

  /** Accepted steps of a credential strictly increase in commit order, the enrolment step included. */
  lemma AcceptedStepsIncrease(cfg: Config, ws: seq<World>, es: seq<Event>, i: nat, u: UserId)
    requires Run(cfg, ws, es) && i < |ws|
    ensures Increasing(AcceptedBy(ws[i].h, u)) && InWindows(AcceptedBy(ws[i].h, u))
  {
    RunInv(cfg, ws, es, i);
    assert MarkOk(ws[i].db, ws[i].h, u);
  }

  // ---- When codes are accepted ------------------------------------------------

  predicate OnTime(at: Time, a: int, b: int) {
    a <= CurrentStep(at) <= b
  }

  ghost predicate AcceptedOnTime(h: History, a: int, b: int) {
    forall u, i {:trigger AcceptedBy(h, u)[i]} :: 0 <= i < |AcceptedBy(h, u)| ==> OnTime(AcceptedBy(h, u)[i].at, a, b)
  }

  /** Every clock reading in flight and every accepted code falls within steps a to b. */
  ghost predicate ClockedWithin(w: World, a: int, b: int) {
    && (forall t :: t in w.txs && w.txs[t].at.Read? ==> OnTime(w.txs[t].at.value, a, b))
    && AcceptedOnTime(w.h, a, b)
  }

  /** A code is accepted at the instant its transaction read the clock. */
  lemma VerifiedAtClock(cfg: Config, t: TxId, tx: Tx, wr: Writes)
    requires Plan(cfg, t, tx) == Finish(wr)
    ensures wr.out.Enrolment? || (wr.out.NewSession? && wr.out.factor.Some?) ==> tx.at == Read(wr.out.verifiedAt)
  {
    if tx.cmd.MfaLogin? {
      MfaReachesSession(cfg, t, tx, wr);
      var p := tx.peek.pending.value.value;
      CheckedFactor(cfg, p.user, tx.rows.creds[p.user].value, tx.cmd.submission, CodeSeen(tx), tx.at.value);
    }
  }

  lemma RecordOnTime(h: History, out: Output, burned: set<ResetId>, a: int, b: int)
    requires AcceptedOnTime(h, a, b)
    requires out.Enrolment? || (out.NewSession? && out.factor.Some?) ==> OnTime(out.verifiedAt, a, b)
    ensures AcceptedOnTime(Record(h, out, burned), a, b)
  {
    var h' := Record(h, out, burned);
    forall u, i | 0 <= i < |AcceptedBy(h', u)| ensures OnTime(AcceptedBy(h', u)[i].at, a, b) {
      if i < |AcceptedBy(h, u)| {
        assert AcceptedBy(h', u)[i] == AcceptedBy(h, u)[i];
      }
    }
  }

  lemma StepClocked(cfg: Config, w: World, e: Event, a: int, b: int)
    requires ClockedWithin(w, a, b) && Enabled(cfg, w, e) && OnTime(w.now, a, b)
    ensures ClockedWithin(Step(cfg, w, e), a, b)
  {
    match e
    case Act(t, order) =>
      ActFrame(cfg, w, t, Plan(cfg, t, w.txs[t]), order);
      ActKeepsHistory(cfg, w, t, Plan(cfg, t, w.txs[t]), order);
    case Commit(t) =>
      CommitClocked(cfg, w, t, a, b);
    case _ =>
  }

  lemma CommitClocked(cfg: Config, w: World, t: TxId, a: int, b: int)
    requires ClockedWithin(w, a, b) && Enabled(cfg, w, Commit(t))
    ensures ClockedWithin(Step(cfg, w, Commit(t)), a, b)
  {
    var wr := Plan(cfg, t, w.txs[t]).writes;
    VerifiedAtClock(cfg, t, w.txs[t], wr);
    RecordOnTime(w.h, wr.out, w.txs[t].snapshot, a, b);
  }

  lemma {:induction false} AcceptedDuringRun(cfg: Config, ws: seq<World>, es: seq<Event>, i: nat, a: int, b: int)
    requires Run(cfg, ws, es) && i < |ws| && forall n :: 0 <= n <= i ==> OnTime(ws[n].now, a, b)
    ensures ClockedWithin(ws[i], a, b)
  {
    if i > 0 {
      AcceptedDuringRun(cfg, ws, es, i - 1, a, b);
      StepClocked(cfg, ws[i - 1], es[i - 1], a, b);
    }
  }

  /** In a run whose clock steps lie in [a, b] a credential accepts at most b - a + 3 codes. */
  lemma AcceptedCodesBound(cfg: Config, ws: seq<World>, es: seq<Event>, i: nat, u: UserId, a: int, b: int)
    requires Run(cfg, ws, es) && i < |ws| && a <= b
    requires forall n :: 0 <= n <= i ==> OnTime(ws[n].now, a, b)
    ensures |AcceptedBy(ws[i].h, u)| <= b - a + 3
  {
    AcceptedStepsIncrease(cfg, ws, es, i, u);
    AcceptedDuringRun(cfg, ws, es, i, a, b);
    AcceptanceBound(AcceptedBy(ws[i].h, u), a, b);
  }

  // ---- Refresh tokens ---------------------------------------------------------

  /**
   Presenting an issued token to its live session has exactly two outcomes: the
   latest version rotates, an older one revokes the session. No version is ahead,
   no hash mismatches, and the owner can always authenticate. Only a token that no
   longer decodes changes nothing, and then less than a second of the session is left.
   */
  lemma IssuedTokenOutcome(cfg: Config, ws: seq<World>, es: seq<Event>, i: nat, token: RefreshToken, mfa: bool, decodedAt: Time, at: Time)
    requires Run(cfg, ws, es) && i < |ws| && token in ws[i].h.refresh && decodedAt <= at
    requires token.session in ws[i].db.sessions ==> ws[i].db.sessions[token.session].Live(at)
    ensures var db := ws[i].db;
      && token.session in db.sessions && token.version <= db.sessions[token.session].version
      && (var s, decided := db.sessions[token.session], PresentRefresh(cfg, db, token, mfa, decodedAt, at);
          if !Decodes(token, decodedAt) then decided.None? && s.expiresAt < decodedAt + SECOND
          else
            && AuthorizeRotation(s, token, at) == (if token.version == s.version then Authorized else Reused)
            && decided.Some? && token.session in decided.value.sessions
            && if token.version == s.version
               then decided.value.out.Rotation? && decided.value.sessions[token.session].version == s.version + 1
                    && decided.value.audit == []
               else decided.value.out.Nothing? && decided.value.sessions[token.session].Revoked()
                    && decided.value.audit == [ReuseDetected(s.owner, token.session)])
  {
    RunInv(cfg, ws, es, i);
    assert IssuedOk(ws[i].db, ws[i].h, token);
    assert SessionEpochOk(ws[i].db, ws[i].h, token.session);
  }

  /** A revoked session refuses every token in every later state. */
  lemma RevokedForGood(cfg: Config, ws: seq<World>, es: seq<Event>, i: nat, j: nat, token: RefreshToken, mfa: bool, at: Time)
    requires Run(cfg, ws, es) && i <= j < |ws|
    requires token.session in ws[i].db.sessions && ws[i].db.sessions[token.session].Revoked()
    ensures AtomicRefresh(cfg, ws[j].db, token, mfa, at).None?
  {
    RunLater(cfg, ws, es, i, j);
  }

  /** Over a whole run each version of a session rotates at most once, in increasing order. */
  lemma VersionsRotateOnce(cfg: Config, ws: seq<World>, es: seq<Event>, i: nat, m: nat, n: nat)
    requires Run(cfg, ws, es) && i < |ws| && m < n < |ws[i].h.rotated|
    requires ws[i].h.rotated[m].session == ws[i].h.rotated[n].session
    ensures ws[i].h.rotated[m].version < ws[i].h.rotated[n].version
  {
    RunInv(cfg, ws, es, i);
  }

  // ---- The ledger -------------------------------------------------------------

  /** The audit log of an account adds up to its revoked sessions, its epoch and its activation state. */
  lemma LedgerBalances(cfg: Config, ws: seq<World>, es: seq<Event>, i: nat, u: UserId)
    requires Run(cfg, ws, es) && i < |ws| && u in ws[i].db.users
    ensures var db := ws[i].db;
      && |RevokedSessions(db, u)| == AuditedRevocations(db.audit, u)
      && db.users[u].epoch == AuditedBumps(db.audit, u)
      && Reconstructed(db.audit, u) == Some(db.users[u].active)
  {
    RunInv(cfg, ws, es, i);
    assert Balanced(ws[i].db, u);
  }

  /** Consecutive activation rows of an account meet end to start and alternate, and the last is the stored state. */
  lemma ActivationChain(cfg: Config, ws: seq<World>, es: seq<Event>, n: nat, u: UserId, i: int, j: int)
    requires Run(cfg, ws, es) && n < |ws| && u in ws[n].db.users && Precedes(ws[n].db.audit, u, i, j)
    ensures var audit := ws[n].db.audit;
      && (j == |audit| ==> audit[i].after == ws[n].db.users[u].active)
      && (j < |audit| && audit[j].ActiveChanged? && audit[j].user == u ==>
            audit[j].before == audit[i].after && audit[j].after == !audit[i].after)
  {
    LedgerBalances(cfg, ws, es, n, u);
    var audit := ws[n].db.audit;
    if j == |audit| {
      ReplayedPrefix(audit, u, i);
    } else if audit[j].ActiveChanged? && audit[j].user == u {
      ActivationRowsAlternate(audit, u, i, j);
    }
  }

  // ---- Password reset ---------------------------------------------------------

  /** Each reset token is redeemed at most once, whatever is rolled back on the way. */
  lemma ResetTokensRedeemOnce(cfg: Config, ws: seq<World>, es: seq<Event>, i: nat, m: nat, n: nat)
    requires Run(cfg, ws, es) && i < |ws| && m < n < |ws[i].h.redeemed|
    ensures ws[i].h.redeemed[m] != ws[i].h.redeemed[n]
  {
    RunInv(cfg, ws, es, i);
  }

  /** A token found used can never again bring a reset to commit. */
  lemma UsedTokenIsDead(cfg: Config, ws: seq<World>, es: seq<Event>, i: nat, j: nat, t: TxId)
    requires Run(cfg, ws, es) && i <= j < |ws| && t in ws[j].txs && ws[j].txs[t].cmd.ConfirmReset?
    requires var k := ws[j].txs[t].cmd.token; k in ws[i].db.tokens && ws[i].db.tokens[k].usedAt.Some?
    ensures !Plan(cfg, t, ws[j].txs[t]).Finish?
  {
    RunLater(cfg, ws, es, i, j);
    if Plan(cfg, t, ws[j].txs[t]).Finish? {
      CommittedAtomically(cfg, ws, es, j, t);
      ClassifyReset(ws[j].db, ws[j].txs[t].cmd.token, ws[j].txs[t].cmd.newHash, ws[j].txs[t].snapshot, ClockSeen(ws[j].txs[t]),
                    Plan(cfg, t, ws[j].txs[t]).writes);
      assert false;
    }
  }

  /** Whether step `i` of the run is transaction `t` starting its consume statement for account `u`. */
  predicate StartsConsuming(cfg: Config, ws: seq<World>, es: seq<Event>, i: nat, t: TxId, u: UserId)
    requires i < |es| && i < |ws|
  {
    es[i].Act? && es[i].t == t && t in ws[i].txs && ws[i].txs[t].cmd.ConfirmReset?
    && Plan(cfg, t, ws[i].txs[t]) == StartConsume(u, ws[i].txs[t].cmd.token)
  }

  lemma ConsumesOnce(cfg: Config, t: TxId, tx: Tx)
    requires tx.siblings.Read?
    ensures !Plan(cfg, t, tx).StartConsume?
  {
  }

  /** What ties the successive states of one transaction together once its consume statement has run. */
  predicate SameConsume(a: Tx, b: Tx) {
    b.cmd == a.cmd && b.snapshot == a.snapshot && b.siblings.Read?
  }

  lemma AdvanceKeepsSnapshot(w: World, tx: Tx, a: Action, order: seq<nat>)
    requires tx.siblings.Read? && !a.StartConsume?
    ensures SameConsume(tx, Advance(w, tx, a, order))
  {
  }

  /** What the consume statement could see stays with its transaction to the end. */
  lemma SnapshotStep(cfg: Config, w: World, e: Event, t: TxId)
    requires Enabled(cfg, w, e) && t in w.txs && w.txs[t].siblings.Read? && t in Step(cfg, w, e).txs && t < w.nextTx
    ensures SameConsume(w.txs[t], Step(cfg, w, e).txs[t])
  {
    if e.Act? {
      var a := Plan(cfg, e.t, w.txs[e.t]);
      ActFrame(cfg, w, e.t, a, e.order);
      if e.t == t {
        ConsumesOnce(cfg, t, w.txs[t]);
        AdvanceKeepsSnapshot(w, w.txs[t], a, e.order);
      }
    }
  }

  lemma NeverReborn(cfg: Config, w: World, e: Event, t: TxId)
    requires Enabled(cfg, w, e) && t < w.nextTx
    ensures (t in Step(cfg, w, e).txs ==> t in w.txs) && t < Step(cfg, w, e).nextTx
  {
    if e.Act? {
      ActFrame(cfg, w, e.t, Plan(cfg, e.t, w.txs[e.t]), e.order);
    }
  }

  lemma InFlightNumbered(cfg: Config, ws: seq<World>, es: seq<Event>, i: nat, t: TxId)
    requires Run(cfg, ws, es) && i < |ws| && t in ws[i].txs
    ensures t < ws[i].nextTx
  {
    RunInv(cfg, ws, es, i);
  }

  /** How one transaction looks across one step: never reborn, and its consume statement never rerun. */
  predicate Continues(w: World, next: World, t: TxId) {
    t < w.nextTx ==>
      && t < next.nextTx
      && (t in next.txs ==> t in w.txs && (w.txs[t].siblings.Read? ==> SameConsume(w.txs[t], next.txs[t])))
  }

  lemma StepContinues(cfg: Config, w: World, e: Event, t: TxId)
    requires Enabled(cfg, w, e)
    ensures Continues(w, Step(cfg, w, e), t)
  {
    if t < w.nextTx {
      NeverReborn(cfg, w, e, t);
      if t in Step(cfg, w, e).txs && w.txs[t].siblings.Read? {
        SnapshotStep(cfg, w, e, t);
      }
    }
  }

  lemma {:induction false} ContinuesThroughout(ws: seq<World>, t: TxId)
    requires |ws| > 0 && forall n :: 0 <= n < |ws| - 1 ==> Continues(ws[n], ws[n + 1], t)
    requires t < ws[0].nextTx && t in ws[|ws| - 1].txs && (t in ws[0].txs ==> ws[0].txs[t].siblings.Read?)
    ensures t in ws[0].txs && SameConsume(ws[0].txs[t], ws[|ws| - 1].txs[t])
    decreases |ws|
  {
    if |ws| > 1 {
      var last := |ws| - 1;
      LastNumbered(ws, t);
      assert Continues(ws[last - 1], ws[last], t);
      ContinuesThroughout(ws[..last], t);
    }
  }

  lemma {:induction false} LastNumbered(ws: seq<World>, t: TxId)
    requires |ws| > 1 && (forall n :: 0 <= n < |ws| - 1 ==> Continues(ws[n], ws[n + 1], t)) && t < ws[0].nextTx
    ensures t < ws[|ws| - 2].nextTx
    decreases |ws|
  {
    if |ws| > 2 {
      LastNumbered(ws[..|ws| - 1], t);
      assert Continues(ws[|ws| - 3], ws[|ws| - 2], t);
    }
  }

  lemma SnapshotKept(cfg: Config, ws: seq<World>, es: seq<Event>, i: nat, j: nat, t: TxId)
    requires Run(cfg, ws, es) && i <= j < |ws| && t in ws[i].txs && ws[i].txs[t].siblings.Read? && t in ws[j].txs
    requires t < ws[i].nextTx
    ensures SameConsume(ws[i].txs[t], ws[j].txs[t])
  {
    var part := ws[i..j + 1];
    forall n | 0 <= n < |part| - 1 ensures Continues(part[n], part[n + 1], t) {
      StepContinues(cfg, ws[i + n], es[i + n], t);
    }
    ContinuesThroughout(part, t);
  }

  lemma StartedConsuming(cfg: Config, ws: seq<World>, es: seq<Event>, i: nat, t: TxId, u: UserId, k: ResetId)
    requires Run(cfg, ws, es) && i + 1 < |ws| && StartsConsuming(cfg, ws, es, i, t, u)
    requires k in ws[i].db.tokens && ws[i].db.tokens[k].owner == u
    ensures t in ws[i + 1].txs && k in ws[i + 1].txs[t].snapshot && ws[i + 1].txs[t].siblings.Read? && ws[i + 1].txs[t].cmd.ConfirmReset?
  {
    assert Enabled(cfg, ws[i], es[i]) && ws[i + 1] == Step(cfg, ws[i], es[i]);
    ActFrame(cfg, ws[i], t, StartConsume(u, ws[i].txs[t].cmd.token), es[i].order);
  }

  /**
   Once a reset commits, no token of that account that was committed before its
   consume statement can ever be redeemed.
   */
  lemma ResetBurnsEarlierTokens(cfg: Config, ws: seq<World>, es: seq<Event>, i: nat, j: nat, m: nat, t: TxId, u: UserId,
                                k: ResetId, late: TxId)
    requires Run(cfg, ws, es) && i < j < m < |ws| && StartsConsuming(cfg, ws, es, i, t, u) && es[j] == Commit(t)
    requires k in ws[i].db.tokens && ws[i].db.tokens[k].owner == u
    requires late in ws[m].txs && ws[m].txs[late].cmd.ConfirmReset? && ws[m].txs[late].cmd.token == k
    ensures !Plan(cfg, late, ws[m].txs[late]).Finish?
  {
    StartedConsuming(cfg, ws, es, i, t, u, k);
    InFlightNumbered(cfg, ws, es, i + 1, t);
    assert Enabled(cfg, ws[j], es[j]);
    SnapshotKept(cfg, ws, es, i + 1, j, t);
    BurnedIsUsed(cfg, ws, es, j, t, k);
    UsedTokenIsDead(cfg, ws, es, j + 1, m, late);
  }

  lemma BurnedIsUsed(cfg: Config, ws: seq<World>, es: seq<Event>, j: nat, t: TxId, k: ResetId)
    requires Run(cfg, ws, es) && j < |es| && es[j] == Commit(t) && t in ws[j].txs
    requires ws[j].txs[t].cmd.ConfirmReset? && k in ws[j].txs[t].snapshot
    ensures k in ws[j + 1].db.tokens && ws[j + 1].db.tokens[k].usedAt.Some?
  {
    assert Enabled(cfg, ws[j], es[j]) && ws[j + 1] == Step(cfg, ws[j], es[j]);
    ResetRedeems(cfg, t, ws[j].txs[t]);
    RunInv(cfg, ws, es, j + 1);
    assert k in ws[j + 1].h.burned;
  }

  lemma ResetRedeems(cfg: Config, t: TxId, tx: Tx)
    requires tx.cmd.ConfirmReset? && Plan(cfg, t, tx).Finish?
    ensures Plan(cfg, t, tx).writes.out == Redemption(tx.cmd.token)
  {
  }

  // ---- What each revocation achieves ------------------------------------------

  /** No session of the account is left alive. */
  predicate NoneLive(db: Db, u: UserId) {
    forall s :: s in db.sessions && db.sessions[s].owner == u ==> db.sessions[s].Revoked()
  }

  /** Only the named account changed, and only the sessions of that account. */
  ghost predicate OnlyAccount(db: Db, db': Db, u: UserId) {
    && (forall v :: v != u ==> Get(db'.users, v) == Get(db.users, v))
    && (forall s :: s in db.sessions && db.sessions[s].owner != u ==> Get(db'.sessions, s) == Some(db.sessions[s]))
  }

  /** A commit puts the indivisible command's write set on the tables. */
  lemma CommitApplies(cfg: Config, ws: seq<World>, es: seq<Event>, i: nat, t: TxId) returns (wr: Writes)
    requires Run(cfg, ws, es) && i < |es| && es[i] == Commit(t) && t in ws[i].txs
    ensures Atomic(cfg, ws[i].db, t, ws[i].txs[t]) == Some(wr) && ws[i + 1].db == Apply(ws[i].db, wr)
    ensures ws[i + 1].h == Record(ws[i].h, wr.out, ws[i].txs[t].snapshot) && Plan(cfg, t, ws[i].txs[t]) == Finish(wr)
  {
    assert Enabled(cfg, ws[i], es[i]) && ws[i + 1] == Step(cfg, ws[i], es[i]);
    CommittedAtomically(cfg, ws, es, i, t);
    wr := Plan(cfg, t, ws[i].txs[t]).writes;
  }

  lemma SweptLeavesNone(db: Db, u: UserId, at: Time, wr: Writes, db': Db)
    requires wr.sessions == RevokeAll(SessionsOf(db.sessions, u), at) && wr.users.Keys == {u}
    requires db'.sessions == db.sessions + wr.sessions && db'.users == db.users + wr.users
    ensures NoneLive(db', u) && OnlyAccount(db, db', u)
  {
    SweepShape(db, u, at);
    SweptTable(db, u, wr.sessions, db');
  }

  /** The new password is stored, the epoch moves on, every session of the account ends and no one else's does. */
  ghost predicate ResetEffect(db: Db, db': Db, k: ResetId, newHash: string) {
    && k in db.tokens && db.tokens[k].usedAt.None? && k in db'.tokens && db'.tokens[k].usedAt.Some?
    && (var u := db.tokens[k].owner;
        && u in db.users && u in db'.users && db.users[u].CanAuthenticate()
        && db'.users[u] == db.users[u].(passwordHash := newHash, epoch := db.users[u].epoch + 1)
        && NoneLive(db', u) && OnlyAccount(db, db', u))
  }

  lemma ResetApplied(db: Db, k: ResetId, newHash: string, visible: set<ResetId>, at: Time, wr: Writes)
    requires AtomicReset(db, k, newHash, visible, at) == Some(wr)
    ensures ResetEffect(db, Apply(db, wr), k, newHash)
  {
    ClassifyReset(db, k, newHash, visible, at, wr);
    SweptLeavesNone(db, db.tokens[k].owner, at, wr, Apply(db, wr));
  }

  /** A committed reset takes effect on exactly its own account. */
  lemma ResetTakesEffect(cfg: Config, ws: seq<World>, es: seq<Event>, i: nat, t: TxId)
    requires Run(cfg, ws, es) && i < |es| && es[i] == Commit(t) && t in ws[i].txs && ws[i].txs[t].cmd.ConfirmReset?
    ensures ResetEffect(ws[i].db, ws[i + 1].db, ws[i].txs[t].cmd.token, ws[i].txs[t].cmd.newHash)
  {
    var wr := CommitApplies(cfg, ws, es, i, t);
    ResetCommitted(cfg, ws[i].db, t, ws[i].txs[t], wr, ws[i + 1].db);
  }

  lemma ResetCommitted(cfg: Config, db: Db, t: TxId, tx: Tx, wr: Writes, db': Db)
    requires tx.cmd.ConfirmReset? && Atomic(cfg, db, t, tx) == Some(wr) && db' == Apply(db, wr)
    ensures ResetEffect(db, db', tx.cmd.token, tx.cmd.newHash)
  {
    ResetApplied(db, tx.cmd.token, tx.cmd.newHash, tx.snapshot, ClockSeen(tx), wr);
  }

  /** The flag flips; deactivating also moves the epoch on and leaves no session of the account alive. */
  ghost predicate SetActiveEffect(db: Db, db': Db, u: UserId, active: bool) {
    && u in db.users && db.users[u].active != active && u in db'.users
    && db'.users[u] == db.users[u].(active := active, epoch := db.users[u].epoch + if active then 0 else 1)
    && (if active then db'.sessions == db.sessions else NoneLive(db', u)) && OnlyAccount(db, db', u)
  }

  lemma SetActiveApplied(db: Db, u: UserId, active: bool, at: Time, wr: Writes)
    requires AtomicSetActive(db, u, active, at) == Some(wr)
    ensures SetActiveEffect(db, Apply(db, wr), u, active)
  {
    ClassifySetActive(db, u, active, at, wr);
    if active {
      PlusNothing(db.sessions);
    } else {
      SweptLeavesNone(db, u, at, wr, Apply(db, wr));
    }
  }

  /** A committed activation change takes effect on exactly its own account. */
  lemma SetActiveTakesEffect(cfg: Config, ws: seq<World>, es: seq<Event>, i: nat, t: TxId)
    requires Run(cfg, ws, es) && i < |es| && es[i] == Commit(t) && t in ws[i].txs && ws[i].txs[t].cmd.SetActive?
    ensures SetActiveEffect(ws[i].db, ws[i + 1].db, ws[i].txs[t].cmd.user, ws[i].txs[t].cmd.active)
  {
    var wr := CommitApplies(cfg, ws, es, i, t);
    var tx := ws[i].txs[t];
    SetActiveApplied(ws[i].db, tx.cmd.user, tx.cmd.active, ClockSeen(tx), wr);
  }

  lemma LogoutApplied(db: Db, s: SessionId, at: Time, wr: Writes)
    requires AtomicLogout(db, s, at) == Some(wr)
    ensures s in db.sessions && Apply(db, wr).users == db.users
    ensures Apply(db, wr).sessions == db.sessions[s := db.sessions[s].(revokedAt := Some(at))]
    ensures Apply(db, wr).audit == db.audit + [LoggedOut(db.sessions[s].owner, s)]
  {
    PlusNothing(db.users);
    PlusOne(db.sessions, wr.sessions, s);
  }

  /** A committed logout revokes its own session, touches no other, and leaves one audit row. */
  lemma LogoutTakesEffect(cfg: Config, ws: seq<World>, es: seq<Event>, i: nat, t: TxId)
    requires Run(cfg, ws, es) && i < |es| && es[i] == Commit(t) && t in ws[i].txs && ws[i].txs[t].cmd.Logout?
    ensures var db, db', s := ws[i].db, ws[i + 1].db, ws[i].txs[t].cmd.session;
      && s in db.sessions && s in db'.sessions && db'.sessions[s].Revoked() && db'.users == db.users
      && db'.sessions == db.sessions[s := db.sessions[s].(revokedAt := db'.sessions[s].revokedAt)]
      && db'.audit == db.audit + [LoggedOut(db.sessions[s].owner, s)]
  {
    var wr := CommitApplies(cfg, ws, es, i, t);
    LogoutApplied(ws[i].db, ws[i].txs[t].cmd.session, ClockSeen(ws[i].txs[t]), wr);
  }
}
