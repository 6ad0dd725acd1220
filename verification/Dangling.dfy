/**
 The one way an MFA claim can outrun its credential: the completion flag is
 written before the enrolment commits, so an enrolment rolled back after that
 leaves the flag behind, and the session's next rotation carries the claim.
 */
module Dangling {
  import opened Text
  import opened Units
  import opened Maps
  import opened Accounts
  import opened Transactions
  import opened Safety
  import opened Runs
  import opened Theorems
  import opened Claims
  import opened Continuations

  // ---- An enrolment that is rolled back after publishing ----------------------

  /** The holder of `claims` may confirm an enrolment with `digits` right now, and nobody has the credential locked. */
  predicate CanConfirm(cfg: Config, w: World, claims: AccessToken, digits: string) {
    && Enabled(cfg, w, Begin(ConfirmSetup(claims, digits, {})))
    && claims.user in w.db.creds && !w.db.creds[claims.user].Enabled() && CredRow(claims.user) !in w.locks
    && StepOf(cfg, w.db.creds[claims.user], digits, w.now).Some?
  }

  function Confirming(claims: AccessToken, digits: string): Tx {
    Start(ConfirmSetup(claims, digits, {}))
  }

  function WithCredential(db: Db, claims: AccessToken, digits: string): Tx {
    var tx := Confirming(claims, digits);
    tx.(rows := tx.rows.(creds := map[claims.user := Get(db.creds, claims.user)]))
  }

  function Clocked(w: World, claims: AccessToken, digits: string): Tx {
    WithCredential(w.db, claims, digits).(at := Read(w.now))
  }

  lemma ConfirmingLocks(cfg: Config, w: World, claims: AccessToken, digits: string)
    requires CanConfirm(cfg, w, claims, digits)
    ensures var t, next := w.nextTx, w.(nextTx := w.nextTx + 1);
      Happens(cfg, Solo(next, t, Confirming(claims, digits), w.locks), Act(t, []),
              Solo(next, t, WithCredential(w.db, claims, digits), w.locks[CredRow(claims.user) := t]))
  {
    SoloLocks(cfg, w.(nextTx := w.nextTx + 1), w.nextTx, Confirming(claims, digits), w.locks, CredRow(claims.user),
              WithCredential(w.db, claims, digits));
  }

  lemma ConfirmingLooks(cfg: Config, w: World, claims: AccessToken, digits: string, locks: map<Row, TxId>)
    requires CanConfirm(cfg, w, claims, digits)
    ensures var t, next := w.nextTx, w.(nextTx := w.nextTx + 1);
      Happens(cfg, Solo(next, t, WithCredential(w.db, claims, digits), locks), Act(t, []), Solo(next, t, Clocked(w, claims, digits), locks))
  {
    SoloLooks(cfg, w.(nextTx := w.nextTx + 1), w.nextTx, WithCredential(w.db, claims, digits), locks, Clock, Clocked(w, claims, digits));
  }

  /**
   What an enrolment that came as far as its flag leaves behind: nothing but the
   flag if it was rolled back, otherwise also itself and its credential's lock.
   */
  ghost predicate FlagLeft(w: World, s: SessionId, v: World, rolledBack: bool) {
    && v.db == w.db && v.h == w.h && v.now == w.now && v.nextTx == w.nextTx + 1 && s in v.flags && w.now < v.flags[s]
    && (rolledBack || w.nextTx in v.txs) && forall r :: r in v.locks && (rolledBack || !r.CredRow?) ==> r in w.locks
  }

  lemma ConfirmingFinishes(cfg: Config, w: World, claims: AccessToken, digits: string) returns (wr: Writes)
    requires CanConfirm(cfg, w, claims, digits)
    ensures Plan(cfg, w.nextTx, Clocked(w, claims, digits)) == Finish(wr) && wr.out.Enrolment? && wr.out.access.session == claims.session
  {
    wr := Plan(cfg, w.nextTx, Clocked(w, claims, digits)).writes;
  }

  lemma FlagWritten(cfg: Config, w: World, t: TxId, tx: Tx, r: Row, wr: Writes, s: SessionId)
    requires wr.out.Enrolment? && wr.out.access.session == s && r.CredRow? && t == w.nextTx
    ensures var next := StepAct(cfg, Solo(w.(nextTx := t + 1), t, tx, w.locks[r := t]), t, Finish(wr), []);
      t in next.txs && FlagLeft(w, s, next, false) && FlagLeft(w, s, Release(next, t), true)
  {
  }

  /** A transaction ready to finish writes its flag; it may then be rolled back. */
  lemma WritesFlag(cfg: Config, w: World, ws: seq<World>, es: seq<Event>, tx: Tx, r: Row, wr: Writes, s: SessionId, rolledBack: bool)
    returns (ws': seq<World>, es': seq<Event>)
    requires Run(cfg, ws, es) && Last(ws) == Solo(w.(nextTx := w.nextTx + 1), w.nextTx, tx, w.locks[r := w.nextTx]) && r.CredRow?
    requires wr.out.Enrolment? && wr.out.access.session == s && Plan(cfg, w.nextTx, tx) == Finish(wr) && !tx.published
    ensures Run(cfg, ws', es') && ws <= ws' && es <= es' && FlagLeft(w, s, Last(ws'), rolledBack)
    ensures rolledBack ==> Rollback(w.nextTx) in es'
  {
    var t := w.nextTx;
    ws', es' := Publishes(cfg, w.(nextTx := t + 1), t, tx, w.locks[r := t], wr, ws, es);
    FlagWritten(cfg, w, t, tx, r, wr, s);
    ws', es' := MayRollBack(cfg, ws', es', t, rolledBack);
  }

  /** The enrolment on its way to being ready. */
  lemma ReadyToConfirm(cfg: Config, ws: seq<World>, es: seq<Event>, claims: AccessToken, digits: string)
    returns (ws': seq<World>, es': seq<Event>)
    requires Run(cfg, ws, es) && CanConfirm(cfg, Last(ws), claims, digits)
    ensures Run(cfg, ws', es') && ws <= ws' && es <= es'
    ensures var w := Last(ws);
      Last(ws') == Solo(w.(nextTx := w.nextTx + 1), w.nextTx, Clocked(w, claims, digits), w.locks[CredRow(claims.user) := w.nextTx])
  {
    var w := Last(ws);
    var t, next, locks := w.nextTx, w.(nextTx := w.nextTx + 1), w.locks[CredRow(claims.user) := w.nextTx];
    var w1 := Solo(next, t, Confirming(claims, digits), w.locks);
    var w2 := Solo(next, t, WithCredential(w.db, claims, digits), locks);
    var w3 := Solo(next, t, Clocked(w, claims, digits), locks);
    SoloBegins(cfg, w, ConfirmSetup(claims, digits, {}));
    ConfirmingLocks(cfg, w, claims, digits);
    TwoOn(cfg, ws, es, Begin(ConfirmSetup(claims, digits, {})), w1, Act(t, []), w2);
    ws', es' := ws + [w1, w2], es + [Begin(ConfirmSetup(claims, digits, {})), Act(t, [])];
    ConfirmingLooks(cfg, w, claims, digits, locks);
    OneOn(cfg, ws', es', Act(t, []), w3);
    ws', es' := ws' + [w3], es' + [Act(t, [])];
  }

  /** From every state in which an enrolment could be confirmed there is a run on which it sets its flag and does not commit. */
  lemma UncommittedEnrolment(cfg: Config, ws: seq<World>, es: seq<Event>, claims: AccessToken, digits: string, rolledBack: bool)
    returns (ws': seq<World>, es': seq<Event>)
    requires Run(cfg, ws, es) && CanConfirm(cfg, Last(ws), claims, digits)
    ensures Run(cfg, ws', es') && ws <= ws' && es <= es' && FlagLeft(Last(ws), claims.session, Last(ws'), rolledBack)
    ensures rolledBack ==> Rollback(Last(ws).nextTx) in es'
  {
    var w := Last(ws);
    var wr := ConfirmingFinishes(cfg, w, claims, digits);
    ws', es' := ReadyToConfirm(cfg, ws, es, claims, digits);
    ws', es' := WritesFlag(cfg, w, ws', es', Clocked(w, claims, digits), CredRow(claims.user), wr, claims.session, rolledBack);
  }

  // ---- A refresh that finds the flag ------------------------------------------

  /** A session that can rotate right now, with its flag standing and its rows free. */
  predicate CanRotate(w: World, s: SessionId) {
    && s in w.db.sessions && w.db.sessions[s].Live(w.now) && s in w.flags && w.now < w.flags[s]
    && (var row := w.db.sessions[s];
        && row.owner in w.db.users && w.db.users[row.owner].CanAuthenticate()
        && row.tokenHash.token.session == s && row.tokenHash.token.version == row.version
        && UserRow(row.owner) !in w.locks && SessionRow(s) !in w.locks)
  }

  function Token(w: World, s: SessionId): RefreshToken
    requires s in w.db.sessions
  {
    w.db.sessions[s].tokenHash.token
  }

  function Owner(w: World, s: SessionId): UserId
    requires s in w.db.sessions
  {
    w.db.sessions[s].owner
  }

  function Refreshing(w: World, s: SessionId): Tx
    requires s in w.db.sessions
  {
    Start(Refresh(Token(w, s)))
  }

  function SawFlag(w: World, s: SessionId): Tx
    requires s in w.db.sessions
  {
    var tx := Refreshing(w, s);
    tx.(peek := tx.peek.(flag := Read(FlagReading(true, true, w.now))))
  }

  function SawOwner(w: World, s: SessionId): Tx
    requires s in w.db.sessions
  {
    var tx := SawFlag(w, s);
    tx.(peek := tx.peek.(owner := Read(Some(Owner(w, s)))))
  }

  function LockedOwner(w: World, s: SessionId): Tx
    requires s in w.db.sessions
  {
    var tx := SawOwner(w, s);
    tx.(rows := tx.rows.(users := map[Owner(w, s) := Get(w.db.users, Owner(w, s))]))
  }

  function LockedSession(w: World, s: SessionId): Tx
    requires s in w.db.sessions
  {
    var tx := LockedOwner(w, s);
    tx.(rows := tx.rows.(sessions := map[s := Some(w.db.sessions[s])]))
  }

  function RotationReady(w: World, s: SessionId): Tx
    requires s in w.db.sessions
  {
    LockedSession(w, s).(at := Read(w.now))
  }

  /** The world in which only this refresh has been added to `w`. */
  function With(w: World, tx: Tx, locks: map<Row, TxId>): World {
    Solo(w.(nextTx := w.nextTx + 1), w.nextTx, tx, locks)
  }

  lemma RefreshLooks(cfg: Config, w: World, s: SessionId)
    requires CanRotate(w, s)
    ensures Happens(cfg, w, Begin(Refresh(Token(w, s))), With(w, Refreshing(w, s), w.locks))
    ensures Happens(cfg, With(w, Refreshing(w, s), w.locks), Act(w.nextTx, []), With(w, SawFlag(w, s), w.locks))
  {
    SoloBegins(cfg, w, Refresh(Token(w, s)));
    SoloLooks(cfg, w.(nextTx := w.nextTx + 1), w.nextTx, Refreshing(w, s), w.locks, PeekFlag(s), SawFlag(w, s));
  }

  lemma RefreshFindsOwner(cfg: Config, w: World, s: SessionId)
    requires CanRotate(w, s)
    ensures Happens(cfg, With(w, SawFlag(w, s), w.locks), Act(w.nextTx, []), With(w, SawOwner(w, s), w.locks))
  {
    SoloLooks(cfg, w.(nextTx := w.nextTx + 1), w.nextTx, SawFlag(w, s), w.locks, PeekOwner(s), SawOwner(w, s));
  }

  /** The one transaction added to `w` takes its next lock. */
  lemma Takes(cfg: Config, w: World, tx: Tx, locks: map<Row, TxId>, r: Row, locked: Tx)
    requires Plan(cfg, w.nextTx, tx) == Lock(r) && r !in locks && Exists(w.db, r) && locked == Observe(w.db, tx, r)
    ensures Happens(cfg, With(w, tx, locks), Act(w.nextTx, []), With(w, locked, locks[r := w.nextTx]))
  {
    SoloLocks(cfg, w.(nextTx := w.nextTx + 1), w.nextTx, tx, locks, r, locked);
  }

  lemma RefreshWants(cfg: Config, w: World, s: SessionId)
    requires CanRotate(w, s)
    ensures Plan(cfg, w.nextTx, SawOwner(w, s)) == Lock(UserRow(Owner(w, s))) && Plan(cfg, w.nextTx, LockedOwner(w, s)) == Lock(SessionRow(s))
    ensures Observe(w.db, SawOwner(w, s), UserRow(Owner(w, s))) == LockedOwner(w, s)
    ensures Observe(w.db, LockedOwner(w, s), SessionRow(s)) == LockedSession(w, s)
  {
  }

  lemma RefreshReadsClock(cfg: Config, w: World, s: SessionId, locks: map<Row, TxId>)
    requires CanRotate(w, s)
    ensures Happens(cfg, With(w, LockedSession(w, s), locks), Act(w.nextTx, []), With(w, RotationReady(w, s), locks))
  {
    SoloLooks(cfg, w.(nextTx := w.nextTx + 1), w.nextTx, LockedSession(w, s), locks, Clock, RotationReady(w, s));
  }

  lemma RefreshDecides(cfg: Config, w: World, s: SessionId, published: bool) returns (wr: Writes)
    requires CanRotate(w, s)
    ensures Plan(cfg, w.nextTx, RotationReady(w, s).(published := published)) == Finish(wr)
    ensures wr.out.Rotation? && wr.out.access.mfa && wr.out.access.user == Owner(w, s) && wr.out.access.session == s && wr.creds == map[]
  {
    wr := Plan(cfg, w.nextTx, RotationReady(w, s).(published := published)).writes;
  }

  /** The locks of a refresh that has both its rows. */
  function BothLocks(w: World, s: SessionId): map<Row, TxId>
    requires s in w.db.sessions
  {
    w.locks[UserRow(Owner(w, s)) := w.nextTx][SessionRow(s) := w.nextTx]
  }

  lemma RefreshPeeks(cfg: Config, ws: seq<World>, es: seq<Event>, s: SessionId) returns (ws': seq<World>, es': seq<Event>)
    requires Run(cfg, ws, es) && CanRotate(Last(ws), s)
    ensures Run(cfg, ws', es') && ws <= ws' && es <= es' && Last(ws') == With(Last(ws), SawOwner(Last(ws), s), Last(ws).locks)
  {
    var w := Last(ws);
    var w1, w2, w3 := With(w, Refreshing(w, s), w.locks), With(w, SawFlag(w, s), w.locks), With(w, SawOwner(w, s), w.locks);
    RefreshLooks(cfg, w, s);
    TwoOn(cfg, ws, es, Begin(Refresh(Token(w, s))), w1, Act(w.nextTx, []), w2);
    ws', es' := ws + [w1, w2], es + [Begin(Refresh(Token(w, s))), Act(w.nextTx, [])];
    RefreshFindsOwner(cfg, w, s);
    OneOn(cfg, ws', es', Act(w.nextTx, []), w3);
    ws', es' := ws' + [w3], es' + [Act(w.nextTx, [])];
  }

  lemma RefreshTakesRows(cfg: Config, w: World, ws: seq<World>, es: seq<Event>, s: SessionId) returns (ws': seq<World>, es': seq<Event>)
    requires Run(cfg, ws, es) && CanRotate(w, s) && Last(ws) == With(w, SawOwner(w, s), w.locks)
    ensures Run(cfg, ws', es') && ws <= ws' && es <= es' && Last(ws') == With(w, LockedSession(w, s), BothLocks(w, s))
  {
    var act, l1, l2 := Act(w.nextTx, []), w.locks[UserRow(Owner(w, s)) := w.nextTx], BothLocks(w, s);
    var w1, w2 := With(w, LockedOwner(w, s), l1), With(w, LockedSession(w, s), l2);
    RefreshWants(cfg, w, s);
    Takes(cfg, w, SawOwner(w, s), w.locks, UserRow(Owner(w, s)), LockedOwner(w, s));
    Takes(cfg, w, LockedOwner(w, s), l1, SessionRow(s), LockedSession(w, s));
    TwoOn(cfg, ws, es, act, w1, act, w2);
    ws', es' := ws + [w1, w2], es + [act, act];
  }

  lemma RefreshGetsReady(cfg: Config, w: World, ws: seq<World>, es: seq<Event>, s: SessionId) returns (ws': seq<World>, es': seq<Event>)
    requires Run(cfg, ws, es) && CanRotate(w, s) && Last(ws) == With(w, SawOwner(w, s), w.locks)
    ensures Run(cfg, ws', es') && ws <= ws' && es <= es' && Last(ws') == With(w, RotationReady(w, s), BothLocks(w, s))
  {
    var ready := With(w, RotationReady(w, s), BothLocks(w, s));
    ws', es' := RefreshTakesRows(cfg, w, ws, es, s);
    RefreshReadsClock(cfg, w, s, BothLocks(w, s));
    OneOn(cfg, ws', es', Act(w.nextTx, []), ready);
    ws', es' := ws' + [ready], es' + [Act(w.nextTx, [])];
  }

  lemma RotationCommitted(w: World, t: TxId, tx: Tx, locks: map<Row, TxId>, wr: Writes)
    requires wr.out.Rotation? && wr.creds == map[]
    ensures var next := StepCommit(Solo(w, t, tx, locks), t, wr);
      && wr.out.access in next.h.access && next.db.creds == w.db.creds
      && forall x :: x in w.txs && x != t ==> x in next.txs
  {
    PlusNothing(w.db.creds);
  }

  /** While a session's flag stands, a rotation can be carried to its commit, and its token has the claim. */
  lemma RotationCarriesClaim(cfg: Config, ws: seq<World>, es: seq<Event>, s: SessionId)
    returns (ws': seq<World>, es': seq<Event>, a: AccessToken)
    requires Run(cfg, ws, es) && CanRotate(Last(ws), s)
    ensures Run(cfg, ws', es') && ws <= ws' && es <= es' && Last(ws').db.creds == Last(ws).db.creds
    ensures a in Last(ws').h.access && a.mfa && a.session == s && a.user == Owner(Last(ws), s)
    ensures forall x :: x in Last(ws).txs && x != Last(ws).nextTx ==> x in Last(ws').txs
  {
    var w := Last(ws);
    ws', es' := RefreshPeeks(cfg, ws, es, s);
    ws', es' := RefreshGetsReady(cfg, w, ws', es', s);
    ws', es', a := Rotates(cfg, w, ws', es', s, RotationReady(w, s));
  }

  lemma Rotates(cfg: Config, w: World, ws: seq<World>, es: seq<Event>, s: SessionId, ready: Tx)
    returns (ws': seq<World>, es': seq<Event>, a: AccessToken)
    requires Run(cfg, ws, es) && CanRotate(w, s) && ready == RotationReady(w, s) && Last(ws) == With(w, ready, BothLocks(w, s))
    ensures Run(cfg, ws', es') && ws <= ws' && es <= es' && Last(ws').db.creds == w.db.creds
    ensures a in Last(ws').h.access && a.mfa && a.session == s && a.user == Owner(w, s)
    ensures forall x :: x in w.txs && x != w.nextTx ==> x in Last(ws').txs
  {
    var next, t := w.(nextTx := w.nextTx + 1), w.nextTx;
    var wr := RefreshDecides(cfg, w, s, false);
    var same := RefreshDecides(cfg, w, s, true);
    ws', es' := Publishes(cfg, next, t, ready, BothLocks(w, s), wr, ws, es);
    NothingToPublish(cfg, next, t, ready, BothLocks(w, s), wr);
    ws', es' := Commits(cfg, ws', es', t, same);
    RotationCommitted(next, t, ready.(published := true), BothLocks(w, s), same);
    a := same.out.access;
  }

  // ---- The claim without the credential ---------------------------------------

  /** Nothing stands in the way of the session's next rotation but its flag. */
  predicate OnlyFlagMissing(w: World, s: SessionId) {
    && s in w.db.sessions && w.db.sessions[s].Live(w.now)
    && UserRow(w.db.sessions[s].owner) !in w.locks && SessionRow(s) !in w.locks
  }

  lemma FlagIsEnough(cfg: Config, ws: seq<World>, es: seq<Event>, i: nat, s: SessionId, v: World, rolledBack: bool)
    requires Run(cfg, ws, es) && i < |ws| && OnlyFlagMissing(ws[i], s) && FlagLeft(ws[i], s, v, rolledBack)
    ensures CanRotate(v, s)
  {
    LiveSessionsAreCurrent(cfg, ws, es, i, s);
    RunInv(cfg, ws, es, i);
    assert StoredOk(ws[i].db, ws[i].h, s);
  }

  /**
   So the claim does not always mean an enabled credential: wherever an enrolment
   can be confirmed on a live session there is a run to a token with the claim and
   no enabled credential, whether the enrolment was rolled back after writing its
   flag or is still in flight.
   */
  lemma ClaimWithoutCredential(cfg: Config, ws: seq<World>, es: seq<Event>, claims: AccessToken, digits: string, rolledBack: bool)
    returns (ws': seq<World>, es': seq<Event>, a: AccessToken)
    requires Run(cfg, ws, es) && CanConfirm(cfg, Last(ws), claims, digits) && OnlyFlagMissing(Last(ws), claims.session)
    ensures Run(cfg, ws', es') && ws <= ws' && es <= es'
    ensures a in Last(ws').h.access && a.mfa && a.session == claims.session && a.user == claims.user && !IsEnabled(Last(ws').db, a.user)
    ensures if rolledBack then Rollback(Last(ws).nextTx) in es' else Last(ws).nextTx in Last(ws').txs
  {
    ClaimsOwnSession(cfg, ws, es, claims);
    ws', es' := UncommittedEnrolment(cfg, ws, es, claims, digits, rolledBack);
    FlagIsEnough(cfg, ws, es, |ws| - 1, claims.session, Last(ws'), rolledBack);
    ws', es', a := RotationCarriesClaim(cfg, ws', es', claims.session);
  }

  lemma ClaimsOwnSession(cfg: Config, ws: seq<World>, es: seq<Event>, claims: AccessToken)
    requires Run(cfg, ws, es) && claims in Last(ws).h.access
    ensures claims.session in Last(ws).db.sessions && Last(ws).db.sessions[claims.session].owner == claims.user
  {
    RunInv(cfg, ws, es, |ws| - 1);
    assert AccessOk(Last(ws).db, Last(ws).h, claims);
  }

  // ---- Such states are reached ------------------------------------------------

  /** An admin who can sign in right now with this password alone. */
  predicate CanSignIn(cfg: Config, w: World, u: UserId, password: string) {
    && u in w.db.users && w.db.users[u].CanAuthenticate() && w.db.users[u].role == Admin
    && cfg.argon2(password, w.db.users[u].passwordHash) && !IsEnabled(w.db, u) && UserRow(u) !in w.locks
  }

  function SawAccount(w: World, u: UserId, password: string): Tx {
    var tx := Start(Login(u, password));
    tx.(peek := tx.peek.(user := Read(Get(w.db.users, u))))
  }

  function LockedAccount(w: World, u: UserId, password: string): Tx {
    var tx := SawAccount(w, u, password);
    tx.(rows := tx.rows.(users := map[u := Get(w.db.users, u)]))
  }

  function SawGate(w: World, u: UserId, password: string): Tx {
    var tx := LockedAccount(w, u, password);
    tx.(peek := tx.peek.(gate := Read(false)))
  }

  function LoginReady(w: World, u: UserId, password: string): Tx {
    SawGate(w, u, password).(at := Read(w.now))
  }

  lemma LoginLooks(cfg: Config, w: World, u: UserId, password: string)
    requires CanSignIn(cfg, w, u, password)
    ensures Happens(cfg, w, Begin(Login(u, password)), With(w, Start(Login(u, password)), w.locks))
    ensures Happens(cfg, With(w, Start(Login(u, password)), w.locks), Act(w.nextTx, []), With(w, SawAccount(w, u, password), w.locks))
  {
    SoloBegins(cfg, w, Login(u, password));
    SoloLooks(cfg, w.(nextTx := w.nextTx + 1), w.nextTx, Start(Login(u, password)), w.locks, PeekUser(u), SawAccount(w, u, password));
  }

  lemma LoginWants(cfg: Config, w: World, u: UserId, password: string)
    requires CanSignIn(cfg, w, u, password)
    ensures Plan(cfg, w.nextTx, SawAccount(w, u, password)) == Lock(UserRow(u))
    ensures Observe(w.db, SawAccount(w, u, password), UserRow(u)) == LockedAccount(w, u, password)
  {
  }

  lemma LoginPassesGate(cfg: Config, w: World, u: UserId, password: string, locks: map<Row, TxId>)
    requires CanSignIn(cfg, w, u, password)
    ensures Happens(cfg, With(w, LockedAccount(w, u, password), locks), Act(w.nextTx, []), With(w, SawGate(w, u, password), locks))
  {
    SoloLooks(cfg, w.(nextTx := w.nextTx + 1), w.nextTx, LockedAccount(w, u, password), locks, PeekGate(u), SawGate(w, u, password));
  }

  lemma LoginReadsClock(cfg: Config, w: World, u: UserId, password: string, locks: map<Row, TxId>)
    requires CanSignIn(cfg, w, u, password)
    ensures Happens(cfg, With(w, SawGate(w, u, password), locks), Act(w.nextTx, []), With(w, LoginReady(w, u, password), locks))
  {
    SoloLooks(cfg, w.(nextTx := w.nextTx + 1), w.nextTx, SawGate(w, u, password), locks, Clock, LoginReady(w, u, password));
  }

  lemma LoginBegins(cfg: Config, ws: seq<World>, es: seq<Event>, u: UserId, password: string) returns (ws': seq<World>, es': seq<Event>)
    requires Run(cfg, ws, es) && CanSignIn(cfg, Last(ws), u, password)
    ensures Run(cfg, ws', es') && ws <= ws' && es <= es' && Last(ws') == With(Last(ws), SawAccount(Last(ws), u, password), Last(ws).locks)
  {
    var w := Last(ws);
    var w1, w2 := With(w, Start(Login(u, password)), w.locks), With(w, SawAccount(w, u, password), w.locks);
    LoginLooks(cfg, w, u, password);
    TwoOn(cfg, ws, es, Begin(Login(u, password)), w1, Act(w.nextTx, []), w2);
    ws', es' := ws + [w1, w2], es + [Begin(Login(u, password)), Act(w.nextTx, [])];
  }

  lemma LoginGoesOn(cfg: Config, w: World, ws: seq<World>, es: seq<Event>, u: UserId, password: string, locks: map<Row, TxId>)
    returns (ws': seq<World>, es': seq<Event>)
    requires Run(cfg, ws, es) && CanSignIn(cfg, w, u, password) && Last(ws) == With(w, LockedAccount(w, u, password), locks)
    ensures Run(cfg, ws', es') && ws <= ws' && es <= es' && Last(ws') == With(w, LoginReady(w, u, password), locks)
  {
    var act, w1, w2 := Act(w.nextTx, []), With(w, SawGate(w, u, password), locks), With(w, LoginReady(w, u, password), locks);
    LoginPassesGate(cfg, w, u, password, locks);
    LoginReadsClock(cfg, w, u, password, locks);
    TwoOn(cfg, ws, es, act, w1, act, w2);
    ws', es' := ws + [w1, w2], es + [act, act];
  }

  lemma LoginGetsReady(cfg: Config, ws: seq<World>, es: seq<Event>, u: UserId, password: string) returns (ws': seq<World>, es': seq<Event>)
    requires Run(cfg, ws, es) && CanSignIn(cfg, Last(ws), u, password)
    ensures Run(cfg, ws', es') && ws <= ws' && es <= es'
    ensures var w := Last(ws); Last(ws') == With(w, LoginReady(w, u, password), w.locks[UserRow(u) := w.nextTx])
  {
    var w := Last(ws);
    var locks := w.locks[UserRow(u) := w.nextTx];
    ws', es' := LoginBegins(cfg, ws, es, u, password);
    LoginWants(cfg, w, u, password);
    Takes(cfg, w, SawAccount(w, u, password), w.locks, UserRow(u), LockedAccount(w, u, password));
    OneOn(cfg, ws', es', Act(w.nextTx, []), With(w, LockedAccount(w, u, password), locks));
    ws', es' := ws' + [With(w, LockedAccount(w, u, password), locks)], es' + [Act(w.nextTx, [])];
    ws', es' := LoginGoesOn(cfg, w, ws', es', u, password, locks);
  }

  /** What signing in adds to `w`: a live session of the account, and its access token. */
  ghost predicate SignedIn(w: World, u: UserId, a: AccessToken, v: World) {
    && a in v.h.access && a.user == u && a.session == w.nextTx && a.role == Admin
    && v.db.users == w.db.users && v.db.creds == w.db.creds && v.now == w.now
    && u in w.db.users && a.epoch == w.db.users[u].epoch
    && a.session in v.db.sessions && v.db.sessions[a.session].owner == u && v.db.sessions[a.session].Live(v.now)
    && forall r :: r in v.locks ==> r in w.locks && w.locks[r] != w.nextTx
  }

  lemma LoginDecides(cfg: Config, w: World, u: UserId, password: string, published: bool) returns (wr: Writes)
    requires CanSignIn(cfg, w, u, password)
    ensures Plan(cfg, w.nextTx, LoginReady(w, u, password).(published := published)) == Finish(wr)
    ensures wr == DecideLogin(cfg, w.nextTx, u, w.db.users[u], false, w.now)
  {
    wr := Plan(cfg, w.nextTx, LoginReady(w, u, password).(published := published)).writes;
  }

  lemma LoginCommitted(cfg: Config, w: World, u: UserId, tx: Tx, wr: Writes)
    requires u in w.db.users && w.db.users[u].role == Admin && UserRow(u) !in w.locks && cfg.refreshLifetime > 0
    requires wr == DecideLogin(cfg, w.nextTx, u, w.db.users[u], false, w.now)
    requires forall r :: r in w.locks ==> w.locks[r] != w.nextTx
    ensures SignedIn(w, u, wr.out.access, StepCommit(With(w, tx, w.locks[UserRow(u) := w.nextTx]), w.nextTx, wr))
  {
    PlusNothing(w.db.users);
    PlusNothing(w.db.creds);
    PlusOne(w.db.sessions, wr.sessions, w.nextTx);
  }

  lemma LoginEnds(cfg: Config, w: World, ws: seq<World>, es: seq<Event>, u: UserId, ready: Tx, wr: Writes)
    returns (ws': seq<World>, es': seq<Event>)
    requires Run(cfg, ws, es) && Last(ws) == With(w, ready, w.locks[UserRow(u) := w.nextTx]) && !ready.published && ready.cmd.Login?
    requires Plan(cfg, w.nextTx, ready) == Finish(wr) && Plan(cfg, w.nextTx, ready.(published := true)) == Finish(wr)
    requires wr.out.NewSession? && wr.out.factor.None?
    ensures Run(cfg, ws', es') && ws <= ws' && es <= es'
    ensures Last(ws') == StepCommit(With(w, ready.(published := true), w.locks[UserRow(u) := w.nextTx]), w.nextTx, wr)
  {
    var t, next, locks := w.nextTx, w.(nextTx := w.nextTx + 1), w.locks[UserRow(u) := w.nextTx];
    ws', es' := Publishes(cfg, next, t, ready, locks, wr, ws, es);
    NothingToPublish(cfg, next, t, ready, locks, wr);
    ws', es' := Commits(cfg, ws', es', t, wr);
  }

  /** An admin with a password and no enabled credential can be signed in, to a session that lives. */
  lemma SignsIn(cfg: Config, ws: seq<World>, es: seq<Event>, u: UserId, password: string)
    returns (ws': seq<World>, es': seq<Event>, a: AccessToken)
    requires Run(cfg, ws, es) && CanSignIn(cfg, Last(ws), u, password) && cfg.refreshLifetime > 0
    requires forall r :: r in Last(ws).locks ==> Last(ws).locks[r] != Last(ws).nextTx
    ensures Run(cfg, ws', es') && ws <= ws' && es <= es' && SignedIn(Last(ws), u, a, Last(ws'))
  {
    var w, ready := Last(ws), LoginReady(Last(ws), u, password);
    var wr := LoginDecides(cfg, w, u, password, false);
    var same := LoginDecides(cfg, w, u, password, true);
    ws', es' := LoginGetsReady(cfg, ws, es, u, password);
    ws', es' := LoginEnds(cfg, w, ws', es', u, ready, wr);
    LoginCommitted(cfg, w, u, ready.(published := true), wr);
    a := wr.out.access;
  }

  /** An admin's account, and a secret handed out but not confirmed. */
  function Enrolling(hash: string, secret: string): Db {
    EmptyDb.(users := map[0 := User(hash, Admin, true, true, false, false, 0)], creds := map[0 := Credential(secret, None, None, None)])
  }

  lemma EnrolmentOffered(cfg: Config, hash: string, secret: string, at: Time) returns (ws: seq<World>, es: seq<Event>)
    ensures Run(cfg, ws, es) && Last(ws) == Quiet(Enrolling(hash, secret), at)
  {
    var admin := User(hash, Admin, true, true, false, false, 0);
    var one, two := Quiet(EmptyDb.(users := map[0 := admin]), at), Quiet(Enrolling(hash, secret), at);
    ws, es := [Quiet(EmptyDb, at), one, two], [Register(0, admin), Enrol(0, secret)];
    assert Happens(cfg, Quiet(EmptyDb, at), Register(0, admin), one);
    assert Happens(cfg, one, Enrol(0, secret), two);
  }

  /** A sign-up, an enrolment and a login with the password lead to where an enrolment can be confirmed on a live session. */
  lemma ConfirmableIsReached(cfg: Config, password: string, hash: string, secret: string, digits: string, at: Time)
    returns (ws: seq<World>, es: seq<Event>, claims: AccessToken)
    requires cfg.argon2(password, hash) && cfg.refreshLifetime > 0
    requires StepOf(cfg, Credential(secret, None, None, None), digits, at).Some?
    ensures Run(cfg, ws, es) && CanConfirm(cfg, Last(ws), claims, digits) && OnlyFlagMissing(Last(ws), claims.session)
    ensures Last(ws).now == at
  {
    var offered, events := EnrolmentOffered(cfg, hash, secret, at);
    ws, es, claims := SignsIn(cfg, offered, events, 0, password);
  }

  /** So there are runs, from nothing, that end in an MFA claim of an account with no enabled credential. */
  lemma ClaimWithoutCredentialIsReached(cfg: Config, password: string, hash: string, secret: string, digits: string, at: Time,
                                        rolledBack: bool)
    returns (ws: seq<World>, es: seq<Event>, a: AccessToken, setup: TxId)
    requires cfg.argon2(password, hash) && cfg.refreshLifetime > 0
    requires StepOf(cfg, Credential(secret, None, None, None), digits, at).Some?
    ensures Run(cfg, ws, es) && a in Last(ws).h.access && a.mfa && !IsEnabled(Last(ws).db, a.user)
    ensures if rolledBack then Rollback(setup) in es else setup in Last(ws).txs
  {
    var before, events, claims := ConfirmableIsReached(cfg, password, hash, secret, digits, at);
    setup := Last(before).nextTx;
    ws, es, a := ClaimWithoutCredential(cfg, before, events, claims, digits, rolledBack);
  }
}
