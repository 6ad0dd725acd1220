/**
 The credential protocol as a whole: one inductive invariant over every
 interleaving, and what it says about sessions, tokens and the audit log.
 */
module Protocol {
  import opened Text
  import opened Maps
  import opened Units
  import opened Totp
  import opened Accounts
  import opened Serial
  import opened Transactions
  import opened Locking
  import opened Safety
  import opened Ledger
  import opened Factors

  /** Reset tokens: each spent once, and none that a committed reset could see is still good. */
  ghost predicate ResetsOk(db: Db, h: History) {
    && (forall i, j :: 0 <= i < j < |h.redeemed| ==> h.redeemed[i] != h.redeemed[j])
    && (forall i :: 0 <= i < |h.redeemed| ==> h.redeemed[i] in db.tokens && db.tokens[h.redeemed[i]].usedAt.Some?)
    && (forall k :: k in h.burned ==> k in db.tokens && db.tokens[k].usedAt.Some?)
  }

  ghost predicate DbInv(db: Db, h: History) {
    Epochs(db, h) && Refreshes(db, h) && AllBalanced(db) && FactorsOk(db, h) && ResetsOk(db, h)
  }

  // ---- The tables and history after each kind of commit -----------------------

  /** Nothing was handed out that concerns sessions. */
  predicate SameSessionHistory(h: History, h': History) {
    h'.born == h.born && h'.refresh == h.refresh && h'.rotated == h.rotated && h'.factors == h.factors
  }

  predicate SameResets(db: Db, h: History, db': Db, h': History) {
    db'.tokens == db.tokens && h'.redeemed == h.redeemed && h'.burned == h.burned
  }

  predicate MintFrame(db: Db, h: History, t: TxId, wr: Writes, db': Db, h': History) {
    && wr.out.NewSession? && t in wr.sessions
    && db'.sessions == db.sessions[t := wr.sessions[t]] && db'.users == db.users && db'.audit == db.audit + wr.audit
    && SameResets(db, h, db', h')
    && h'.born == h.born[t := wr.out.access.epoch] && h'.refresh == h.refresh[wr.out.refresh := wr.out.access.epoch]
    && h'.access == h.access + {wr.out.access} && h'.rotated == h.rotated
  }

  lemma RecordedMint(h: History, out: Output, burned: set<ResetId>)
    requires out.NewSession?
    ensures var h' := Record(h, out, burned);
      && h'.born == h.born[out.session := out.access.epoch] && h'.refresh == h.refresh[out.refresh := out.access.epoch]
      && h'.access == h.access + {out.access} && h'.rotated == h.rotated
      && h'.redeemed == h.redeemed && h'.burned == h.burned
      && h'.factors == (if out.factor.None? then h.factors else h.factors[out.session := out.factor.value])
      && h'.accepted == if out.factor.Some? && out.factor.value.TotpStep?
                        then h.accepted[out.factor.value.user :=
                               AcceptedBy(h, out.factor.value.user) + [Acceptance(out.factor.value.step, out.verifiedAt)]]
                        else h.accepted
  {
  }

  lemma MintKeeps(db: Db, h: History, t: TxId, wr: Writes, db': Db, h': History)
    requires Epochs(db, h) && Refreshes(db, h) && AllBalanced(db) && ResetsOk(db, h)
    requires t !in db.sessions && IsMint(db, t, wr) && MintFrame(db, h, t, wr, db', h')
    ensures Epochs(db', h') && Refreshes(db', h') && AllBalanced(db') && ResetsOk(db', h')
  {
    var row := wr.sessions[t];
    MintEpochs(db, h, t, row, wr.out.access, db', h');
    assert RotationsOk(db', h');
    NewTokenRefreshes(db, h, t, row, wr.out.refresh, wr.out.access.epoch, db', h');
    NeutralBalanced(db, db', wr.audit);
  }

  lemma RotatedOnce(db: Db, h: History, s: SessionId, row: Session, presented: RefreshToken, db': Db, h': History)
    requires RotationsOk(db, h) && s in db.sessions && db'.sessions == db.sessions[s := row] && h'.rotated == h.rotated + [presented]
    requires presented.session == s && presented.version == db.sessions[s].version && row.version == presented.version + 1
    ensures RotationsOk(db', h')
  {
  }

  predicate RotationFrame(db: Db, h: History, wr: Writes, db': Db, h': History) {
    && wr.out.Rotation? && wr.out.presented.session in wr.sessions
    && db'.sessions == db.sessions[wr.out.presented.session := wr.sessions[wr.out.presented.session]]
    && db'.users == db.users && db'.audit == db.audit + [] && db'.creds == db.creds && db'.codes == db.codes
    && SameResets(db, h, db', h') && h'.born == h.born && h'.refresh == h.refresh[wr.out.refresh := wr.out.access.epoch]
    && h'.access == h.access + {wr.out.access} && h'.rotated == h.rotated + [wr.out.presented]
    && h'.factors == h.factors && h'.accepted == h.accepted
  }

  lemma RotationKeeps(db: Db, h: History, wr: Writes, db': Db, h': History)
    requires DbInv(db, h) && IsRotation(db, wr) && RotationFrame(db, h, wr, db', h')
    ensures DbInv(db', h')
  {
    var s := wr.out.presented.session;
    var row := wr.sessions[s];
    assert SessionEpochOk(db, h, s) && StoredOk(db, h, s);
    RotationEpochs(db, h, s, row, wr.out.access, db', h');
    RotatedOnce(db, h, s, row, wr.out.presented, db', h');
    NewTokenRefreshes(db, h, s, row, wr.out.refresh, wr.out.access.epoch, db', h');
    NeutralBalanced(db, db', []);
    SameFactors(db, h, db', h');
  }

  lemma EndingKeeps(db: Db, h: History, s: SessionId, wr: Writes, db': Db)
    requires DbInv(db, h) && IsEnding(db, s, wr)
    requires db'.sessions == db.sessions[s := wr.sessions[s]] && db'.users == db.users && db'.tokens == db.tokens
    requires db'.creds == db.creds && db'.codes == db.codes && db'.audit == db.audit + wr.audit
    ensures DbInv(db', h)
  {
    EndingEpochs(db, h, db', h);
    SameTokensRefreshes(db, h, db', h);
    EndingBalanced(db, db', s, wr.sessions[s], wr.audit[0]);
    SameFactors(db, h, db', h);
  }

  lemma ReactivationKeeps(db: Db, h: History, u: UserId, wr: Writes, db': Db)
    requires DbInv(db, h) && IsReactivation(db, u, wr)
    requires db'.sessions == db.sessions && db'.users == db.users[u := wr.users[u]] && db'.tokens == db.tokens
    requires db'.creds == db.creds && db'.codes == db.codes && db'.audit == db.audit + wr.audit
    ensures DbInv(db', h)
  {
    ReactivationEpochs(db, h, u, wr.users[u], db', h);
    SameTokensRefreshes(db, h, db', h);
    ReactivationBalanced(db, db', u, wr.users[u]);
    SameFactors(db, h, db', h);
  }

  /** `revoked` is every live session of the account, revoked and otherwise as it was. */
  ghost predicate SweptRows(db: Db, u: UserId, revoked: map<SessionId, Session>) {
    && revoked.Keys == (set s | s in db.sessions && db.sessions[s].owner == u && !db.sessions[s].Revoked())
    && (forall s :: s in revoked ==> revoked[s].Revoked() && revoked[s] == db.sessions[s].(revokedAt := revoked[s].revokedAt))
  }

  lemma SweepShape(db: Db, u: UserId, at: Time)
    ensures SweptRows(db, u, RevokeAll(SessionsOf(db.sessions, u), at))
  {
  }

  lemma SweptTable(db: Db, u: UserId, revoked: map<SessionId, Session>, db': Db)
    requires SweptRows(db, u, revoked) && db'.sessions == db.sessions + revoked
    ensures db'.sessions.Keys == db.sessions.Keys
    ensures forall s :: s in db.sessions ==>
      && SameToken(db'.sessions[s], db.sessions[s])
      && (db.sessions[s].owner == u || db.sessions[s].Revoked() ==> db'.sessions[s].Revoked())
  {
  }

  predicate SameToken(a: Session, b: Session) {
    a.owner == b.owner && a.tokenHash == b.tokenHash && a.version == b.version && a.expiresAt == b.expiresAt
  }

  lemma BumpKeepsSessions(db: Db, h: History, u: UserId, wr: Writes, db': Db, h': History)
    requires Epochs(db, h) && Refreshes(db, h) && IsBump(db, u, wr) && SweptRows(db, u, wr.sessions)
    requires db'.sessions == db.sessions + wr.sessions && db'.users == db.users[u := wr.users[u]]
    requires SameSessionHistory(h, h') && h'.access == h.access
    ensures Epochs(db', h') && Refreshes(db', h')
  {
    SweptTable(db, u, wr.sessions, db');
    BumpEpochs(db, h, u, wr.users[u], db', h');
    SameTokensRefreshes(db, h, db', h');
  }

  lemma BumpKeepsFactors(db: Db, h: History, u: UserId, wr: Writes, db': Db, h': History)
    requires FactorsOk(db, h) && SweptRows(db, u, wr.sessions) && db'.sessions == db.sessions + wr.sessions
    requires db'.creds == db.creds && db'.codes == db.codes && h'.factors == h.factors && h'.accepted == h.accepted
    ensures FactorsOk(db', h')
  {
    SweptTable(db, u, wr.sessions, db');
    SameFactors(db, h, db', h');
  }

  lemma BumpKeepsLedger(db: Db, u: UserId, wr: Writes, db': Db)
    requires AllBalanced(db) && IsBump(db, u, wr) && SweptRows(db, u, wr.sessions)
    requires db'.sessions == db.sessions + wr.sessions && db'.users == db.users[u := wr.users[u]] && db'.audit == db.audit + wr.audit
    ensures AllBalanced(db')
  {
    BumpBalanced(db, db', u, wr.users[u], wr.sessions, wr.audit[0]);
  }

  // ---- Each command keeps the invariant ---------------------------------------

  lemma KeptCodes(db: Db, wr: Writes)
    requires wr.clearUnusedCodesOf.None?
    ensures Apply(db, wr).codes == db.codes + wr.codes
  {
    assert KeepCodes(db.codes, None) == db.codes;
  }

  /** Only audit rows were written. */
  predicate AuditFrame(db: Db, wr: Writes, db': Db) {
    && db'.sessions == db.sessions && db'.users == db.users && db'.tokens == db.tokens
    && db'.creds == db.creds && db'.codes == db.codes && db'.audit == db.audit + wr.audit
  }

  lemma QuietKeeps(db: Db, h: History, wr: Writes, db': Db)
    requires DbInv(db, h) && IsQuiet(wr) && AuditFrame(db, wr, db')
    ensures DbInv(db', h)
  {
    QuietEpochs(db, h, {}, db', h);
    SameTokensRefreshes(db, h, db', h);
    NeutralBalanced(db, db', wr.audit);
    SameFactors(db, h, db', h);
  }

  lemma QuietFramed(db: Db, h: History, wr: Writes, burned: set<ResetId>)
    requires IsQuiet(wr) && !wr.out.Enrolment? && wr.creds == map[] && wr.codes == map[] && wr.clearUnusedCodesOf.None?
    ensures AuditFrame(db, wr, Apply(db, wr)) && Record(h, wr.out, burned) == h
  {
    KeptCodes(db, wr);
    PlusNothing(db.users);
    PlusNothing(db.sessions);
    PlusNothing(db.tokens);
    PlusNothing(db.creds);
    PlusNothing(db.codes);
  }

  lemma MintFramed(db: Db, h: History, t: TxId, wr: Writes, burned: set<ResetId>)
    requires IsMint(db, t, wr)
    ensures MintFrame(db, h, t, wr, Apply(db, wr), Record(h, wr.out, burned))
  {
    RecordedMint(h, wr.out, burned);
    PlusNothing(db.users);
    PlusNothing(db.tokens);
    PlusOne(db.sessions, wr.sessions, t);
  }

  lemma PasswordMintFramed(db: Db, h: History, wr: Writes, burned: set<ResetId>)
    requires wr.out.NewSession? && wr.out.factor.None? && wr.creds == map[] && wr.codes == map[] && wr.clearUnusedCodesOf.None?
    ensures var db', h' := Apply(db, wr), Record(h, wr.out, burned);
      db'.creds == db.creds && db'.codes == db.codes && h'.factors == h.factors && h'.accepted == h.accepted
  {
    RecordedMint(h, wr.out, burned);
    KeptCodes(db, wr);
    PlusNothing(db.creds);
    PlusNothing(db.codes);
  }

  lemma PasswordMintKeeps(db: Db, h: History, t: TxId, wr: Writes, db': Db, h': History)
    requires DbInv(db, h) && t !in db.sessions && IsMint(db, t, wr) && MintFrame(db, h, t, wr, db', h')
    requires db'.creds == db.creds && db'.codes == db.codes && h'.factors == h.factors && h'.accepted == h.accepted
    ensures DbInv(db', h')
  {
    MintKeeps(db, h, t, wr, db', h');
    SameFactors(db, h, db', h');
  }

  lemma LoginKeeps(cfg: Config, db: Db, h: History, t: TxId, u: UserId, password: string, gate: bool, at: Time, wr: Writes,
                   burned: set<ResetId>)
    requires DbInv(db, h) && t !in db.sessions && AtomicLogin(cfg, db, t, u, password, gate, at) == Some(wr)
    ensures DbInv(Apply(db, wr), Record(h, wr.out, burned))
  {
    ClassifyLogin(cfg, db, t, u, password, gate, at, wr);
    if IsQuiet(wr) {
      QuietFramed(db, h, wr, burned);
      QuietKeeps(db, h, wr, Apply(db, wr));
    } else {
      MintFramed(db, h, t, wr, burned);
      PasswordMintFramed(db, h, wr, burned);
      PasswordMintKeeps(db, h, t, wr, Apply(db, wr), Record(h, wr.out, burned));
    }
  }

  predicate EndingFrame(db: Db, s: SessionId, wr: Writes, db': Db) {
    && s in wr.sessions && db'.sessions == db.sessions[s := wr.sessions[s]] && db'.users == db.users && db'.tokens == db.tokens
    && db'.creds == db.creds && db'.codes == db.codes && db'.audit == db.audit + wr.audit
  }

  lemma EndingFramed(db: Db, h: History, s: SessionId, wr: Writes, burned: set<ResetId>)
    requires IsEnding(db, s, wr) && wr.clearUnusedCodesOf.None?
    ensures EndingFrame(db, s, wr, Apply(db, wr)) && Record(h, wr.out, burned) == h
  {
    KeptCodes(db, wr);
    PlusNothing(db.users);
    PlusNothing(db.tokens);
    PlusNothing(db.creds);
    PlusNothing(db.codes);
    PlusOne(db.sessions, wr.sessions, s);
  }

  lemma RotationFramed(db: Db, h: History, wr: Writes, burned: set<ResetId>)
    requires IsRotation(db, wr) && wr.clearUnusedCodesOf.None?
    ensures RotationFrame(db, h, wr, Apply(db, wr), Record(h, wr.out, burned))
  {
    KeptCodes(db, wr);
    PlusNothing(db.users);
    PlusNothing(db.tokens);
    PlusNothing(db.creds);
    PlusNothing(db.codes);
    PlusOne(db.sessions, wr.sessions, wr.out.presented.session);
  }

  lemma RefreshKeeps(cfg: Config, db: Db, h: History, presented: RefreshToken, mfa: bool, at: Time, wr: Writes, burned: set<ResetId>)
    requires DbInv(db, h) && AtomicRefresh(cfg, db, presented, mfa, at) == Some(wr)
    ensures DbInv(Apply(db, wr), Record(h, wr.out, burned))
  {
    ClassifyRefresh(cfg, db, h, presented, mfa, at, wr);
    if IsRotation(db, wr) {
      RotationFramed(db, h, wr, burned);
      RotationKeeps(db, h, wr, Apply(db, wr), Record(h, wr.out, burned));
    } else {
      EndingFramed(db, h, presented.session, wr, burned);
      EndingKeeps(db, h, presented.session, wr, Apply(db, wr));
    }
  }

  lemma LogoutKeeps(db: Db, h: History, s: SessionId, at: Time, wr: Writes, burned: set<ResetId>)
    requires DbInv(db, h) && AtomicLogout(db, s, at) == Some(wr)
    ensures DbInv(Apply(db, wr), Record(h, wr.out, burned))
  {
    ClassifyLogout(db, s, at, wr);
    EndingFramed(db, h, s, wr, burned);
    EndingKeeps(db, h, s, wr, Apply(db, wr));
  }

  predicate BumpFrame(db: Db, u: UserId, wr: Writes, db': Db) {
    && u in wr.users && db'.sessions == db.sessions + wr.sessions && db'.users == db.users[u := wr.users[u]]
    && db'.creds == db.creds && db'.codes == db.codes && db'.audit == db.audit + wr.audit && db'.tokens == db.tokens + wr.tokens
  }

  lemma BumpKeeps(db: Db, h: History, u: UserId, wr: Writes, db': Db, h': History)
    requires DbInv(db, h) && IsBump(db, u, wr) && SweptRows(db, u, wr.sessions) && BumpFrame(db, u, wr, db')
    requires SameSessionHistory(h, h') && h'.access == h.access && h'.accepted == h.accepted
    ensures Epochs(db', h') && Refreshes(db', h') && AllBalanced(db') && FactorsOk(db', h')
  {
    BumpKeepsSessions(db, h, u, wr, db', h');
    BumpKeepsFactors(db, h, u, wr, db', h');
    BumpKeepsLedger(db, u, wr, db');
  }

  lemma BumpFramed(db: Db, u: UserId, wr: Writes)
    requires wr.users.Keys == {u} && wr.creds == map[] && wr.codes == map[] && wr.clearUnusedCodesOf.None?
    ensures BumpFrame(db, u, wr, Apply(db, wr))
  {
    KeptCodes(db, wr);
    PlusNothing(db.creds);
    PlusNothing(db.codes);
    PlusOne(db.users, wr.users, u);
  }

  lemma SetActiveKeeps(db: Db, h: History, u: UserId, active: bool, at: Time, wr: Writes, burned: set<ResetId>)
    requires DbInv(db, h) && AtomicSetActive(db, u, active, at) == Some(wr)
    ensures DbInv(Apply(db, wr), Record(h, wr.out, burned))
  {
    ClassifySetActive(db, u, active, at, wr);
    BumpFramed(db, u, wr);
    PlusNothing(db.tokens);
    if active {
      PlusNothing(db.sessions);
      ReactivationKeeps(db, h, u, wr, Apply(db, wr));
    } else {
      SweepShape(db, u, at);
      BumpKeeps(db, h, u, wr, Apply(db, wr), h);
    }
  }

  /** What a reset did to the token table, and what it recorded. */
  ghost predicate RedemptionFrame(db: Db, h: History, k: ResetId, visible: set<ResetId>, used: map<ResetId, ResetToken>, db': Db, h': History) {
    && k in db.tokens && db.tokens[k].usedAt.None? && k in used && db'.tokens == db.tokens + used
    && (forall x :: x in used ==> x in db.tokens && used[x].usedAt.Some?)
    && (forall x :: x in visible ==> x in db.tokens && (db.tokens[x].usedAt.None? ==> x in used))
    && h'.redeemed == h.redeemed + [k] && h'.burned == h.burned + visible
  }

  lemma RedemptionKeeps(db: Db, h: History, k: ResetId, visible: set<ResetId>, used: map<ResetId, ResetToken>, db': Db, h': History)
    requires ResetsOk(db, h) && RedemptionFrame(db, h, k, visible, used, db', h')
    ensures ResetsOk(db', h')
  {
  }

  lemma ResetKeeps(db: Db, h: History, k: ResetId, newHash: string, visible: set<ResetId>, at: Time, wr: Writes)
    requires DbInv(db, h) && AtomicReset(db, k, newHash, visible, at) == Some(wr)
    requires forall x :: x in visible ==> x in db.tokens && db.tokens[x].owner == db.tokens[k].owner
    ensures DbInv(Apply(db, wr), Record(h, wr.out, visible))
  {
    ClassifyReset(db, k, newHash, visible, at, wr);
    var u, db', h' := db.tokens[k].owner, Apply(db, wr), Record(h, wr.out, visible);
    BumpFramed(db, u, wr);
    SweepShape(db, u, at);
    BumpKeeps(db, h, u, wr, db', h');
    RedemptionKeeps(db, h, k, visible, wr.tokens, db', h');
  }

  lemma MfaMintFramed(cfg: Config, db: Db, h: History, t: TxId, u: UserId, epoch: nat, sub: Submission,
                      verifiedAt: Time, at: Time, wr: Writes, burned: set<ResetId>)
    requires AtomicMfaLogin(cfg, db, t, u, epoch, sub, verifiedAt, at) == Some(wr) && wr.out.NewSession?
    ensures wr.out.access.user == u && wr.out.factor.Some?
    ensures SpendFrame(db, h, t, u, verifiedAt, wr.out.factor.value, Apply(db, wr), Record(h, wr.out, burned))
  {
    MfaLoginSpends(cfg, db, t, u, epoch, sub, verifiedAt, at, wr);
    KeptCodes(db, wr);
    RecordedMint(h, wr.out, burned);
    PlusOne(db.creds, wr.creds, u);
    if wr.out.factor.value.Recovery? {
      PlusOne(db.codes, wr.codes, wr.out.factor.value.code);
    } else {
      PlusNothing(db.codes);
    }
  }

  lemma MfaMintKeeps(db: Db, h: History, t: TxId, u: UserId, at: Time, wr: Writes, db': Db, h': History)
    requires DbInv(db, h) && t !in db.sessions && IsMint(db, t, wr) && MintFrame(db, h, t, wr, db', h')
    requires wr.out.access.user == u && wr.out.factor.Some? && SpendFrame(db, h, t, u, at, wr.out.factor.value, db', h')
    ensures DbInv(db', h')
  {
    MintKeeps(db, h, t, wr, db', h');
    MfaLoginFactors(db, h, t, u, at, wr.out.factor.value, db', h');
  }

  lemma MfaLoginKeeps(cfg: Config, db: Db, h: History, t: TxId, u: UserId, epoch: nat, sub: Submission,
                      verifiedAt: Time, at: Time, wr: Writes, burned: set<ResetId>)
    requires DbInv(db, h) && t !in db.sessions && AtomicMfaLogin(cfg, db, t, u, epoch, sub, verifiedAt, at) == Some(wr)
    ensures DbInv(Apply(db, wr), Record(h, wr.out, burned))
  {
    ClassifyMfaLogin(cfg, db, t, u, epoch, sub, verifiedAt, at, wr);
    if IsQuiet(wr) {
      MfaLoginSpends(cfg, db, t, u, epoch, sub, verifiedAt, at, wr);
      QuietFramed(db, h, wr, burned);
      QuietKeeps(db, h, wr, Apply(db, wr));
    } else {
      MintFramed(db, h, t, wr, burned);
      MfaMintFramed(cfg, db, h, t, u, epoch, sub, verifiedAt, at, wr, burned);
      MfaMintKeeps(db, h, t, u, verifiedAt, wr, Apply(db, wr), Record(h, wr.out, burned));
    }
  }

  /** The tables and history of a confirmed enrolment. */
  ghost predicate EnrolmentFrame(db: Db, h: History, claims: AccessToken, step: int, at: Time, wr: Writes, db': Db, h': History) {
    var u := claims.user;
    && IsQuiet(wr) && u in db.creds && !db.creds[u].Enabled() && InWindow(step, CurrentStep(at))
    && db'.sessions == db.sessions && db'.users == db.users && db'.audit == db.audit + wr.audit && SameResets(db, h, db', h')
    && db'.creds == db.creds[u := RecordStep(Enable(db.creds[u], at), step, at)]
    && (forall c :: c in db.codes ==> c in db'.codes && db'.codes[c] == db.codes[c])
    && SameSessionHistory(h, h') && h'.access == h.access + {claims.(mfa := true)}
    && h'.accepted == h.accepted[u := AcceptedBy(h, u) + [Acceptance(step, at)]]
  }

  lemma ConfirmSetupFrame(cfg: Config, db: Db, h: History, claims: AccessToken, digits: string, newCodes: set<CodeId>,
                          at: Time, wr: Writes, burned: set<ResetId>)
    requires newCodes !! db.codes.Keys && Referential(db)
    requires AtomicConfirmSetup(cfg, db, claims, digits, newCodes, at) == Some(wr)
    ensures wr.out.Enrolment? && EnrolmentFrame(db, h, claims, wr.out.step, at, wr, Apply(db, wr), Record(h, wr.out, burned))
  {
    ClassifyConfirmSetup(cfg, db, claims, digits, newCodes, at, wr);
    assert KeepCodes(db.codes, Some(claims.user)) == db.codes;
    PlusNothing(db.users);
    PlusNothing(db.sessions);
    PlusNothing(db.tokens);
  }

  lemma EnrolmentKeeps(db: Db, h: History, claims: AccessToken, step: int, at: Time, wr: Writes, db': Db, h': History)
    requires DbInv(db, h) && claims in h.access && EnrolmentFrame(db, h, claims, step, at, wr, db', h')
    ensures DbInv(db', h')
  {
    QuietEpochs(db, h, {claims.(mfa := true)}, db', h');
    SameTokensRefreshes(db, h, db', h');
    NeutralBalanced(db, db', wr.audit);
    EnrolmentFactors(db, h, claims.user, step, at, db'.creds[claims.user], db', h');
  }

  lemma ConfirmSetupKeeps(cfg: Config, db: Db, h: History, claims: AccessToken, digits: string, newCodes: set<CodeId>,
                          at: Time, wr: Writes, burned: set<ResetId>)
    requires DbInv(db, h) && claims in h.access && newCodes !! db.codes.Keys && Referential(db)
    requires AtomicConfirmSetup(cfg, db, claims, digits, newCodes, at) == Some(wr)
    ensures DbInv(Apply(db, wr), Record(h, wr.out, burned))
  {
    ConfirmSetupFrame(cfg, db, h, claims, digits, newCodes, at, wr, burned);
    EnrolmentKeeps(db, h, claims, wr.out.step, at, wr, Apply(db, wr), Record(h, wr.out, burned));
  }
}
