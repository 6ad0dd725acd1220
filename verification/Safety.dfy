/**
 What every command keeps, stated on the committed tables and on what has been
 handed out. Commands are taken in their indivisible form, which is all an
 interleaving ever commits.
 */
module Safety {
  import opened Text
  import opened Units
  import opened Accounts
  import opened Serial
  import opened Transactions
  import opened Locking

  // ---- Epochs -----------------------------------------------------------------

  /**
   A session born in its account's current epoch belongs to an account that can
   authenticate, a live session was born in the current epoch, and every access
   token carries the epoch of the session it belongs to.
   */
  ghost predicate Epochs(db: Db, h: History) {
    && h.born.Keys == db.sessions.Keys
    && (forall s {:trigger SessionEpochOk(db, h, s)} :: s in db.sessions ==> SessionEpochOk(db, h, s))
    && (forall a {:trigger AccessOk(db, h, a)} :: a in h.access ==> AccessOk(db, h, a))
  }

  predicate AccessOk(db: Db, h: History, a: AccessToken) {
    && a.session in db.sessions && db.sessions[a.session].owner == a.user
    && a.session in h.born && a.epoch == h.born[a.session]
  }

  ghost predicate SessionEpochOk(db: Db, h: History, s: SessionId)
    requires s in db.sessions && s in h.born
  {
    var row := db.sessions[s];
    && row.owner in db.users && h.born[s] <= db.users[row.owner].epoch
    && (h.born[s] == db.users[row.owner].epoch ==> db.users[row.owner].CanAuthenticate())
    && (!row.Revoked() ==> h.born[s] == db.users[row.owner].epoch)
  }

  // ---- The kinds of commit ----------------------------------------------------

  /** An audit row that records neither a revocation nor an epoch change. */
  predicate Neutral(row: AuditRow) {
    !row.LoggedOut? && !row.ReuseDetected? && !row.PasswordReset? && !row.ActiveChanged?
  }

  /** A session is minted for an account that can authenticate, stamped with its epoch. */
  ghost predicate IsMint(db: Db, t: SessionId, wr: Writes) {
    && wr.out.NewSession? && wr.out.session == t && wr.users == map[] && wr.tokens == map[]
    && (forall i :: 0 <= i < |wr.audit| ==> Neutral(wr.audit[i]))
    && (var access, refresh := wr.out.access, wr.out.refresh;
        var u := access.user;
        && u in db.users && db.users[u].CanAuthenticate()
        && access.session == t && access.epoch == db.users[u].epoch
        && refresh.session == t && refresh.version == 1
        && wr.sessions == map[t := Session(u, Sha256(refresh), 1, refresh.expiresAt, None, None, None, None)])
  }

  /** A live session rotates: the presented token was the current one, the new one is a version ahead. */
  ghost predicate IsRotation(db: Db, wr: Writes) {
    && wr.out.Rotation? && wr.users == map[] && wr.tokens == map[] && wr.creds == map[] && wr.codes == map[] && wr.audit == []
    && (var presented, refresh, access := wr.out.presented, wr.out.refresh, wr.out.access;
        var s := presented.session;
        && s in db.sessions && db.sessions[s].owner in db.users && !db.sessions[s].Revoked()
        && db.sessions[s].tokenHash == Sha256(presented) && db.sessions[s].version == presented.version
        && access.session == s && access.user == db.sessions[s].owner && access.epoch == db.users[access.user].epoch
        && refresh.session == s && refresh.version == presented.version + 1 && refresh.expiresAt == db.sessions[s].expiresAt
        && wr.sessions.Keys == {s}
        && wr.sessions[s] == db.sessions[s].(tokenHash := Sha256(refresh), version := refresh.version,
                                             rotatedAt := wr.sessions[s].rotatedAt, lastUsedAt := wr.sessions[s].lastUsedAt))
  }

  /** One live session is revoked and its one audit row says so. */
  ghost predicate IsEnding(db: Db, s: SessionId, wr: Writes) {
    && wr.out.Nothing? && wr.users == map[] && wr.tokens == map[] && wr.creds == map[] && wr.codes == map[]
    && s in db.sessions && !db.sessions[s].Revoked() && wr.sessions.Keys == {s} && wr.sessions[s].Revoked()
    && wr.sessions[s] == db.sessions[s].(revokedAt := wr.sessions[s].revokedAt, reuseDetectedAt := wr.sessions[s].reuseDetectedAt)
    && (wr.audit == [LoggedOut(db.sessions[s].owner, s)] || wr.audit == [ReuseDetected(db.sessions[s].owner, s)])
  }

  /** A reset or a deactivation: the epoch advances, every live session is revoked, one audit row counts them. */
  ghost predicate IsBump(db: Db, u: UserId, wr: Writes) {
    && wr.creds == map[] && wr.codes == map[]
    && u in db.users && db.users[u].CanAuthenticate() && wr.users.Keys == {u} && wr.users[u].epoch == db.users[u].epoch + 1
    && ((wr.audit == [PasswordReset(u, |wr.sessions|)] && wr.out.Redemption? && wr.users[u].active == db.users[u].active)
        || (wr.audit == [ActiveChanged(u, true, false, |wr.sessions|)] && wr.out.Nothing? && wr.tokens == map[] && !wr.users[u].active))
  }

  ghost predicate IsReactivation(db: Db, u: UserId, wr: Writes) {
    && wr.out.Nothing? && wr.tokens == map[] && wr.sessions == map[] && wr.creds == map[] && wr.codes == map[]
    && u in db.users && !db.users[u].active && wr.users == map[u := db.users[u].(active := true)]
    && !db.users[u].anonymized && !db.users[u].deleted
    && wr.audit == [ActiveChanged(u, false, true, 0)]
  }

  /** Neither accounts nor sessions move. */
  ghost predicate IsQuiet(wr: Writes) {
    && wr.users == map[] && wr.sessions == map[] && wr.tokens == map[]
    && (wr.out.Nothing? || wr.out.Challenge? || wr.out.Enrolment?)
    && (forall i :: 0 <= i < |wr.audit| ==> Neutral(wr.audit[i]))
  }

  lemma ClassifyLogin(cfg: Config, db: Db, t: TxId, u: UserId, password: string, gate: bool, at: Time, wr: Writes)
    requires AtomicLogin(cfg, db, t, u, password, gate, at) == Some(wr)
    ensures IsMint(db, t, wr) || IsQuiet(wr)
    ensures wr.creds == map[] && wr.codes == map[] && wr.clearUnusedCodesOf.None? && !wr.out.Enrolment?
    ensures wr.out.NewSession? ==> wr.out.factor.None? && !wr.out.access.mfa && wr.audit == [LoggedIn(u, t)]
  {
  }

  /** The branch for an owner who may no longer authenticate is never reached: his sessions are already revoked. */
  lemma ClassifyRefresh(cfg: Config, db: Db, h: History, presented: RefreshToken, mfa: bool, at: Time, wr: Writes)
    requires Epochs(db, h) && AtomicRefresh(cfg, db, presented, mfa, at) == Some(wr)
    ensures IsRotation(db, wr) || IsEnding(db, presented.session, wr)
    ensures wr.clearUnusedCodesOf.None?
  {
    assert SessionEpochOk(db, h, presented.session);
  }

  lemma ClassifyLogout(db: Db, s: SessionId, at: Time, wr: Writes)
    requires AtomicLogout(db, s, at) == Some(wr)
    ensures IsEnding(db, s, wr) && wr.clearUnusedCodesOf.None?
  {
  }

  lemma ClassifyReset(db: Db, k: ResetId, newHash: string, visible: set<ResetId>, at: Time, wr: Writes)
    requires AtomicReset(db, k, newHash, visible, at) == Some(wr)
    ensures IsBump(db, db.tokens[k].owner, wr) && wr.sessions == RevokeAll(SessionsOf(db.sessions, db.tokens[k].owner), at)
    ensures wr.clearUnusedCodesOf.None? && wr.out == Redemption(k) && db.tokens[k].usedAt.None? && k in wr.tokens
    ensures forall x :: x in wr.tokens ==> x in db.tokens && TokenEvolves(db.tokens[x], wr.tokens[x]) && wr.tokens[x].usedAt.Some?
    ensures forall x :: x in visible && x in db.tokens && db.tokens[x].owner == db.tokens[k].owner && db.tokens[x].usedAt.None? ==> x in wr.tokens
  {
  }

  lemma ClassifySetActive(db: Db, u: UserId, active: bool, at: Time, wr: Writes)
    requires AtomicSetActive(db, u, active, at) == Some(wr)
    ensures if active then IsReactivation(db, u, wr) else IsBump(db, u, wr) && wr.sessions == RevokeAll(SessionsOf(db.sessions, u), at)
    ensures wr.clearUnusedCodesOf.None? && wr.out.Nothing?
  {
  }

  lemma ClassifyMfaLogin(cfg: Config, db: Db, t: TxId, u: UserId, epoch: nat, sub: Submission, verifiedAt: Time, at: Time, wr: Writes)
    requires AtomicMfaLogin(cfg, db, t, u, epoch, sub, verifiedAt, at) == Some(wr)
    ensures IsMint(db, t, wr) || IsQuiet(wr)
  {
    var code := if sub.SubmittedRecovery? then Get(db.codes, sub.code) else None;
    CheckedFactor(cfg, u, db.creds[u], sub, code, verifiedAt);
  }

  lemma ClassifyConfirmSetup(cfg: Config, db: Db, claims: AccessToken, digits: string, newCodes: set<CodeId>, at: Time, wr: Writes)
    requires AtomicConfirmSetup(cfg, db, claims, digits, newCodes, at) == Some(wr)
    ensures IsQuiet(wr) && wr.out.Enrolment? && wr.out.access == claims.(mfa := true)
  {
  }

  // ---- Epochs, kind by kind ---------------------------------------------------

  lemma MintEpochs(db: Db, h: History, t: TxId, row: Session, access: AccessToken, db': Db, h': History)
    requires Epochs(db, h) && t !in db.sessions && db'.users == db.users && db'.sessions == db.sessions[t := row]
    requires h'.born == h.born[t := access.epoch] && h'.access == h.access + {access}
    requires row.owner in db.users && db.users[row.owner].CanAuthenticate()
    requires access.user == row.owner && access.session == t && access.epoch == db.users[row.owner].epoch
    ensures Epochs(db', h')
  {
    forall s | s in db'.sessions ensures SessionEpochOk(db', h', s) {
      assert s != t ==> SessionEpochOk(db, h, s);
    }
    forall a | a in h'.access ensures AccessOk(db', h', a) {
      assert a in h.access ==> AccessOk(db, h, a);
    }
  }

  lemma RotationEpochs(db: Db, h: History, s: SessionId, row: Session, access: AccessToken, db': Db, h': History)
    requires Epochs(db, h) && s in db.sessions && db'.users == db.users && db'.sessions == db.sessions[s := row]
    requires h'.born == h.born && h'.access == h.access + {access}
    requires row.owner == db.sessions[s].owner && !db.sessions[s].Revoked() && !row.Revoked() && row.owner in db.users
    requires access.user == row.owner && access.session == s && access.epoch == db.users[row.owner].epoch
    ensures Epochs(db', h')
  {
    assert SessionEpochOk(db, h, s);
    forall q | q in db'.sessions ensures SessionEpochOk(db', h', q) {
      assert SessionEpochOk(db, h, q);
    }
    forall a | a in h'.access ensures AccessOk(db', h', a) {
      assert a in h.access ==> AccessOk(db, h, a);
    }
  }

  /** Commits that only revoke sessions. */
  lemma EndingEpochs(db: Db, h: History, db': Db, h': History)
    requires Epochs(db, h) && db'.users == db.users && h'.born == h.born && h'.access == h.access
    requires db'.sessions.Keys == db.sessions.Keys
    requires forall s :: s in db.sessions ==>
      db'.sessions[s].owner == db.sessions[s].owner && (db.sessions[s].Revoked() ==> db'.sessions[s].Revoked())
    ensures Epochs(db', h')
  {
    forall q | q in db'.sessions ensures SessionEpochOk(db', h', q) {
      assert SessionEpochOk(db, h, q);
    }
    forall a | a in h'.access ensures AccessOk(db', h', a) {
      assert a in h.access ==> AccessOk(db, h, a);
    }
  }

  /** Advancing the epoch leaves no session born in it, and the sweep leaves none of the account live. */
  lemma BumpEpochs(db: Db, h: History, u: UserId, user: User, db': Db, h': History)
    requires Epochs(db, h) && u in db.users && db'.users == db.users[u := user] && user.epoch == db.users[u].epoch + 1
    requires h'.born == h.born && h'.access == h.access && db'.sessions.Keys == db.sessions.Keys
    requires forall s :: s in db.sessions ==>
      db'.sessions[s].owner == db.sessions[s].owner && (db.sessions[s].owner == u || db.sessions[s].Revoked() ==> db'.sessions[s].Revoked())
    ensures Epochs(db', h')
  {
    forall s | s in db'.sessions ensures SessionEpochOk(db', h', s) {
      assert SessionEpochOk(db, h, s);
    }
    forall a | a in h'.access ensures AccessOk(db', h', a) {
      assert a in h.access ==> AccessOk(db, h, a);
    }
  }

  lemma ReactivationEpochs(db: Db, h: History, u: UserId, user: User, db': Db, h': History)
    requires Epochs(db, h) && u in db.users && db'.users == db.users[u := user] && user.epoch == db.users[u].epoch
    requires !db.users[u].CanAuthenticate() && db'.sessions == db.sessions && h'.born == h.born && h'.access == h.access
    ensures Epochs(db', h')
  {
    forall s | s in db'.sessions ensures SessionEpochOk(db', h', s) {
      assert SessionEpochOk(db, h, s);
    }
    forall a | a in h'.access ensures AccessOk(db', h', a) {
      assert a in h.access ==> AccessOk(db, h, a);
    }
  }

  lemma QuietEpochs(db: Db, h: History, more: set<AccessToken>, db': Db, h': History)
    requires Epochs(db, h) && db'.users == db.users && db'.sessions == db.sessions
    requires h'.born == h.born && h'.access == h.access + more
    requires forall b :: b in more ==> exists a :: a in h.access && b == a.(mfa := true)
    ensures Epochs(db', h')
  {
    forall s | s in db'.sessions ensures SessionEpochOk(db', h', s) {
      assert SessionEpochOk(db, h, s);
    }
    forall b | b in h'.access ensures AccessOk(db', h', b) {
      if b in h.access {
        assert AccessOk(db, h, b);
      } else {
        var a :| a in h.access && b == a.(mfa := true);
        assert AccessOk(db, h, a);
      }
    }
  }

  // ---- Refresh tokens ---------------------------------------------------------

  /** No issued token is ahead of its session, and the one at its version is the one it stores. */
  ghost predicate IssuedOk(db: Db, h: History, token: RefreshToken)
    requires token in h.refresh
  {
    && token.session in db.sessions && token.session in h.born && h.refresh[token] == h.born[token.session]
    && token.version <= db.sessions[token.session].version && token.expiresAt == db.sessions[token.session].expiresAt
    && (token.version == db.sessions[token.session].version ==> db.sessions[token.session].tokenHash == Sha256(token))
  }

  ghost predicate StoredOk(db: Db, h: History, s: SessionId)
    requires s in db.sessions
  {
    var token := db.sessions[s].tokenHash.token;
    token in h.refresh && token.session == s && token.version == db.sessions[s].version
  }

  /** Versions spent on rotations only go up within a session, and stay behind its current version. */
  ghost predicate RotationsOk(db: Db, h: History) {
    && (forall i :: 0 <= i < |h.rotated| ==>
          h.rotated[i].session in db.sessions && h.rotated[i].version < db.sessions[h.rotated[i].session].version)
    && (forall i, j :: 0 <= i < j < |h.rotated| && h.rotated[i].session == h.rotated[j].session ==>
          h.rotated[i].version < h.rotated[j].version)
  }

  predicate SameVersion(a: RefreshToken, b: RefreshToken) {
    a.session == b.session && a.version == b.version
  }

  ghost predicate Refreshes(db: Db, h: History) {
    && (forall token {:trigger IssuedOk(db, h, token)} :: token in h.refresh ==> IssuedOk(db, h, token))
    && (forall s {:trigger StoredOk(db, h, s)} :: s in db.sessions ==> StoredOk(db, h, s))
    && (forall a, b {:trigger SameVersion(a, b)} :: a in h.refresh && b in h.refresh && SameVersion(a, b) ==> a == b)
    && RotationsOk(db, h)
  }

  /** A session row takes a token of a version no issued token of that session has reached. */
  lemma NewTokenRefreshes(db: Db, h: History, s: SessionId, row: Session, token: RefreshToken, epoch: nat, db': Db, h': History)
    requires Refreshes(db, h) && db'.sessions == db.sessions[s := row] && h'.refresh == h.refresh[token := epoch]
    requires s in db.sessions ==>
      s in h.born && h'.born == h.born && epoch == h.born[s] && db.sessions[s].version < token.version && row.expiresAt == db.sessions[s].expiresAt
    requires s !in db.sessions ==> h'.born == h.born[s := epoch]
    requires row.tokenHash == Sha256(token) && row.version == token.version && token.session == s && token.expiresAt == row.expiresAt
    requires RotationsOk(db', h')
    ensures Refreshes(db', h')
  {
    forall x | x in h.refresh && x != token ensures IssuedOk(db', h', x) && !(x.session == s && x.version == token.version) {
      assert IssuedOk(db, h, x);
    }
    assert IssuedOk(db', h', token);
    forall q | q in db'.sessions ensures StoredOk(db', h', q) {
      assert q != s ==> StoredOk(db, h, q);
    }
  }

  /** Commits that leave every session's token, version and expiry alone. */
  lemma SameTokensRefreshes(db: Db, h: History, db': Db, h': History)
    requires Refreshes(db, h) && h'.refresh == h.refresh && h'.born == h.born && h'.rotated == h.rotated
    requires db'.sessions.Keys == db.sessions.Keys
    requires forall s :: s in db.sessions ==>
      db'.sessions[s].tokenHash == db.sessions[s].tokenHash && db'.sessions[s].version == db.sessions[s].version
      && db'.sessions[s].expiresAt == db.sessions[s].expiresAt
    ensures Refreshes(db', h')
  {
    forall token | token in h'.refresh ensures IssuedOk(db', h', token) {
      assert IssuedOk(db, h, token);
    }
    forall s | s in db'.sessions ensures StoredOk(db', h', s) {
      assert StoredOk(db, h, s);
    }
  }
}
