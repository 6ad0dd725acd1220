/**
 The audit log as a ledger: what the permanently kept rows say about an account
 adds up to the state of its tables.
 */
module Ledger {
  import opened Text
  import opened Accounts
  import opened Safety

  function RevokedSessions(db: Db, u: UserId): set<SessionId> {
    set s | s in db.sessions && db.sessions[s].owner == u && db.sessions[s].Revoked()
  }

  /** How many of the account's sessions this row says were ended. */
  function RevokedBy(row: AuditRow, u: UserId): nat {
    match row
    case PasswordReset(v, n) => if v == u then n else 0
    case ActiveChanged(v, _, _, n) => if v == u then n else 0
    case LoggedOut(v, _) => if v == u then 1 else 0
    case ReuseDetected(v, _) => if v == u then 1 else 0
    case _ => 0
  }

  function AuditedRevocations(audit: seq<AuditRow>, u: UserId): nat {
    if audit == [] then 0
    else AuditedRevocations(audit[..|audit| - 1], u) + RevokedBy(audit[|audit| - 1], u)
  }

  predicate AdvancesEpoch(row: AuditRow, u: UserId) {
    row.user == u && (row.PasswordReset? || (row.ActiveChanged? && !row.after))
  }

  function AuditedBumps(audit: seq<AuditRow>, u: UserId): nat {
    if audit == [] then 0
    else AuditedBumps(audit[..|audit| - 1], u) + if AdvancesEpoch(audit[|audit| - 1], u) then 1 else 0
  }

  /**
   The activation state an auditor reconstructs from the rows alone, starting
   from an active account; None as soon as a row does not start where the one
   before it ended, or does not change anything.
   */
  function Reconstructed(audit: seq<AuditRow>, u: UserId): Option<bool> {
    if audit == [] then Some(true)
    else
      var before := Reconstructed(audit[..|audit| - 1], u);
      var row := audit[|audit| - 1];
      if !row.ActiveChanged? || row.user != u then before
      else if before == Some(row.before) && row.after != row.before then Some(row.after)
      else None
  }

  ghost predicate Balanced(db: Db, u: UserId) {
    && |RevokedSessions(db, u)| == AuditedRevocations(db.audit, u)
    && AuditedBumps(db.audit, u) == (if u in db.users then db.users[u].epoch else 0)
    && Reconstructed(db.audit, u) == Some(if u in db.users then db.users[u].active else true)
  }

  ghost predicate AllBalanced(db: Db) {
    forall u :: Balanced(db, u)
  }

  lemma AppendOne(audit: seq<AuditRow>, row: AuditRow, u: UserId)
    ensures AuditedRevocations(audit + [row], u) == AuditedRevocations(audit, u) + RevokedBy(row, u)
    ensures AuditedBumps(audit + [row], u) == AuditedBumps(audit, u) + if AdvancesEpoch(row, u) then 1 else 0
    ensures row.ActiveChanged? && row.user == u && Reconstructed(audit, u) == Some(row.before) && row.after != row.before ==>
      Reconstructed(audit + [row], u) == Some(row.after)
    ensures !row.ActiveChanged? || row.user != u ==> Reconstructed(audit + [row], u) == Reconstructed(audit, u)
  {
    assert (audit + [row])[..|audit|] == audit;
  }

  lemma {:induction false} AppendNeutral(audit: seq<AuditRow>, more: seq<AuditRow>, u: UserId)
    requires forall i :: 0 <= i < |more| ==> Neutral(more[i])
    ensures AuditedRevocations(audit + more, u) == AuditedRevocations(audit, u)
    ensures AuditedBumps(audit + more, u) == AuditedBumps(audit, u)
    ensures Reconstructed(audit + more, u) == Reconstructed(audit, u)
  {
    if more == [] {
      assert audit + more == audit;
    } else {
      var last := |more| - 1;
      AppendNeutral(audit, more[..last], u);
      AppendOne(audit + more[..last], more[last], u);
      assert audit + more == audit + more[..last] + [more[last]];
    }
  }

  /** Commits that add live sessions or rotate them, with audit rows about neither revocation nor epoch. */
  lemma NeutralBalanced(db: Db, db': Db, more: seq<AuditRow>)
    requires AllBalanced(db) && db'.audit == db.audit + more && forall i :: 0 <= i < |more| ==> Neutral(more[i])
    requires db'.users == db.users
    requires forall s :: s in db'.sessions && db'.sessions[s].Revoked() ==> s in db.sessions && db.sessions[s].Revoked()
    requires forall s :: s in db.sessions ==>
      s in db'.sessions && db'.sessions[s].owner == db.sessions[s].owner && (db.sessions[s].Revoked() ==> db'.sessions[s].Revoked())
    ensures AllBalanced(db')
  {
    forall u ensures Balanced(db', u) {
      assert Balanced(db, u);
      AppendNeutral(db.audit, more, u);
      assert RevokedSessions(db', u) == RevokedSessions(db, u);
    }
  }

  lemma EndingBalanced(db: Db, db': Db, s: SessionId, row: Session, entry: AuditRow)
    requires AllBalanced(db) && db'.audit == db.audit + [entry] && db'.users == db.users
    requires s in db.sessions && !db.sessions[s].Revoked() && row.Revoked() && row.owner == db.sessions[s].owner
    requires db'.sessions == db.sessions[s := row]
    requires entry == LoggedOut(row.owner, s) || entry == ReuseDetected(row.owner, s)
    ensures AllBalanced(db')
  {
    forall u ensures Balanced(db', u) {
      assert Balanced(db, u);
      AppendOne(db.audit, entry, u);
      if u == row.owner {
        assert RevokedSessions(db', u) == RevokedSessions(db, u) + {s};
      } else {
        assert RevokedSessions(db', u) == RevokedSessions(db, u);
      }
    }
  }

  lemma RevokedAfterSweep(db: Db, db': Db, v: UserId, revoked: map<SessionId, Session>, u: UserId)
    requires revoked.Keys == (set s | s in db.sessions && db.sessions[s].owner == v && !db.sessions[s].Revoked())
    requires forall s :: s in revoked ==> revoked[s].owner == v && revoked[s].Revoked()
    requires db'.sessions == db.sessions + revoked
    ensures |RevokedSessions(db', u)| == |RevokedSessions(db, u)| + if u == v then |revoked| else 0
  {
    if u == v {
      assert RevokedSessions(db', u) == RevokedSessions(db, u) + revoked.Keys;
      assert RevokedSessions(db, u) !! revoked.Keys;
      assert |revoked.Keys| == |revoked|;
    } else {
      assert RevokedSessions(db', u) == RevokedSessions(db, u);
    }
  }

  /** The count in a reset or deactivation row is exactly the number of sessions it ended. */
  lemma BumpBalanced(db: Db, db': Db, v: UserId, user: User, revoked: map<SessionId, Session>, entry: AuditRow)
    requires AllBalanced(db) && db'.audit == db.audit + [entry] && v in db.users && db.users[v].active
    requires db'.users == db.users[v := user] && user.epoch == db.users[v].epoch + 1
    requires revoked.Keys == (set s | s in db.sessions && db.sessions[s].owner == v && !db.sessions[s].Revoked())
    requires forall s :: s in revoked ==> revoked[s].owner == v && revoked[s].Revoked()
    requires db'.sessions == db.sessions + revoked
    requires (entry == PasswordReset(v, |revoked|) && user.active) || (entry == ActiveChanged(v, true, false, |revoked|) && !user.active)
    ensures AllBalanced(db')
  {
    forall u ensures Balanced(db', u) {
      assert Balanced(db, u);
      AppendOne(db.audit, entry, u);
      RevokedAfterSweep(db, db', v, revoked, u);
    }
  }

  lemma ReactivationBalanced(db: Db, db': Db, v: UserId, user: User)
    requires AllBalanced(db) && db'.audit == db.audit + [ActiveChanged(v, false, true, 0)]
    requires v in db.users && !db.users[v].active && user.active && user.epoch == db.users[v].epoch
    requires db'.users == db.users[v := user] && db'.sessions == db.sessions
    ensures AllBalanced(db')
  {
    forall u ensures Balanced(db', u) {
      assert Balanced(db, u);
      AppendOne(db.audit, ActiveChanged(v, false, true, 0), u);
      assert RevokedSessions(db', u) == RevokedSessions(db, u);
    }
  }

  // ---- What an auditor reads off --------------------------------------------

  /** Whether `audit[i]` is the latest activation row of `u` before position `j`. */
  ghost predicate Precedes(audit: seq<AuditRow>, u: UserId, i: int, j: int) {
    && 0 <= i < j <= |audit| && audit[i].ActiveChanged? && audit[i].user == u
    && forall m :: i < m < j ==> !(audit[m].ActiveChanged? && audit[m].user == u)
  }

  /** A log that can be replayed to its end could be replayed all along, and ends where its last row says. */
  lemma {:induction false} ReplayedPrefix(audit: seq<AuditRow>, u: UserId, i: int)
    requires Reconstructed(audit, u).Some? && Precedes(audit, u, i, |audit|)
    ensures Reconstructed(audit, u) == Some(audit[i].after)
    ensures Reconstructed(audit[..i], u) == Some(audit[i].before) && audit[i].after != audit[i].before
  {
    var last := |audit| - 1;
    if i < last {
      assert audit[..last][..i] == audit[..i];
      ReplayedPrefix(audit[..last], u, i);
    }
  }

  lemma {:induction false} ReplayablePrefix(audit: seq<AuditRow>, u: UserId, n: nat)
    requires Reconstructed(audit, u).Some? && n <= |audit|
    ensures Reconstructed(audit[..n], u).Some?
  {
    if n < |audit| {
      ReplayablePrefix(audit[..|audit| - 1], u, n);
      assert audit[..|audit| - 1][..n] == audit[..n];
    } else {
      assert audit[..n] == audit;
    }
  }

  /** Consecutive activation rows of one account meet end to start and strictly alternate. */
  lemma ActivationRowsAlternate(audit: seq<AuditRow>, u: UserId, i: int, j: int)
    requires Reconstructed(audit, u).Some? && Precedes(audit, u, i, j) && j < |audit|
    requires audit[j].ActiveChanged? && audit[j].user == u
    ensures audit[j].before == audit[i].after && audit[j].after == !audit[i].after
  {
    ReplayablePrefix(audit, u, j + 1);
    var upto := audit[..j + 1];
    assert upto[..j] == audit[..j];
    ReplayedPrefix(audit[..j], u, i);
    ReplayedPrefix(upto, u, j);
  }
}
