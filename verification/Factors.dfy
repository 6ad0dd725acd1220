/**
 Second factors are spent once. The mark a credential keeps is the last of a
 strictly increasing list of accepted steps (section 5.2 of RFC 6238), and each
 session born through MFA owns a factor no other session has.
 */
module Factors {
  import opened Text
  import opened Units
  import opened Totp
  import opened Accounts
  import opened Serial
  import opened Transactions
  import opened Locking

  predicate Increasing(accepted: seq<Acceptance>) {
    forall i, j :: 0 <= i < j < |accepted| ==> accepted[i].step < accepted[j].step
  }

  predicate InWindows(accepted: seq<Acceptance>) {
    forall i :: 0 <= i < |accepted| ==> InWindow(accepted[i].step, CurrentStep(accepted[i].at))
  }

  predicate StepAccepted(accepted: seq<Acceptance>, step: int) {
    exists i :: 0 <= i < |accepted| && accepted[i].step == step
  }

  /** The credential's replay mark and the steps it has accepted. */
  ghost predicate MarkOk(db: Db, h: History, u: UserId) {
    var accepted := AcceptedBy(h, u);
    && Increasing(accepted) && InWindows(accepted)
    && (u in db.creds ==> db.creds[u].lastStep == if accepted == [] then None else Some(accepted[|accepted| - 1].step))
    && (accepted != [] ==> u in db.creds && db.creds[u].Enabled())
  }

  /** The factor a session was born from is spent, and belonged to the session's account. */
  ghost predicate SpentOk(db: Db, h: History, s: SessionId)
    requires s in h.factors
  {
    && s in db.sessions
    && match h.factors[s]
       case TotpStep(u, step) => u == db.sessions[s].owner && StepAccepted(AcceptedBy(h, u), step)
       case Recovery(c) => c in db.codes && db.codes[c].usedAt.Some? && db.codes[c].owner == db.sessions[s].owner
  }

  ghost predicate FactorsOk(db: Db, h: History) {
    && (forall u :: MarkOk(db, h, u))
    && (forall s {:trigger SpentOk(db, h, s)} :: s in h.factors ==> SpentOk(db, h, s))
    && (forall s, q :: s in h.factors && q in h.factors && h.factors[s] == h.factors[q] ==> s == q)
  }

  /** A step past the mark is past every accepted step. */
  lemma PastTheMark(db: Db, h: History, u: UserId, step: int)
    requires MarkOk(db, h, u) && u in db.creds && !db.creds[u].Replayed(step)
    ensures !StepAccepted(AcceptedBy(h, u), step)
    ensures forall i :: 0 <= i < |AcceptedBy(h, u)| ==> AcceptedBy(h, u)[i].step < step
  {
    var accepted := AcceptedBy(h, u);
    if accepted != [] {
      assert forall i :: 0 <= i < |accepted| ==> accepted[i].step <= accepted[|accepted| - 1].step;
    }
  }

  /** Accepting an unspent step keeps the list increasing and the mark at its end. */
  lemma AcceptStep(db: Db, h: History, u: UserId, step: int, at: Time, cred: Credential, db': Db, h': History)
    requires (forall v :: MarkOk(db, h, v)) && u in db.creds && !db.creds[u].Replayed(step)
    requires InWindow(step, CurrentStep(at))
    requires cred.lastStep == Some(step) && cred.Enabled()
    requires db'.creds == db.creds[u := cred] && h'.accepted == h.accepted[u := AcceptedBy(h, u) + [Acceptance(step, at)]]
    ensures forall v :: MarkOk(db', h', v)
    ensures forall v, x :: StepAccepted(AcceptedBy(h', v), x) <==> StepAccepted(AcceptedBy(h, v), x) || (v == u && x == step)
  {
    PastTheMark(db, h, u, step);
    var before, after := AcceptedBy(h, u), AcceptedBy(h', u);
    assert after == before + [Acceptance(step, at)];
    forall v ensures MarkOk(db', h', v) {
      assert MarkOk(db, h, v);
      assert v != u ==> AcceptedBy(h', v) == AcceptedBy(h, v);
    }
    forall v, x ensures StepAccepted(AcceptedBy(h', v), x) <==> StepAccepted(AcceptedBy(h, v), x) || (v == u && x == step) {
      if v == u {
        if StepAccepted(before, x) {
          var i :| 0 <= i < |before| && before[i].step == x;
          assert after[i].step == x;
        }
        assert after[|before|].step == step;
      }
    }
  }

  /** Tables and history where sessions keep their owners, spent codes stay spent and accepted steps stay accepted. */
  ghost predicate Grows(db: Db, h: History, db': Db, h': History) {
    && (forall s :: s in db.sessions ==> s in db'.sessions && db'.sessions[s].owner == db.sessions[s].owner)
    && (forall c :: c in db.codes && db.codes[c].usedAt.Some? ==>
          c in db'.codes && db'.codes[c].usedAt.Some? && db'.codes[c].owner == db.codes[c].owner)
    && (forall v, x :: StepAccepted(AcceptedBy(h, v), x) ==> StepAccepted(AcceptedBy(h', v), x))
  }

  lemma KeptFactors(db: Db, h: History, db': Db, h': History)
    requires FactorsOk(db, h) && Grows(db, h, db', h') && h'.factors == h.factors && forall v :: MarkOk(db', h', v)
    ensures FactorsOk(db', h')
  {
    forall s | s in h'.factors ensures SpentOk(db', h', s) {
      assert SpentOk(db, h, s);
    }
  }

  lemma NewFactor(db: Db, h: History, t: SessionId, factor: Factor, db': Db, h': History)
    requires FactorsOk(db, h) && Grows(db, h, db', h') && t !in db.sessions && h'.factors == h.factors[t := factor]
    requires forall v :: MarkOk(db', h', v)
    requires t in h'.factors && SpentOk(db', h', t)
    requires match factor
      case TotpStep(u, step) => !StepAccepted(AcceptedBy(h, u), step)
      case Recovery(c) => c in db.codes ==> db.codes[c].usedAt.None?
    ensures FactorsOk(db', h')
  {
    forall s | s in h'.factors ensures SpentOk(db', h', s) && (s != t ==> h'.factors[s] != factor) {
      if s != t {
        assert SpentOk(db, h, s);
      }
    }
  }

  /** What an accepted factor check wrote: a step past the mark, or a code that was still unused. */
  lemma AcceptedSpends(cfg: Config, u: UserId, cred: Credential, sub: Submission, code: Option<RecoveryCode>, at: Time)
    requires CheckFactor(cfg, u, cred, sub, code, at).Accepted?
    ensures var check := CheckFactor(cfg, u, cred, sub, code, at);
      && check.w.out.Nothing? && check.w.sessions == map[]
      && match check.factor
         case TotpStep(v, step) =>
           v == u && !cred.Replayed(step) && InWindow(step, CurrentStep(at))
           && check.w.codes == map[] && check.w.creds == map[u := RecordStep(cred, step, at)]
         case Recovery(c) =>
           sub == SubmittedRecovery(c) && code.Some? && code.value.owner == u && code.value.usedAt.None?
           && check.w.codes == map[c := code.value.(usedAt := Some(at))]
           && check.w.creds == map[u := cred.(lastUsedAt := Some(at))]
  {
  }

  lemma MintedFrom(cfg: Config, sid: SessionId, u: UserId, epoch: nat, check: FactorCheck, user: User, verifiedAt: Time, at: Time, wr: Writes)
    requires check.Accepted? && DecideMfaLogin(cfg, sid, u, epoch, check, user, verifiedAt, at) == Some(wr)
    ensures wr.creds == check.w.creds && wr.codes == check.w.codes && wr.clearUnusedCodesOf == check.w.clearUnusedCodesOf
    ensures wr.out.NewSession? && wr.out.session == sid && wr.out.access == AccessToken(u, sid, user.role, user.emailVerified, true, epoch)
    ensures wr.out.factor == Some(check.factor) && wr.out.verifiedAt == verifiedAt
    ensures wr.out.refresh.expiresAt == at + cfg.refreshLifetime
  {
  }

  /** What an MFA login that commits a session spent, and what it left alone. */
  lemma MfaLoginSpends(cfg: Config, db: Db, t: SessionId, u: UserId, epoch: nat, sub: Submission, verifiedAt: Time, at: Time, wr: Writes)
    requires AtomicMfaLogin(cfg, db, t, u, epoch, sub, verifiedAt, at) == Some(wr)
    ensures u in db.creds && db.creds[u].Enabled() && wr.clearUnusedCodesOf.None?
    ensures !wr.out.NewSession? ==> wr.creds == map[] && wr.codes == map[] && wr.out.Nothing?
    ensures wr.out.NewSession? ==>
      && wr.out.session == t && wr.out.access.user == u && wr.out.access.epoch == epoch && wr.out.access.mfa
      && wr.out.factor.Some? && wr.out.verifiedAt == verifiedAt && wr.out.refresh.expiresAt == at + cfg.refreshLifetime
      && match wr.out.factor.value
         case TotpStep(v, step) =>
           v == u && !db.creds[u].Replayed(step) && InWindow(step, CurrentStep(verifiedAt))
           && wr.codes == map[] && wr.creds == map[u := RecordStep(db.creds[u], step, verifiedAt)]
         case Recovery(c) =>
           c in db.codes && db.codes[c].owner == u && db.codes[c].usedAt.None?
           && wr.codes == map[c := db.codes[c].(usedAt := Some(verifiedAt))]
           && wr.creds == map[u := db.creds[u].(lastUsedAt := Some(verifiedAt))]
  {
    var code := if sub.SubmittedRecovery? then Get(db.codes, sub.code) else None;
    var check := CheckFactor(cfg, u, db.creds[u], sub, code, verifiedAt);
    CheckedFactor(cfg, u, db.creds[u], sub, code, verifiedAt);
    if check.Accepted? {
      AcceptedSpends(cfg, u, db.creds[u], sub, code, verifiedAt);
      MintedFrom(cfg, t, u, epoch, check, db.users[u], verifiedAt, at, wr);
    }
  }

  /** The tables and history of an MFA login that spent `factor`. */
  ghost predicate SpendFrame(db: Db, h: History, t: SessionId, u: UserId, at: Time, factor: Factor, db': Db, h': History) {
    && u in db.creds && db.creds[u].Enabled() && h'.factors == h.factors[t := factor]
    && match factor
       case TotpStep(v, step) =>
         v == u && !db.creds[u].Replayed(step) && InWindow(step, CurrentStep(at)) && db'.codes == db.codes
         && db'.creds == db.creds[u := RecordStep(db.creds[u], step, at)]
         && h'.accepted == h.accepted[u := AcceptedBy(h, u) + [Acceptance(step, at)]]
       case Recovery(c) =>
         c in db.codes && db.codes[c].owner == u && db.codes[c].usedAt.None? && h'.accepted == h.accepted
         && db'.codes == db.codes[c := db.codes[c].(usedAt := Some(at))]
         && db'.creds == db.creds[u := db.creds[u].(lastUsedAt := Some(at))]
  }

  lemma MfaLoginFactors(db: Db, h: History, t: SessionId, u: UserId, at: Time, factor: Factor, db': Db, h': History)
    requires FactorsOk(db, h) && t !in db.sessions && SpendFrame(db, h, t, u, at, factor, db', h')
    requires t in db'.sessions && db'.sessions[t].owner == u
    requires forall s :: s in db.sessions ==> s in db'.sessions && db'.sessions[s].owner == db.sessions[s].owner
    ensures FactorsOk(db', h')
  {
    assert MarkOk(db, h, u);
    match factor {
      case TotpStep(_, step) =>
        PastTheMark(db, h, u, step);
        AcceptStep(db, h, u, step, at, RecordStep(db.creds[u], step, at), db', h');
      case Recovery(_) =>
        forall v ensures MarkOk(db', h', v) {
          assert MarkOk(db, h, v) && AcceptedBy(h', v) == AcceptedBy(h, v);
        }
    }
    NewFactor(db, h, t, factor, db', h');
  }

  /** Confirming enrolment spends the first step of a credential that has accepted none. */
  lemma EnrolmentFactors(db: Db, h: History, u: UserId, step: int, at: Time, cred: Credential, db': Db, h': History)
    requires FactorsOk(db, h) && u in db.creds && !db.creds[u].Enabled() && InWindow(step, CurrentStep(at))
    requires cred == RecordStep(Enable(db.creds[u], at), step, at) && db'.creds == db.creds[u := cred]
    requires h'.accepted == h.accepted[u := AcceptedBy(h, u) + [Acceptance(step, at)]] && h'.factors == h.factors
    requires db'.sessions == db.sessions
    requires forall c :: c in db.codes ==> c in db'.codes && db'.codes[c] == db.codes[c]
    ensures FactorsOk(db', h')
  {
    assert MarkOk(db, h, u);
    AcceptStep(db, h, u, step, at, cred, db', h');
    KeptFactors(db, h, db', h');
  }

  /** Commits that leave every replay mark and every recovery code alone. */
  lemma SameFactors(db: Db, h: History, db': Db, h': History)
    requires FactorsOk(db, h) && h'.factors == h.factors && h'.accepted == h.accepted && db'.codes == db.codes
    requires db.creds.Keys <= db'.creds.Keys
    requires forall u :: u in db.creds ==> db'.creds[u].lastStep == db.creds[u].lastStep && (db.creds[u].Enabled() ==> db'.creds[u].Enabled())
    requires forall u :: u in db'.creds && u !in db.creds ==> db'.creds[u].lastStep.None?
    requires forall s :: s in db.sessions ==> s in db'.sessions && db'.sessions[s].owner == db.sessions[s].owner
    ensures FactorsOk(db', h')
  {
    forall u ensures MarkOk(db', h', u) {
      assert MarkOk(db, h, u) && AcceptedBy(h', u) == AcceptedBy(h, u);
    }
    KeptFactors(db, h, db', h');
  }

  // ---- How many codes fit in a stretch of time --------------------------------

  /** Strictly increasing steps that all lie in [lo, hi] number at most hi - lo + 1. */
  lemma {:induction false} IncreasingFits(accepted: seq<Acceptance>, lo: int, hi: int)
    requires Increasing(accepted) && forall i :: 0 <= i < |accepted| ==> lo <= accepted[i].step <= hi
    ensures |accepted| <= if lo <= hi + 1 then hi - lo + 1 else 0
  {
    if accepted != [] {
      var last := |accepted| - 1;
      IncreasingFits(accepted[..last], lo, accepted[last].step - 1);
    }
  }

  /** While the clock stays within steps a to b, a credential accepts at most b - a + 3 codes. */
  lemma AcceptanceBound(accepted: seq<Acceptance>, a: int, b: int)
    requires Increasing(accepted) && InWindows(accepted) && a <= b
    requires forall i :: 0 <= i < |accepted| ==> a <= CurrentStep(accepted[i].at) <= b
    ensures |accepted| <= b - a + 3
  {
    forall i | 0 <= i < |accepted| ensures a - 1 <= accepted[i].step <= b + 1 {
      assert InWindow(accepted[i].step, CurrentStep(accepted[i].at));
    }
    IncreasingFits(accepted, a - 1, b + 1);
  }
}
