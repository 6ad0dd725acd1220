/**
 The identity entities as objects: what the repositories hand to a command, and
 what each of their state changes does to the row they stand for.
 */
module Entities {
  import opened Text
  import opened Units
  import opened Accounts

  class UserEntity {
    const id: UserId
    const role: Role
    const emailVerified: bool
    const anonymized: bool
    const deleted: bool
    var passwordHash: string
    var active: bool
    var epoch: nat

    constructor (id: UserId, row: User)
      ensures Row() == row && this.id == id
    {
      this.id, role, emailVerified, anonymized, deleted := id, row.role, row.emailVerified, row.anonymized, row.deleted;
      passwordHash, active, epoch := row.passwordHash, row.active, row.epoch;
    }

    function Row(): User
      reads this
    {
      User(passwordHash, role, emailVerified, active, anonymized, deleted, epoch)
    }

    method ChangePassword(newHash: string)
      modifies this
      ensures Row() == old(Row()).(passwordHash := newHash)
    {
      passwordHash := newHash;
    }

    method InvalidateCredentials()
      modifies this
      ensures Row() == old(Row()).(epoch := old(epoch) + 1)
    {
      epoch := epoch + 1;
    }

    method SetActive(requested: bool) returns (changed: bool)
      modifies this
      ensures changed == (old(active) != requested) && Row() == old(Row()).(active := requested)
    {
      if requested == active {
        return false;
      }
      active := requested;
      return true;
    }
  }

  class SessionEntity {
    const id: SessionId
    const owner: UserId
    const expiresAt: Time
    var tokenHash: TokenHash
    var version: nat
    var lastUsedAt: Option<Time>
    var rotatedAt: Option<Time>
    var revokedAt: Option<Time>
    var reuseDetectedAt: Option<Time>

    constructor (id: SessionId, row: Session)
      ensures Row() == row && this.id == id
    {
      this.id, owner, expiresAt := id, row.owner, row.expiresAt;
      tokenHash, version := row.tokenHash, row.version;
      lastUsedAt, rotatedAt, revokedAt, reuseDetectedAt := row.lastUsedAt, row.rotatedAt, row.revokedAt, row.reuseDetectedAt;
    }

    function Row(): Session
      reads this
    {
      Session(owner, tokenHash, version, expiresAt, lastUsedAt, rotatedAt, revokedAt, reuseDetectedAt)
    }

    method Rotate(newHash: TokenHash, at: Time)
      modifies this
      ensures Row() == old(Row()).(tokenHash := newHash, version := old(version) + 1, rotatedAt := Some(at), lastUsedAt := Some(at))
    {
      tokenHash := newHash;
      version := version + 1;
      rotatedAt := Some(at);
      lastUsedAt := Some(at);
    }

    method Revoke(at: Time)
      modifies this
      ensures old(revokedAt).None? ==> Row() == old(Row()).(revokedAt := Some(at))
      ensures old(revokedAt).Some? ==> Row() == old(Row())
    {
      if revokedAt.None? {
        revokedAt := Some(at);
      }
    }

    method MarkReuseDetected(at: Time)
      modifies this
      ensures Row() == old(Row()).(reuseDetectedAt := Some(at), revokedAt := revokedAt)
      ensures revokedAt == if old(revokedAt).Some? then old(revokedAt) else Some(at)
    {
      reuseDetectedAt := Some(at);
      Revoke(at);
    }
  }

  class CredentialEntity {
    const user: UserId
    const secret: string
    var enabledAt: Option<Time>
    var lastUsedAt: Option<Time>
    var lastStep: Option<int>

    constructor (user: UserId, row: Credential)
      ensures Row() == row && this.user == user
    {
      this.user, secret := user, row.secret;
      enabledAt, lastUsedAt, lastStep := row.enabledAt, row.lastUsedAt, row.lastStep;
    }

    function Row(): Credential
      reads this
    {
      Credential(secret, enabledAt, lastUsedAt, lastStep)
    }

    method Enable(at: Time)
      modifies this
      ensures old(enabledAt).None? ==> Row() == old(Row()).(enabledAt := Some(at))
      ensures old(enabledAt).Some? ==> Row() == old(Row())
    {
      if enabledAt.None? {
        enabledAt := Some(at);
      }
    }

    method MarkUsed(at: Time)
      modifies this
      ensures Row() == old(Row()).(lastUsedAt := Some(at))
    {
      lastUsedAt := Some(at);
    }

    /** The mark never moves backwards. */
    method RecordTotpStep(step: int, at: Time)
      modifies this
      ensures Row() == old(Row()).(lastStep := lastStep, lastUsedAt := Some(at))
      ensures lastStep == if old(lastStep).Some? && step < old(lastStep).value then old(lastStep) else Some(step)
    {
      lastStep := Some(if lastStep.None? || lastStep.value <= step then step else lastStep.value);
      MarkUsed(at);
    }
  }

  class RecoveryCodeEntity {
    const id: CodeId
    const owner: UserId
    var usedAt: Option<Time>

    constructor (id: CodeId, row: RecoveryCode)
      ensures Row() == row && this.id == id
    {
      this.id, owner, usedAt := id, row.owner, row.usedAt;
    }

    function Row(): RecoveryCode
      reads this
    {
      RecoveryCode(owner, usedAt)
    }

    method Redeem(at: Time) returns (ok: bool)
      modifies this
      ensures ok == old(usedAt).None? && Row() == if ok then old(Row()).(usedAt := Some(at)) else old(Row())
    {
      if usedAt.Some? {
        return false;
      }
      usedAt := Some(at);
      return true;
    }
  }

  datatype Redeeming = Marked | AlreadyUsed | TokenExpired

  class ResetTokenEntity {
    const id: ResetId
    const owner: UserId
    const expiresAt: Time
    var usedAt: Option<Time>

    constructor (id: ResetId, row: ResetToken)
      ensures Row() == row && this.id == id
    {
      this.id, owner, expiresAt, usedAt := id, row.owner, row.expiresAt, row.usedAt;
    }

    function Row(): ResetToken
      reads this
    {
      ResetToken(owner, expiresAt, usedAt)
    }

    /** Used is reported before expired, so a replayed token reads the same however late it comes. */
    method MarkUsed(at: Time) returns (outcome: Redeeming)
      modifies this
      ensures outcome.Marked? <==> old(usedAt).None? && at < expiresAt
      ensures outcome.AlreadyUsed? <==> old(usedAt).Some?
      ensures Row() == if outcome.Marked? then old(Row()).(usedAt := Some(at)) else old(Row())
    {
      if usedAt.Some? {
        return AlreadyUsed;
      }
      if at >= expiresAt {
        return TokenExpired;
      }
      usedAt := Some(at);
      return Marked;
    }
  }
}
