# A verified model of the credential protocol and its neighbours

This project models how the shop backend signs people in and out, and proves
what its documentation and tests promise about it. Login, refresh rotation, MFA
completion, MFA enrolment, password reset, account activation and logout are
database transactions over `users`, `sessions`, `password_reset_tokens`,
`mfa_credentials` and `mfa_recovery_codes`; any number of them interleave, wait
for each other's row locks, and may be rolled back at any point. Around that core
stand three smaller pieces of the same backend: the locked read-modify-write used
for settings and categories, keyset pagination with its cursors, and the email
outbox; and the login throttle.

`dafny verify dfyconfig.toml` checks everything.

## How it is laid out

| files | content |
|---|---|
| `Text`, `Units`, `Maps`, `Totp` | `str.strip`; time and powers of two; map overlays; the TOTP window walk |
| `Accounts`, `Serial` | rows, entity rules, what each command decides; each command as one indivisible step |
| `Promises`, `Keeping` | what each command promises, rule by rule and row by row, without reference to how it decides; and that every indivisible command keeps it |
| `Entities`, `Commands` | the same rules and commands in their own form: objects whose methods change them, a database session updated statement by statement, rollback on an exception |
| `Transactions` | each command as a program of single actions (unlocked read, row lock and re-read, clock, row-by-row UPDATE, Redis write, commit), and runs of any number of them |
| `Locking`, `Refinement` | what the row locks guarantee; every interleaved commit equals the indivisible command |
| `Safety`, `Ledger`, `Factors`, `Protocol`, `Runs` | the inductive invariant, part by part, and that every step keeps it |
| `Theorems`, `Standing`, `Claims`, `Gate`, `Deadlock` | what follows for whole runs |
| `Endings`, `Alone` | commits keep promises, refusals are the command's own, every action brings a transaction nearer its end; and, the converse of refinement, any command run alone ends with its promise kept |
| `Continuations`, `Contention`, `Dangling` | runs that show two promises need their conditions, and that those runs exist: deadlock with two reset tokens, and an MFA claim without an enabled credential |
| `LockedRows`, `Settings`, `Categories` | locked read-modify-write in general, and two tables that use it |
| `Keyset`, `Cursors` | pagination walks over changing tables; the cursor codec |
| `Outbox`, `Throttle` | the email outbox with any number of workers; the login throttle |

## What is taken as given

- SHA-256 of a token is injective, Argon2 verification is a fixed predicate, HOTP
  is any function of secret and step, a uuid4 is new, the clock never goes back,
  and Redis keeps a key until it expires (a challenge may vanish at any time).
- A row lock blocks until its holder ends and then re-reads the committed row; a
  locking read of a row that is not there takes no lock. `save` overwrites the
  columns it lists.
- An UPDATE visits the rows that match when it starts, in any order, locks each
  in turn, and re-checks it once locked.
- What a committed transaction returns leaves only after its commit: tokens enter
  the histories there, and `Theorems.AcceptedTokensAreCurrent` turns on it.
  `get_session` commits when the dependency is left
  (`src/app/api/dependencies.py:7-13`); whether that precedes the response depends
  on the version of the web framework.
- The partial unique index on category slugs is consulted when a value is
  flushed, against the committed and the flushed versions of every other row; a
  flush that clashes waits or fails.

## Where the code and the prose disagree

- `README.md:184` of the repository describes login as locking before it
  verifies. The code verifies first and locks afterwards
  (`src/app/identity/application/commands/login.py:66-101`); the model follows
  the code, and `Theorems.LoginChecksTheLockedRow` shows the two agree in effect.
- `src/app/engagement/api/notifications.py:141-142` says deactivation leaves `auth_epoch` alone. It
  advances it (`src/app/identity/application/commands/set_user_active.py:115-117`).
- The MFA gate of a login reads the credential without a lock, so whether a
  challenge is asked for reflects the credential at that read.
- `mark_completed` writes the MFA flag before the request commits
  (`src/app/identity/api/mfa.py:232-235`), so an enrolment that does not commit can
  leave its flag behind, and a token can carry the claim without an enabled
  credential. `Claims.ClaimMeansEnabled` says exactly when the claim means one: an
  enrolment of the account has committed, which is when the audit log has its
  `MfaEnabled` row. `Dangling.ClaimWithoutCredential` and
  `Dangling.ClaimWithoutCredentialIsReached` give the runs on which it does not.
- `issue_refresh_token` says the token's `exp` matches the session's deadline
  exactly (`src/app/identity/infrastructure/session_tokens.py:84-85`). A JWT
  `exp` is whole seconds, so in the last fraction of a second the token no longer
  decodes while its session still lives; `Theorems.IssuedTokenOutcome` includes it.
- `_E164` uses `\d`, which matches every Unicode decimal digit; the model keeps
  that digit class as a parameter. Both it and the settings-cursor pattern end in
  `$`, which also matches before a final newline; only for the cursor can that
  happen, since settings text is trimmed first.

## Model

| member | source | states |
|---|---|---|
| `Totp.VerifyCodeStep` | src/app/identity/infrastructure/totp.py:47-76 | the window walk returns the newest step of the window whose code was submitted, and None only if there is none |
| `Totp.MatchedStep` | src/app/identity/infrastructure/totp.py:47-76 | the greatest matching step within one step of now, or None exactly when no step of the window matches |
| `Text.StripFixed` | src/app/platform/domain/settings_registry.py:285 | trimmed text is a fixed point of trimming |
| `Text.StripIsMiddle` | src/app/platform/domain/settings_registry.py:285 | what trimming takes away is whitespace on both sides, and all of it |
| `Entities.UserEntity.SetActive` | src/app/identity/domain/entities.py:82-99 | reports whether the flag moved and changes nothing else |
| `Entities.UserEntity.InvalidateCredentials` | src/app/identity/domain/entities.py:71-80 | advances the epoch by one and nothing else |
| `Entities.UserEntity.ChangePassword` | src/app/identity/domain/entities.py:58-69 | replaces the stored hash and nothing else |
| `Entities.SessionEntity.Rotate` | src/app/identity/domain/entities.py:173-177 | new hash, next version, both timestamps; every other column untouched |
| `Entities.SessionEntity.Revoke` | src/app/identity/domain/entities.py:179-182 | revokes, and keeps an earlier revocation time |
| `Entities.SessionEntity.MarkReuseDetected` | src/app/identity/domain/entities.py:184-187 | records the detection and revokes, keeping an earlier revocation time; every other column untouched |
| `Entities.CredentialEntity.Enable` | src/app/identity/domain/entities.py:219-226 | enables once, keeping the first time |
| `Entities.CredentialEntity.RecordTotpStep` | src/app/identity/domain/entities.py:249-259 | the replay mark becomes the step unless it is already past it; only mark and time of use move |
| `Entities.RecoveryCodeEntity.Redeem` | src/app/identity/domain/entities.py:279-288 | succeeds exactly on an unused code |
| `Entities.ResetTokenEntity.MarkUsed` | src/app/identity/domain/entities.py:311-319 | succeeds exactly on an unused, unexpired token; used is reported before expired |
| `Commands.Database.SaveSession` | src/app/identity/infrastructure/repositories.py:355-368 | one row changes: an entity loaded from it is stored back as it stands, and whatever the entity says, owner and expiry stay |
| `Commands.Database.RevokeAllForUser` | src/app/identity/infrastructure/repositories.py:370-391 | row by row, exactly the sessions of the account that were live get this revocation time; none of the account is left live; the count is theirs |
| `Commands.Database.ConsumeOutstanding` | src/app/identity/infrastructure/repositories.py:632-652 | row by row, exactly the unused tokens of the account get this time; none is left unused; the count is theirs |
| `Commands.Database.GetUnusedCode` | src/app/identity/infrastructure/repositories.py:502-524 | finds a code exactly when it belongs to the credential and is unused |
| `Commands.Login` | src/app/identity/application/commands/login.py:72-175 | the right password of an account in good standing opens a session, unless the account is an admin's and the gate said so: then a challenge and no session; a refused login changes nothing; the tables and answer are those of the indivisible login |
| `Commands.Refresh` | src/app/identity/application/commands/refresh_session.py:48-145 | the latest token of a live session rotates it column by column, an older one revokes it, any other changes nothing, including the two answers that commit despite failing |
| `Commands.Logout` | src/app/identity/application/commands/logout.py:13-32 | afterwards the session is absent or revoked, and if it was there unrevoked the log gains its row; otherwise nothing moves |
| `Commands.ConfirmReset` | src/app/identity/application/commands/confirm_password_reset.py:59-106 | an unused, unexpired token of an account in good standing is spent, with the account's other tokens, its password, epoch and sessions, row by row; otherwise nothing moves |
| `Commands.SetActive` | src/app/identity/application/commands/set_user_active.py:90-144 | the flag moves if it can; switching off also advances the epoch and revokes the account's sessions row by row; no transition writes nothing |
| `Commands.VerifyMfa` | src/app/identity/application/commands/mfa_verify.py:59-138 | a submitted code of the secret within the window and past the mark, or an unused recovery code, is accepted and exactly it is spent; a right code not past the mark leaves only its audit row; anything else leaves no trace |
| `Commands.CompleteMfaLogin` | src/app/identity/application/commands/mfa_complete_login.py:90-163 | inserts a session exactly when the account can authenticate in the challenge's epoch |
| `Commands.MfaLogin` | src/app/identity/api/mfa.py:294-383 | a good factor opens a session of the account if it still stands in the challenge's epoch, and is rolled back with it if not; a replay leaves only its audit row |
| `Commands.ConfirmSetup` | src/app/identity/application/commands/mfa_confirm_setup.py:54-105 | the newest submitted code of the unconfirmed secret enables the credential, is spent, and replaces the unused recovery codes; without one nothing moves |
| `Keeping.StepIsNewest` | src/app/identity/infrastructure/totp.py:42-76 | the step a submission is taken for is the newest of the window whose code, under the row's own secret, was submitted, and there is none only if no such step exists |
| `Keeping.CheckTold` | src/app/identity/application/commands/mfa_verify.py:59-138 | the factor check accepts exactly the factors a submission proves, calls replays exactly the spent steps, and refuses the rest |
| `Keeping.AtomicMfaLoginKept` | src/app/identity/api/mfa.py:294-383 | the indivisible MFA login keeps the promise that `Commands.MfaLogin` states |
| `Locking.StepKeepsLockInv` | src/app/identity/infrastructure/repositories.py:297-326 | in every interleaving a locked row has one holder and still says what its holder read |
| `Locking.OthersStayCurrent` | src/app/identity/infrastructure/repositories.py:211-231 | no commit changes a row another transaction has locked |
| `Refinement.SweptAll` | src/app/identity/infrastructure/repositories.py:370-391 | the sessions an UPDATE locked one at a time are, at commit, all the account's live sessions |
| `Refinement.ConsumedAll` | src/app/identity/infrastructure/repositories.py:632-652 | likewise for the reset tokens the consume statement could see |
| `Refinement.CommitIsAtomic` | src/app/identity/application/commands/refresh_session.py:50-73 | whatever the interleaving, a commit is exactly the indivisible command on the tables it lands on |
| `Endings.CommitsKeepPromises` | src/app/identity/api/mfa.py:294-383 | every commit of every run keeps its command's promise between the tables it lands on and those it leaves, and hands over exactly the tokens it announces |
| `Endings.RefusalsKeepPromises` | src/app/identity/application/commands/confirm_password_reset.py:59-93 | a transaction that gives up is one its command promises to refuse on the committed tables, unless an unlocked read refused it: login's first look or a hash moved since, a row not there, a challenge, its epoch, a recovery code |
| `Endings.LogoutFinishes` | src/app/identity/application/commands/logout.py:19-32 | a logout that has its row and the time finishes exactly when the committed session is not revoked |
| `Endings.ActsTowardsEnd` | src/app/identity/infrastructure/repositories.py:370-391 | no transaction acts for ever: each action settles one of eighteen open questions or leaves one row less to visit, and moves no other transaction |
| `Alone.AloneKeepsPromise` | src/app/identity/api/auth.py:297-307 | from every reachable state with nothing locked, any command can be run to its end without a step of another, and keeps its promise on the tables, Redis keys and clock it began with |
| `Runs.RunInv` | src/app/identity/application/commands/confirm_password_reset.py:59-93 | every state of every run satisfies the invariant over epochs, tokens, factors, resets, locks and audit rows |
| `Theorems.RunLater` | src/app/identity/domain/entities.py:179-182 | epochs never fall; a revoked session stays revoked at its version; a used reset token stays used |
| `Theorems.LiveSessionsAreCurrent` | src/app/identity/application/commands/confirm_password_reset.py:59-93 | every unrevoked session was born in its account's current epoch, and that account can authenticate |
| `Theorems.AcceptedTokensAreCurrent` | src/app/identity/api/dependencies.py:35-77 | an access token whose epoch still matches belongs to an account that can authenticate, although only the epoch is compared |
| `Theorems.RefusedForever` | src/app/identity/api/dependencies.py:35-77 | an access token refused for its epoch is refused in every later state |
| `Theorems.RotationStaysInEpoch` | src/app/identity/application/commands/refresh_session.py:112-145 | a rotation stamps the epoch the presented token was minted in, with role and verification of the locked row |
| `Theorems.StaleRefreshTokenIsDead` | src/app/identity/application/commands/refresh_session.py:60-142 | a refresh token minted before an epoch bump never rotates again |
| `Theorems.LoginChecksTheLockedRow` | src/app/identity/application/commands/login.py:72-158 | whenever login mints a session or asks for a challenge, the password verifies against the locked row and that account stands; it asks exactly when that row is an admin's and the gate said so |
| `Gate.EnrolledAdminIsChallenged` | src/app/identity/application/commands/login.py:141-158 | an admin whose credential is enabled when the login begins gets a challenge with the locked row's epoch, never a session |
| `Gate.OnlyEnrolledAdminsAreChallenged` | src/app/identity/application/services/admin_mfa_gate.py:50-72 | customers, and admins with no enabled credential, are never challenged: their login gives a session |
| `Gate.ChallengeIsStored` | src/app/identity/application/services/mfa_session.py:80-103 | the challenge announced is stored under a number of its own, with the account and epoch announced |
| `Gate.ChallengeIsAnsweredOnce` | src/app/identity/api/mfa.py:294-299 | once a verification has resolved and deleted a challenge nobody finds it again, whatever becomes of that verification |
| `Theorems.ChallengeKeepsItsEpoch` | src/app/identity/application/commands/mfa_complete_login.py:90-160 | a session born through MFA carries its challenge's epoch, which is the account's epoch at commit |
| `Theorems.FactorsAreSpentOnce` | src/app/identity/application/commands/mfa_verify.py:59-138 | the factor a session was born from is spent and belonged to the session's account, and no other session was born from it |
| `Theorems.MfaLoginConsumesFactor` | src/app/identity/api/mfa.py:319-366 | the commit that inserts an MFA session records for it a factor its submission proves (a code of the locked secret at the newest matching step past the mark, or an unused code of the account) and spends exactly that factor |
| `Theorems.AcceptedStepsIncrease` | src/app/identity/domain/entities.py:232-259 | accepted TOTP steps of a credential strictly increase in commit order, enrolment included |
| `Theorems.AcceptedCodesBound` | src/app/identity/infrastructure/totp.py:42-76 | while the clock stays in steps a to b, a credential accepts at most b - a + 3 codes |
| `Theorems.IssuedTokenOutcome` | src/app/identity/domain/entities.py:152-187 | an issued token shown to its live session either rotates it (latest version) or revokes it (older); ahead, mismatched and owner-revoked never happen; a token whose whole-second exp has passed changes nothing, with less than a second of the session left |
| `Theorems.RevokedForGood` | src/app/identity/application/commands/refresh_session.py:77-103 | a revoked session refuses every token for ever |
| `Theorems.VersionsRotateOnce` | src/app/identity/domain/entities.py:173-177 | each version of a session rotates at most once over a run |
| `Theorems.LedgerBalances` | src/app/identity/application/commands/set_user_active.py:102-144 | revoked sessions equal the audited count, the epoch equals the audited resets and deactivations, the flag equals the replayed rows |
| `Theorems.ActivationChain` | src/app/identity/application/commands/set_user_active.py:90-144 | activation rows meet end to start, alternate, and end at the stored flag |
| `Theorems.ResetTokensRedeemOnce` | src/app/identity/application/commands/confirm_password_reset.py:59-92 | each reset token is redeemed at most once, rollbacks included |
| `Theorems.ResetBurnsEarlierTokens` | src/app/identity/infrastructure/repositories.py:632-652 | once a reset commits, no token of the account committed before its consume statement is ever redeemed |
| `Theorems.ResetTakesEffect` | src/app/identity/application/commands/confirm_password_reset.py:78-93 | the new hash is stored, the epoch advances, no session of the account survives, no other account is touched |
| `Theorems.SetActiveTakesEffect` | src/app/identity/application/commands/set_user_active.py:102-123 | the flag flips; deactivation also advances the epoch and ends every session of that account only |
| `Theorems.LogoutTakesEffect` | src/app/identity/application/commands/logout.py:19-32 | exactly the one session is revoked, with one audit row |
| `Standing.RunStanding` | src/app/identity/application/services/mfa_session.py:64-75 | in every state, flags outlive their sessions and name the account that proved its factor |
| `Standing.LoginMarkNeedsFactor` | src/app/identity/api/mfa.py:319-383 | a new session's completion flag is set only by a transaction whose submission proves a factor of the locked credential: a matching code past its mark, or an unused code |
| `Standing.SetupMarkNeedsFactor` | src/app/identity/api/mfa.py:202-235 | an existing session's flag is set only by a matching code of the account's own unconfirmed secret, at the newest matching step |
| `Standing.FlagIsStored` | src/app/identity/application/services/mfa_session.py:64-75 | a transaction that finishes sets exactly the flag its answer stands for, for the session lifetime and at least a second |
| `Standing.StandingSurvivesRotation` | src/app/identity/api/auth.py:297-307 | once the flag is set, every rotation by a later refresh keeps the claim |
| `Standing.StaleChallengeIsDead` | src/app/identity/application/services/mfa_session.py:80-103 | a challenge that exists before an epoch bump never yields a session after it |
| `Claims.MfaClaimsAreEarned` | src/app/identity/api/auth.py:297-307 | for a token with the MFA claim an earlier step of the run is a transaction whose submission proved its own account's factor for that session: an MFA login with a matching unspent code or recovery code of the enabled credential, or an enrolment with a matching code of its secret |
| `Claims.EnabledMeansEnrolled` | src/app/identity/application/commands/mfa_confirm_setup.py:54-105 | in every state a credential is enabled if and only if an enrolment of its account has committed, and if and only if the audit log says so |
| `Claims.ClaimMeansEnabled` | src/app/identity/api/mfa.py:202-252 | a token with the MFA claim is of an account with an enabled credential if and only if an enrolment of the account has committed (equivalently, is in the audit log); where none has, the claim goes back to an enrolment that set its flag and was rolled back or is in flight |
| `Claims.EnabledForGood` | src/app/identity/domain/entities.py:219-226 | once enabled, a credential is enabled in every later state |
| `Dangling.ClaimWithoutCredential` | src/app/identity/api/mfa.py:232-252 | wherever an enrolment can be confirmed on a live session, a run on which it is rolled back after writing its flag, and one on which it is still in flight, end in a token with the claim and no enabled credential |
| `Dangling.ClaimWithoutCredentialIsReached` | src/app/identity/api/mfa.py:202-252 | such runs exist from the empty tables: sign-up of an admin, enrolment, login with the password, confirmation, refresh |
| `Dangling.SignsIn` | src/app/identity/application/commands/login.py:72-175 | an admin with the password and no enabled credential can be carried to a live session of the current epoch |
| `Dangling.RotationCarriesClaim` | src/app/identity/api/auth.py:297-307 | while a session's flag stands, a rotation can be carried to its commit and its token has the claim |
| `Deadlock.WaitsClimb` | src/app/identity/infrastructure/repositories.py:297-326 | in every reachable state each wait leads to a transaction of strictly higher rank, or to a reset stopped by another reset of its account on a different token |
| `Deadlock.CyclesClash` | src/app/identity/application/commands/confirm_password_reset.py:59-92 | every cycle of waits in every reachable state runs through a reset that waits, at its consume statement, for a reset of the same account on another token |
| `Deadlock.NoWaitCycle` | src/app/identity/application/commands/refresh_session.py:50-73 | transactions of which no two redeem different tokens of one account form no cycle, whatever else is in flight; one link submitted twice is allowed |
| `Deadlock.SomeoneGoesOn` | src/app/identity/application/commands/logout.py:19-24 | while anything is in flight, some transaction can go on or a reset waits for another reset of its account; the former if all resets of one account in flight redeem one token |
| `Contention.TwoResetsCanDeadlock` | src/app/identity/application/commands/confirm_password_reset.py:59-92 | conversely, from every reachable state where an account has two outstanding tokens and the three rows are free, a continuation ends with their two resets waiting for each other |
| `Contention.ContendedIsReached` | src/app/identity/application/commands/confirm_password_reset.py:59-92 | such states are reached: sign up and ask for two links |
| `LockedRows.StepRefines` | src/app/platform/application/commands/update_setting.py:70-109 | every commit of a locked read-modify-write is the indivisible command; nothing else moves a row |
| `LockedRows.CommandCommits` | src/app/platform/application/commands/update_setting.py:70-109 | conversely, from every reachable state a command that may store a value, with its row unlocked and no key in its way, can be carried to its commit |
| `LockedRows.RunOk` | src/app/catalog/infrastructure/repositories.py:85-151 | in every state each locked row has one holder whose view is current, and no index key is shared by two rows in any version, although the index is consulted only at flushes |
| `LockedRows.AuditChain` | src/app/platform/application/commands/update_setting.py:70-109 | audit rows of one entity: each before is the previous after, the last after is the stored row |
| `LockedRows.TerminalForGood` | src/app/catalog/application/commands/category_admin.py:200-218 | a row in a final state never changes and no audit row about it follows |
| `LockedRows.RunKeeps` | src/app/platform/application/commands/update_setting.py:68-86 | a property every command stores holds of every row in every run |
| `Settings.ValidateNumber` | src/app/platform/domain/settings_registry.py:250-263 | appends every reason the number fails |
| `Settings.ValidateMoney` | src/app/platform/domain/settings_registry.py:266-276 | appends every reason the money object fails |
| `Settings.ValidateString` | src/app/platform/domain/settings_registry.py:279-296 | appends exactly the reasons the text fails for, in order, and returns it trimmed |
| `Settings.ValidateValue` | src/app/platform/domain/settings_registry.py:299-343 | a value is accepted exactly when its stored form (trimmed for text) is legal, and comes back in it; otherwise it is refused with exactly the reasons it fails for, each by its own rule and in order |
| `Settings.FixedPointsAreLegal` | src/app/platform/domain/settings_registry.py:299-343 | the values validation leaves as they are are exactly the legal ones, and it only returns those |
| `Settings.AcceptedExactly` | src/app/platform/domain/settings_registry.py:299-343 | a value is accepted if and only if its stored form is legal: text of a text setting without its outer whitespace, anything else as sent |
| `Settings.ReasonsAreExact` | src/app/platform/domain/settings_registry.py:250-296 | a reason is reported exactly when its own rule is broken, once, in a fixed order |
| `Settings.E164Form` | src/app/platform/domain/settings_registry.py:38 | the phone pattern is a plus, a digit from 1 to 9 and at most fourteen digits more |
| `Settings.UpdateStores` | src/app/platform/application/commands/update_setting.py:68-86 | an update stores the legal form of what was sent in a row that is there, and touches nothing else of it |
| `Settings.ValidationIsIdempotent` | src/app/platform/domain/settings_registry.py:299-343 | validating a validated value changes nothing |
| `Settings.SeedIsGood` | migrations/versions/de1d8a23512f_settings_table_and_seeded_registry.py:68-160 | every registered key is seeded with a value of its type that validation leaves alone |
| `Settings.PublicKeysAreDeclared` | src/app/platform/domain/settings_registry.py:214-220 | the allowlist is exactly the settings declared public |
| `Settings.SettingsStayGood` | src/app/platform/application/commands/update_setting.py:68-86 | from the seeded table, through any interleaving of updates, every stored setting is a fixed point of validation |
| `Settings.ReaderNeverRaises` | src/app/platform/application/services/settings_reader.py:38-61 | reading a registered key gives exactly what is stored |
| `Settings.ReadPublicSettings` | src/app/platform/api/settings.py:271-281 | the loop fails exactly when some allowlisted setting cannot be read, never on a table of valid rows, and serves only allowlisted keys |
| `Settings.SettingAuditChain` | src/app/platform/application/commands/update_setting.py:70-109 | the audit rows of one setting form a chain ending at the stored row |
| `Settings.Setting.ChangeValue` | src/app/platform/domain/entities.py:95-115 | reports whether the value moved |
| `Settings.SettingsTable.UpdateSetting` | src/app/platform/application/commands/update_setting.py:57-111 | stores the value in its legal form with its audit row, whether or not it moved; refusals name exactly their reasons and leave no trace |
| `Categories.SlugsAreJoinedGroups` | src/app/catalog/domain/slug.py:22-25 | the pattern is exactly nonempty lowercase alphanumeric groups joined by single hyphens |
| `Categories.NormaliseIsIdempotent` | src/app/catalog/domain/slug.py:28-52 | normalising a normalised slug changes nothing |
| `Categories.FixedSlugs` | src/app/catalog/domain/slug.py:28-52 | the fixed points are exactly the pattern's strings of at most 200 characters |
| `Categories.NormalisesExactly` | src/app/catalog/domain/slug.py:28-52 | normalisation gives the trimmed, lower-case form whenever that is groups joined by hyphens within the bound, and refuses the rest |
| `Categories.DecidesExactly` | src/app/catalog/application/commands/category_admin.py:81-218 | a command stores a row exactly when it may, and column by column exactly what it was asked: given fields move, others stay |
| `Categories.CategoriesStayGood` | src/app/catalog/domain/entities.py:71-122 | in every run slugs are canonical, archived rows inactive, live slugs pairwise distinct, the last from flush-time index checks under interleaving and rollback |
| `Categories.ArchivedForGood` | src/app/catalog/application/commands/category_admin.py:141-159 | an archived row never changes and nothing is audited about it afterwards |
| `Categories.CategoryAuditChain` | src/app/catalog/application/commands/category_admin.py:141-174 | audit rows of one category form a chain ending at the stored row, and none follows an archive |
| `Categories.SlugIsReleased` | src/app/catalog/application/commands/category_admin.py:104-118 | a slug can be claimed by a new row exactly when no live row has it |
| `Categories.ArchivingFreesSlug` | src/app/catalog/application/commands/category_admin.py:183-218 | archiving never conflicts with the unique index |
| `Categories.CategoryEntity.ApplyUpdate` | src/app/catalog/domain/entities.py:95-122 | each given field takes its new value, every other stays; reports whether anything changed |
| `Categories.CategoryEntity.Archive` | src/app/catalog/domain/entities.py:71-81 | sets both columns together |
| `Categories.CategoryTable.Create` | src/app/catalog/application/commands/category_admin.py:81-118 | inserts and audits, or refuses a bad or taken slug leaving no trace |
| `Categories.CategoryTable.Update` | src/app/catalog/application/commands/category_admin.py:125-174 | patches column by column and audits a live row; missing, archived, unspellable and clashing slugs are each refused exactly when that is the case |
| `Categories.CategoryTable.Archive` | src/app/catalog/application/commands/category_admin.py:183-218 | archives and audits exactly a row that is not archived |
| `Keyset.RowValueIsTotal` | src/app/identity/infrastructure/repositories.py:176-196 | row-value comparison with a tie-breaker leaves no two rows level, in either direction |
| `Keyset.RowValueOrders` | src/app/identity/infrastructure/repositories.py:176-196 | the first key decides, the tie-breaker only between equals and in the same direction |
| `Keyset.PageServes` | src/app/identity/api/admin_users.py:192-204 | a page serves matching rows beyond the cursor in order and skips none up to its next cursor |
| `Keyset.WalkAscends` | src/app/engagement/infrastructure/repositories.py:75-121 | however the table changes between pages, keys come in strictly ascending order |
| `Keyset.WalkCovers` | src/app/catalog/infrastructure/repositories.py:162-179 | a finished walk has served every row that matched throughout |
| `Keyset.ServedExactlyOnce` | src/app/identity/infrastructure/repositories.py:134-198 | such a row is served exactly once |
| `Keyset.ServedMatched` | src/app/identity/infrastructure/repositories.py:134-198 | every row served matched the filter when it was served |
| `Keyset.StillWalk` | src/app/identity/api/admin_users.py:192-204 | on a fixed table the pages concatenate to the sorted filtered list |
| `Keyset.StillWalkPages` | src/app/identity/api/admin_users.py:192-204 | in max(1, ceil(n / limit)) pages |
| `Keyset.StillWalkExists` | src/app/identity/api/admin_users.py:192-204 | following the cursors of a fixed table comes to an end |
| `Cursors.PaddingRestored` | src/app/identity/api/admin_users.py:76-89 | stripping the padding and restoring `-len % 4` marks is the identity on every encoding |
| `Cursors.BytesRoundTrip` | src/app/identity/api/admin_users.py:76-93 | unpadded URL-safe base64 is the identity on all byte strings |
| `Cursors.ForeignIsSkipped` | src/app/identity/api/admin_users.py:88-93 | a character outside the alphabet makes no difference to what is decoded |
| `Cursors.UnfinishedIsRefused` | src/app/identity/api/admin_users.py:88-93 | text without padding decodes exactly when it is ASCII and its letters come in fours |
| `Cursors.PairRoundTrip` | src/app/engagement/api/notifications.py:52-92 | a `(created_at, id)` cursor decodes to the key it was minted from |
| `Cursors.PairDecodesExactly` | src/app/identity/api/admin_users.py:81-107 | a cursor is taken exactly if its text splits at the first separator and both parts parse: never half a pair |
| `Cursors.JsonRoundTrip` | src/app/catalog/api/reference_data.py:123-152 | likewise for the JSON `(name, id)` cursor |
| `Cursors.KeyRoundTrip` | src/app/platform/api/settings.py:67-96 | a settings cursor comes back exactly when it has the shape of a key |
| `Outbox.EmailOutboxMessage.MarkSent` | src/app/platform/domain/entities.py:42-46 | marks the row sent and redacts it |
| `Outbox.EmailOutboxMessage.MarkFailed` | src/app/platform/domain/entities.py:48-59 | counts the attempt, keeps the first thousand characters of the error, reschedules, and fails and redacts on the fifth; column by column |
| `Outbox.EmailOutboxMessage.RedactPayload` | src/app/platform/domain/entities.py:29-40 | keeps every key and redacts every value |
| `Outbox.OutboxTable.ClaimDue` | src/app/platform/infrastructure/repositories.py:54-69 | finds the earliest due row, or none exactly when nothing is due |
| `Outbox.OutboxTable.DispatchOutbox` | src/app/jobs/outbox.py:39-76 | at most a batch, stopping early only when nothing is due; each pass takes the earliest row due and does to it exactly what the provider's answer calls for (`Outbox.AttemptKept`); no row goes back |
| `Outbox.OutboxTable.Process` | src/app/jobs/outbox.py:46-74 | a delivered row is sent and redacted; a refused one counts an attempt and waits 60 * 2^attempts seconds, or fails for good at the fifth; no other row moves |
| `Outbox.EachPassKept` | src/app/jobs/outbox.py:39-76 | each pass of a batch does that to the earliest row due, at its own clock readings, and nothing else |
| `Outbox.CommitRecordsAnswer` | src/app/jobs/outbox.py:46-75 | in every run a commit does to its row what the provider's last answer to that worker calls for, as of the moment it came |
| `Outbox.SentMeansDelivered` | src/app/jobs/outbox.py:46-75 | in every state a mail is marked sent exactly when a delivered attempt on it has committed, and its attempts are the refused ones that have |
| `Outbox.BatchLater` | src/app/jobs/outbox.py:39-76 | a whole batch leaves terminal rows as they were, keeps every row's payload keys and uncounts no attempt |
| `Outbox.RunInv` | src/app/jobs/outbox.py:39-76 | the invariant over rows, claims and attempt times holds for any number of workers |
| `Outbox.RowsAreHeldOnce` | src/app/platform/infrastructure/repositories.py:54-69 | no two workers hold one row |
| `Outbox.AttemptsAreBounded` | src/app/platform/domain/entities.py:48-59 | at most five attempts, failed exactly at five, terminal rows redacted |
| `Outbox.TerminalRowsAreFrozen` | src/app/platform/domain/entities.py:29-59 | terminal rows never change; no row gains or loses a payload key |
| `Outbox.FifthAttemptComesLate` | src/app/jobs/outbox.py:53-57 | the fifth attempt starts at least 900 seconds after the first |
| `Throttle.LoginThrottle.Check` | src/app/identity/application/services/login_throttle.py:49-68 | refuses exactly when nine failures stand, for 900 seconds; otherwise the documented delay of the next attempt; it is the check step of the run model |
| `Throttle.LoginThrottle.RecordFailure` | src/app/identity/application/services/login_throttle.py:70-75 | counts one more and restarts the 900 seconds, as the run model does |
| `Throttle.DelaysFollowSchedule` | src/app/identity/application/services/login_throttle.py:30-34 | the capped doubling gives 1, 2, 4 and then always 8 seconds from the fourth attempt on, for every attempt number |
| `Throttle.DelaysTotal` | src/app/identity/application/services/login_throttle.py:30-34 | three free attempts, then delays that total 31 seconds up to the ninth |
| `Throttle.NineFailuresAtMost` | src/app/identity/application/services/login_throttle.py:49-75 | between moments when the counter is absent at most nine failures are recorded |
| `Throttle.LockoutLastsExactly` | src/app/identity/application/services/login_throttle.py:49-75 | until 900 seconds after the last failure every request is refused and nothing moves |
| `Throttle.LockoutEnds` | src/app/identity/application/services/login_throttle.py:70-75 | from then on the next request is a first attempt |
| `Throttle.NineFailuresTakeTime` | src/app/identity/application/services/login_throttle.py:30-68 | nine failures in one count take at least 31 seconds |

## Left out

- `VerifyEmail` and `MfaSetup` overlapping another writer of the same row: both read without a lock and then save many columns, so the outcome depends on ORM dirty tracking. Enrolling a secret happens here only while nobody has the credential locked.
- Regenerating recovery codes and the count of unused ones: regeneration takes no credential lock.
- Row locks taken implicitly by foreign keys when a row is inserted: the deadlock result is about explicit locks.
- How the database ends a deadlock of two resets of one account (`Contention.TwoResetsCanDeadlock`): the model lets either be rolled back, and the safety results cover that.
- Deleting accounts (the purge job), anonymisation and email changes.
- The `exp` check of tokens inside runs: runs also include requests whose token had just expired at decoding, which the program refuses earlier; an access token's fifteen minutes only shorten its life.
- `updated_at`, IP hashes, user agents, request ids and actors of audit rows.
- Materials and colours: the same lifecycle as categories without slugs.
- JSON, ISO 8601, UUID and UTF-8 text forms and database collation: a printer with a parser that undoes it, and any strict total order.
- Cryptography, timing equalisation, cookies, CSRF, HTTP error documents, rate limiting of routes, email providers and logging.
- The redelivery window of the outbox: a worker that dies after sending leaves the row to be sent again, which the model allows and does not count as an attempt.
- Concurrent login requests on one (email, IP): the throttle results are for requests one at a time.
