# Compendiq verification model

Dafny models of the parts of Compendiq whose correctness depends on interleavings, faults or exact
arithmetic, with proofs of what they promise. `dafny verify dfyconfig.toml` checks everything.

**Refresh sessions** (`Sessions`, `SessionInvariant`, `SessionTheorems`, `SessionFallback`,
`SessionReuse`, `SessionServer`, `SessionProgress`). Single-use
refresh-token rotation with reuse detection (section 4.14.2 of RFC 9700) beside revocation, logout, role
change, deactivation and deletion. The model is a transition system in which one action is one statement, one
lock grant, one COMMIT or one failure. Row versions stay in a transaction's write buffer until COMMIT and other
transactions read committed tables only; multi-row statements take a snapshot first and wait for row locks
afterwards, as READ COMMITTED does. Each users row has one lock owner. An inductive invariant ties what each
open transaction has established to the committed tables. `SessionServer` writes the same operations as the
source does, as straight-line code; between two statements any number of statements of other clients run, and
each statement may meet its deadline or fail. `SessionReuse` has the facts about the tables that an answer rests on
and why they still hold when the transaction acts; `SessionProgress` shows that with nobody in the way each operation
gets where it should.

**Administrators** (`AdminMembership`, `AdminServer`, `AdminProgress`). Who may remove or create an administrator when
role changes, deactivations, deletions, reactivations, user creation and the two public bootstrap routes run
concurrently under row locks, one advisory lock and a table lock.

**Image-analysis budget** (`Json`, `JsonReader`, `ImageBudget`). A JSON printer on UTF-16 code units (section 7 of RFC 8259,
lone surrogates included), the payload schema at a token ceiling, exactly which payloads it accepts, and the budget
invariant as an exact statement.

**rag_ef_search** (`RagEfSearch`). The cached asynchronous resolver as start and finish steps, any number in
flight, with saves, forgets, expiry, failing reads and reads from old snapshots between them.

**Corpus Markdown** (`HeadingPruning`, `OrphanMarkers`). The bounded rewrite that drops bare headings equals a
one-shot specification; the marker sweep leaves fenced code alone.

**Migrations** (`Migrations`, `MigrationProgress`). Any number of replicas, each free to crash or fail at any statement.

**Backups** (`RestoreStage`, `RestoreCommit`, `BackupUpload`, `BackupRetention`). Archive validation, the restore
commit with its compensation under every combination of faults, multipart upload, retention.

**Pooled connections** (`PooledSession`). What a client carries when it is returned to the pool.

**Attachment namespaces** (`PosixPaths`, `AttachmentPaths`). Four stores under one root, over POSIX path resolution on strings.
`Trimming` and `Decimals` are shared: white space at the ends of a text, and decimal numerals.

**Forwarded hops** (`ForwardedHops`). The X-Forwarded-For walk on the raw header text.

## What the proofs found

- Logout everywhere (`revokeAllUserTokens`) does not reach a session that a login commits between the UPDATE's
  snapshot and its COMMIT: a login needs only the foreign-key share lock, which FOR NO KEY UPDATE admits. The
  statement "every family existing at that commit is dead" therefore holds for one-family revocations and, for
  all-family ones, exactly for the families in the snapshot (`LockedPassExact`, `LoginDuringLogoutSurvives`).
- The unlocked fallback spends every token it was meant for, and fails to kill a family exactly when a rotation has
  given the family a successor since its snapshot that is still live, or has one inserted but uncommitted
  (`UnlockedPassSpends`, `UnlockedPassExact`; a run that ends so is `UnlockedPassMissesSuccessor`).
- The image budget is used up not only at 8192 but at every smaller ceiling a multiple of 657 below it down to
  1622, and only by the diagram kind (`BudgetTight`).
- `runMigrations` returns a client that still holds the advisory lock exactly when the swallowed unlock failed in a
  session that lived on; nothing else can leak from it (`RunMigrations`, `UnlockFailureLeaksLock`).
- `withLocalAttachmentMutationLock` returns a wholly clean client exactly when its operation left no transaction
  open (`WithLocalAttachmentMutationLock`, `OpenOperationLeaksTransaction`).
- The archive path rule admits "." segments, so different member names can claim one place; the exclusive open then
  refuses the archive.  A first path segment that merely starts with two dots is refused as a traversal.
- After a restore, database and attachments can disagree exactly under the faults `Survivable` excludes.
- `localStorePath` by itself gives no key a path of its own, although its comment relies on a check its callers make:
  a key and the same key with a slash behind it share one (`LocalKeysCollapse`).  With that check paths and requests
  correspond one to one (`LocalKeyUnique`, `Injective`).

Where code and comments differ the code is followed: `realAdminExists` counts deactivated administrators, so the
bootstrap window is about any real administrator row, not an active one.

## Model
| member | source | states |
|---|---|---|
| SessionInvariant.InvStep | backend/src/core/plugins/auth.ts:293-334 | Every statement, grant, commit and failure of every client keeps the invariant: one lock owner per users row, one writer per token row, linear families, and every family an operation reported as killed is dead |
| SessionInvariant.StepKeepsShape | backend/src/core/plugins/auth.ts:375-432 | The part of the invariant about tables and open transactions alone is inductive: what a transaction has read under its lock stays true until it ends, whoever commits in between |
| SessionInvariant.ReachableInv | backend/src/core/plugins/auth.ts:293-334 | The invariant holds in every reachable state, from empty tables |
| SessionInvariant.RunKeepsInv | backend/src/core/plugins/auth.ts:293-334 | The invariant survives any run |
| SessionInvariant.DeadStep | backend/src/core/plugins/auth.ts:359-374 | No single action brings a dead family back or gives it a pending live successor |
| SessionInvariant.DeadStopsRotation | backend/src/core/plugins/auth.ts:391-417 | A rotation that has claimed or inserted is never of a dead family |
| SessionInvariant.CommitKills | backend/src/core/plugins/auth.ts:448-463 | The commit of a revocation, reuse or admin change that holds the users-row lock leaves every family it covers dead, open rotations included |
| SessionInvariant.GuardExcludesSuccessor | backend/src/core/plugins/auth.ts:293-303 | While one transaction holds a user's row (or the user is gone), nobody else has an uncommitted successor in any of that user's families |
| SessionInvariant.OutcomeOrigin | backend/src/core/plugins/auth.ts:464-490 | A reported kill is recorded only by the operation's own locked commit, for the families that commit covered |
| SessionTheorems.DeadForever | backend/src/core/plugins/auth.ts:375-432 | Family death is absorbing: no run of rotations, logins, clean-ups, reactivations or anything else revives it or lengthens its succession |
| SessionTheorems.OneLivePerFamily | backend/src/core/plugins/auth.ts:190-203 | In every reachable state a family has at most one live token, the tip of its line |
| SessionTheorems.LinearSuccession | backend/src/core/plugins/auth.ts:391-417 | Committed rotations form one chain per family: each claims exactly its predecessor, and every remaining token is on the chain |
| SessionTheorems.ClaimedOnce | backend/src/core/plugins/auth.ts:391-397 | No JTI is claimed by two committed rotations, within one family or across families |
| SessionTheorems.SingleUse | backend/src/core/plugins/auth.ts:364-374 | Of any number of presentations of one token, sequential or concurrent, at most one is rotated |
| SessionTheorems.RotationTokens | backend/src/core/plugins/auth.ts:391-417 | A rotation with a pending successor changes exactly two rows: the presented token, live until then, and a successor that was no row before |
| SessionTheorems.RotationCommit | backend/src/core/plugins/auth.ts:378-417 | At a rotation's COMMIT its user exists and is active, its signed claims equal the users row of that moment, the presented token was live, and nothing else in the token table changes |
| SessionTheorems.RotationsStep | backend/src/core/plugins/auth.ts:391-417 | Every step keeps: each successful rotation left its link in its family's line, and no two share a successor |
| SessionTheorems.KilledForever | backend/src/core/plugins/auth.ts:448-490 | What a completed locked pass, a detected reuse or an admin change reports as covered is dead then and in every continuation, and never rotated again, even where a rotation had an uncommitted successor during an unlocked pass |
| SessionTheorems.LockedPassCovers | backend/src/core/plugins/auth.ts:496-516 | A locked pass covers the family asked for, or all families the user has at the UPDATE's snapshot |
| SessionTheorems.LockedPassExact | backend/src/core/plugins/auth.ts:464-516 | A family of the user is live after a locked pass commits if and only if it was live and not in that snapshot |
| SessionTheorems.UncoveredUntouched | backend/src/core/plugins/auth.ts:496-516 | A revocation's commit leaves every row of every other family exactly as it was |
| SessionTheorems.ChangeKillsEveryFamily | backend/src/core/services/admin-user-service.ts:316-334 | When a role change, deactivation or deletion commits, it has taken effect on the users row, every family the user ever had is dead and the user has no token row left |
| SessionTheorems.ChangeEndsSessions | backend/src/core/services/admin-user-service.ts:245-256 | After such a commit no token of a family existing then is ever live, claimed or rotated again, through reactivation and any other run |
| SessionTheorems.ChangeTouchesOnlyItsUser | backend/src/core/services/admin-user-service.ts:316-334 | Such a commit leaves every other user's row and tokens exactly as they were |
| SessionTheorems.RetireTouchesOnly | backend/src/core/plugins/auth.ts:378-390 | The commit for a deactivated user touches the presented row and no other |
| SessionTheorems.OtherRowsStay | backend/src/core/plugins/auth.ts:445-447 | Revoking one JTI, cleaning up and logging in touch exactly the rows they name; a login's row is live and the user's own |
| SessionTheorems.SpentForever | backend/src/core/plugins/auth.ts:391-397 | No run makes a revoked or deleted token live again |
| SessionTheorems.SpendingIsFinal | backend/src/core/plugins/auth.ts:445-447 | Revoking one JTI (logout) and rotating it each spend it for good, in every continuation |
| SessionTheorems.BusyCommitsNothing | backend/src/core/plugins/auth.ts:464-490 | An operation that answers busy has committed nothing in any of its attempts |
| SessionTheorems.UnlockedSnapshotTaken | backend/src/core/plugins/auth.ts:475-483 | The state the fallback exists for is reachable: a successor is inserted but uncommitted when the unlocked UPDATE takes its snapshot |
| SessionTheorems.UnlockedPassMissesSuccessor | backend/src/core/plugins/auth.ts:448-463 | A run in which only the unlocked pass went through and a successor of the revoked family stays live |
| SessionTheorems.LoginDuringLogoutSurvives | backend/src/core/plugins/auth.ts:514-516 | A run in which a logout under the lock completes and a session opened during it stays live |
| SessionFallback.RunFades | backend/src/core/plugins/auth.ts:375-521 | Along any run no committed JTI comes back, a row that is left is as it was or revoked, and families stay with their user and only grow |
| SessionFallback.UnlockedCommitExact | backend/src/core/plugins/auth.ts:475-483 | Exactly the live tokens outside its write set survive a revocation's commit |
| SessionFallback.UnlockedPassExact | backend/src/core/plugins/auth.ts:448-483 | Over every run from the unlocked snapshot to the commit: a family meant for is live afterwards if and only if a rotation has given it a successor since the snapshot that is still live, and dead for good if and only if, besides, no open rotation of it has inserted one |
| SessionFallback.UnlockedPassSpends | backend/src/core/plugins/auth.ts:448-452 | The purpose of the fallback: every token it was meant for at its snapshot is spent by its commit, in every continuation |
| SessionFallback.DeadExact | backend/src/core/plugins/auth.ts:455-463 | What an unlocked commit leaves short of death is exactly a live token or a rotation with a pending successor |
| SessionFallback.LiveMeansGrown | backend/src/core/plugins/auth.ts:455-463 | With every token a revocation was meant for spent, its families can only be live by later successors |
| SessionFallback.CoveredSpent | backend/src/core/plugins/auth.ts:496-516 | Where every family a pass covered is dead, every token meant when it was called is spent |
| SessionServer.PresentedIsRetired | backend/src/core/plugins/auth.ts:378-390 | A deactivated user's presented token is revoked by that transaction's commit whatever others did in between, and is never live again |
| SessionServer.FamilyPass | backend/src/core/plugins/auth.ts:496-508 | A finished locked pass over one family leaves exactly that family reported, and dead |
| SessionServer.ReusePass | backend/src/core/plugins/auth.ts:398-409 | A reported reuse leaves the presented token's family dead |
| SessionServer.CommitIssues | backend/src/core/plugins/auth.ts:412-417 | The commit of a pending successor leaves it live at the tip of the family, with the presented token spent |
| SessionServer.ClaimDecides | backend/src/core/plugins/auth.ts:391-397 | The conditional claim is lost exactly where no live row has this JTI, user and family; the user is active then |
| SessionServer.ProbeDecides | backend/src/core/plugins/auth.ts:398-403 | The probe tells reuse from an unknown token by the presence of the row alone, revoked or not |
| SessionServer.RevokedNotRotated | backend/src/core/plugins/auth.ts:364-374 | A token that is revoked when it is presented is revoked in every state in which it might be claimed |
| SessionReuse.MissedRun | backend/src/core/plugins/auth.ts:391-409 | Until the transaction goes on from its lost claim, no run of the others reactivates, deactivates or removes its user, or gives the signed JTI a live row |
| SessionReuse.ActiveStays | backend/src/core/plugins/auth.ts:293-303 | Nobody else changes the status of a user whose row a transaction holds |
| SessionReuse.LostStays | backend/src/core/plugins/auth.ts:391-409 | Nobody else makes a signed JTI of that user live again |
| SessionProgress.QuietRotation | backend/src/core/plugins/auth.ts:375-432 | With no other transaction open, a live token of an active user can be rotated to any fresh JTI |
| SessionProgress.QuietReuse | backend/src/core/plugins/auth.ts:398-409 | With no other transaction open, a revoked token of an active user can be answered as reuse |
| SessionProgress.QuietRejection | backend/src/core/plugins/auth.ts:378-403 | With no other transaction open, a token of no active user, or without its row, can be rejected |
| SessionProgress.QuietRevocation | backend/src/core/plugins/auth.ts:464-473 | With no other transaction open, a revocation can finish its first locked pass, over the family named or all of the user's |
| SessionProgress.QuietChange | backend/src/core/services/admin-user-service.ts:316-334 | With no other transaction open, a change of an existing user can go through; it removes exactly that user's tokens, or none when it sets the role the user has |
| SessionServer.Server.Step | backend/src/core/plugins/auth.ts:120-153 | One awaited statement among arbitrary statements of others: it takes effect on the tables as they then are, or its transaction is rolled back; a wait that never ends meets the deadline |
| SessionServer.Server.RevokeLocked | backend/src/core/plugins/auth.ts:464-473 | One locked attempt is rolled back whole or finishes a pass; what that covered is dead, and without a named family it covers every family the user had when the attempt began |
| SessionServer.Server.RevokeUnlocked | backend/src/core/plugins/auth.ts:475-483 | The fallback without the users-row lock is rolled back whole, or commits with every token spent that was meant when it began |
| SessionServer.Server.RevokeUnderUserLock | backend/src/core/plugins/auth.ts:464-490 | From any state and among any interference: unless the call answers busy or fails, every token it was meant for is spent; a locked pass leaves all it covered dead, and covers at least what the caller meant; after an unlocked pass alone a family is live only by a successor gained since the call |
| SessionServer.Server.RevokeTokenFamily | backend/src/core/plugins/auth.ts:496-508 | Nothing happens exactly when the family has no token; otherwise, whatever happens between reading the owner and the transaction, a locked pass leaves exactly that family dead, and short of busy or failure all its tokens are spent |
| SessionServer.Server.RevokeAllUserTokens | backend/src/core/plugins/auth.ts:514-516 | Short of busy or failure every token the user had at the call is spent; after a locked pass every family the user had is dead; after an unlocked pass alone a family is live only by a later successor |
| SessionServer.Server.RotateRefreshToken | backend/src/core/plugins/auth.ts:375-432 | A session only for an active user whose presented token was in the table and live when claimed, and never for one that was revoked at the call; reuse only for an active user whose token was there and revoked, never for a live one; rejection only where the user is gone or deactivated or no row has this JTI, user and family. So a replayed token of an active user that is in the table ends in reuse, busy or failure. A session is live at the tip of its family with the presented token spent; reuse leaves the family dead |
| SessionServer.Server.RetirePresented | backend/src/core/plugins/auth.ts:378-390 | A deactivated user's presentation never yields a session, and a rejected one leaves the presented token of that user spent in every continuation |
| SessionServer.Server.ClaimAndSucceed | backend/src/core/plugins/auth.ts:391-417 | The same for the claim of an active user: won only on a live row of this JTI, user and family, lost to reuse only where that row is there and revoked, rejected only where there is none |
| SessionServer.Server.PunishReuse | backend/src/core/plugins/auth.ts:398-409 | Short of busy or failure a lost claim is answered as reuse exactly when the table has the presented row, revoked or not, and as rejection exactly when it has not |
| SessionServer.Server.RevokeWholeFamily | backend/src/core/plugins/auth.ts:404-409 | The family UPDATE in the rotation's own transaction ends as reuse, or is rolled back with it |
| SessionServer.Server.IssueSuccessor | backend/src/core/plugins/auth.ts:412-417 | The successor goes in under the same lock with a fresh JTI, and is either committed over a presented token that was still live, or leaves no trace |
| AdminMembership.InvStep | backend/src/core/services/admin-user-service.ts:446-495 | Every step keeps the lock discipline and what each open transaction has established about the committed rows |
| AdminMembership.ReachableInv | backend/src/core/services/admin-user-service.ts:446-495 | The invariant holds in every state reachable from an empty table |
| AdminMembership.RemovalLeavesAnother | backend/src/core/services/admin-user-service.ts:469-495 | What a removal saw when it checked is still true when it commits: another active administrator remains |
| AdminMembership.RefusedExactlyWhenLast | backend/src/core/services/admin-user-service.ts:469-495 | LAST_ADMIN is answered if and only if the removal would leave no active real administrator |
| AdminMembership.ActiveAdminStays | backend/src/core/services/admin-user-service.ts:186-280 | No single step of any operation takes the last active administrator away |
| AdminMembership.ActiveAdminForever | backend/src/core/services/admin-user-service.ts:375-444 | Once an active non-system administrator is committed, every later committed state of every run has one |
| AdminMembership.RealAdminStays | backend/src/core/services/registration-policy-service.ts:75-86 | The same for the bootstrap routes' notion, which counts deactivated administrators |
| AdminMembership.RouteAdminIsFirst | backend/src/core/services/account-bootstrap-service.ts:65-113 | A public route creates an administrator only into a table that has none at that very commit |
| AdminMembership.WindowStaysShut | backend/src/core/services/account-bootstrap-service.ts:27-58 | With a real administrator committed, no run lets either public route create another |
| AdminMembership.AtMostOneRouteAdmin | backend/src/core/services/account-bootstrap-service.ts:27-113 | From any state the two public routes together create at most one administrator, and none if one exists |
| AdminMembership.RowLocksAloneLoseTheLastAdmin | backend/src/core/services/admin-user-service.ts:457-468 | Without the advisory lock, row locks admit a run in which two administrators deactivate each other |
| AdminServer.StepKeeps | backend/src/core/services/admin-user-service.ts:186-280 | One step keeps the invariant, both notions of an administrator, and the single bootstrap administrator |
| AdminServer.CommitTakesEffect | backend/src/core/services/admin-user-service.ts:287-346 | At the commit of a change: the target has the role or status asked for and keeps the other, or is gone and the sentinel is an administrator; every other row stays |
| AdminServer.RefusedAsLast | backend/src/core/services/admin-user-service.ts:469-495 | LAST_ADMIN concerns an administrator about to lose the role or the account, with no other active one but the sentinel |
| AdminServer.Server.Step | backend/src/core/services/admin-user-service.ts:287-346 | One awaited statement runs on the state it finds once nothing blocks it, or its transaction is rolled back |
| AdminServer.Server.ChangeUser | backend/src/core/services/admin-user-service.ts:186-444 | Among any interference: refuses exactly the system account and self-removals outright. On success a deactivated target keeps its role, a target whose role is set keeps its status, a deleted one is gone with the sentinel in place as an administrator, and every other row is as committed at that moment, whether or not the target is an administrator. NOT_FOUND is true of the table when answered; LAST_ADMIN is answered only for an administrator losing that role with no other active one, the sentinel apart; the last active administrator is never lost |
| AdminServer.Server.GuardRemoval | backend/src/core/services/admin-user-service.ts:469-495 | LAST_ADMIN is answered only for an administrator whose removal it is, and in a state in which every other user but the sentinel is no administrator or deactivated |
| AdminServer.Server.WriteAndCommit | backend/src/core/services/admin-user-service.ts:314-337 | After its checks an operation either does to its target what was asked, and nothing to any other row of the table of its commit, or is rolled back |
| AdminServer.Server.CreateFirstUser | backend/src/core/services/account-bootstrap-service.ts:36-113 | Adds exactly the new account under an unused id, an administrator if and only if no user but the sentinel is one at that commit; registration is refused only when closed, and then an administrator exists or the count of administrators failed; setup is refused only when one exists; a failed count never creates an account |
| AdminServer.Server.DecideRole | backend/src/core/services/registration-policy-service.ts:88-118 | Under the table lock an ordinary account is allowed only with open registration and an existing administrator; a failing count is presumed to mean one exists and only ever refuses |
| AdminServer.Server.InsertAndCommit | backend/src/core/services/account-bootstrap-service.ts:74-84 | The decided role still stands at the commit, because no administrator can appear in between |
| AdminProgress.QuietChange | backend/src/core/services/admin-user-service.ts:186-444 | With nobody else at work a change of an existing user can go through and takes effect, unless it would remove the last active administrator |
| AdminProgress.QuietLast | backend/src/core/services/admin-user-service.ts:469-495 | Then it can be refused, and changes no user |
| AdminProgress.QuietFirst | backend/src/core/services/account-bootstrap-service.ts:36-113 | With nobody else at work the first bootstrap route can create the administrator, and an open registration that finds one can create a member |
| AdminProgress.QuietRefusal | backend/src/core/services/account-bootstrap-service.ts:36-113 | With an administrator in the table setup, and closed registration, can be refused, and change no user |
| Json.QuoteRoundTrip | packages/contracts/src/image-analysis.ts:98-106 | The encoding whose length is measured is faithful: a JSON reader gets the same code units back from every string, lone surrogates included |
| Json.QuoteIsShortest | packages/contracts/src/image-analysis.ts:98-109 | The emitted length is no accident of the printer: a string's quoted form is the shortest text without lone surrogates that a JSON reader takes for it |
| JsonReader.RoundTrip | packages/contracts/src/image-analysis.ts:98-106 | A JSON reader gets back every value the printer writes and stops exactly where the printer stopped |
| JsonReader.StringifyInjective | packages/contracts/src/image-analysis.ts:141-146 | Different values print differently |
| Json.MembersLength | packages/contracts/src/image-analysis.ts:141-146 | The encoded length of an object's members is the sum of the members' lengths and separators |
| Json.ItemsLength | packages/contracts/src/image-analysis.ts:141-146 | The same for array items |
| ImageBudget.PayloadLength | packages/contracts/src/image-analysis.ts:147-183 | The exact length of any payload's encoding in terms of the emitted lengths the schema bounds |
| ImageBudget.EncodingReads | packages/contracts/src/image-analysis.ts:141-146 | The text whose length is bounded is the payload's JSON: a reader gets its members back in the encoding order |
| ImageBudget.PayloadBounded | packages/contracts/src/image-analysis.ts:147-202 | No payload the schema accepts is longer than its kind's maximum, and it accepts none below a ceiling of 1622 |
| ImageBudget.Budget | packages/contracts/src/image-analysis.ts:40-45 | For every kind and every integer ceiling from 1622 the maximum is at most the ceiling minus 76, with equality exactly for the diagram kind at the ceilings 657 steps below 8192 |
| ImageBudget.EncodingFits | packages/contracts/src/image-analysis.ts:40-45 | The stated invariant: every accepted payload encodes to at most the ceiling minus 76 characters |
| ImageBudget.MaximalReached | packages/contracts/src/image-analysis.ts:59-80 | Each kind's maximum is the length of a payload the schema accepts, so the bound is the best possible |
| ImageBudget.AcceptedExactly | packages/contracts/src/image-analysis.ts:147-202 | The schema accepts a payload if and only if the ceiling is at least 1622 and the payload is no larger than the maximal one of its kind, text by text and item by item |
| ImageBudget.LeavingOut | packages/contracts/src/image-analysis.ts:104-129 | Acceptance is downward closed: shorter texts, fewer items and fewer optional members are accepted where the larger payload is, an empty transcription included |
| ImageBudget.HigherCeiling | packages/contracts/src/image-analysis.ts:86-96 | A higher ceiling accepts whatever a lower one does |
| ImageBudget.BudgetTight | packages/contracts/src/image-analysis.ts:24-38 | Some accepted payload uses the budget up if and only if it is a diagram and the ceiling is 8192 or a multiple of 657 below it, down to 1622 |
| ImageBudget.FloorBudget | packages/contracts/src/image-analysis.ts:86-96 | A scaled bound is the largest integer within its share of the scaled budget, and meets that share only when the division is exact |
| ImageBudget.DiagramTight | packages/contracts/src/image-analysis.ts:30-38 | The diagram kind's floors lose nothing exactly at the ceilings 657 steps apart |
| ImageBudget.FloorsExact | packages/contracts/src/image-analysis.ts:114-129 | The four diagram bounds are floored without loss together exactly when 657 divides the distance to 1622 |
| ImageBudget.ScaleSign | packages/contracts/src/image-analysis.ts:86-96 | A scaled bound is negative, and so admits no string at all, exactly below a ceiling of 1622 |
| RagEfSearch.FromRow | backend/src/core/services/admin-settings-service.ts:867-874 | A usable row yields a value pgvector accepts |
| RagEfSearch.FromEnv | backend/src/core/services/admin-settings-service.ts:761-766 | A usable variable yields a value pgvector accepts |
| RagEfSearch.FromRowExactly | backend/src/core/services/admin-settings-service.ts:867-874 | A row is usable exactly if it is a positive decimal, white space around it and leading zeros aside; it counts as that number, capped at 1000 |
| RagEfSearch.FromEnvExactly | backend/src/core/services/admin-settings-service.ts:761-766 | The variable is usable exactly if it is a decimal from 1 to 1000 in the same sense, and counts as that number |
| RagEfSearch.WritesMeans | backend/src/core/services/admin-settings-service.ts:761-766 | Trimmed digits denote the number they are a decimal of |
| RagEfSearch.ReadRowIsUsed | backend/src/core/services/admin-settings-service.ts:860-911 | Whatever the process remembers, a read that returns a usable row delivers exactly that number as the row, and every later resolve holds it until the next save, forget or read that returns |
| RagEfSearch.NoRowMeansBootstrap | backend/src/core/services/admin-settings-service.ts:838-853 | A process that has read no usable row and saved none delivers exactly the variable's number, else 100, in every resolve |
| RagEfSearch.OnlyBootstrapIsNoRow | backend/src/core/services/admin-settings-service.ts:838-853 | In any run whatever is delivered as other than a row is the variable's number or the constant |
| RagEfSearch.NoRowOnlyWithoutEvidence | backend/src/core/services/admin-settings-service.ts:880-907 | A completed read delivers such a thing only if it saw no usable row and none had been written, or if it threw and held it |
| RagEfSearch.CachedUntilExpiry | backend/src/core/services/admin-settings-service.ts:855-859 | What a read delivered is answered without a read until it expires, and from then on a read is started |
| RagEfSearch.AlwaysInRange | backend/src/core/services/admin-settings-service.ts:855-911 | Every resolve that ever completes, in any run, delivers a value in 1..1000 |
| RagEfSearch.SavedMeansRow | backend/src/core/services/admin-settings-service.ts:720-745 | After a valid save every resolve that completes reports the row until the next forget, whenever it started and whatever its read did |
| RagEfSearch.SavedValueStands | backend/src/core/services/admin-settings-service.ts:826-836 | As long as no read returns an older row, failed reads and pre-INSERT snapshots all deliver exactly the saved number |
| RagEfSearch.HeldThroughFailures | backend/src/core/services/admin-settings-service.ts:814-824 | Once a read has completed, every later resolve delivers that same value and source through any number of expiries and failing reads, until the next save, forget or read that returns |
| RagEfSearch.OlderRowWins | backend/src/core/services/admin-settings-service.ts:738-743 | The race the source leaves open: a read in flight across the save can deliver the older row's number |
| RagEfSearch.Resolver.StartResolve | backend/src/core/services/admin-settings-service.ts:855-859 | Up to the await: answers at once exactly when the cache entry is fresh, and changes nothing |
| RagEfSearch.Resolver.FinishResolve | backend/src/core/services/admin-settings-service.ts:860-911 | From the await on: a usable row that was read is the answer; a failed read with something cached answers that; anything else but a row is the variable's number or the constant, and only with no row written. The answer depends on the memory as it then is, not as it was before the read |
| RagEfSearch.Resolver.Invalidate | backend/src/core/services/admin-settings-service.ts:929-932 | A full forget of cache and row evidence |
| RagEfSearch.Resolver.NoteRowSaved | backend/src/core/services/admin-settings-service.ts:958-963 | A save forgets the cache and records the row only if the reader would accept it |
| HeadingPruning.SixPassesPrune | tools/eval-corpus-images/build.py:803-835 | Six passes, one per heading level, always reach the one-shot specification, which is a fixpoint |
| HeadingPruning.SeventhPassStops | tools/eval-corpus-images/build.py:812-835 | The fixpoint test succeeds in the seventh pass at the latest, so eight passes never run out |
| HeadingPruning.PassSettles | tools/eval-corpus-images/build.py:812-835 | One pass settles one more level: if all deeper headings stand over content, so do those of this level afterwards |
| HeadingPruning.PassKeepsContent | tools/eval-corpus-images/build.py:803-804 | A pass never changes whether a section holds content |
| HeadingPruning.PruneAfterPass | tools/eval-corpus-images/build.py:812-835 | A pass removes only headings the specification removes |
| HeadingPruning.FixpointIsPruned | tools/eval-corpus-images/build.py:831-833 | Stopping at the first unchanged pass is stopping at the specification |
| HeadingPruning.StoppedAtSpecification | tools/eval-corpus-images/build.py:830-834 | The same on the text, where a document that lost every line becomes one empty line |
| HeadingPruning.NonHeadingsSurvive | tools/eval-corpus-images/build.py:789-796 | Every line that is not a heading survives, in order |
| HeadingPruning.NothingBareLeft | tools/eval-corpus-images/build.py:789-796 | In the result every heading stands over a content line before the next heading of its level or shallower |
| HeadingPruning.LevelExactly | tools/eval-corpus-images/build.py:808-816 | A line is a heading of level k exactly if it is k number signs, one to six, a space and any title |
| HeadingPruning.HeadingStays | tools/eval-corpus-images/build.py:789-835 | A heading goes exactly when no line of its section is prose, and stays above a populated deeper one, wherever in the document it is; nothing else about the document matters |
| HeadingPruning.TextHeadingStays | tools/eval-corpus-images/build.py:789-835 | The same on the text of a document |
| HeadingPruning.PruneSuffix | tools/eval-corpus-images/build.py:813-830 | Whether a line goes depends on what follows it alone |
| HeadingPruning.PrunedIsFixpoint | tools/eval-corpus-images/build.py:803-804 | Pruning a pruned document changes nothing |
| HeadingPruning.SplitJoin | tools/eval-corpus-images/build.py:813-830 | Splitting undoes joining except that no lines come back as one empty line |
| HeadingPruning.FindStop | tools/eval-corpus-images/build.py:819-824 | The inner scan finds the end of the section |
| HeadingPruning.AnyText | tools/eval-corpus-images/build.py:825-828 | Some line of the body is not blank |
| HeadingPruning.RunPass | tools/eval-corpus-images/build.py:813-830 | The loop body is one pass, every heading judged against the lines the pass started from |
| HeadingPruning.DropEmptyHeadings | tools/eval-corpus-images/build.py:789-835 | The eight-pass loop returns the specified text, in which by `TextHeadingStays` exactly the headings without prose in their section are missing, and has reached a fixpoint |
| OrphanMarkers.DropOrphanMarkers | tools/eval-corpus-images/build.py:764-786 | The loop with its fence flag returns the sweep of the document |
| OrphanMarkers.OrphanExactly | tools/eval-corpus-images/build.py:761-784 | White space around it aside, a line is a marker exactly if it is one or two digits, these with a closing or both parentheses, one to four asterisks each escaped or not, or a dagger, and a fence exactly if it starts with three backticks |
| OrphanMarkers.FencedBlockKept | tools/eval-corpus-images/build.py:767-775 | Lines inside a fence come out as they went in, whatever precedes them; an unclosed fence exempts the rest |
| OrphanMarkers.ProseSwept | tools/eval-corpus-images/build.py:764-786 | Outside fences exactly the marker lines go and the others keep their order |
| OrphanMarkers.NoOrphanLeft | tools/eval-corpus-images/build.py:764-786 | No marker is left outside the fences of the result |
| OrphanMarkers.FencesKept | tools/eval-corpus-images/build.py:776-786 | Every fence line survives, so no later line changes sides |
| OrphanMarkers.SweptTwice | tools/eval-corpus-images/build.py:764-786 | A second sweep finds nothing |
| OrphanMarkers.TextSweptTwice | tools/eval-corpus-images/build.py:764-786 | The same on the text |
| Migrations.RowsArePrefix | backend/src/core/db/postgres.ts:80-144 | However many replicas boot, crash and fail, the recorded rows are a duplicate-free prefix of the sorted files, and each effect is committed exactly as often as its row, although both pass through separate statements of a transaction that can end between them; nothing is lost |
| Migrations.ReturnedSeesAll | backend/src/core/db/postgres.ts:80-160 | A replica that returns normally has seen every file it ships applied, and they stay applied in every continuation |
| Migrations.NeverRecordsTwice | backend/src/core/db/postgres.ts:111-131 | The name a replica is about to record is never already there, so the UNIQUE constraint never fires |
| Migrations.CommitAppends | backend/src/core/db/postgres.ts:122-133 | What a transaction has buffered by its commit is exactly the next file of the common list, as effect and as row |
| Migrations.InvStep | backend/src/core/db/postgres.ts:95-118 | Every step keeps: where each replica stands says exactly how many rows there are |
| Migrations.TablesStep | backend/src/core/db/postgres.ts:122-139 | Only a commit changes the tables, and it keeps rows and effects in step |
| Migrations.LockKeepsRows | backend/src/core/db/postgres.ts:71-78 | Only the lock holder can add a row |
| Migrations.Database.RunMigrations | backend/src/core/db/postgres.ts:80-160 | Among any interference a normal return means every shipped file is applied |
| Migrations.Database.MigrateAll | backend/src/core/db/postgres.ts:116-144 | The loop over the files ends at the end of the list, or at the first failure with the lock still to release |
| Migrations.Database.MigrateFile | backend/src/core/db/postgres.ts:116-139 | One file is skipped, or run and recorded, or given up with the lock still to release |
| Migrations.Database.RunFile | backend/src/core/db/postgres.ts:122-139 | The file's transaction either adds exactly its row or leaves the rows as they were |
| Migrations.Database.Release | backend/src/core/db/postgres.ts:141-151 | The unlock's own failure changes neither the outcome nor the rows |
| MigrationProgress.QuietBoot | backend/src/core/db/postgres.ts:80-160 | A replica that boots while the lock is free can return with exactly the files it ships applied behind those applied before, the lock free again and every other replica where it was |
| RestoreStage.AssertExactChecksumSet | backend/src/core/services/backup-restore.ts:126-137 | Refuses exactly unequal name sets, and the reported missing and extra names account for the whole difference |
| RestoreStage.ReadMembers | backend/src/core/services/backup-restore.ts:154-188 | The archive loop accepts exactly archives of distinct known members no two of which get in each other's way on disk; the stage then holds exactly their bytes, each at its destination |
| RestoreStage.CheckManifest | backend/src/core/services/backup-restore.ts:194-225 | The checks against the stage succeed exactly when the manifest attests the archive and this host may restore it |
| RestoreStage.AttestsStage | backend/src/core/services/backup-restore.ts:195-212 | Attesting what was recorded while staging is attesting the archive itself |
| RestoreStage.StageAndValidateBackup | backend/src/core/services/backup-restore.ts:139-231 | A backup is accepted if and only if its members can be staged side by side, its one manifest accounts for every other member by name and digest and names nothing else, and the host may restore it |
| RestoreStage.StageAttachment | backend/src/core/services/backup-restore.ts:84-98 | An attachment is staged exactly when its name resolves below the attachments directory and no staged file is at, above or below that place |
| RestoreStage.DestinationResolves | backend/src/core/services/backup-stream.ts:459-473 | Resolving an accepted name against any attachments directory never leaves it |
| RestoreStage.RestoredToItsPlace | backend/src/core/services/backup-stream.ts:442-473 | Every file below the attachments directory goes back to the place its name gives, unless the name holds a NUL or a backslash or its first segment starts with two dots |
| RestoreStage.DestinationRefuses | backend/src/core/services/backup-stream.ts:442-457 | A name with an empty or a parent segment anywhere is given no place |
| RestoreStage.SamePlaceRefused | backend/src/core/services/backup-stream.ts:442-457 | "." segments pass the path rule, so two safe names can claim one place; such an archive is never accepted |
| RestoreCommit.Host.CommitValidatedBackup | backend/src/core/services/backup-restore.ts:311-369 | Under every combination of faults the original tree survives every intermediate state until restore, migrations and reconciliation have succeeded; database and attachments end both old or both new exactly under the survivable faults; errors that promise a kept rollback or stage keep it. Each outcome is answered under exactly its faults: completed if and only if no step that is reached fails |
| RestoreCommit.Host.Swap | backend/src/core/services/backup-restore.ts:315-332 | The swap goes through, or everything is as at the start, or the original is still under the rollback name |
| RestoreCommit.Host.RestoreAttachmentsAfterFailure | backend/src/core/services/backup-restore.ts:289-296 | The compensation restores the original (or its absence) unless a step of it fails, and then the original is still under the rollback name |
| RestoreCommit.Host.Complete | backend/src/core/services/backup-restore.ts:349-368 | Past the database restore both sides stay new, the rollback goes only after everything has succeeded, and each outcome has exactly its fault |
| RestoreCommit.Host.CleanUp | backend/src/core/services/backup-restore.ts:367-368 | Clean-up touches neither the live tree nor the database, also when it stops half way, and completes exactly if both removals do |
| RestoreCommit.Host.Remove | backend/src/core/services/backup-restore.ts:294-295 | A recursive remove passes through damaged trees and may stop in one, but leaves everything outside alone |
| RestoreCommit.Host.Rename | backend/src/core/services/backup-restore.ts:319-328 | Atomic, and refused when the source is missing or the target exists |
| BackupUpload.Upload.UploadBackupObject | backend/src/core/services/backup-s3.ts:249-307 | Success is reported exactly when nothing failed, and then the stored object is the body, in parts numbered from 1, all full but the last, at least one even for an empty body, with the byte count of the body; a failure leaves no object unless the completion's answer was lost |
| BackupUpload.Upload.SendParts | backend/src/core/services/backup-s3.ts:269-283 | The nested loops send the one cut of the body, or stop at the first refused part |
| BackupUpload.Upload.UploadPart | backend/src/core/services/backup-s3.ts:309-330 | A part is recorded in the list exactly when the bucket has it under its number |
| BackupUpload.Upload.Complete | backend/src/core/services/backup-s3.ts:284-302 | Completion joins the listed parts in part-number order |
| BackupUpload.CutUnique | backend/src/core/services/backup-s3.ts:269-283 | How the stream was chunked cannot be seen in the parts: a body has exactly one cut |
| BackupUpload.CutCount | backend/src/core/services/backup-s3.ts:273-283 | The body length determines the number of parts; an exact multiple of the part size gets no empty last part |
| BackupUpload.SentOne | backend/src/core/services/backup-s3.ts:274-278 | Sending a full part moves bytes from pending to sent without losing or reordering any |
| BackupRetention.PruneBackupObjects | backend/src/core/services/backup-s3.ts:385-404 | Deletes exactly the owned backups behind the first k in newest-first order, those of one instant in listing order, where a backup is among the first k exactly if it is inside both the count and the age window; never an unowned key |
| BackupRetention.KeptAreNewest | backend/src/core/services/backup-s3.ts:400-402 | There is always one such k, and nothing deleted is newer than anything kept |
| BackupRetention.UploadedKeysAreOwned | backend/src/core/services/backup-s3.ts:406-410 | Every key the uploader picks is one that retention recognises, whatever the prefix, for years of four digits |
| BackupRetention.OwnedKeyExactly | backend/src/core/services/backup-s3.ts:391-398 | A key is owned exactly if it is the prefix, the fixed start, eight digits, T, six digits and the fixed end |
| BackupRetention.OwnedExactly | backend/src/core/services/backup-s3.ts:394-398 | The filter keeps exactly the listed objects under the owned prefix with the owned name shape |
| BackupRetention.SortedKeeps | backend/src/core/services/backup-s3.ts:399-399 | Sorting is a newest-first permutation |
| BackupRetention.SortedStable | backend/src/core/services/backup-s3.ts:399-399 | Sorting keeps the listing order among objects of one instant |
| BackupRetention.SortedFresh | backend/src/core/services/backup-s3.ts:399-401 | Sorting keeps the number inside the window |
| BackupRetention.WindowIsPrefix | backend/src/core/services/backup-s3.ts:400-401 | In newest-first order the age window is a prefix |
| PooledSession.Client.Query | backend/src/core/plugins/auth.ts:120-126 | A statement works, fails in a session that lives on, or finds or leaves the session dead |
| PooledSession.Client.WithBoundedTransaction | backend/src/core/plugins/auth.ts:120-153 | One release; a client not destroyed holds nothing; the callback runs in a transaction with its deadlines in force; success means an acknowledged COMMIT; the error is a deadline exactly when either report of the failure is one |
| PooledSession.Client.Work | backend/src/core/plugins/auth.ts:136-136 | The callback leaves the transaction open or aborted, or the session dead, and no session state behind |
| PooledSession.Client.RunMigrations | backend/src/core/db/postgres.ts:80-160 | One release; the files are applied under the lock with the timeouts lifted, and success means that they were; a client not destroyed has no open transaction and the pool's timeouts, and holds the lock exactly when the swallowed unlock failed in a session that lived |
| PooledSession.UnlockFailureLeaksLock | backend/src/core/db/postgres.ts:141-160 | The exchange in which the swallowed unlock fails, the reset works, and a client holding the lock goes back undestroyed |
| PooledSession.Client.ApplyFiles | backend/src/core/db/postgres.ts:97-144 | Whatever fails inside the loop, no live transaction reaches the unlock |
| PooledSession.Client.WithLocalAttachmentMutationLock | backend/src/core/services/attachment-snapshot-lock.ts:14-61 | One release; the operation runs in a session that holds the lock, and success means that it ran; a client not destroyed holds no lock and has the pool's timeouts whatever failed, and is wholly clean exactly when the operation left no transaction open; the operation's error wins |
| PooledSession.OpenOperationLeaksTransaction | backend/src/core/services/attachment-snapshot-lock.ts:14-61 | The exchange in which every statement works and a client with an open transaction goes back undestroyed |
| PooledSession.Client.WithLentClient | backend/src/core/services/attachment-snapshot-lock.ts:18-18 | A lent client is neither locked again nor released |
| PosixPaths.StartsUnderMeans | backend/src/core/services/attachment-store.ts:263-271 | The string check means strictly inside, segment by segment, and refuses everything when the root is "/" |
| PosixPaths.TextInjective | backend/src/core/services/attachment-store.ts:258-271 | Different segment lists are different path strings |
| PosixPaths.TrailingSlash | backend/src/core/services/attachment-store.ts:110-116 | A trailing slash changes neither the basename nor the resolved path |
| PosixPaths.ResolvePieces | backend/src/core/services/attachment-store.ts:310-319 | Resolution goes into a segment, up at a parent segment as long as there is one, stays for an empty or a dot segment, takes a longer path one piece at a time, and starts at the root for an absolute one |
| PosixPaths.BasenameOf | backend/src/core/services/attachment-store.ts:110-116 | The basename is what follows the last slash that has more than slashes behind it |
| AttachmentPaths.Contained | backend/src/core/services/attachment-store.ts:310-319 | Whatever the inputs, a path that is handed out is strictly inside the root |
| AttachmentPaths.Disjoint | backend/src/core/services/attachment-store.ts:362-392 | Paths of different stores never coincide, not even for keys that are no plain filenames |
| AttachmentPaths.Injective | backend/src/core/services/attachment-store.ts:486-503 | For plain filenames two requests have the same path string if and only if they are the same request |
| AttachmentPaths.CacheCollapses | backend/src/core/services/attachment-store.ts:310-319 | The cache builder forgets of a filename exactly what basename drops |
| AttachmentPaths.LocalShape | backend/src/core/services/attachment-store.ts:570-586 | Any accepted key stays strictly inside its page's directory; a plain filename lands directly in it |
| AttachmentPaths.LocalKeysCollapse | backend/src/core/services/attachment-store.ts:570-586 | Without its callers' check no accepted key has a path of its own: the key with a slash behind it is accepted with the same path, and is no plain filename |
| AttachmentPaths.LocalKeyUnique | backend/src/core/services/attachment-store.ts:486-503 | With the check at most one key of a page has any given path |
| AttachmentPaths.CachedShape | backend/src/core/services/attachment-store.ts:95-101 | Accepted exactly for an allow-listed key and a storable filename, and then exactly two segments below the root |
| AttachmentPaths.BaselineShape | backend/src/core/services/attachment-store.ts:603-628 | Accepted exactly for two UUIDs and a SHA-256, and then at a fixed place in the baseline store |
| AttachmentPaths.UuidExactly | backend/src/core/services/attachment-store.ts:589-590 | A UUID is five groups of hexadecimal digits with a version from 1 to 8 and the variant |
| AttachmentPaths.IconShape | backend/src/core/services/attachment-store.ts:631-641 | Accepted exactly for a positive page id and a SHA-256, and then at a fixed place in the icon store |
| AttachmentPaths.ReservedOutside | backend/src/core/services/attachment-store.ts:382-397 | No path of another store lies below a key that is not a reserved name |
| AttachmentPaths.FileTree.RemoveCachedAttachmentDirectory | backend/src/core/services/attachment-store.ts:394-399 | Removes exactly the files below one key, refuses the reserved names, and cannot take a file of another store or a model weight with it |
| AttachmentPaths.FileTree.RemoveCachedAttachmentFile | backend/src/core/services/attachment-store.ts:411-416 | Removes exactly the named file, refuses anything but a plain filename, and no other request's file goes |
| ForwardedHops.ResolveClientIpFromXff | backend/src/core/plugins/ip-allowlist-hook.ts:56-85 | The reverse loop returns the rightmost untrusted hop, the leftmost if all are trusted, the socket address if there is none |
| ForwardedHops.ResolveClientIp | backend/src/core/plugins/ip-allowlist-hook.ts:92-109 | With an untrusted peer the header has no say; with a trusted one the documented choice is made |
| ForwardedHops.ChosenUnique | backend/src/core/plugins/ip-allowlist-hook.ts:45-55 | The documented choice is unique |
| ForwardedHops.LeftHopsIgnored | backend/src/core/plugins/ip-allowlist-hook.ts:45-55 | Text a client puts in front of a header is ignored exactly while the header still names an untrusted hop; failing that the choice is made in the added text |
| ForwardedHops.HopsConcat | backend/src/core/plugins/ip-allowlist-hook.ts:63-66 | Putting two headers together with a comma puts their hops together |
| ForwardedHops.OneHop | backend/src/core/plugins/ip-allowlist-hook.ts:63-66 | A field without a comma is one hop once the white space around it is gone, and none if nothing is left |

## Left out
- JWT signing and verification, bcrypt, encryption, SigV4, XML and HTTP: a decoded token is its claims, an ETag is the content it identifies, `randomUUID` yields an unused value.
- Expiry and clocks: clean-up may delete any unlocked token and a deadline may strike any statement; a token whose expiry has passed but whose row remains is not told apart.
- A lost acknowledgement of a COMMIT in the session and admin models: COMMIT either happens or is rolled back.
- The single-row statements of a rotation are one step each; only multi-row UPDATE and DELETE are split into snapshot and execution.
- Deadlocks: neither the session nor the admin model claims their absence, since foreign-key effects on other users rows are not part of the models.
- `verifyRefreshToken` is a committed read followed by `revokeTokenFamily`; the read has no step of its own.
- `createUser` name and email conflicts, patches that touch neither role nor status, and template reassignment: no effect on who is an administrator.
- A registration whose count of administrators fails while the mode is open: its INSERT is taken to be refused in the aborted transaction.
- Audit logs, cache-bus messages and the user-security and RBAC caches.
- Floating-point rounding of the ceiling scale: the exact rational floor is used.
- Two different saved `rag_ef_search` rows racing: documented as open in the source; `OlderRowWins` exhibits it.
- Migration files are taken to run inside the transaction that records them, without transaction control of their own.
- Fences for `drop_empty_headings`: the function is not fence-aware, so nothing is claimed about code blocks there.
- The order of error reports of `stageAndValidateBackup` beyond acceptance, disk faults and file-name length limits while staging, and the framing of the archive stream.
- `pgRestoreExit`, the encryption of archives, SSRF checks and multi-page listing of the bucket.
- Invalid modification dates in a bucket listing (comparison with a not-a-number time), and backup dates outside years 0 to 9999.
- Page ids are exact non-negative integers in paths; symbolic links, case-insensitive file systems and Windows separators are not part of the path model.
- Trust decisions on addresses (`isTrustedProxy`, CIDR matching) are a parameter of the hop walk.
- The HTML conversion, licences and image handling of build.py, the frontend, MCP tools, telemetry and seed scripts.
