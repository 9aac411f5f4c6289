# Papirus identity centre: verified model

A Dafny model of the Papirus identity centre and proofs about it. The service is a set of use
cases over Postgres, Redis and Ory Hydra. No use case opens a transaction: each `Execute` is a
sequence of separate statements, any number of calls run at once, and a call may fail or die
between any two statements. The interesting claims are about whole runs, so every protocol is
modelled from several sides that are proved to match:

* **The machine.** A call is a program counter with the values it carries. One step is one
  statement on Postgres, Redis, Hydra or the mailer. A schedule is a list of events: a call
  starts, executes its next statement, has that statement fail, or has it take effect and report
  an error all the same. A call that no later event mentions has been abandoned. Histories
  record what happened (who sent an invite, when a token was issued); no statement reads them.
* **The code.** Repositories and use cases are classes whose methods change mutable tables. Each
  `Execute` is proved to leave the tables and return the reply of the machine's steps run
  without interruption, so the results about schedules speak about that code.
* **The outcomes.** What each call does from start to end is written down once more, over plain
  rows with literal roles, limits and times and without any statement, check or step of the other
  two (`WorkspaceOutcomes.dfy`, `AccountOutcomes.dfy`), and machine and code are proved to agree
  with it in every state whose unique indexes agree with the rows, as every reachable one is.

Values that the service obtains from clocks, random generators, bcrypt, Hydra and the mailer are
inputs of the statement that uses them.

## What is proved

**Workspaces** (`Workspace*.dfy`, `Invite*.dfy`, `Tenant*.dfy`). In every state of every schedule:
each member descends from the creator's owner row by a finite, strictly earlier chain of
invitations, each issued by somebody who already managed the same workspace, with the role of the
invite; a workspace with a member or an invite has its creator as owner, and the memberless
workspaces are exactly those whose creation is or stopped between its two inserts; accepted
invites number at most members minus one; org units form a forest inside their workspace, climbed
to a root in fewer steps than the workspace has units; unit and position of a member belong to the
member's workspace; and the status-checking membership join lists a workspace exactly once if and
only if the status-blind `requireMember` passes there. In serial runs the invite count is exact.
An invite can bring in two members when acceptances overlap: a concrete run shows it, and a
schedule keeps single use if and only if no acceptance is inserted for an invite that is stamped
or about to be; acceptances that do not overlap are enough. Whatever runs in between, an invite
can be used for seven days and not afterwards. Slugs are pairwise distinct and made from the
names. For any schedule from any reachable state, calls under way included, the rows of a
workspace and the replies of its calls are those of the sub-schedule kept for it; for scripts of
complete calls, of the calls addressed to it.

**Redis** (`Redis*.dfy`). One flat keyspace with expiry, driven with arbitrary caller-supplied
tokens and ids by both stores, holds and answers exactly what three separate maps would.

**Accounts** (`Account*.dfy`). In every state of every schedule, for stored rows and for copies
held by unfinished calls: addresses are pairwise distinct, normalised and never change, hashes
come from passwords of at least eight bytes, and a verified user had a verification token of its
own consumed. A consume succeeds if and only if its token was issued for that purpose, is unspent
and unexpired; password rewrites of a user never outnumber that user's reset tokens. Writing back
whole rows equals writing single fields throughout a schedule if and only if each write meets a
row that agrees with its copy on the other field, for which sections of the same user that do not
overlap are enough; a concrete run shows an overlap undoing a verification. Verify and reset
commute. Register, verify within 24 hours, authenticate works with any other calls in between that
do not reset this user's password.

**Sessions** (`Session*.dfy`). In every state of every schedule a session row stems from an
accepted consent of a trusted client and carries that consent's user and login session; ending is
write-once, the end time being that of the first matching end statement, and the active list is
exactly the rows no end statement has matched. A login session is revoked if and only if a call
for its subject or for a row with its sid did it. With serialised calls that may fail anywhere,
every locally ended row with a sid is revoked in Hydra. With overlap it holds at every moment of a
schedule if and only if no `TerminateAll` executes its second step after a login newer than its
first step, and unrevoked, has got a row; a concrete run breaks it.

**Text** (`Text.dfy`, `Slug.dfy`, `TrustedClients.dfy`, `GoText.dfy`). The slug is the maximal
`[a-z0-9]` runs of the lower-cased name joined by single dashes, or `workspace`; the
trusted-client list round-trips, and a client is trusted exactly when its id is listed. The
machines hold for any text functions; with these ones, addresses that differ in outer white space
and case only find the same row, log in alike and never make two accounts, and slugs spell their
names. Unicode tables are a parameter that obeys four facts (`Text.Lawful`).

Assumptions: generated tokens of one purpose do not repeat (`AccountSystem.Allowed`); generated
ids and tokens are fresh in the tenant theorems only (`TenantProjection.FreshScript`,
`TenantInterleaving.FreshRun`), elsewhere a repeated id meets the unique index; `Check(Hash(p),
p)` holds where a login is claimed (`AccountTables.Sound`); a consent request names no login
session or one of its own subject (`SessionSystem.Allowed`); Hydra neither revives nor reuses a
sid. No clock is assumed to be monotone.

Where code and documents differ, the code is followed. The design document
(`docs/specs/2026-07-05-platform-core-identity-design.md`) creates session rows at login; the code
creates them after Hydra accepted the consent. It lists an `invited` member status; no code path
writes one. The comment on `requireManager` speaks of an active manager; the function does not
look at the status.

## Model

| member | source | states |
|---|---|---|
| Text.NormalizeIsIdempotent | internal/application/identity/register_user.go:41 | the stored form of an address has no outer white space and no character that lower-casing would change, and is its own normal form |
| Text.NormalizeMeans | internal/application/identity/register_user.go:41 | the normal form is the text between the outer white space, lower-cased character by character |
| Text.TrimSpaceMeans | internal/application/identity/register_user.go:41 | the trimmed text is the one part of the input with white space all around and none at its edges |
| Text.AsciiIsLawful | internal/application/workspace/create_workspace.go:26 | the facts assumed of the Unicode tables can be met: the ASCII tables meet them |
| Slug.RunsExist | internal/application/workspace/create_workspace.go:23-33 | every string is gaps and maximal `[a-z0-9]` runs in alternation, so the characterisation below covers every name |
| Slug.SlugIsDashedRuns | internal/application/workspace/create_workspace.go:25-33 | the slug is the maximal runs of the lower-cased name joined by single dashes, or the default; trimming the name first is redundant |
| Slug.SlugIsWellFormed | internal/application/workspace/create_workspace.go:25-33 | a slug is non-empty, over `[a-z0-9-]`, without an edge dash or two dashes in a row |
| Slug.SlugifyIsIdempotent | internal/application/workspace/create_workspace.go:25-33 | a slug is its own slug |
| Slug.SlugIffFixed | internal/application/workspace/create_workspace.go:23-33 | the texts that are their own slug are exactly the non-empty ones over `[a-z0-9-]` without an edge dash or two dashes in a row |
| TrustedClients.LoadTrustedClientIDs | internal/config/config.go:101-107 | the loop yields the trimmed, non-empty comma-separated pieces in order |
| TrustedClients.JoinOfSplit | internal/config/config.go:102 | splitting gives comma-free pieces that join to the original, so it is the split at every comma |
| TrustedClients.TrustedListRoundTrip | internal/config/config.go:101-107 | parsing recovers any comma-joined list of non-empty, trimmed, comma-free ids |
| TrustedClients.TrustedIdsAreListed | internal/config/config.go:101-107 | an id is parsed exactly when it is non-empty and some piece is that id with white space around it |
| TrustedClients.Client.constructor | internal/infrastructure/hydra/client.go:21-29 | the lookup map flags exactly the given ids |
| TrustedClients.Client.ClientInfoFromValue | internal/infrastructure/hydra/client.go:33-43 | id, name and trust flag of a client, missing fields being empty |
| TrustedClients.Client.ClientInfoFromPtr | internal/infrastructure/hydra/client.go:46-51 | the same, and an untrusted blank for no client |
| TrustedClients.TrustedIffListed | internal/infrastructure/hydra/client.go:21-51 | for every variable value and client: trusted exactly when it carries an id that is listed; never without an id |
| TrustedClients.TrustCheck | internal/infrastructure/hydra/client.go:46-51 | parsing, building the client and looking up, composed: trusted exactly when the id was parsed |
| WorkspaceRepositories.WorkspaceRepository.Create | internal/infrastructure/postgres/workspace_repository.go:19-26 | inserts row and slug, or changes nothing and errs on a taken id or slug or an unknown creator |
| WorkspaceRepositories.WorkspaceRepository.FindByID | internal/infrastructure/postgres/workspace_repository.go:28-39 | the row, or ErrWorkspaceNotFound |
| WorkspaceRepositories.WorkspaceRepository.ListByMember | internal/infrastructure/postgres/workspace_repository.go:41-59 | the row loop delivers the join's answer in its order: by time of creation, and exactly the workspaces of the user's active rows |
| WorkspaceRepositories.WorkspaceRepository.SlugExists | internal/infrastructure/postgres/workspace_repository.go:61-68 | with index and rows in agreement, which every reachable state keeps: whether some workspace row has the slug |
| WorkspaceRepositories.MemberRepository.Create | internal/infrastructure/postgres/workspace_repository.go:74-85 | inserts row and seat; ErrAlreadyMember on a unique violation; otherwise a driver error on an unknown reference |
| WorkspaceRepositories.MemberRepository.Find | internal/infrastructure/postgres/workspace_repository.go:87-98 | the row of workspace and user, or ErrNotMember |
| WorkspaceRepositories.MemberRepository.Assign | internal/infrastructure/postgres/workspace_repository.go:117-124 | overwrites both placement columns of the row of workspace and user, and no other row or column; errs exactly when that row exists and a given unit or position does not |
| WorkspaceRepositories.InviteRepository.Create | internal/infrastructure/postgres/workspace_repository.go:130-137 | inserts row and token, or changes nothing and errs |
| WorkspaceRepositories.InviteRepository.FindByToken | internal/infrastructure/postgres/workspace_repository.go:139-150 | the row carrying the token while it is unaccepted and now is before its expiry; ErrInviteNotFound when every row with the token is accepted or expired |
| WorkspaceRows.FindInviteMeans | internal/infrastructure/postgres/workspace_repository.go:139-150 | the lookup answers with the one open row that carries the token, and with nothing exactly when there is none |
| WorkspaceRows.FindMemberMeans | internal/infrastructure/postgres/workspace_repository.go:87-98 | the lookup answers with the row of workspace and user, and with nothing exactly when there is none |
| WorkspaceRows.InsertMemberMeans | internal/infrastructure/postgres/workspace_repository.go:74-85 | which inserts are refused and why, said of rows alone, and that the new row is all that changes |
| WorkspaceRows.AssignMeans | internal/infrastructure/postgres/workspace_repository.go:117-124 | one row gets both columns, and everything else keeps its value |
| WorkspaceRows.ListedMeans | internal/infrastructure/postgres/workspace_repository.go:41-59 | the list holds the workspaces of the user's active rows and no others |
| WorkspaceRepositories.InviteRepository.MarkAccepted | internal/infrastructure/postgres/workspace_repository.go:152-158 | stamps the row, whether stamped before or not |
| WorkspaceRepositories.OrgUnitRepository.Create | internal/infrastructure/postgres/workspace_repository.go:235-242 | inserts the unit if its workspace and parent exist; the parent's workspace is not looked at |
| WorkspaceRepositories.OrgUnitRepository.Exists | internal/infrastructure/postgres/workspace_repository.go:261-268 | whether the unit exists in that workspace |
| WorkspaceRepositories.PositionRepository.Create | internal/infrastructure/postgres/workspace_repository.go:274-281 | inserts the position if its workspace exists |
| WorkspaceRepositories.PositionRepository.Exists | internal/infrastructure/postgres/workspace_repository.go:300-307 | whether the position exists in that workspace |
| WorkspaceUseCases.RequireManager | internal/application/workspace/org_structure.go:14-23 | ErrNotMember without a seat, ErrForbidden for a seat whose role is neither `owner` nor `admin`, and nothing otherwise |
| WorkspaceOutcomes.ManagerMeans | internal/application/workspace/org_structure.go:14-23 | the same, as a lemma about rows |
| WorkspaceUseCases.CreateWorkspace.Execute | internal/application/workspace/create_workspace.go:35-56 | the uninterrupted machine call and its outcome: ErrInvalidName exactly for a blank name; on success the row and an active owner seat for its creator, with the slug and a suffix, the second one if the first is taken |
| WorkspaceUseCases.InviteMember.Execute | internal/application/workspace/invite_member.go:31-60 | the uninterrupted machine call and its outcome: refused for a role other than the three, without a seat, with a seat other than owner or admin, and so on in the code's order, changing nothing; otherwise one invite that expires seven days later |
| WorkspaceUseCases.AcceptInvite.Execute | internal/application/workspace/accept_invite.go:21-31 | the uninterrupted machine call and its outcome: ErrInviteNotFound exactly without an unaccepted, unexpired row for the token; success seats the user with the invite's role and stamps the invite; nothing changes on failure |
| WorkspaceUseCases.CreateOrgUnit.Execute | internal/application/workspace/org_structure.go:43-71 | the uninterrupted machine call and its outcome: exactly one new unit, under the given parent of the same workspace, for an owner or admin; or no change and the reason |
| WorkspaceUseCases.CreatePosition.Execute | internal/application/workspace/org_structure.go:100-118 | the uninterrupted machine call and its outcome: exactly one new position for an owner or admin; or no change and the reason |
| WorkspaceUseCases.AssignMember.Execute | internal/application/workspace/org_structure.go:150-177 | the uninterrupted machine call and its outcome: for an owner or admin, with target, unit and position checks passed, the target's row and no other gets both columns; or no change and the reason |
| WorkspaceOutcomes.EveryCallHasItsOutcome | internal/application/workspace/accept_invite.go:21-31 | for all six calls and any database whose indexes agree with its rows: reply and rows of the whole call are those of its outcome, which is written over plain rows and literal roles and times |
| InviteWindow.InviteWindow | internal/application/workspace/invite_member.go:46-56 | over every schedule: a lookup of the token of an invite stored at s is refused from s plus seven days on, before that only if it was accepted, and otherwise goes on with the invited workspace and role |
| InviteWindow.InviteThenAccept | internal/application/workspace/accept_invite.go:21-31 | accepting a sent invite within seven days seats an invited, known user who has no seat yet with the invited role; from then on it is refused |
| WorkspaceInvariant.PassedChecksAreStable | internal/application/workspace/org_structure.go:150-177 | what a waiting call has checked stays true under every step of every other call |
| WorkspaceRuns.StatementKeeps | internal/application/workspace/invite_member.go:31-60 | every statement of every use case keeps the invariant and lets tables and history only grow |
| WorkspaceRuns.RunKeeps | internal/application/workspace/accept_invite.go:21-31 | the invariant holds after every schedule |
| WorkspaceTheorems.EveryMemberHasAuthority | internal/application/workspace/invite_member.go:31-60 | every member is linked to the creator's row, of role `owner`, by a strictly earlier chain of invites, each by a member of the same workspace whose role is `owner` or `admin`, with equal roles |
| WorkspaceTheorems.OwnerExists | internal/application/workspace/create_workspace.go:48-54 | members or invites imply a row of the creator, active and with role `owner`; memberless means exactly that creation is or stopped between its inserts |
| WorkspaceTheorems.AcceptedInvitesHaveMembers | internal/application/workspace/accept_invite.go:21-31 | an accepted invite has a member of its workspace with its role |
| WorkspaceTheorems.InviteAccounting | internal/application/workspace/accept_invite.go:21-31 | accepted invites number at most members minus one, and none without members |
| WorkspaceTheorems.OrgForest | internal/application/workspace/org_structure.go:43-71 | no unit is its own ancestor, ancestors share its workspace, and the climb ends at a root in fewer steps than the workspace has units |
| WorkspaceTheorems.AssignmentsStayInside | internal/application/workspace/org_structure.go:150-177 | unit and position of a member belong to the member's workspace, under every interleaving |
| WorkspaceTheorems.MembershipViewsAgree | internal/infrastructure/postgres/workspace_repository.go:41-59 | the join lists a workspace exactly once if and only if a member row of workspace and user exists, which is when the member lookup of requireMember passes |
| WorkspaceSlugs.SlugsNameTheirWorkspaces | internal/application/workspace/create_workspace.go:35-48 | in every reachable state slugs are pairwise distinct, and each is the slug of its workspace's trimmed, non-blank name, a dash and a suffix |
| GoText.WorkspaceSlugsSpellTheirNames | internal/application/workspace/create_workspace.go:25-48 | with the service's text functions: every stored slug is the dash-joined runs of its lower-cased name, well formed, then a dash and a suffix |
| WorkspaceSerial.SerialIsARun | internal/application/workspace/accept_invite.go:21-31 | running complete calls one after another is one of the schedules |
| WorkspaceSerial.SerialInviteAccounting | internal/application/workspace/accept_invite.go:21-31 | in serial runs accepted invites are exactly members minus one, and each invite brought in at most one member |
| InviteSingleUse.SingleUseIff | internal/application/workspace/accept_invite.go:21-31 | for every schedule: each invite has brought in at most one member if and only if no acceptance was inserted for an invite stamped, or about to be, by then |
| InviteSingleUse.NonOverlappingAcceptancesAreSingleUse | internal/application/workspace/accept_invite.go:21-31 | if acceptances of one invite never overlap, each invite brings in at most one member |
| InviteSingleUse.OverlapUsesInviteTwice | internal/infrastructure/postgres/workspace_repository.go:152-158 | a concrete schedule in which one invite brings in two members |
| TenantProjection.TenantIsolation | internal/infrastructure/postgres/workspace_repository.go:87-158 | rows of a workspace and replies of its calls depend only on the calls addressed to it |
| TenantInterleaving.InterleavedTenantIsolation | internal/infrastructure/postgres/workspace_repository.go:87-158 | for every schedule with fresh keys, failures included: rows of a workspace, and point and reply of each call that turns out to work on it, are those of the sub-schedule kept for it |
| RedisKeyspace.KeysHavePrefixes | internal/infrastructure/redis/token_store.go:25-27 | the key functions put each kind of entry under its own prefix |
| RedisKeyspace.SpacesAreDisjoint | internal/infrastructure/redis/hub_session_store.go:26 | keys of two kinds are equal only if kind and caller-supplied part are |
| RedisKeyspace.CommandActsInside | internal/infrastructure/redis/token_store.go:29-51 | a command acts on its own space as on a map of its own and answers the same |
| RedisKeyspace.CommandStaysInSpace | internal/infrastructure/redis/hub_session_store.go:28-56 | a command leaves the other spaces as they are |
| RedisKeyspace.KeyspaceRefinesThreeMaps | internal/infrastructure/di/wire_gen.go:46-54 | for every run over the one shared client, each kind holds and answers what a private map would |
| RedisStores.TokenStore.Issue | internal/infrastructure/redis/token_store.go:29-39 | puts user and expiry under `token:verify_email:` or `token:password_reset:` and the token, and changes no other key or space |
| RedisStores.TokenStore.Consume | internal/infrastructure/redis/token_store.go:41-51 | takes a live entry under the purpose's key, once, or ErrTokenInvalid and no change |
| RedisStores.HubSessionStore.Create | internal/infrastructure/redis/hub_session_store.go:28-38 | puts the subject under `hubsession:` and the new id, and changes no other key or space |
| RedisStores.HubSessionStore.Subject | internal/infrastructure/redis/hub_session_store.go:40-49 | the live subject, or ErrSessionNotFound |
| RedisStores.HubSessionStore.Delete | internal/infrastructure/redis/hub_session_store.go:51-56 | removes the id's key and nothing else |
| RedisStores.HubSessionsAnswerTheLatestCreate | internal/infrastructure/redis/hub_session_store.go:28-56 | over any mixed run a hub id answers its latest creation until its time is up or it is deleted |
| AccountUseCases.UserRepository.Create | internal/infrastructure/postgres/user_repository.go:24-37 | inserts the row, or ErrUserExists exactly when its id or its address is taken |
| AccountUseCases.UserRepository.FindByEmail | internal/infrastructure/postgres/user_repository.go:39-43 | the row with the address, or ErrUserNotFound |
| AccountUseCases.UserRepository.FindByID | internal/infrastructure/postgres/user_repository.go:45-49 | the row, or ErrUserNotFound |
| AccountUseCases.UserRepository.Update | internal/infrastructure/postgres/user_repository.go:51-60 | overwrites every column but created_at of that row; no error when there is no row; refused exactly when another row has the address |
| AccountUseCases.RegisterUser.Execute | internal/application/identity/register_user.go:40-86 | the uninterrupted machine call and its outcome: which input is refused and why; otherwise an unverified row with the trimmed name, defaults for empty locale and time zone, and a token for 24 hours; hub sessions untouched |
| AccountUseCases.RegisterUser.CreateAndNotify | internal/application/identity/register_user.go:73-85 | insert, issue and mail as the machine does them |
| AccountUseCases.VerifyEmail.Execute | internal/application/identity/verify_email.go:19-30 | the uninterrupted machine call and its outcome: a usable token is spent and its user's row, if there, is marked verified; hub sessions untouched |
| AccountUseCases.RequestPasswordReset.Execute | internal/application/identity/reset_password.go:28-43 | the uninterrupted machine call; an unknown address succeeds without any change, a known one gets a one-hour reset token |
| AccountUseCases.ResetPassword.Execute | internal/application/identity/reset_password.go:57-75 | the uninterrupted machine call and its outcome: eight bytes at least, then a usable token is spent and its user's row, if there, gets the new hash; hub sessions untouched |
| AccountUseCases.Authenticate.Execute | internal/application/identity/authenticate.go:21-37 | the row exactly when address, password and verification are right; ErrInvalidCredentials for an unknown address or a wrong password, verified or not; ErrEmailNotVerified otherwise |
| AccountOutcomes.EveryCallHasItsOutcome | internal/application/identity/register_user.go:40-86 | for all five calls and any database whose address index agrees with its rows: reply, rows and tokens of the whole call are those of its outcome, with its literal limits, defaults and times |
| AccountOutcomes.UpdateUserMeans | internal/infrastructure/postgres/user_repository.go:51-60 | which update is refused and which columns of which row change, said of rows alone |
| AccountOutcomes.AuthenticateMeans | internal/application/identity/authenticate.go:21-37 | the reply, said of rows alone |
| AccountInvariant.HeldFactsAreStable | internal/application/identity/reset_password.go:57-75 | copies and consumed tokens that a waiting call holds stay sound under every other call |
| AccountRuns.StatementKeeps | internal/application/identity/register_user.go:40-86 | every statement keeps the account invariant, with whole-row or one-field updates |
| AccountRuns.RunKeeps | internal/application/identity/verify_email.go:19-30 | the account invariant holds after every schedule |
| AccountTheorems.AccountsUnderInterleaving | internal/application/identity/register_user.go:40-86 | rows and held copies: distinct normalised addresses with an `@`, hashes from eight bytes or more, verified only after an own token was consumed |
| AccountTheorems.AccountsKeepIdentity | internal/infrastructure/postgres/user_repository.go:51-60 | from any reachable state on, nothing about an account but flag and hash ever changes |
| GoText.StoredAddressesAreFound | internal/infrastructure/postgres/user_repository.go:39-43 | with the service's text functions: every stored address has an `@`, no outer white space and no character that lower-casing changes, and its lookup finds its row |
| GoText.SpellingsFindTheirRow | internal/application/identity/authenticate.go:22-23 | an entered address finds a stored row if and only if it is the stored address with white space around it and characters whose lower case is the stored one |
| GoText.LoginBySpelling | internal/application/identity/authenticate.go:21-37 | in every reachable state: an address that spells a stored one logs in as that account with its password once verified, and the errors otherwise; one that spells none is refused as a wrong password is |
| GoText.SpellingsLogInAlike | internal/application/identity/authenticate.go:21-37 | addresses that differ in outer white space and case only get the same reply |
| GoText.OneAccountPerSpelling | internal/application/identity/register_user.go:41-56 | two such addresses never belong to two accounts: registering the second is refused and changes nothing |
| AccountTheorems.ConsumeSucceedsIff | internal/infrastructure/redis/token_store.go:41-51 | a consume succeeds exactly for an issued, unspent, unexpired token of that purpose and answers its user |
| AccountTheorems.ConsumesFollowIssues | internal/infrastructure/redis/token_store.go:29-51 | each consumed token was issued earlier for the same purpose and user and had not expired |
| AccountTheorems.RewritesNeverOutnumberResetTokens | internal/application/identity/reset_password.go:57-75 | password rewrites of a user never outnumber reset tokens issued to that user |
| AccountRefinement.WholeRowRunsAgreeIff | internal/infrastructure/postgres/user_repository.go:51-60 | for every schedule: the whole-row and the one-field machine are in the same state at every moment if and only if every write meets a row that agrees with its copy on the other mutable field |
| AccountRefinement.QuietRunsRefine | internal/application/identity/verify_email.go:24-29 | without a foreign write between read and write, whole-row runs are one-field runs |
| AccountRefinement.NonOverlappingSectionsRefine | internal/application/identity/reset_password.go:65-74 | sections of one user that never overlap make whole-row runs one-field runs |
| AccountRefinement.ReferenceStep | internal/application/identity/reset_password.go:65-74 | in the one-field machine a row becomes verified exactly by a verify write and changes hash exactly by a reset write |
| AccountRefinement.StoredHashIsTheLatest | internal/application/identity/reset_password.go:65-74 | without overlap the stored hash is that of registration or of the latest reset |
| AccountRefinement.VerificationNeverReverts | internal/application/identity/verify_email.go:24-29 | without overlap a verified account stays verified |
| AccountSections.VerifyRunsAlone | internal/application/identity/verify_email.go:19-30 | the whole call: which tables it leaves and which reply it gives, for every token |
| AccountSections.ResetRunsAlone | internal/application/identity/reset_password.go:57-75 | the whole call: which tables it leaves and which reply it gives, the token being spent on every later failure |
| AccountSections.VerifyAndResetCommute | internal/application/identity/reset_password.go:57-75 | verify and reset in either order leave the same tables and give the same replies |
| AccountSections.OverlapRevertsVerification | internal/infrastructure/postgres/user_repository.go:51-60 | a concrete schedule in which both calls succeed and the verification is lost |
| AccountLogin.LoginFollowsVerification | internal/application/identity/authenticate.go:21-37 | after an insert and without a reset of the user, any spelling of the address logs in exactly if a verify write has happened |
| AccountLogin.VerifySucceedsIff | internal/application/identity/verify_email.go:19-30 | in any reachable state a verify call succeeds exactly for an issued, unspent token within its time |
| AccountLogin.RegisterSucceeds | internal/application/identity/register_user.go:40-86 | what a successful registration leaves behind: row, hash of the password, unspent token valid for 24 hours |
| AccountLogin.RegisterVerifyAuthenticate | internal/application/identity/authenticate.go:21-37 | register, verify within 24 hours, log in, with any non-resetting calls in between; before verification ErrEmailNotVerified |
| SessionUseCases.SessionRepository.Create | internal/infrastructure/postgres/session_repository.go:24-33 | inserts an open row, or changes nothing and errs |
| SessionUseCases.SessionRepository.FindByID | internal/infrastructure/postgres/session_repository.go:35-53 | with rows under their primary keys: the row whose id column is the given id, and ErrSessionNotFound exactly when no row has it |
| SessionUseCases.SessionRepository.ListActiveByUser | internal/infrastructure/postgres/session_repository.go:55-73 | the row loop delivers exactly the user's open rows, later created_at first |
| SessionUseCases.SessionRepository.MarkEnded | internal/infrastructure/postgres/session_repository.go:75-81 | an open row with the id ends now, every other row is unchanged, and no row with the id stays open |
| SessionUseCases.SessionRepository.MarkEndedByHydraSID | internal/infrastructure/postgres/session_repository.go:83-89 | every open row with the sid ends now, every other row is unchanged, and no row with the sid stays open |
| SessionUseCases.SessionRepository.MarkAllEndedByUser | internal/infrastructure/postgres/session_repository.go:91-97 | every open row of the user ends now, every other row is unchanged, and the user's active list is empty |
| SessionUseCases.Hydra.RevokeLoginSessionByID | internal/infrastructure/hydra/client.go:150-156 | revokes that login session and no other, or errs without effect |
| SessionUseCases.Hydra.RevokeLoginSessionsBySubject | internal/infrastructure/hydra/client.go:141-147 | revokes every login session of the subject and no other, or errs without effect |
| SessionUseCases.TerminateSession.Execute | internal/application/identity/sessions_admin.go:32-46 | the uninterrupted machine call; only an own session; Hydra first, and no change if Hydra refuses; then exactly its login session is revoked and exactly its row ends |
| SessionUseCases.TerminateAllSessions.Execute | internal/application/identity/sessions_admin.go:58-63 | the uninterrupted machine call; exactly the user's login sessions are revoked and exactly the user's open rows end, or no change if Hydra refuses |
| SessionUseCases.AuthHandlers.GetConsent | internal/presentation/http/auth_handlers.go:87-132 | the uninterrupted machine call; what is answered, accepted, rejected and stored in each case; a row only for a trusted client with a subject after acceptance; an untrusted client is rejected and never accepted |
| SessionTheorems.StatementKeeps | internal/application/identity/sessions_admin.go:32-63 | every statement keeps the session invariant and lets rows, logins and history only grow |
| SessionTheorems.RunKeeps | internal/presentation/http/auth_handlers.go:87-132 | the session invariant holds after every schedule |
| SessionTheorems.SessionsComeFromAcceptedConsents | internal/presentation/http/auth_handlers.go:100-127 | every row stems from an accepted consent of a trusted client and carries its user and sid, and the sid's login belongs to that user |
| SessionTheorems.EndingIsWriteOnce | internal/infrastructure/postgres/session_repository.go:75-97 | an end time once set never changes, nor does any other column |
| SessionTheorems.EndTimeIsFirstMatch | internal/infrastructure/postgres/session_repository.go:75-97 | the end time is that of the first end statement that matched the row after it was recorded |
| SessionTheorems.ActiveIffNeverMatched | internal/infrastructure/postgres/session_repository.go:55-97 | a row is in the user's active list if and only if it was recorded for that user and no end statement has matched it since |
| SessionRevocation.RevokedIff | internal/application/identity/sessions_admin.go:32-63 | over every schedule: a login session is revoked if and only if a granted request of a TerminateAll of its subject, or of a Terminate of a row with its sid, was executed while it existed |
| SessionOrder.OrderThroughoutIff | internal/application/identity/sessions_admin.go:32-63 | for every schedule of the use cases: ended implies revoked at every moment if and only if no TerminateAll executes its second step after a login newer than its first step, and unrevoked, has got a row |
| SessionOrder.CalmRunsKeepOrder | internal/application/identity/sessions_admin.go:32-63 | ended implies revoked over every schedule without a login of a user inside that user's TerminateAll |
| SessionOrder.SerialisedCallsKeepOrder | internal/application/identity/sessions_admin.go:32-63 | with serialised calls that may fail at any step, every ended row with a sid is revoked in Hydra |
| SessionOrder.RaceBreaksOrder | internal/application/identity/sessions_admin.go:58-63 | a concrete schedule that ends a row whose login session lives on |

## Left out

- SessionOrder.OrderThroughoutIff: excludes callers of MarkEndedByHydraSID, which no use case has; that statement ends rows without revoking. The same holds of CalmRunsKeepOrder.
- SessionUseCases.SessionRepository.ListActiveByUser: rows with equal created_at come in the database's order, and getConsent leaves created_at at zero, so no order among its rows is claimed.
- TenantProjection.TenantIsolation: assumes that generated ids and tokens are fresh, since all workspaces share the keys; so does InterleavedTenantIsolation.
- HTTP routing, JSON, cookies, templates, middleware and the mapping of errors to status codes; of the handlers only the decision order of getConsent is modelled.
- The Hydra SDK, the OAuth2 code exchange, the login handlers, SMTP, pgx and the running of migrations; Hydra is a table of login sessions with subjects and a revoked flag, plus the consents it accepted or rejected.
- bcrypt, random bytes, UUIDs and hex encoding: an abstract hasher that may fail and values supplied as inputs.
- The texts of e-mails and links; a mail is accepted or refused.
- Unicode tables and invalid UTF-8: strings are sequences of characters, lower-casing and white space are per-character functions.
- UUID syntax: ids are opaque strings, so SQLSTATE 22P02 and alternative spellings of a UUID do not occur.
- Driver errors other than the ones named: one error per store stands for them all, and the scheduler may raise it at any statement.
- ON DELETE clauses: no code path deletes a row they refer to. Unique and foreign-key constraints are checks of the inserts and updates.
- Product tables, GetProfile, and the listings of members, units and positions: set facts that follow from the tables.
- Dependency wiring except that both Redis stores share one client, the bootstrap client, and environment variables other than TRUSTED_CLIENT_IDS.
- When Redis evicts an expired key: an expired entry is never answered, so eviction is not observable.
