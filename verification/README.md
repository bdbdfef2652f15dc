# Verified model of the book marketplace

This project models the stateful cores of the marketplace — refresh-token rotation on the server and in
the browser, suspension and the audit log, image upload to two stores, the rate limiter behind proxies,
browsing and pagination — and proves what they promise over every run. `dafny verify dfyconfig.toml`
checks all of it.

## How it is organised

**One request.** `Domain` holds the tables and `Sessions` the request's database session: a committed and
a pending state, and the commit-on-success-or-`DomainError` rule. `AuthServices`, `Users`, `Listings` and
`Administration` are the repositories and services as classes that change the pending state statement by
statement; the database may refuse any statement for an unforeseen reason, and each method ends in a crash if
and only if one of the statements it sent was refused. `Api` puts the identity gate, the service call and the
commit rule together. Each of these methods is proved against a function in `Rules` (or, for the token
table, `RefreshTokens`) that says what the request does when it runs alone.

**Serial runs.** `Runs` strings requests together from a first state, with the clock, the generated
identifiers, the failures of the object store and unforeseen crashes all chosen freely. `Api.Process`
proves that the request code takes exactly the steps of these runs. `Outcomes` says, in terms of the
request and the tables alone, what every request is answered and which fields of which rows it changes;
`IssuedPairs` says that the tokens handed out are the ones on record and work. `SessionSafety`, `AuditTrail`,
`ListingLifecycle`, `ForcedPasswordChange`, `Accounts` and `Visibility` are what every run guarantees.

**Interleaved requests.** `RotationUnderLocks` and `UploadsUnderLocks` interleave the two operations that
lock a row, statement by statement, with each other and with everything that writes the same rows without
having locked them first. Both connect back to the serial rules: what is committed is what the serial rule
does to the committed state it joins. `RotationRuns` and `UploadRuns` are the other direction: undisturbed, each
request runs to its end and commits exactly the serial result.

**The browser.** `ApiClients` is the shared fetch wrapper of one tab, one method per stretch of code
between two `await`s, each proved against a function on the tab's state. `ClientProtocol` takes these
functions as the steps of a system with the server's token table and every message in flight, and proves
what holds in all its interleavings; `ClientRetries` adds what becomes of a call that is answered with a 401.
`BrowserTab` plays any run of that system with the methods themselves, so that the results hold of the code.

**The edge.** `RateLimiter`, `ClientAddress`, `Browse` and `Pagination` stand on their own.

## What the proofs found

- The limiter's bound over any half-open interval of `k` windows is `(k + 1) * limit - 1`, one less than
  the usual estimate, and it cannot be improved. It holds of calls that reach the table in order of time. But
  the clock is read before the lock is taken (backend/app/core/rate_limit.py:36-38), so calls can arrive late,
  and then it fails: `BoundHoldsExactly` says that all traces whose calls are at most `d` late meet the bound
  if and only if `d <= 0` or `limit <= 1`. However small the delay, `3 * limit - 2` calls can get through in one
  window's length, where the bound allows `2 * limit - 1`. With a limit of one no order of calls breaks it.
- A failed upload leaves the object store exactly as it was if and only if the put that failed had written
  nothing and every clean-up delete succeeded. In all other cases objects stay behind that no row refers to;
  no row ever refers to a missing object.
- Two requests that present one live token in turn end with neither of them holding a usable one. The code
  documents this trade-off (backend/app/modules/auth/service.py:142-154); a single tab never runs into it.
- The preview of a suspended seller's other listings is empty while the active count beside it is not
  (backend/app/modules/listings/router.py:194-202): only the preview looks at the seller's standing.
- `refresh` never looks at `is_active`. That no suspended user is issued a token rests on an invariant that
  login, refresh, suspension and reinstatement keep together.

## Conventions

Time is in microseconds, and one request reads the clock once. Access-token times are whole seconds, as the
encoder truncates them. Identifiers and stored token hashes are numbers; a stored hash stands for the one
token it was made from. A password hash verifies exactly its own password, and an access token's signature is
valid exactly if the server issued it. Assigning equal values to a row is not an update, so `updated_at` stays.
Emails are compared through the case folding of the database column, whatever it is. Request bodies have passed
schema validation. `raced` stands for a registration committed between the check and the insert.

## Model

| member | source | states |
|---|---|---|
| ClientProtocol.NeverMistakenForTheft | frontend/src/api/client.ts:29-63 | in every interleaving of calls, restores and logins of one tab, whenever the server serves a refresh it is the only one outstanding and the token it presents is unrevoked, so the reuse branch is never taken |
| ClientProtocol.SafeIffCookieIsLive | frontend/src/api/client.ts:51-63 | for a page that loads with a cookie of one of its own sessions: no run ever reaches the reuse branch if and only if that cookie is live at the load |
| ClientProtocol.SessionNeverLost | frontend/src/api/client.ts:51-63 | at any moment the token in the cookie jar is unrevoked, or the answer that replaces it is on its way and carries an unrevoked one |
| ClientProtocol.RefreshesNeverOverlap | frontend/src/api/client.ts:40-49 | any two outstanding refreshes are the same one, and it is the shared one |
| ClientProtocol.CallDiscipline | frontend/src/api/client.ts:109-163 | every call sends at most twice; the second time only on a retryable path after a refresh that returned a token; nothing is sent before a refresh in flight at the start has settled; a session expires only after a refresh that returned none |
| ClientRetries.UnauthorizedIsRefreshed | frontend/src/api/client.ts:157-163 | a 401 to a retryable call leaves the call waiting for the refresh now in flight: the one that was shared before, or a new one requested with the cookie in the jar; every other delivery ends its call and starts no refresh; no other call is touched |
| ClientRetries.RetriedOrExpired | frontend/src/api/client.ts:157-163 | over every run after such a 401: when the call is done, it has been sent twice, after a refresh that returned a token, or has ended with the session expired, after a refresh that returned none |
| ClientRetries.RestoreIsShared | frontend/src/api/client.ts:72-74 | restoring a session shares the refresh in flight or starts one with the cookie in the jar |
| ClientRetries.StartIsFaithful | frontend/src/api/client.ts:102-107 | a call starts with its own path and one retry ahead of it, and leaves the other calls alone |
| ClientRetries.JarAfter | backend/app/modules/auth/router.py:84-111 | exactly when the cookie in the jar changes, and to what: the answers to logins and accepted refreshes set it as they arrive |
| ClientRetries.StoreAfter | frontend/src/api/client.ts:56-61 | exactly when the token store changes, and to what: a refused refresh empties it, the body of an accepted one fills it |
| ClientRetries.RefreshIsAnswered | backend/app/modules/auth/service.py:156-167 | a refresh is accepted if and only if it presents a live, unexpired token, and the token in the answer is then live |
| ClientRetries.ResultIsTheAnswer | frontend/src/api/client.ts:43-62 | the shared promise settles with the token read from the answer, or with none, and only then is it cleared |
| ClientProtocol.SendsCarryTheStore | frontend/src/api/client.ts:132-161 | a request is sent exactly when a call starts or retries with a new token while no refresh is in flight, or when the refresh it waited for has settled; it carries what the token store holds at that moment |
| ClientProtocol.InternalRunsAreBounded | frontend/src/api/client.ts:102-178 | work in hand ends: from a reachable state no run of steps that bring nothing new is longer than the state's rank |
| ClientProtocol.UnfinishedCallsProgress | frontend/src/api/client.ts:109-163 | no call is ever stuck: while one is unfinished, a step that brings work in hand forward is enabled, and one that does not depend on the server refusing |
| BrowserTab.Perform | frontend/src/api/client.ts:42-177 | every step of the protocol that is the tab's own is what one call of the client's code does to the tab |
| BrowserTab.Play | frontend/src/api/client.ts:29-178 | a freshly loaded client, driven through any run of the protocol, ends in the state the protocol says; on the way the server never takes its reuse branch, and at the end at most the shared refresh is outstanding, no call has sent more than twice, and the cookie is unrevoked or its unrevoked replacement is on its way |
| RotationUnderLocks.InterleavingsAreDisciplined | backend/app/modules/auth/repository.py:41-68 | in every committed state reachable by any interleaving with any rollbacks: one unrevoked token per family at most, only the newest of a family can be unrevoked, one user per family, no token rotated twice |
| RotationUnderLocks.RotationIsSerial | backend/app/modules/auth/service.py:156-167 | the commit of a rotation does to the committed table exactly what a serial refresh would do to it at the time the row was read |
| RotationUnderLocks.OneWinner | backend/app/modules/auth/service.py:132-140 | however many open transactions present one token, at most one of them is past its checks |
| RotationRuns.RefreshCommitsSerially | backend/app/modules/auth/service.py:156-167 | from any state without open transactions, the steps of a refresh can be run to a commit that leaves exactly the table the serial refresh computes, in each of its three branches |
| RotationRuns.OthersCommitSerially | backend/app/modules/auth/service.py:169-213 | the same for a login, a logout and the revocation of all of a user's tokens |
| SessionSafety.ReachableInv | backend/app/modules/auth/service.py:120-167 | in every reachable serial state families are disciplined, a suspended user has no unrevoked token, and no access token outlives its lifetime counted from now |
| SessionSafety.RefreshKeepsDiscipline | backend/app/modules/auth/service.py:156-167 | rotation and reuse response keep one user and at most one unrevoked token per family |
| SessionSafety.SuspendedStayDead | backend/app/modules/auth/service.py:181-198 | whatever request comes next, whoever is suspended after it has no unrevoked token, though refresh never looks at the flag |
| SessionSafety.TokensAreEarned | backend/app/modules/auth/service.py:120-167 | a request is given tokens of a user if and only if it gives the email and password of that user in good standing, or presents an unrevoked unexpired refresh token of that user |
| IssuedPairs.PairIsStored | backend/app/modules/auth/service.py:200-213 | the refresh token a login or refresh answers with was not in the table before, and is stored, unrevoked, for the user the access token names, until one lifetime from now; a login's family is new, a refresh's is that of the token presented; no other row changes but the presented one |
| IssuedPairs.PairCanBeRefreshed | backend/app/modules/auth/service.py:127-213 | round trip: presenting that refresh token next, no later than its expiry, is accepted for the same user |
| IssuedPairs.AccessTokenWorks | backend/app/modules/auth/tokens.py:24-55 | over every run after it was handed out, an access token identifies its user if and only if it has not expired |
| IssuedPairs.ReachableHolders | backend/app/modules/auth/service.py:200-213 | in every reachable state each refresh token belongs to an account |
| SessionSafety.LogoutEndsTheSession | backend/app/modules/auth/service.py:169-179 | after a logout with a live token, in every continuation no token of its family is unrevoked |
| SessionSafety.IssueNeedsStanding | backend/app/modules/auth/service.py:200-213 | an access token newly handed out belongs to a user in good standing and expires within the lifetime |
| SessionSafety.SuspensionIsBounded | backend/app/modules/admin/service.py:90-109 | after a suspension not followed by a reinstatement, in every continuation, no access token of the user decodes from one lifetime later on, and no refresh token of the user is unrevoked |
| SessionSafety.ReuseIsPunished | backend/app/modules/auth/service.py:159-167 | a token rotated and presented again before its expiry, with arbitrary requests in between: the answer is an error, and yet the committed state has its whole family revoked and no other family touched |
| SessionSafety.TheftResponse | backend/app/modules/auth/repository.py:70-81 | the killed family stays dead in every continuation, and all its tokens are one user's |
| SessionSafety.DeadForever | backend/app/modules/auth/service.py:162-167 | a family without an unrevoked token never gets one again |
| SessionSafety.WinnerLosesToo | backend/app/modules/auth/service.py:142-154 | of two requests presenting one live token in turn, the second kills the token the first was just given |
| AccessTokens.ExpiryWindow | backend/app/modules/auth/tokens.py:24-55 | a token decodes to its user until less than a second before its nominal end and never from its end on |
| Runs.FailureFrame | backend/app/core/db.py:94-103 | a request that ends in any exception leaves the committed database alone, but for a refresh presenting a revoked unexpired token, which revokes that family and nothing else; no access token is handed out |
| Sessions.Session.Finish | backend/app/core/db.py:94-103 | the body's answer stands unless the body crashed or the database refuses the commit, the one statement sent; the committed state becomes the pending one exactly if the answer stands, and otherwise stays |
| Sessions.Session.Commit | backend/app/core/db.py:102-103 | publishes the pending state, or, exactly if the database refuses the statement, publishes nothing |
| Sessions.Session.Rollback | backend/app/core/db.py:99-101 | discards the pending state |
| Api.Process | backend/app/core/db.py:67-117 | whatever the database and the object store do to it, the request code takes exactly one step of the serial runs, and the step is a crash if and only if the database refused one of the statements sent |
| Api.Handle | backend/app/core/db.py:94-117 | committed state and answer are those of the serial rule, unless the database refuses a statement: exactly then the answer is an unforeseen error, and nothing was committed |
| Api.HandleUpload | backend/app/modules/listings/service.py:227-299 | the same for uploads, with the object store's contents given in both cases |
| AuthServices.AuthService.Register | backend/app/modules/auth/service.py:90-103 | meets the serial rule: a taken email, or one taken in the meantime, is one validation error and no write |
| AuthServices.AuthService.Login | backend/app/modules/auth/service.py:105-125 | meets the serial rule: unknown email, wrong password and suspension give one error and no write; otherwise a new family with one token |
| AuthServices.AuthService.Refresh | backend/app/modules/auth/service.py:127-167 | meets the serial rule whose discipline, reuse response and refinement are proved in `SessionSafety` and `RotationUnderLocks` |
| AuthServices.AuthService.Logout | backend/app/modules/auth/service.py:169-179 | revokes at most the presented token, and never fails for lack of one: only a refused write makes it fail |
| AuthServices.AuthService.RevokeAllTokensForUser | backend/app/modules/auth/service.py:181-198 | revokes every token of the user in every family and nothing else |
| AuthServices.AuthService.IssueTokenPair | backend/app/modules/auth/service.py:200-213 | adds one unrevoked token to the family and returns it with a fresh access token |
| AuthServices.RefreshTokenRepository.Create | backend/app/modules/auth/repository.py:18-34 | adds the row, unrevoked |
| AuthServices.RefreshTokenRepository.Revoke | backend/app/modules/auth/repository.py:66-68 | revokes one row and leaves all else |
| AuthServices.RefreshTokenRepository.RevokeFamily | backend/app/modules/auth/repository.py:70-81 | row by row: a token of the family is revoked and otherwise as it was, any other token is as it was, and no other table changes |
| AuthServices.RefreshTokenRepository.RevokeAllForUser | backend/app/modules/auth/repository.py:83-99 | row by row: a token of the user is revoked and otherwise as it was, any other token is as it was; leaving out the rows already revoked makes no difference |
| Users.UserRepository.Create | backend/app/modules/users/repository.py:49-78 | a duplicate always ends in a validation error with the session rolled back to the committed state, and only a duplicate does |
| Users.UserRepository.UpdateDisplayName | backend/app/modules/users/repository.py:80-87 | changes that one field of that one user |
| Users.UserRepository.SetPassword | backend/app/modules/users/repository.py:89-101 | replaces the hash and clears the forced change |
| Users.UserRepository.SetTemporaryPassword | backend/app/modules/users/repository.py:103-118 | replaces the hash and sets the forced change |
| Users.UserRepository.SetActive | backend/app/modules/users/repository.py:120-134 | changes the standing of that one user |
| Users.UserService.CreateUser | backend/app/modules/users/service.py:39-48 | the repository's guarantee, duplicates included, which callers rely on under a race |
| Users.UserService.ChangePassword | backend/app/modules/users/service.py:60-93 | meets the serial rule: a wrong current password changes nothing |
| Users.UserService.Suspend | backend/app/modules/users/service.py:105-129 | refused for an admin, then for a suspended user, with nothing changed; otherwise, unless the database refuses the write, accepted |
| Users.UserService.Reinstate | backend/app/modules/users/service.py:131-140 | refused for an admin, then for an active user, with nothing changed; otherwise, unless the database refuses the write, accepted |
| Users.UserService.ResetPassword | backend/app/modules/users/service.py:142-162 | refused exactly for an admin; otherwise the returned password is the one the stored hash verifies |
| Administration.AdminService.SuspendUser | backend/app/modules/admin/service.py:90-109 | meets the serial rule: standing, tokens and audit row change together or not at all |
| Administration.AdminService.ReinstateUser | backend/app/modules/admin/service.py:111-126 | meets the serial rule: standing and audit row change together or not at all |
| Administration.AdminService.ResetPassword | backend/app/modules/admin/service.py:128-142 | meets the serial rule: password and audit row change together or not at all |
| Administration.AdminService.RemoveListing | backend/app/modules/admin/service.py:150-166 | meets the serial rule: an audit row exactly when the listing was not deleted before |
| Administration.AdminActionRepository.Create | backend/app/modules/admin/repository.py:21-39 | appends one row and leaves the earlier ones |
| AuditTrail.AuditReplays | backend/app/modules/admin/service.py:99-126 | in every reachable state, replaying the log gives each user's standing, and a user's verdicts alternate from a suspension |
| AuditTrail.AtMostOneRemoval | backend/app/modules/admin/service.py:150-166 | in every reachable state a listing has at most one removal row, and one means it is deleted |
| AuditTrail.LogOnlyGrows | backend/app/modules/admin/repository.py:17-39 | over every run the earlier log is a prefix of the later one |
| ListingLifecycle.LifecycleIsMonotone | backend/app/modules/listings/service.py:155-192 | over every run: status never moves back, owner and creation time never change, `sold_at` is never overwritten, content and images are frozen from the first step out of available, a deleted row never changes |
| ListingLifecycle.SoldAtIsMarkSold | backend/app/modules/listings/repository.py:258-262 | `sold_at` changes if and only if the request is an accepted `mark_sold` of that listing, then from absent to now |
| ListingLifecycle.RepeatedDeleteIsSilent | backend/app/modules/listings/service.py:180-225 | deleting or removing a deleted listing changes nothing at all, audit log included |
| ForcedPasswordChange.OnlyLastTemporaryOpens | backend/app/modules/auth/dependencies.py:105-128 | from a reset until the next successful change, through any run with further resets: no request with the user's access token alters anything, a failed change keeps the gate shut, and a change succeeds if and only if it presents the last temporary password with a token that decodes |
| ForcedPasswordChange.GateBlocks | backend/app/modules/users/service.py:88-93 | the same for one request in one gated state |
| Accounts.RolesAreFixed | backend/app/modules/users/repository.py:63-68 | over every run no account disappears or changes role, and nobody registers as an admin |
| Accounts.EmailsAreForever | backend/app/modules/users/repository.py:49-78 | over every run an email, in any letter case, goes on naming the same account |
| Accounts.ReachableAccounts | backend/app/modules/users/repository.py:69-78 | in every reachable state every email names one account, and every account has exactly one email |
| Accounts.ReachableOwners | backend/app/modules/listings/service.py:130-153 | in every reachable state each listing's owner is an account |
| Accounts.RegisteredCanLogIn | backend/app/modules/auth/service.py:90-125 | from a registration on, through any run: a login with that email, in any letter case, succeeds if and only if it gives the password the account was last given, by itself or by a reset, and the account is not suspended |
| Accounts.ListingsChangeByOwnerOrAdmin | backend/app/modules/listings/service.py:328-330 | a listing's row changes only in a request with its owner's valid token, or when an admin removes it |
| Accounts.ImagesComeFromTheOwner | backend/app/modules/listings/service.py:254-262 | image rows appear only in an upload with the owner's valid token |
| Accounts.AccountsChangeBySelfOrAdmin | backend/app/modules/users/service.py:105-162 | an account's row changes only in a request with its own valid token, or an admin's, and then never an admin's account |
| Accounts.ReachableActors | backend/app/modules/auth/dependencies.py:158-171 | in every reachable state every audit row names an admin as its actor |
| Rules.WhoPasses | backend/app/modules/auth/dependencies.py:62-171 | each gate lets a user pass if and only if the token was issued to that existing user and is within its lifetime, and, for the second and third, no change of password is pending, and, for the third, the user is an admin; and everybody else gets the error of the first condition that fails |
| Outcomes.RefusedAtTheGate | backend/app/modules/auth/dependencies.py:62-171 | without a valid access token, and while a change of password is due, every request but the exempt ones gets the error for that |
| Outcomes.SessionAnswers | backend/app/modules/auth/service.py:90-164 | a registration is refused if and only if the email is taken; a login and a refresh are refused with one error each |
| Outcomes.EditAnswer | backend/app/modules/listings/service.py:168-178 | an edit and a sale are accepted if and only if the listing exists, is the caller's and is available, and each failing condition has its own error, in that order |
| Outcomes.DeleteAnswer | backend/app/modules/listings/service.py:188-192 | a deletion is accepted if and only if the listing exists and is the caller's, whatever its status |
| Outcomes.FreeAnswers | backend/app/modules/listings/service.py:141-153 | creating a listing, renaming oneself and logging out are never refused to a caller |
| Outcomes.ChangePasswordAnswer | backend/app/modules/users/service.py:88-93 | a password change is accepted if and only if it gives the current password |
| Outcomes.ModerationAnswer | backend/app/modules/admin/service.py:99-166 | moderation is refused to everybody but admins and against admins; suspending and reinstating are accepted if and only if they change something; removing a listing that exists always is |
| Outcomes.UploadAnswer | backend/app/modules/listings/service.py:254-319 | an upload is accepted if and only if the listing exists, is the caller's and available, the files fit in number, size and type, and every put succeeds; each failing condition has its own error, in that order |
| Outcomes.EditChangesWhatItGives | backend/app/modules/listings/repository.py:248-256 | after an accepted edit each of the six fields is the value given, if one was given, and otherwise what it was; nothing else about the listing changes but its update time, and no other listing changes |
| Outcomes.LifecycleChanges | backend/app/modules/listings/repository.py:223-267 | a new listing is the caller's, available and has the content given; a sale and a deletion change status and times and nothing else; no other listing changes |
| Outcomes.UploadChanges | backend/app/modules/listings/service.py:298-314 | an accepted upload adds, for each file in order, a row at the next position whose key maps to exactly that file and names its type, and touches no other row or object |
| Outcomes.RegistrationChanges | backend/app/modules/users/repository.py:63-78 | a registration adds an active regular account with the password and name given, and changes no other |
| Outcomes.OwnChanges | backend/app/modules/users/repository.py:80-101 | renaming changes the name alone; a password change replaces the password and lifts the forced change; no other account changes |
| Outcomes.ModerationChanges | backend/app/modules/users/repository.py:103-134 | a suspension, reinstatement or reset changes exactly the standing, or the password with the forced change set, of its target, and adds exactly one log row with the admin, the action, the target and the reason |
| Outcomes.RemovalIsLogged | backend/app/modules/admin/service.py:158-166 | a removal adds exactly one log row if the listing was not deleted before, and none otherwise |
| Outcomes.LogoutChanges | backend/app/modules/auth/service.py:176-179 | a logout revokes the token presented and no other |
| Listings.ListingRepository.UpdateFields | backend/app/modules/listings/repository.py:248-256 | assigning the given fields one by one gives exactly the merged content, and no update when that is what was there |
| Listings.ListingRepository.MarkSold | backend/app/modules/listings/repository.py:258-262 | status, sale time and update time of that one listing |
| Listings.ListingRepository.SoftDelete | backend/app/modules/listings/repository.py:264-267 | status and update time of that one listing; the row stays |
| Listings.ListingRepository.CountImages | backend/app/modules/listings/repository.py:292-298 | the number of the listing's image rows, uncommitted ones included |
| Listings.ListingRepository.AddImages | backend/app/modules/listings/repository.py:300-313 | appends the rows and leaves the earlier ones |
| Listings.ListingService.Create | backend/app/modules/listings/service.py:130-153 | meets the serial rule: a new available listing of the caller's |
| Listings.ListingService.Update | backend/app/modules/listings/service.py:155-171 | meets the serial rule: existence, then ownership, then status, each with its own error and no write |
| Listings.ListingService.MarkSold | backend/app/modules/listings/service.py:173-178 | meets the serial rule, with the same precedence |
| Listings.ListingService.Delete | backend/app/modules/listings/service.py:180-192 | meets the serial rule: idempotent, and no second update |
| Listings.ListingService.AdminRemove | backend/app/modules/listings/service.py:205-225 | reports a transition if and only if the listing was not deleted, and writes exactly then |
| Listings.ListingService.UploadImages | backend/app/modules/listings/service.py:227-299 | meets the serial rule in both stores: no put before every check has passed, no row unless every put succeeded |
| Listings.ListingService.WriteToStorage | backend/app/modules/listings/service.py:301-320 | the interrupted write-and-clean-up loop leaves exactly what the batch rule says, and yields consecutive positions on success |
| Listings.StorageBackend.Put | backend/app/modules/storage/backend.py:17-19 | overwrites one object, or fails having written it or not |
| Listings.StorageBackend.Delete | backend/app/modules/storage/backend.py:28-33 | removes one object, absent or not, or silently fails to |
| Rules.CheckFiles | backend/app/modules/listings/service.py:264-296 | files are accepted if and only if there is at least one, no more than what is left of six, and each is within the cap with a recognised signature; they are returned in order with the type they carry; every refusal is a validation error |
| ImageValidation.SniffIsExact | backend/app/modules/listings/image_validation.py:29-39 | a file is reported as a type if and only if it carries that type's signature: the three exclude each other, and short files have none |
| ImageValidation.Validate | backend/app/modules/listings/service.py:281-296 | accepts if and only if every file is within the cap and recognised, and then returns each file with its type, in order |
| ImageValidation.ValidatedAreStorable | backend/app/modules/listings/image_validation.py:29-47 | every accepted file matches the extension its key will have and the cap |
| ObjectStorage.FailedBatchRestores | backend/app/modules/listings/service.py:301-320 | a failed batch leaves the store exactly as it was if and only if the failing put wrote nothing and every clean-up delete succeeded |
| ObjectStorage.StoreBatchFrame | backend/app/modules/listings/service.py:306-319 | whatever fails, other objects are untouched, nothing appears under other keys, and success means every object is there |
| UploadsUnderLocks.CommittedImagesAreSound | backend/app/modules/listings/service.py:254-299 | under any interleaving, failures and rollbacks: every listing's images are numbered 0 to n-1 in order with n at most 6, and every image row's key maps to stored bytes of its extension's type within the cap |
| UploadsUnderLocks.RowsGoToAvailableListings | backend/app/modules/listings/repository.py:156-173 | image rows appear only at an upload's commit, all on one listing, which is available at that commit |
| UploadsUnderLocks.UploadIsSerial | backend/app/modules/listings/service.py:254-299 | a committed upload is the serial upload rule applied to exactly the committed state it joins |
| UploadsUnderLocks.TidyCleanupLeavesNothing | backend/app/modules/listings/service.py:315-319 | under any interleaving, a failed upload leaves no object of its batch behind if and only if the failing put wrote nothing and every delete removed its object |
| UploadRuns.UploadCommits | backend/app/modules/listings/service.py:254-299 | from any state without open transactions, an upload that passes its checks can be run to a commit that adds exactly its rows and its objects |
| UploadRuns.EditCommits | backend/app/modules/listings/service.py:168-192 | the same for an edit, a sale and a deletion, each in every status in which its check allows it |
| RateLimiter.FixedWindowRateLimiter.Check | backend/app/core/rate_limit.py:32-45 | accepts if and only if the timestamp-keeping specification accepts this key's calls, the new one included |
| RateLimiter.FixedWindowRateLimiter.Reset | backend/app/core/rate_limit.py:47-53 | forgets every call |
| RateLimiter.TableRefinesHistory | backend/app/core/rate_limit.py:37-45 | on every trace of any keys in any order, the (start, count) table decides each call as a specification that keeps every timestamp and rebuilds the windows |
| RateLimiter.KeysAreIndependent | backend/app/core/rate_limit.py:37-43 | a key's window depends on that key's calls alone |
| RateLimiter.SlidingBound | backend/app/core/rate_limit.py:36-45 | for calls in order of time, any half-open interval of k windows sees at most (k+1)·limit − 1 accepted calls of one key, and none if the interval is empty or the limit is not positive |
| RateLimiter.SlidingBoundIfTimely | backend/app/core/rate_limit.py:36-45 | the same without the order, if no call is counted in a window that started after it: a sufficient condition, not a necessary one |
| RateLimiter.SlidingBoundIsTight | backend/app/core/rate_limit.py:39-45 | for every key, every limit and every k there is a trace of calls in order of time, and an interval, that attain the bound |
| RateLimiter.BoundHoldsExactly | backend/app/core/rate_limit.py:36-45 | all traces with no call more than d late meet the bound, for every key and every interval, if and only if d is not positive or the limit is at most one |
| RateLimiter.LateCallsBreakTheBound | backend/app/core/rate_limit.py:36-38 | for every limit of two or more and every d > 0 there is a trace with no call more than d late of which 3·limit − 2 calls are accepted in one window's length |
| RateLimiter.RejectedKeepsStart | backend/app/core/rate_limit.py:39-45 | a rejected call moves its window's start if and only if the limit admits no call at all and the window is over; otherwise it only counts |
| ClientAddress.FirstTrustedHopWins | backend/app/modules/auth/dependencies.py:210-216 | whatever header the client sends, once the configured number of hops have appended an address each, the first hop's observation is extracted |
| ClientAddress.PeerIsTheFallback | backend/app/modules/auth/dependencies.py:210-216 | without trusted hops, or with fewer entries in the header than trusted hops, the peer is extracted whatever the header holds, and "unknown" exactly when there is no peer |
| ClientAddress.ChainIsReadFromTheEnd | backend/app/modules/auth/dependencies.py:213-216 | for a header of addresses alone: the one as many places from the end as there are trusted hops, and otherwise the peer |
| ClientAddress.KeyIsTheClient | backend/app/modules/auth/dependencies.py:233-236 | behind any number of trusted hops or none, two requests share a limiter key if and only if they come from one client to one endpoint |
| ClientAddress.ClientIsLimited | backend/app/modules/auth/dependencies.py:219-236 | so the sliding bound holds for a real client, behind any number of trusted hops or, with none, by its peer address, if its own requests to an endpoint reach the table in order of time, whatever headers it sends, and whatever everybody else does in whatever order |
| Browse.ArrangementIsUnique | backend/app/modules/listings/repository.py:113-134 | with the id tiebreaker a set of listings has exactly one sorted arrangement |
| Browse.Ordered | backend/app/modules/listings/repository.py:87-92 | that arrangement exists: every listing of the set once, in order |
| Browse.ListsAreNewestFirst | backend/app/modules/listings/repository.py:87-92 | on a browse page, an admin page and a preview, and from any page to any later one, nothing comes before something created later, and of two created at once the greater id comes first |
| Browse.OrderedSubset | backend/app/modules/listings/repository.py:78-94 | filtering commutes with ordering |
| Browse.PreviewIsBrowseHead | backend/app/modules/listings/repository.py:175-208 | the preview is the head of the unfiltered browse order restricted to the seller without the anchor |
| Browse.PreviewLength | backend/app/modules/listings/router.py:191-207 | its length is the active count less the anchor if active, cut at the limit; empty for a suspended seller |
| Browse.BrowsedIsOpen | backend/app/modules/listings/service.py:92-112 | everything browsable can be opened by anybody |
| Browse.DetailIsFor | backend/app/modules/listings/service.py:105-112 | a listing's own page is shown to anybody unless it has been deleted, and then exactly to its owner and the admins; everybody else is told there is none |
| Visibility.SuspensionHidesExactlyTheSeller | backend/app/modules/listings/repository.py:78-83 | an accepted suspension drops exactly that seller's listings from every public result, with the others' order kept and no listing changed |
| Visibility.ReinstatementRestoresEveryPage | backend/app/modules/listings/repository.py:78-94 | from an accepted suspension to the accepted reinstatement, with any run in between that changes no listing and nobody's standing, every browse page is again what it was |
| Visibility.SuspensionLeavesDetailPages | backend/app/modules/listings/service.py:99-112 | after an accepted suspension everybody sees of each listing's own page exactly what they saw before, while the seller's listings are gone from the public results |
| Visibility.NewestComesFirst | backend/app/modules/listings/repository.py:87-92 | after an accepted creation by a seller in good standing, later than every other, the new listing is the first item of the first page of the unfiltered browse |
| Pagination.PageCount | frontend/src/components/Pagination.tsx:15 | the page count is the least number of pages that holds everything |
| Pagination.NextMeansMore | frontend/src/components/Pagination.tsx:15-29 | Next is enabled if and only if something is left after this page, and if and only if the next page has a Previous that leads back |
| Pagination.NextVisitsEveryListingOnce | frontend/src/components/Pagination.tsx:14-34 | pressing Next from page 1 while enabled visits each listing of the result exactly once, in order, no page empty unless the result is, lengths adding up to the total |
| Pagination.VisitIsPaged | backend/app/modules/listings/repository.py:85-94 | those pages are the server's answers for 1, 2, ... up to the displayed page count |
| Pagination.PagesPartitionTheResult | backend/app/modules/listings/repository.py:96-148 | for browsing and for the admin list, the pages together are exactly the matching listings, each once, in order |
| Pagination.PublicPagesShow | backend/app/modules/listings/repository.py:78-83 | a listing is on some public page if and only if it is available, its seller is in good standing, and it meets every filter given |
| Pagination.AdminPagesShow | backend/app/modules/listings/repository.py:135-147 | a listing is on some admin page if and only if it has the status chosen, or none was |

## Left out

- HTTP, FastAPI wiring, request schemas, headers, CORS, logging and the error envelope; response bodies beyond what a caller acts on.
- Cryptography: hashing, signing and generation of tokens, passwords and identifiers are idealised (injective, unforgeable, new).
- Postgres full-text search is a parameter of the queries; S3, migrations and the ORM's identity map are not modelled.
- Reads that only list rows: `get_my_listings`, the caller's own summary, `list_users`.
- The 429 answer is not part of the serial runs: the limiter acts before any database work, and is modelled on its own.
- Unforeseen failures strike a request where it writes or commits; a failing read ends the same way and is not a separate case.
- Multiple `X-Forwarded-For` header lines; the limiter's clock is a real number.
- Rounding in the browser's page-count division.
- RotationUnderLocks.InterleavingsAreDisciplined: does not claim that a family or a user is revoked as a whole under interleaving, because the bulk updates do not lock out a rotation already under way; `SessionSafety` has both for serial runs.
- Status monotonicity, audit alternation and account rules are claimed for serial runs only, since those requests read without locks.
- UploadsUnderLocks.CommittedImagesAreSound: objects that no row refers to may stay behind after failed deletes, rollbacks or crashes.
- ClientProtocol.NeverMistakenForTheft: supposes that every answer is delivered, that nobody logs out or suspends the tab's own sessions, that there is one tab, that the page loads with no cookie or a live one (a failed refresh does not clear the cookie; `SafeIffCookieIsLive` is the exact condition), and that the page is not reloaded while a refresh is in flight; lost responses, network errors and a server error after a commit are not modelled.
- Calls through the fetch wrapper to the refresh endpoint, the password-change handler, and reading the body of an ordinary response as a step of its own.
- The interleaved models and the client protocol are step systems on values; objects shared between threads, and the order of promise callbacks within one stretch of browser code, are not modelled beyond that.
- React pages, components other than the page controls, and styling.
