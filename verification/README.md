# Keyring: a verified model

Keyring is an asyncio service over one serialised SQLite connection: accounts that log in, roles that
say what they may do, and a vault of credentials that services borrow. What is hard in it is a set of
small state machines with time, caches and requests that interleave at every await. This project
states those machines in Dafny and proves what they keep over every run.

`dafny verify dfyconfig.toml` checks all of it.

## How it is laid out

| file | what it models |
|---|---|
| `RateLimiter` | the sliding-window limiter: a capped, evicted, purged deque against a full log of attempts |
| `Jwks` | the client's key cache: freshness window, outage grace, two rate floors, one request in flight |
| `Renewal` | renewing one OAuth grant: resolvers, waiters, provider calls and callbacks, step by step |
| `Rbac`, `AdminTables`, `Admin` | permissions, the role and account tables, and administrative requests running against each other |
| `NonEscalation`, `LastOwner`, `StaleSaves`, `Powers` | what those requests can and cannot bring about |
| `Delegation`, `Exchanges` | offline grants, token exchange, and chains of exchanged tokens |
| `Preferences`, `Sessions`, `SessionRuns` | what a person may choose, the session table and its trim, and sessions over whole runs |
| `Grants`, `Lockout`, `Accounts` | single-use tokens, guessing, and the account service over its stores |
| `Vault`, `Overlaps` | the connection table and the vault, which no transaction spans, and what two operations on one key do when their writes overlap |
| `Authorizations`, `Changes` | OAuth states, who may change a stored credential, and where each one came from |
| `Stamps` | instants as fixed-width text columns |
| `Redaction` | the pass over log records |
| `Options`, `FiniteSets`, `Integers` | an option type, the size of a subset, the smaller and the larger of two numbers |

Classes stand for the service's own objects, with their fields. A method's `ensures` says what it does in
terms of those fields, and ties it to a function of the old state; the theorems are about those functions. A machine is a `World`, an
`Event`, a predicate `Enabled` and a function `Do`; `Runs` and `After` tell a run of any length. One
step is what runs between two awaits, and one SQL transaction or statement is one step. A clock
reading that is taken before an await may be older than the write made with it. Hashes are injective,
random tokens and ids are fresh, signatures and encryption are abstract.

## Where the code says less than one might expect

These are stated as lemmas, with the exact condition where there is one.

- The retention sweep's width is the widest of the login, reset and invite windows. The per-recipient
  mail cap has a window of its own, which the sweep respects exactly when it is no wider than those
  (`RateLimiter.SweepSparesMailCap`). The limiter agrees with the full log exactly for limits below 128.
- Saving an account rewrites its roles and its password from the value that was read. A save that was
  read before a demotion and lands after it gives the roles back; `StaleSaves.TakingIsSafeIff` says
  exactly when that matters, and `StaleSaves.StaleSaveEscalates` is a run in which it does. With each
  save closed to its read there is no premise left (`LastOwner.NobodyEscalatesAtomically`). Such a save
  can take the last owner as well: `StaleSaves.StaleSaveLosesOwner` is that run,
  `AdminTables.SaveKeepsOwnerIff` the condition, and closed to their reads saves never do
  (`LastOwner.LastOwnerSurvivesAtomically`). In the same way a new password stands exactly when no save
  read before it is pending (`Lockout.NewPasswordStandsIff`).
- A login that judged the old password before a new one was set can open its session after the old
  sessions were ended. No session an old password opened is left exactly when no such login is under way
  (`SessionRuns.OldPasswordOpensNothingIff`).
- A request for keys that its caller cancels leaves no stamp, so the fetch bound allows for those
  besides (`Jwks.FetchBound`, `Jwks.CancelledRequestsAreUnbounded`). A document just received is handed
  on however long its request took (`Jwks.WithdrawnKeysDie`, last case).
- An exchange reads the clock once to clip the lifetime and once more to sign. The token carries the
  reported expiry exactly when both readings share a second, and outlives its deadline exactly when the
  second turns more often than there is room for (`Delegation.WithinDeadlineIff`).
- An exchange that read its grant before a withdrawal can still mint after it, and exactly those with
  lifetime left can (`Exchanges.WithdrawalIsFinalIff`).
- Renewing once per stored token needs that neither row is deleted and nobody is cancelled between
  asking the provider and storing; each of the three alone is enough for a second renewal
  (`Renewal.OneDisturbanceRenewsTwice`).
- Two reset requests for one account that overlap can leave two live links
  (`Grants.TwoRequestsTwoResets`, `Grants.OneLiveResetIff`). Wrong passwords judged against one read of
  the account count as one (`Lockout.TwoAtOnceCountOnce`), and the guess bound survives the next try
  exactly when the stored lock reaches far enough (`Lockout.NextKeepsSpacingIff`).
- Two operations on one key can overlap. What the tables hold at the end is foretold by six facts about
  the key (`Overlaps.AnyTwoAgreeIff`), which gives the exact condition for each pair. A store and a
  revocation leave a vault row without a connection (`Overlaps.StoreAndRevokeAgreeIff`,
  `Overlaps.StoreAcrossRevoke`), and so does a store around the deletion of its profile; a store inside
  a deletion can lose its secret in the profile created anew (`Overlaps.StoreAndDeleteAgreeIff`,
  `Overlaps.StoreAcrossDelete`). A renewal that fails after a revocation, or after its profile was deleted
  and created anew, brings back a connection without a secret (`Overlaps.FailureAndRevokeAgreeIff`,
  `Overlaps.FailureAndDeleteAgreeIff`, `Overlaps.FailedRenewalOutlivesRevoke`,
  `Overlaps.FailedRenewalOutlivesProfile`). Deleting a profile passes through a vault row without a
  connection by itself (`Vault.DeletingLeavesSecrets`).
- A profile found empty is removed unchecked, and a credential stored in between goes with it
  (`Authorizations.UncheckedRemovesIff`, `Authorizations.LateCredentialGoesUnchecked`).

## Model

| member | source | states |
|---|---|---|
| `RateLimiter.InMemoryRateLimiter.Check` | src/keyring_api/accounts/ratelimit.py:67-93 | the newest attempts stay, at most 128, and only those go that are past the window or that 128 newer ones push out; admitted exactly when no more than the limit are left, and otherwise the wait until the oldest leaves the window, at least a second |
| `RateLimiter.InMemoryRateLimiter.Reset` | src/keyring_api/accounts/ratelimit.py:95-97 | forgets one caller and nobody else |
| `RateLimiter.InMemoryRateLimiter.PurgeExpired` | src/keyring_api/accounts/ratelimit.py:99-110 | drops exactly the callers whose newest attempt is past the cutoff, counts them, and leaves the rest as they were |
| `RateLimiter.RecordRefinesLog` | src/keyring_api/accounts/ratelimit.py:77-93 | after any run of attempts, resets and sweeps wide enough, the deque is the newest 128 of the window in the full log, refused attempts included |
| `RateLimiter.VerdictIsTheLogs` | src/keyring_api/accounts/ratelimit.py:81-93 | for a limit below 128 an attempt is admitted exactly when the log's window, this attempt included, holds at most that many |
| `RateLimiter.AgreementNeedsSmallLimit` | src/keyring_api/accounts/ratelimit.py:30 | that agreement holds for all runs if and only if the limit is below 128 |
| `RateLimiter.NoWindowOverspent` | src/keyring_api/accounts/ratelimit.py:67-93 | over every run of attempts and wide sweeps without resets the deque itself admits at most `limit` attempts in any window of the full width; and this holds if and only if the limit is below 128 |
| `RateLimiter.RefusedUntilOldestAges` | src/keyring_api/accounts/ratelimit.py:67-93 | after a refusal every attempt before the oldest kept entry ages out is refused, however many come and whatever is swept in between: the wait is a lower bound |
| `RateLimiter.PurgingIsInvisible` | src/keyring_api/accounts/ratelimit.py:99-110 | sweeps at least as wide as the window change no later deque, verdict or wait |
| `RateLimiter.SweepSparesMailCap` | src/keyring_api/accounts/service.py:637-654 | the retention sweep changes no verdict of the mail cap if and only if the mail window is no wider than the other three |
| `RateLimiter.NarrowSweepForgets` | src/keyring_api/accounts/service.py:644-648 | a full mail budget, a narrower sweep and one more message: the run that shows it |
| `Jwks.JwksClient.ClaimRefetchWindow` | clients/python/keyring_client/jwks.py:206-222 | refused while the last claim is younger than the floor, and then nothing changes; otherwise granted and stamped |
| `Jwks.JwksClient.Ask` | clients/python/keyring_client/jwks.py:106-146 | everything `key_for` does up to its request, with each clock reading it may take on the way |
| `Jwks.JwksClient.Settle` | clients/python/keyring_client/jwks.py:224-252 | what a request's success, failure or cancellation leaves in each field, and the reply: the document's key or a refusal, the key still held while cache and grace last, or "unreachable" |
| `Jwks.JwksClient.StaleKey` | clients/python/keyring_client/jwks.py:188-199 | a stale key is served within cache plus grace and no later |
| `Jwks.InvAlways` | clients/python/keyring_client/jwks.py:106-252 | over every run the four fields are stamps of requests that really happened, in turn and spaced by the floors |
| `Jwks.FetchBound` | clients/python/keyring_client/jwks.py:123-140 | whatever the traffic, provoked claims are a floor apart, other requests `min(cache, floor)` after every request that was not given up, and a span sees at most span/floor + span/min(cache, floor) + 2 requests besides those their callers gave up |
| `Jwks.CancelledRequestsAreUnbounded` | clients/python/keyring_client/jwks.py:240-252 | requests given up leave no stamp, so any number can go out in one instant and the allowance for them is needed |
| `Jwks.RepliesAreJustified` | clients/python/keyring_client/jwks.py:106-146 | every key handed out, every "unreachable" and every "not accepted" is justified by requests in the past, as the client's contract promises |
| `Jwks.AskByTheLog` | clients/python/keyring_client/jwks.py:106-146 | over every run, each answer and each request told from the requests there have been: a key of the last document is found at once within the cache window; then the claim's floor refuses; then a recent failure is answered with the last document's key within cache and grace, or with "unreachable"; otherwise a request goes out |
| `Jwks.UnreachableIff` | clients/python/keyring_client/jwks.py:133-140 | over every run, "unreachable" only when the last document lacks the key or is older than cache and grace; a caller whose own request fails hears it exactly then, and gets the key otherwise |
| `Jwks.WithdrawnKeysDie` | clients/python/keyring_client/jwks.py:180-199 | the reading that let a withdrawn key be handed out, fresh or stale, is less than cache plus grace after the withdrawal, less than cache when nothing failed, unless the key came with a document whose request had gone out before |
| `Renewal.OneRefreshInFlight` | src/keyring_api/credentials/service.py:419-434 | under any interleaving, deletion or cancellation at most one task is between taking the lock and releasing it |
| `Renewal.EachTokenRenewedOnce` | src/keyring_api/credentials/service.py:419-469 | while undisturbed, no stored access token is successfully renewed twice, whoever resolves, waits or consents |
| `Renewal.ReturnedIsStored` | src/keyring_api/credentials/service.py:430-434 | whoever gets an answer, by waiting or by renewing, gets what the vault holds at that moment, and a token that has not itself been renewed |
| `Renewal.OneDisturbanceRenewsTwice` | src/keyring_api/credentials/service.py:431-433 | for either row's deletion and for a cancellation, a run with that one disturbance after which the same token has been renewed twice |
| `Renewal.AnsweredAlone` | src/keyring_api/credentials/service.py:436-469 | a renewal nothing else happens to ends with its answer in the vault and with its caller, the connection active and the lock free |
| `Renewal.RefusedAlone` | src/keyring_api/credentials/service.py:453-457 | refused, only the connection's status changes, to expired |
| `Renewal.WaitedFor` | src/keyring_api/credentials/service.py:430-434 | a caller that waited gets what the vault holds by then, and no provider is asked |
| `Rbac.ResolveWithin` | src/keyring_api/domain/rbac.py:239-251 | an account's permissions stay within a bound exactly when each of its roles does |
| `Rbac.BuiltinRoles` | src/keyring_api/domain/rbac.py:116-135 | what each built-in role grants, permission by permission |
| `Rbac.DedupIsOnceEach` | src/keyring_api/accounts/sql_store.py:366-393 | a list of names is stored once each, in the order of first mention, and counted that way |
| `AdminTables.AdminStore.InsertRole` | src/keyring_api/accounts/sql_roles.py:94-114 | a taken name is refused and stays as it is |
| `AdminTables.AdminStore.UpdateRole` | src/keyring_api/accounts/sql_roles.py:116-125 | replaces one role's permissions; no role appears, goes or changes whether it is built in |
| `AdminTables.AdminStore.RemoveRole` | src/keyring_api/accounts/sql_roles.py:127-158 | refuses unknown, built-in and held roles, changing nothing, and otherwise deletes exactly that role |
| `AdminTables.AdminStore.SaveRow` | src/keyring_api/accounts/sql_store.py:101-118 | an account's save rewrites its roles and nobody else's, and is refused for a role that is gone |
| `AdminTables.AdminStore.StoreRoles` | src/keyring_api/accounts/sql_store.py:152-169 | replaces roles in order without repeats, or refuses the last owner's demotion or an unknown role and changes nothing |
| `AdminTables.AdminStore.RemoveAccount` | src/keyring_api/accounts/sql_store.py:120-137 | deletes the account, or refuses the last owner and changes nothing |
| `AdminTables.AdminStore.CountOtherOwners` | src/keyring_api/accounts/sql_store.py:395-416 | counts rows until it knows whether somebody else holds `owner` |
| `AdminTables.AdminStore.SetAccountRoles` | src/keyring_api/admin/service.py:379-422 | made if and only if the actor may assign, the target exists, the names are at most 16 and all exist, every permission behind them is the actor's own, and it is not the last owner's demotion; then the target holds exactly those names, once each; nobody else's roles change, a refusal changes nothing and names the first reason in that order |
| `AdminTables.SaveKeepsOwnerIff` | src/keyring_api/accounts/sql_store.py:101-118 | an account save keeps an owner if and only if it carries `owner`, is refused or finds no row, or another owner exists |
| `AdminTables.OwnerSurvives` | src/keyring_api/accounts/sql_store.py:120-169 | neither role changes nor deletions ever take the last owner away |
| `NonEscalation.InvKept` | src/keyring_api/admin/service.py:314-462 | the invariant behind non-escalation, kept by every step from any world that has it |
| `NonEscalation.NobodyEscalates` | src/keyring_api/admin/service.py:314-462 | over every interleaved run no account leaves its starting permissions plus the coalition's union, which never grows although the coalition takes in whoever it resets or invites |
| `Powers.WithoutThePermission` | src/keyring_api/admin/service.py:176-462 | over every such run, without the permission for it nothing changes: no role, no account's roles, no account goes, no invitation is made, nobody is taken in but who redeems one |
| `Powers.BuiltinRolesStand` | src/keyring_api/accounts/sql_roles.py:94-158 | over every run, whatever anybody does, no built-in role changes or goes |
| `Powers.AssignsAlone` | src/keyring_api/admin/service.py:379-422 | an assignment nothing else happens to ends as the one transaction `SetAccountRoles` makes, step by step |
| `StaleSaves.TakingIsSafeIff` | src/keyring_api/accounts/sql_store.py:101-118 | taking over an account keeps the coalition in bounds for ever if and only if no save pending on it carries a permission outside them |
| `StaleSaves.StaleSaveEscalates` | src/keyring_api/accounts/sql_store.py:101-118 | the run of a failed login, a demotion, a reset and the login's save, after which an account holds more than it began with and the coalition's union together |
| `StaleSaves.StaleSaveLosesOwner` | src/keyring_api/accounts/sql_store.py:101-118 | the run in which a save read before a promotion takes the last owner away |
| `LastOwner.LastOwnerSurvives` | src/keyring_api/accounts/sql_store.py:395-416 | from an owned deployment or from nothing but invitations, every run of redemptions, role changes, saves of what an account still holds and deletions has an owner as soon as it has an account, and keeps one for good |
| `LastOwner.RacingFirstsBothOwn` | src/keyring_api/accounts/service.py:221-237 | two first redemptions that race each find no account and both become owners |
| `LastOwner.AtomicSavesAreFresh` | src/keyring_api/accounts/service.py:405-411 | saves closed to their reads write back only roles the account still has, whatever the deployment starts with |
| `LastOwner.LastOwnerSurvivesAtomically` | src/keyring_api/accounts/sql_store.py:395-416 | with such saves, the last owner survives with no premise about the run, the first account included |
| `LastOwner.AtomicSavesAreGuarded` | src/keyring_api/accounts/service.py:405-411 | from an owned deployment they meet the premise of non-escalation as well |
| `LastOwner.NobodyEscalatesAtomically` | src/keyring_api/admin/service.py:424-462 | with such saves, from an owned deployment, non-escalation with no premise about the run |
| `Delegation.DelegationService.Create` | src/keyring_api/credentials/delegation.py:75-116 | recorded if and only if the profile is there, the allowlist names every audience and fewer than the cap are live; then exactly as asked, ending at the earlier of what was asked and the longest allowed |
| `Delegation.DelegationService.CountLive` | src/keyring_api/profiles/sql_delegations.py:35-43 | counts exactly the unrevoked, unexpired grants of the profile |
| `Delegation.DelegationService.Revoke` | src/keyring_api/profiles/sql_delegations.py:74-80 | withdraws the owner's grant, keeping the first withdrawal's time, and nothing else |
| `Delegation.DelegationService.RevokeForService` | src/keyring_api/credentials/delegation.py:134-162 | a service withdraws only consent given to it |
| `Delegation.DelegationService.Exchange` | src/keyring_api/credentials/delegation.py:164-202 | mints if and only if exactly one of token and grant is given, it is good for that service and audience, its account is active and a whole second is asked for, allowed and left; one token is appended, for the longest time that is all three |
| `Delegation.MintedIff` | src/keyring_api/credentials/delegation.py:184-202 | when a token is minted, and that it lasts the most whole seconds asked for, allowed and left |
| `Delegation.PresentedIff` | src/keyring_api/credentials/delegation.py:173-183 | what an exchange accepts, and what it takes from it |
| `Delegation.ReportedIsCarried` | src/keyring_api/credentials/delegation.py:186-202 | the token's expiry is the reported one if and only if both clock readings fall in one second |
| `Delegation.MintedWithinDeadline` | src/keyring_api/accounts/signing.py:84-97 | a minted token lasts no longer than asked and allowed, is live when signed and overshoots its deadline by less than a second when signed within one; not at all when both readings share a second |
| `Delegation.WithinDeadlineIff` | src/keyring_api/credentials/delegation.py:187-194 | the exact condition for a minted token to end by its deadline, in how often the second turns between the readings |
| `Delegation.TurningSecondOutlives` | src/keyring_api/credentials/delegation.py:187-194 | one microsecond between the readings, and a token outlives its grant |
| `Exchanges.ChainsKeepAuthority` | src/keyring_api/credentials/delegation.py:164-202 | chains of any length, interleaved: the root's subject, live when signed, an audience the allowlist leads to, and no later expiry than the root token or grant while exchanges are prompt, and otherwise later by no more than the whole seconds the exchanges took |
| `Exchanges.LiveGrantsCapped` | src/keyring_api/profiles/sql_delegations.py:25-57 | over any run no profile ever has more live grants than its cap |
| `Exchanges.GrantsEndInTime` | src/keyring_api/credentials/delegation.py:100-115 | over every run, no grant created in it outlives its creation by more than the longest allowed |
| `Exchanges.WithdrawnForGood` | src/keyring_api/credentials/delegation.py:179-186 | from any state on, a withdrawn grant keeps its withdrawal unchanged and is never accepted again; every token still minted from it is an exchange that had read it before, each at most once |
| `Exchanges.WithdrawalIsFinalIff` | src/keyring_api/credentials/delegation.py:179-194 | no run after a withdrawal mints another token from the grant if and only if no exchange that had read it has any lifetime left |
| `Preferences.NeverWidened` | src/keyring_api/core/preferences.py:256-285 | whatever was chosen or answered, no longer lifetime, no later ceiling and no more sessions than the deployment's, and the ceiling is never below the idle time |
| `Preferences.ChoicesTakeEffect` | src/keyring_api/core/preferences.py:335-372 | days chosen are what the session gets, up to 90 idle and 365 in all, and up to 20 sessions, unless the deployment gives less; idle wins over a smaller ceiling |
| `Preferences.OtherwiseTheDeploymentStands` | src/keyring_api/core/preferences.py:213-246 | which answers refuse a request, and that a missing, unusable or unavailable entry leaves the deployment's value |
| `Preferences.ReauthNeverGuessed` | src/keyring_api/core/preferences.py:389-407 | re-authentication reads as off only on an answer that says so or has no such entry, or where no settings-api is used; as on only on an answer that says so |
| `Sessions.SessionStore.AddWithinCap` | src/keyring_api/accounts/sql_store.py:244-274 | stored and trimmed in one transaction: the account is left with its cap or one more than it had, nobody else loses any, no row changes, and how many went |
| `Sessions.SessionStore.GetByTokenHash` | src/keyring_api/accounts/sql_store.py:194-203 | finds a session exactly when it is there and neither deadline has passed |
| `Sessions.SessionStore.RevokeAll` | src/keyring_api/accounts/sql_store.py:222-226 | of the account only the kept session stays, everybody else's stay, all unchanged, and how many went |
| `Sessions.SessionStore.PurgeExpired` | src/keyring_api/accounts/sql_store.py:276-281 | no lookup from then on finds anything else than it would have, and nothing expired is left |
| `Sessions.TrimKeepsTheGreatest` | src/keyring_api/accounts/sql_store.py:267-272 | the account keeps exactly its `cap` greatest sessions by creation and id, unchanged, and no other account loses any |
| `Sessions.NewestSurvives` | src/keyring_api/accounts/sql_store.py:244-274 | a session newer than the account's others survives its own trim |
| `Sessions.ResolvesIffKeptUp` | src/keyring_api/domain/sessions.py:55-78 | over any sequence of attempts the next resolves if and only if no gap since creation reached the stamped idle time and the ceiling is ahead |
| `SessionRuns.SessionLife` | src/keyring_api/accounts/service.py:366-393 | with everything interleaved, a session nobody ended resolves exactly while its idle time since the last stored use and its ceiling are ahead, within the deployment's own deadlines |
| `SessionRuns.SessionsCapped` | src/keyring_api/accounts/service.py:325-348 | over any run no account holds more sessions than the deployment allows |
| `SessionRuns.EndedForGood` | src/keyring_api/accounts/sql_store.py:205-226 | an ended session never resolves again, not even through a use that was under way |
| `SessionRuns.NewPasswordEndsSessions` | src/keyring_api/accounts/service.py:594-616 | setting a password ends for good every earlier session of the account but the kept one, and leaves all others as they were |
| `SessionRuns.OldPasswordOpensNothingIff` | src/keyring_api/accounts/service.py:594-616 | over every run after a password is set and the sessions are ended, no session an older password opened resolves again, but the kept one, if and only if no login that judged an older password was still under way |
| `Grants.GrantStore.Redeem` | src/keyring_api/accounts/sql_store.py:313-329 | the conditional update: marks and returns the row exactly when it is unused, unrevoked and unexpired |
| `Grants.GrantStore.RevokeAllForAccount` | src/keyring_api/accounts/sql_store.py:331-335 | no grant of that account and purpose can be redeemed at any time any more, and every other row is exactly as it was |
| `Grants.RedeemedOnce` | src/keyring_api/accounts/sql_store.py:313-329 | over any interleaved run no grant is redeemed twice or past its deadline, and the table records each redemption |
| `Grants.WrongEndpointSpends` | src/keyring_api/accounts/service.py:692-702 | a token presented for the wrong purpose is refused and cannot be used anywhere afterwards |
| `Grants.NewPasswordEndsResets` | src/keyring_api/accounts/service.py:594-616 | after a password is set, no reset minted for that account before is ever redeemed |
| `Grants.OneLiveReset` | src/keyring_api/accounts/service.py:508-516 | while requests for one account keep apart, at most one of its resets is redeemable at any time |
| `Grants.OneLiveResetIff` | src/keyring_api/accounts/service.py:508-516 | whatever happens between a request's revocation and its new reset, the account ends with one live reset if and only if no other was added in between that has not been used or revoked since |
| `Grants.TwoRequestsTwoResets` | src/keyring_api/accounts/service.py:508-516 | two overlapping requests leave two live resets |
| `Lockout.GuessBound` | src/keyring_api/domain/accounts.py:142-165 | over every interleaved run whose tries find a lock that reaches, the n-th wrong password judged since the last success comes no earlier than the threshold-th plus (n - threshold) locks, whatever the clock |
| `Lockout.GuessBoundAlone` | src/keyring_api/accounts/service.py:271-295 | the same with no premise on locks, when no try reads the account while another request is about to save it |
| `Lockout.TryByTheAccount` | src/keyring_api/accounts/service.py:271-295 | each try by what the account holds: nothing while disabled or locked, one failure more and from the threshold on a lock for any other password than the account's, both cleared for that one |
| `Lockout.NextKeepsSpacingIff` | src/keyring_api/accounts/service.py:271-295 | from any state, no next try can be judged wrong too early if and only if there are fewer failures than the threshold, the account is disabled, or its stored lock lasts one lock past the last failure |
| `Lockout.LockEndsOnTime` | src/keyring_api/accounts/service.py:457-475 | the lock ends exactly one lock after the last wrong password judged, and attempts refused meanwhile change nothing |
| `Lockout.TwoAtOnceCountOnce` | src/keyring_api/accounts/service.py:271-295 | two wrong passwords against one read count once, so a third is judged too early |
| `Lockout.NewPasswordStandsIff` | src/keyring_api/accounts/sql_store.py:101-118 | a password stands over every run until another is set if and only if no save read before it is pending |
| `Accounts.AccountService.Login` | src/keyring_api/accounts/service.py:247-295 | a session if and only if the account is active and unlocked, the password is the one it has and its settings were answered; the right password clears failures and lock, any other adds a failure and from the threshold on a lock; the session's every deadline, and what the trim leaves |
| `Accounts.AccountService.ConfirmPassword` | src/keyring_api/accounts/service.py:439-475 | confirmed if and only if the account is active and unlocked and the password is the one it has; counts and clears as a login does |
| `Accounts.AccountService.ResolveSession` | src/keyring_api/accounts/service.py:366-393 | a live session of an active account, extended by its stamped idle time; an older one by the deployment's |
| `Accounts.AccountService.SetPassword` | src/keyring_api/accounts/service.py:594-616 | the new password, failures cleared, sessions and resets ended in one operation |
| `Accounts.AccountService.ChangePassword` | src/keyring_api/accounts/service.py:415-437 | only with the current password and an acceptable new one, locked or not; refused it changes nothing |
| `Accounts.AccountService.IssueReset` | src/keyring_api/accounts/service.py:508-516 | the older resets are revoked and the new one minted, or nothing changes |
| `Accounts.AccountService.RedeemPasswordReset` | src/keyring_api/accounts/service.py:563-592 | an unacceptable password leaves the token usable; anything after that spends it, and success ends every session |
| `Vault.CredentialService.PutRow` | src/keyring_api/profiles/sql_store.py:105-130 | the profile must exist and a new connection must fit under the cap; a replaced one keeps its creation time |
| `Vault.CredentialService.PutDirectCredential` | src/keyring_api/credentials/service.py:163-213 | stored exactly when the vault is not sealed, the profile is there and there is room: then both rows are there, the connection active and as old as the one it replaces; otherwise nothing is written |
| `Vault.CredentialService.BeginAuthorization` | src/keyring_api/credentials/service.py:243-263 | a working credential is left alone, otherwise a placeholder as old as what it replaces stands in its stead, and a profile that is missing or at its cap refuses with nothing written |
| `Vault.CredentialService.FinishAuthorization` | src/keyring_api/credentials/service.py:471-517 | stored exactly when the vault is not sealed, the profile is there and there is room: then the connection is active, without an error and for the answer's lifetime, and the secret is the one exchanged; otherwise nothing is written |
| `Vault.CredentialService.RenewAccess` | src/keyring_api/credentials/service.py:436-469 | a loaded OAuth credential the provider refuses, or that has no refresh token, is marked expired with the reason and keeps its secret; one it answers is active with no error for the answer's lifetime, and the vault holds the answer; anything else changes nothing |
| `Vault.CredentialService.Revoke` | src/keyring_api/credentials/service.py:369-384 | both rows of that key go, and no others |
| `Vault.CredentialService.RemoveProfile` | src/keyring_api/credentials/service.py:144-159 | the profile goes with its connections and secrets, and nothing else |
| `Vault.VaultAndConnectionsAgree` | src/keyring_api/credentials/service.py:195-213 | at every await point of every run whose operations keep off each other's keys, no vault row lacks a connection unless its profile is being deleted, and an idle key has its vault row whenever its connection was completed |
| `Vault.WholeKeepsAgreement` | src/keyring_api/credentials/service.py:394-417 | operations one after another keep every key in agreement, so between them the "missing from the vault" branch is never taken |
| `Overlaps.AnyTwoAgreeIff` | src/keyring_api/credentials/service.py:144-213 | for any two operations on one key, any order of their writes and any new profiles in between, the tables agree at the end if and only if the facts foretold of the key do |
| `Overlaps.StoreAndRevokeAgreeIff` | src/keyring_api/credentials/service.py:209-210 | one store and one revocation of a key, in every order of their writes, leave the tables agreeing if and only if one is over before the other writes; otherwise a secret without a connection |
| `Overlaps.FailureAndRevokeAgreeIff` | src/keyring_api/credentials/service.py:453-457 | a renewal that fails across a revocation, in every order, leaves the tables agreeing if and only if the failure is recorded before the connection goes or finds the profile full |
| `Overlaps.StoreAndDeleteAgreeIff` | src/keyring_api/credentials/service.py:148-154 | one store and one deletion of its profile, in every order and with a new profile at any moment or none: agreement if and only if the deletion does not run whole between the store's writes, nor the store whole inside the deletion into a new profile with room; otherwise which of the two rows is alone |
| `Overlaps.FailureAndDeleteAgreeIff` | src/keyring_api/credentials/service.py:519-525 | a renewal that fails across a deletion, in every order and with a new profile at any moment or none: agreement if and only if the failure is not recorded in the new profile |
| `Overlaps.FailedRenewalOutlivesRevoke` | src/keyring_api/credentials/service.py:519-525 | after a revocation, a failing renewal brings the connection back without its secret, and the "missing from the vault" answer is reached: the run |
| `Overlaps.StoreAcrossRevoke` | src/keyring_api/credentials/service.py:209-210 | a revocation between the two writes of a store leaves a secret without a connection: the run |
| `Overlaps.StoreAcrossDelete` | src/keyring_api/credentials/service.py:148-154 | a whole deletion between them leaves a secret in no profile at all: the run |
| `Overlaps.FailedRenewalOutlivesProfile` | src/keyring_api/credentials/service.py:519-525 | after a deletion and a new profile, a failing renewal reaches the "missing from the vault" answer: the run |
| `Vault.DeletingLeavesSecrets` | src/keyring_api/credentials/service.py:148-154 | deleting a profile passes through such a state, and its last write ends it |
| `Authorizations.OAuthStateStore.Redeem` | src/keyring_api/credentials/state.py:102-112 | a state is spent whatever comes of it, and answers only before its deadline |
| `Authorizations.OAuthStateStore.PurgeExpired` | src/keyring_api/credentials/state.py:114-121 | drops exactly the flows that are no longer live, and counts them |
| `Authorizations.ConsentsAreAccountedFor` | src/keyring_api/credentials/changes.py:150-183 | every credential a callback stored matches one consent let through when it began, for that account, profile and service, redeemed in time, and no two match the same |
| `Authorizations.PasswordStandsBehindChanges` | src/keyring_api/credentials/changes.py:216-246 | while re-authentication is on or unknown, every credential added, replaced or removed traces to the account's confirmed password and nothing a service asked for changed anything |
| `Authorizations.GoesOnIffAdmitted` | src/keyring_api/credentials/changes.py:216-246 | a request is let go on if and only if the settings, the requester and the password judged admit it, and then as it was asked |
| `Authorizations.UncheckedRemovesIff` | src/keyring_api/credentials/changes.py:197-214 | over any run in between, removing a profile that was found empty takes a credential if and only if one was stored there since and is still there; its record then names no password |
| `Authorizations.LateCredentialGoesUnchecked` | src/keyring_api/credentials/changes.py:203-209 | a credential stored in between goes without a password |
| `Changes.CredentialChanges.Admit` | src/keyring_api/credentials/changes.py:216-246 | admitted if and only if the settings were answered and it is an administrator, or the account's own password while it is active and unlocked, or no password where none is asked for; a wrong one counts toward the lock |
| `Changes.CredentialChanges.StoreDirect` | src/keyring_api/credentials/changes.py:120-148 | refused, no credential changes; admitted, the direct store and nothing else |
| `Changes.CredentialChanges.BeginAuthorization` | src/keyring_api/credentials/changes.py:150-168 | refused before a state is issued without admission, profile or provider; after it, one new flow bound to that key, a placeholder at most, and a refusal for a full profile; no secret changes |
| `Changes.CredentialChanges.CompleteAuthorization` | src/keyring_api/credentials/changes.py:170-183 | the state is spent in any case, and what is stored is for the key it was bound to |
| `Changes.CredentialChanges.RemoveConnection` | src/keyring_api/credentials/changes.py:185-195 | refused, nothing changes; admitted, both rows go |
| `Changes.CredentialChanges.RemoveProfile` | src/keyring_api/credentials/changes.py:197-214 | an empty profile goes unchecked and no account is touched; any other needs admission |
| `Stamps.TextOrderIsTime` | src/keyring_api/storage/times.py:27-40 | all stamps are 32 characters, and sort as text exactly as the instants on the calendar they stand for |
| `Stamps.WrittenAs` | src/keyring_api/storage/times.py:27-40 | the text itself, field by field and separator by separator |
| `Stamps.RoundTrip` | src/keyring_api/storage/times.py:43-45 | a stamp reads back as the datetime it was written from |
| `Stamps.ReadIsWritten` | src/keyring_api/storage/times.py:43-45 | what reads as a datetime is the very text that datetime is written as |
| `Stamps.InstantOrder` | src/keyring_api/storage/times.py:13-17 | field by field, calendar order is the order of instants, leap years included |
| `Stamps.NextDayIsOneLater` | src/keyring_api/storage/times.py:13-17 | the calendar counts days without a gap from year 1, with February's leap day in 2000 and not in 1900 |
| `Redaction.SensitiveIff` | src/keyring_api/core/logging.py:34-61 | a name is sensitive if and only if one of the thirteen markers is in it, however it is capitalised |
| `Redaction.CompoundsAreSensitive` | src/keyring_api/core/logging.py:34-61 | whatever a sensitive name is built into is sensitive, however it is capitalised |
| `Redaction.RecordLeafSurvivesIff` | src/keyring_api/core/logging.py:64-96 | a leaf stands in the redacted record if and only if it stood there before, under no sensitive field and within the depth limit |
| `Redaction.SecretsDoNotShow` | src/keyring_api/core/logging.py:64-96 | records that differ only under sensitive fields or past the depth limit redact to the same record |
| `Redaction.RedactingIsIdempotent` | src/keyring_api/core/logging.py:64-96 | redacting twice is redacting once |

## Left out

- `Jwks.FetchBound`: for requests made by `key_for`; `healthy()` does not look at the freshness window again once it holds the lock, and is not modelled.
- `Jwks.WithdrawnKeysDie`: the age is counted from the request, and a document just received is handed on whatever its request took, as the code does.
- `Renewal.EachTokenRenewedOnce`: a credential typed in over the OAuth one, a second process and a provider that repeats access tokens are not part of it.
- `NonEscalation.NobodyEscalates`: the break-glass token is not an actor, and for a reset the target has no save pending that gives it back a role it no longer holds.
- `LastOwner.LastOwnerSurvives`: for saves that write back roles the account still has; `AdminTables.SaveKeepsOwnerIff` is the exact condition for any other save.
- `Grants.OneLiveReset`: for requests that keep apart; `Grants.OneLiveResetIff` is the exact condition for any one of them.
- `AdminTables.AdminStore.SaveRow`: the names are those of an account value, which has none twice; the code drops repeats once more.
- `Lockout.GuessBound`: for `login` and `confirm_password`; changing a password neither checks the lock nor counts toward it.
- `Lockout.LockEndsOnTime`: for runs in which no try reads the account while another request is about to save it.
- `Exchanges.ChainsKeepAuthority`: the account's status is read in the same step as the token is minted; the code reads it one await earlier.
- `SessionRuns.OldPasswordOpensNothingIff`: passwords are told apart by how many were set before them; a pending save that brings an older one back is `Lockout.NewPasswordStandsIff`.
- `SessionRuns.SessionLife`: rows from before the idle time was stamped keep to the deployment's; for them only the bounds are stated.
- `Authorizations.PasswordStandsBehindChanges`: the removal of a profile that was found empty is the exception stated beside it.
- `Vault.VaultAndConnectionsAgree`: that operations on one key do not overlap is a premise, because the code puts no lock around them; `Overlaps.AnyTwoAgreeIff` and the lemmas after it say what two that overlap leave. Three or more that overlap are not stated.
- `Stamps.RoundTrip`: conversion from other zones to UTC, and the other forms Python's parser accepts, are not modelled; a naive datetime is refused as in the code.
- `Redaction.CompoundsAreSensitive`: lower-casing is that of ASCII letters.
- HTTP routers, schemas, middleware, the app factory and the container: plumbing over the services.
- Argon2, AES-GCM, RSA and JWT signing, SHA-256 and random tokens: foreign cryptography, taken as abstract.
- SQLite, the worker thread and its pragmas: each transaction or statement is one step; foreign keys do what the schema says.
- OAuth providers, settings-api, mail and the audit log: only their outcomes are parameters; notices and audit lines are not modelled.
- The password policy, address and name normalisation, and the provider table: their answers are parameters.
- Floating-point seconds: the limiter and the key cache use reals, everything else whole microseconds or seconds.
- Migrations, TOTP codes, API-key templates, health counts, the sites and scripts: easy, or input and output.
