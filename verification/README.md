# Verified model of an advertising agent

The repository runs an assistant that plans, creates and optimises advertising campaigns.  This project models the parts
of it whose correctness depends on several functions, or on whole runs, and proves what they keep.

| part | files |
|---|---|
| Refresh-token rotation on the server, and single-flight refresh in one browser tab | `RefreshTokens`, `RefreshTokenRuns`, `AuthService`, `BrowserTab`, `ApiClient`, `TabSession`, `TabCalls`, `TabReload`, `TabLosses` |
| Campaign creation: build, rollback, retry, blueprint status | `AdsAccounts`, `BuildSteps`, `CampaignBuilder`, `CampaignCreation`, `BlueprintRuns` |
| Budget safety: clamp, rounding, one engine run, many runs | `Rounding`, `SafetyEngine`, `OptimizationEngine`, `BudgetLoop` |
| Rate limiting: shared counter with an in-process fallback | `RateLimit`, `RateLimitBounds`, `RateLimitExact`, `RateLimiter` |
| Blueprint assembly: cleaning, joining, warnings | `Text`, `AdCleaning`, `CampaignAssembler` |
| Page text extraction | `TextExtractor`, `WebsiteParser` |
| Metric snapshots, the latest of each campaign, and their summary | `Snapshots`, `Analytics` |
| Organizations and member roles | `Memberships`, `OrganizationService` |

Where the source updates objects in place, a class does the same (`AuthService.Service`, `ApiClient.Browser`,
`CampaignBuilder.AdsApi`, `CampaignCreation.Service`, `OptimizationEngine.Platform` and `Engine`, `RateLimiter.Store` and
`Limiter`, `WebsiteParser.Extractor`, `Analytics.MetricTable`, `OrganizationService.Service`).  The methods of most of them
are proved equal to functions on values, and the results over runs are lemmas about those functions.  The campaign builder
and the service around it are proved against a relation between the calls they made, the platform before and after, and
the result: it says when a build succeeds, what it leaves, and which call explains a failure.

## How the environment enters

* A server request is one atomic transaction.  Clock readings and fresh ids are parameters of the event.  A refresh token
  that passes the signature check was signed by this server.  Password and Google checks are parameters.
* The tab is a machine whose steps are the stretches of code between two awaits, interleaved in any order with the
  network, with sign-ins of the same tab, and with requests of other sessions.  Requests that touch a family this tab
  holds (a logout, a reset, another holder of the token) are excluded.  One of two assumptions is made: answers that
  carry tokens are delivered (`Delivering`), or calls woken by a failed refresh go on before the next response is handled
  (`Prompt`, which is how promise callbacks are scheduled).  `LostAnswerThenResponseReuses` shows that one is needed,
  and `ReplayedIffLostIsServed` says without any assumption which runs reach the reuse branch.
* The ads platform is a state of budgets and campaigns; a campaign owns its criteria, groups and ads. Every call can
  fail, by an arbitrary schedule, with a retriable error, another error, or the end of the process; a failing creating
  or removing call has no effect. Results are stated by the calls that were made. Where removals are said to succeed,
  the process may still die before any of them. A budget update, pause or enabling may fail before or after taking
  effect. Executions are serial, and plannings, soft deletions of blueprints and refused requests may fall between an
  execution's two commits.
* Recommendations, metrics and agent outputs are arbitrary values.  Money is exact: reals for amounts that are not
  rounded yet, integers for cents and micros, with rounding half to even.
* Counter calls of the rate limiter fail by an arbitrary schedule, with or without taking effect; the exception reaches
  the caller at some later moment, if ever.  Time does not run backwards and a counter vanishes only at or after its
  expiry time.  Calls of all processes interleave between INCR, EXPIRE and the fallback.

## Where the code does not do what one might expect

* `backend/app/models/refresh_token.py:3-5` says that presenting a revoked token revokes the family.  The signature's
  expiry is checked first, so this holds exactly while the token is unexpired (`RevokedReplay`); a late replay leaves a
  session that still works (`ExpiredReplaySpares`).
* A page reload can end the session.  It does so for some continuation exactly when the stored token has been posted and
  its answer with a successor, or the request itself, is still travelling, and the token has not expired
  (`ReloadSurvivedIff`).
* The budget cap holds for a target exactly when a positive budget is stored for it: at `backend/app/services/safety.py:67`
  the `or` takes the model's own figure when the stored one is 0 or missing (`CapHoldsIffBudgetStored`).  The context is
  keyed by the printed campaign id while the client reads the target as a number; a campaign's band holds in every run
  over given target names exactly when no other of these names is read as its id (`BandHoldsIffSpelledAsKeyed`).
* Not every blueprint can be executed in the end.  One can still change its status exactly unless it is created, its
  execution was cut short after the first commit, or it is deleted as a draft or failure (`NeverMovesIffSettled`); a crash
  makes any planned blueprint stay `executing` for ever (`StuckIsReached`).
* A key that has reached its limit need not recover: when the EXPIRE after a counter's first INCR is lost and the counter
  is full, nothing gets through by the counter ever after, and only then (`LockedOutIff`, `LockOutIsReached`).
* A window can hold more than `times` calls as soon as there is a process and a positive limit (`ExceedsIffAnyone`); the
  exact bound is `(workers + 2) * times - 1` (`WindowBound`, `BoundIsReached`).
* The tail of a title that contains another title is taken for page text; `ExtractorReadsTree` gives the exact condition.
* The organization-wide query for the latest snapshots joins on the campaign id without the account.  It returns one row
  per campaign exactly when no campaign was written for two accounts on its largest day (`OneRowIffOneAccount`).
* An administrator may demote or remove another administrator (`AdminsMayUnseatAdmins`); only promotion is reserved to the
  owner.

## Model

| member | source | states |
|---|---|---|
| RefreshTokens.ServeKeepsInv | backend/app/services/auth.py:41-233 | Every request keeps each token family one chain through the replacement links, with one user, all but the last token revoked, and every signed token in agreement with its row |
| RefreshTokens.SignInKeepsInv | backend/app/services/auth.py:208-233 | A sign-in starts a new family with one token and leaves the others' chains |
| RefreshTokens.RotateKeepsInv | backend/app/services/auth.py:157-162 | Rotation keeps every family one chain |
| RefreshTokens.LogoutKeepsInv | backend/app/services/auth.py:195-205 | Logout keeps every family one chain, although it overwrites the successor of the record |
| RefreshTokens.OnlyRevokesKeepsChains | backend/app/repositories/refresh_token.py:27-43 | Bulk revocation keeps every family one chain |
| RefreshTokens.RotateExtendsChain | backend/app/services/auth.py:157-162 | Rotation appends the new token to the chain of the presented token's family |
| RefreshTokens.ActiveIsLast | backend/app/repositories/refresh_token.py:22-34 | An active token is the last of its family's chain and has no successor |
| RefreshTokenRuns.RunKeepsInv | backend/app/services/auth.py:41-233 | The chain invariant holds in every state of every serial run |
| RefreshTokenRuns.FamilyIsOneChain | backend/app/services/auth.py:133-163 | In every reachable state a family is one acyclic chain with one user and at most one active token, the newest |
| RefreshTokenRuns.AcceptedIffNewest | backend/app/services/auth.py:133-163 | A refresh succeeds exactly for the unrevoked, unexpired newest token of a usable account, and then extends the chain |
| RefreshTokenRuns.TokensComeFromSignIns | backend/app/services/auth.py:41-130 | Over every run, each token ever signed goes back to an answered registration, proven password sign-in or Google sign-in of its own account, which started its family |
| RefreshTokenRuns.SignInIsAnswered | backend/app/services/auth.py:41-130 | A sign-in gets tokens if and only if the account is new, or is known, active and proven; each refusal has its own condition; the tokens last thirty days and start a new family |
| RefreshTokenRuns.RefreshIsAnswered | backend/app/services/auth.py:133-163 | In every run each answer to a refresh has its own exact condition, and an accepted one gives a thirty-day token of the same account and family that the presented one points to |
| RefreshTokenRuns.RequestEndsTokens | backend/app/services/auth.py:133-205 | A request ends exactly the active tokens it is about - the exchanged one, a replayed family, a logged-out one, or an account's - notes when, and leaves every other row as it was |
| RefreshTokenRuns.AccountsAfter | backend/app/services/auth.py:41-130 | Accounts appear active by registration or a first Google sign-in, and no request but switching changes one |
| RefreshTokenRuns.OthersAreAnswered | backend/app/services/auth.py:175-205 | A reset is refused exactly for an unusable account; a logout is never refused |
| RefreshTokenRuns.RevokedRowsAreFrozen | backend/app/repositories/refresh_token.py:22-43 | A revoked row never changes again, so its revocation time and successor are written at most once |
| RefreshTokenRuns.AcceptedAtMostOnce | backend/app/services/auth.py:140-161 | Over a whole run a refresh token is accepted at most once |
| RefreshTokenRuns.DeadFamilyStaysDead | backend/app/services/auth.py:140-205 | A family without an active token never changes again: no active and no new token |
| RefreshTokenRuns.RevokedReplay | backend/app/services/auth.py:134-148 | Presenting a revoked token, whatever revoked it, is answered as reuse exactly while it is unexpired, and then its family is dead for the rest of the run; an expired replay changes nothing |
| RefreshTokenRuns.ReplayKillsFamilyForever | backend/app/services/auth.py:134-161 | The same for every token that was accepted earlier in the run |
| RefreshTokenRuns.ExpiredReplaySpares | backend/app/services/auth.py:134-148 | There is a run in which a late replay of an exchanged token is refused as expired and the session's newest token is accepted afterwards |
| RefreshTokenRuns.ResetEndsEverySession | backend/app/services/auth.py:175-193 | After a password reset every family the account had is dead for the rest of the run |
| RefreshTokenRuns.LogoutEndsSession | backend/app/services/auth.py:195-205 | After a logout with the active token its family is dead for the rest of the run |
| RefreshTokenRuns.OtherSessionsUntouched | backend/app/services/auth.py:133-205 | A request about another session leaves a family's rows exactly as they were |
| AuthService.Service.Revoke | backend/app/repositories/refresh_token.py:22-25 | Sets revocation time and successor of one record and of no other |
| AuthService.Service.RevokeActiveInFamily | backend/app/repositories/refresh_token.py:27-34 | Revokes exactly the active records of a family |
| AuthService.Service.RevokeActiveForUser | backend/app/repositories/refresh_token.py:36-43 | Revokes exactly the active records of a user |
| AuthService.Service.IssueToken | backend/app/services/auth.py:208-233 | Adds one fresh record and signs the token that matches it |
| AuthService.Service.Register | backend/app/services/auth.py:41-65 | The objects end as the specified outcome of the request, and the reply is that outcome's |
| AuthService.Service.Login | backend/app/services/auth.py:67-87 | As above, for a password sign-in with its three refusals |
| AuthService.Service.AuthenticateGoogle | backend/app/services/auth.py:90-130 | As above, for a Google sign-in that may create the account |
| AuthService.Service.Refresh | backend/app/services/auth.py:133-163 | As above, for a refresh: each refusal in its order, the reuse branch, and rotation |
| AuthService.Service.ResetPassword | backend/app/services/auth.py:175-193 | As above, for a password reset |
| AuthService.Service.Logout | backend/app/services/auth.py:195-205 | As above, for a logout |
| ApiClient.Browser.AttemptRefresh | frontend/src/lib/api.ts:27-50 | Joins the refresh in flight or starts one, as the tab machine's step does |
| ApiClient.Browser.OnResponse | frontend/src/lib/api.ts:77-90 | A 401 on a first fetch awaits a refresh, anything else finishes the call, as the tab machine's step does |
| ApiClient.Browser.OnRefreshAnswer | frontend/src/lib/api.ts:38-46 | Stores an accepted pair, records the result and clears the shared promise |
| ApiClient.Browser.ResumeCall | frontend/src/lib/api.ts:85-88 | Fetches once more after a successful refresh, clears the tokens after a failed one |
| ApiClient.Browser.SetTokens | frontend/src/lib/tokens.ts:15-19 | Replaces both stored tokens |
| ApiClient.Browser.ClearTokens | frontend/src/lib/tokens.ts:21-25 | Removes both stored tokens |
| TabSession.StepKeepsInv | frontend/src/lib/api.ts:25-93 | Every step of tab, network and server keeps the joint invariant, under either assumption |
| TabSession.TraceKeepsInv | frontend/src/lib/api.ts:25-93 | The joint invariant holds after any interleaving that starts at a page load |
| TabSession.ReuseNeverReached | backend/app/services/auth.py:140-148 | In every interleaving of any number of calls of one tab the server's reuse branch is never reached by this tab's refreshes |
| TabSession.OneRefreshTwoFetches | frontend/src/lib/api.ts:25-93 | At most one refresh is in flight, exactly while the shared promise is set, and no call fetches more than twice |
| TabCalls.RetriedIffRefreshed | frontend/src/lib/api.ts:84-88 | Over every interleaving, a call that got its first 401 waits for the refresh it was told to await, is fetched again exactly if that refresh brought tokens, and gives up exactly if it did not |
| TabCalls.ResultIsAnswer | frontend/src/lib/api.ts:33-46 | A refresh has a good result if and only if an answer with tokens was delivered for it |
| TabCalls.UnauthorizedWaits | frontend/src/lib/api.ts:27-50 | A first 401 makes the call await the pending refresh, or a new one that posts the stored token, or nothing when there is no token |
| TabCalls.ResponseFinishes | frontend/src/lib/api.ts:84-93 | Any other response ends the call and starts no refresh |
| TabCalls.AnswerIsStored | frontend/src/lib/api.ts:38-46 | An answer with tokens replaces both stored tokens, any other leaves them, and either clears the shared promise |
| TabCalls.GivingUpSignsOut | frontend/src/lib/api.ts:85-88 | A call that gives up removes both stored tokens; one that is retried keeps them |
| TabSession.StoredSessionIsAlive | frontend/src/lib/api.ts:27-50 | While no refresh is in flight the stored token is active, and the stored session is alive at any time |
| TabSession.ServeFlightKeepsInv | backend/app/services/auth.py:133-163 | Serving this tab's refresh keeps the invariant and is not taken for reuse |
| TabSession.OneLiveToken | backend/app/services/auth.py:157-162 | A family has at most one live token |
| TabSession.LiveRefresh | backend/app/services/auth.py:133-163 | Refreshing a live token is not reuse, revokes no other live token, and gives a live token of the same family or changes nothing |
| TabSession.OthersKeepInv | backend/app/services/auth.py:133-205 | Requests of other sessions keep the joint invariant |
| TabSession.RespondKeepsInv | frontend/src/lib/api.ts:77-90 | Handling a response keeps the joint invariant |
| TabSession.SettleKeepsInv | frontend/src/lib/api.ts:38-46 | Handling a refresh answer keeps the joint invariant |
| TabSession.ResumeKeepsInv | frontend/src/lib/api.ts:85-88 | Continuing a waiting call keeps the joint invariant |
| TabSession.ExchangedTokenReused | backend/app/services/auth.py:140-148 | Posting an exchanged, unexpired token is reuse and ends its session |
| TabReload.ReloadSurvivedIff | frontend/src/lib/api.ts:25-50 | After a reload, with requests of the old page still travelling and time passing, no refresh is ever taken for a replay if and only if no flight carries the unexpired stored token with its request, or its answer with a successor, under way |
| TabReload.CourseKeepsInv | frontend/src/lib/api.ts:25-50 | In every course after a reload that survives, the joint invariant holds and the old page's requests concern other sessions |
| TabReload.ExchangeIsReached | frontend/src/lib/api.ts:27-50 | Both kinds of losing moment are reached from a page load, with a second call pending: the refresh travelling and its answer travelling |
| TabReload.ReloadLosesSession | backend/app/services/auth.py:140-148 | After a reload before the answer is stored, the next 401 leads to the reuse branch and the whole family is dead |
| TabSession.LostAnswerThenResponseReuses | frontend/src/lib/api.ts:84-88 | With neither assumption the reuse branch is reached: a lost answer followed by another 401 |
| TabLosses.LossyTraceKeepsInv | frontend/src/lib/api.ts:25-93 | On any network, until a first replay the joint invariant holds with the tokens whose successor was lost set apart, and each of these is revoked |
| TabLosses.FirstReplayIff | backend/app/services/auth.py:134-148 | While nothing was taken for a replay, serving a refresh of the tab is taken for one if and only if its token is unexpired and an answer with its successor was lost earlier in the run |
| TabLosses.ReplayedIffLostIsServed | backend/app/services/auth.py:134-148 | A run on any network, with calls woken in any order, reaches the reuse branch if and only if it serves a refresh with an unexpired token whose answer with a successor was lost before |
| CampaignBuilder.AdsApi.Set | backend/app/integrations/google_ads/client.py:208-342 | Every change of the platform goes through here and records whether each campaign has its budget afterwards |
| CampaignBuilder.AddKeywords | backend/app/integrations/google_ads/client.py:281-299 | All keywords of a plan are added in one call exactly if they are complete and it works; otherwise the account is unchanged and the fault is that call's or the missing entry |
| CampaignBuilder.FillGroup | backend/app/integrations/google_ads/client.py:273-279 | Keywords, negatives and ad of a group just created; succeeds exactly if the plan is complete and no call failed |
| CampaignBuilder.BuildAdGroup | backend/app/integrations/google_ads/client.py:260-279 | Appends exactly the described group with its steps, exactly if the plan is complete and no call failed; otherwise at most the campaign's groups differ |
| CampaignBuilder.BuildAdGroups | backend/app/integrations/google_ads/client.py:196-197 | Yields the described groups in order with their steps, exactly if all plans are complete and no call failed |
| CampaignBuilder.AddCampaignNegatives | backend/app/integrations/google_ads/client.py:241-258 | All negatives are added in one call, or none when there are none, with one step each |
| CampaignBuilder.SucceedsIff | backend/app/integrations/google_ads/client.py:180-204 | An explained outcome is a success exactly if nothing was missing and none of its calls failed, and a reported death is that of a call |
| CampaignBuilder.Construct | backend/app/integrations/google_ads/client.py:180-204 | Whatever the result, its calls explain it, exactly the reported budget and campaign are new, the campaign uses that budget, and success means the described campaign and the exact step list |
| CampaignBuilder.Rollback | backend/app/integrations/google_ads/client.py:345-362 | Removes the campaign first and then the budget, stopping silently at the first failing call: how far it got, how many calls it made and whether the process died follow from the schedule of removals |
| CampaignBuilder.RollbackEnds | backend/app/integrations/google_ads/client.py:345-362 | A rollback is complete when none of its calls failed, and reports a death only if one of them was |
| CampaignBuilder.CleanUp | backend/app/integrations/google_ads/client.py:205-207 | After a failed construction: if no removing call failed the resources are as before and the construction's fault is reported; in any case at most one budget and no more campaigns than budgets are left |
| CampaignBuilder.RollbackLeavesLittle | backend/app/integrations/google_ads/client.py:345-362 | Wherever a rollback stops, everything older is intact, a leftover campaign still has its budget, and a complete one leaves nothing |
| CampaignBuilder.BuildPromises | backend/app/integrations/google_ads/client.py:166-207 | A build succeeds if and only if the structure is complete and no call failed; if it fails without a death among its calls and no removing call failed, the resources are as before; a death is reported only if some call was one |
| CampaignBuilder.BuildFullCampaign | backend/app/integrations/google_ads/client.py:166-207 | All or nothing for every structure and schedule of failures: exactly one budget and the described campaign, which reads back as asked (paused or not included), with the exact step list, or a rollback unless the process died; at most one budget and no more campaigns than budgets are left, and at no moment was a campaign without its budget |
| AdsAccounts.GainedReadsBack | backend/app/integrations/google_ads/client.py:180-342 | What a successful build created reads back as asked, entry by entry: account, paused or not, name, budget to half a micro, negatives in order, and for each group name, keyword texts with match types, negatives and the ad's address, texts and paths |
| BuildSteps.StepsAccountForCampaign | backend/app/integrations/google_ads/client.py:180-197 | The reported steps account for every budget, campaign, negative, group, keyword and ad of the campaign, and for no other |
| BuildSteps.StepsComeInOrder | backend/app/integrations/google_ads/client.py:180-279 | The steps report the budget first, then the campaign, its negatives, and group by group the group, its keywords, its negatives and its ad |
| CampaignCreation.GatheredAgain | backend/app/services/campaign_creation.py:363-379 | One more attempt adds what it gained itself to what earlier ones left |
| CampaignCreation.BuildWithRetry | backend/app/services/campaign_creation.py:363-379 | Attempts begin at the calls `starts`, of which there are as many as attempts and at most three; each attempt but the last ended with a call that raised a retriable fault, and the last by success, another fault, a missing entry or death as its own calls say, or it was the third; leftover campaigns <= leftover budgets <= attempts; all or nothing when removals work and the process lives |
| CampaignCreation.EndPromises | backend/app/services/campaign_creation.py:363-379 | A build completes if and only if nothing is missing and no call of its last attempt failed, with no failing call at all it is tried once, and only a call that kills the process cuts it short |
| CampaignCreation.StartsAreFixed | backend/app/services/campaign_creation.py:363-379 | The calls that were made can be cut into attempts in one way only, so the schedule fixes how often a build is tried |
| CampaignCreation.Service.FindCreatedDuplicate | backend/app/repositories/campaign.py:93-104 | True exactly when a created blueprint has that organization, account and name |
| CampaignCreation.Service.Build | backend/app/services/campaign_creation.py:309-316 | The attempts and the outcome of a build as its calls explain them; failed only by a third retriable fault, another fault or a missing entry; never cut short if no call kills the process; at most three budgets and no more campaigns than budgets are gained |
| CampaignCreation.Service.BuildAndRecord | backend/app/services/campaign_creation.py:309-357 | The recorded status is the build's outcome if the last commit takes effect and executing otherwise; with that commit and a process that lives it is created or failed |
| CampaignCreation.Service.ExecuteBlueprint | backend/app/services/campaign_creation.py:278-361 | One execution, cut short anywhere including inside a rollback, is a specified execution; a blueprint that passes the checks ends as not started, cut short, or with its build's outcome exactly by which commits take effect; at no moment was a campaign without its budget |
| CampaignCreation.StoredBlueprintCompletes | backend/app/services/campaign_creation.py:206-227 | A stored blueprint that gets built becomes a campaign if and only if no call of the last attempt failed, and at the first attempt if no call failed at all |
| BlueprintRuns.ExecutionIsSteps | backend/app/services/campaign_creation.py:288-357 | An execution is a refusal, or nothing, or the first commit followed by the end of the execution |
| BlueprintRuns.ExecutionKeepsInv | backend/app/services/campaign_creation.py:288-357 | An execution keeps: drafts and failures own no campaign, interrupted ones at most one, created ones exactly the described one |
| BlueprintRuns.StepKeepsRecords | backend/app/services/campaign_creation.py:288-357 | Whatever rollbacks do, every step keeps created rows truthful (recorded campaign, described contents and budget) and alone in their organization, account and name |
| BlueprintRuns.StepKeepsInv | backend/app/services/campaign_creation.py:288-357 | Every step of a run, the first commit and the end of an execution apart, keeps what each status says about owned campaigns |
| BlueprintRuns.HistoryKeepsRecords | backend/app/services/campaign_creation.py:278-361 | Created rows are truthful and unique in every state of every serial run, whatever rollbacks do |
| BlueprintRuns.HistoryKeepsInv | backend/app/services/campaign_creation.py:278-361 | That invariant holds in every state of every serial run of plannings and executions |
| BlueprintRuns.OneCampaignPerBlueprint | backend/app/services/campaign_creation.py:288-333 | Over any serial run with crashes anywhere, inside rollbacks too, a blueprint accounts for at most one campaign in all accounts, and for exactly its recorded one when created |
| BlueprintRuns.OwnedIsBounded | backend/app/services/campaign_creation.py:363-379 | Over any serial run, whatever removals do, a blueprint owns at most three campaigns for each of its executions that ended, each of which gained what `CampaignCreation.Service.ExecuteBlueprint` says |
| BlueprintRuns.StatusOnlyMovesForward | backend/app/services/campaign_creation.py:291-357 | In every step a row is unchanged or deleted, or moves from draft or failed to executing at the first commit, or from executing to created or failed at the end |
| BlueprintRuns.SettledBlueprintsAreFrozen | backend/app/services/campaign_creation.py:291-292 | Over whole runs a created blueprint, or an executing one whose execution was cut short, never changes but for its deletion |
| BlueprintRuns.NeverMovesIffSettled | backend/app/services/campaign_creation.py:288-307 | From every reachable state, no continuation changes a blueprint's status if and only if it is created, was cut short, or is a deleted draft or failure |
| BlueprintRuns.BudgetsAreAllowed | backend/app/services/campaign_creation.py:381-389 | In every state of every run the stored budget of every blueprint passes the check before execution |
| BlueprintRuns.UnsettledMoves | backend/app/services/campaign_creation.py:305-314 | From every other state some continuation does |
| BlueprintRuns.StuckIsReached | backend/app/services/campaign_creation.py:305-307 | Every planned blueprint is left executing for ever by some run with one crash |
| BlueprintRuns.CreatedBlueprintsDiffer | backend/app/repositories/campaign.py:93-104 | Over any serial run, whatever rollbacks do, two created blueprints differ in organization, account or campaign name |
| BlueprintRuns.OnlyOwnersExecute | backend/app/services/campaign_creation.py:288-307 | Over any run a blueprint's row (but for deletion) and campaigns change only in a step of an execution that its own organization requested for it |
| BlueprintRuns.StartedByOwner | backend/app/repositories/campaign.py:79-91 | A request is answered not found exactly if the blueprint is missing, deleted or of another organization; one that starts has a budget of at most 1000 units |
| BlueprintRuns.ForeignExecutionIsRefused | backend/app/services/campaign_creation.py:288-290 | An execution asked for by another organization is answered not found and changes nothing |
| BlueprintRuns.RequestIsAnswered | backend/app/services/campaign_creation.py:288-303 | In every state of every run a request for an own blueprint is busy exactly if that is created or executing, a duplicate exactly if another created one has the organization, account and name, and starts otherwise |
| BlueprintRuns.CompletedReadsBack | backend/app/services/campaign_creation.py:278-357 | A completed execution leaves the campaign its request asked for: account, paused or not, and the blueprint's entries |
| BlueprintRuns.NoCampaignWithoutBudget | backend/app/integrations/google_ads/client.py:345-362 | In every state of every run, with rollbacks failing anywhere, no campaign exists without its budget; for the moments within an execution see `CampaignCreation.Service.ExecuteBlueprint` |
| BlueprintRuns.PlannedBudgetIsExecutable | backend/app/services/campaign_creation.py:449-454 | The planned budget is between 1 and the cap, at most max(1, user budget), passes the check before execution, and keeps those limits as micros |
| BlueprintRuns.PlannedBudgetIsNearest | backend/app/services/campaign_creation.py:449-454 | The planned budget is the amount nearest to the recommended one between one unit and the smaller of the cap and the user's limit |
| BlueprintRuns.CreatedCampaignsRespectCap | backend/app/services/campaign_creation.py:381-389 | Over any serial run, whatever rollbacks do, a created blueprint records a campaign whose platform budget is between 1 and 1000 units a day |
| Rounding.RoundIsNearest | backend/app/services/safety.py:71-79 | Rounding picks a nearest integer and the even one of two |
| Rounding.CentsSurviveMicros | backend/app/integrations/google_ads/mappers.py:23-40 | An amount in cents sent as micros and read back is the same amount |
| SafetyEngine.ClampIsProjection | backend/app/services/safety.py:61-64 | The clamp is the point of the allowed band nearest to the proposal |
| SafetyEngine.ApprovedIffPermitted | backend/app/services/safety.py:45-109 | A recommendation is approved if and only if the policy permits it, kind by kind (confidence, known figures, clicks, days); an amount is then a rounding of the allowed amount nearest to the proposal, within the budget or the bid limits |
| SafetyEngine.ApprovedBudgetInBand | backend/app/services/safety.py:66-87 | An approved budget for a target with a positive stored budget lies between the rounded ends of its band |
| SafetyEngine.CapHoldsIffBudgetStored | backend/app/services/safety.py:66-79 | The band holds for every recommendation for a target if and only if a positive budget is stored for it |
| SafetyEngine.TighterClampIsCloser | backend/app/services/safety.py:61-64 | A tighter clamp's result lies between the current value and a looser clamp's |
| SafetyEngine.TighterAmountIsCloser | backend/app/services/safety.py:66-100 | Under smaller caps an amount is approved only if it is under larger ones, and is rounded to no farther from the current value |
| SafetyEngine.TighteningIsMonotone | backend/app/services/safety.py:43-117 | A tighter policy approves nothing a looser one rejects and moves no amount further from the current value, rounding included |
| OptimizationEngine.Platform.UpdateBudget | backend/app/integrations/google_ads/client.py:137-164 | A budget update changes at most the budget of the campaign the target reads as, to exactly the sent amount, and returns exactly when the call works and the campaign is there |
| OptimizationEngine.Engine.Execute | backend/app/services/optimization_engine.py:214-232 | A tool is called exactly for budget, pause and enable decisions; the status is executed exactly when the call returned, failed when it raised, pending without a call |
| OptimizationEngine.Engine.Process | backend/app/services/optimization_engine.py:164-212 | One decision changes platform, log and notifications as the specified step does |
| OptimizationEngine.RunAddsUp | backend/app/services/optimization_engine.py:78-132 | After any decisions the calls are those they ask for, counts and notifications match the log, and each budget is as before or an amount sent to it |
| OptimizationEngine.RowsAreTruthful | backend/app/services/optimization_engine.py:187-208 | One row per decision in order, with the budget known before; the call made is the one its kind names, for its target and amount; executed exactly when its call was made and returned, and then the addressed campaign got exactly the amount; failed exactly when its call raised; otherwise nothing was called or changed |
| OptimizationEngine.RunServesAsLogged | backend/app/services/optimization_engine.py:210-232 | After any run a campaign is paused or enabled as the last executed row about it says, unless a later one failed; without such a row nothing changed |
| OptimizationEngine.Engine.Run | backend/app/services/optimization_engine.py:78-132 | A completed run leaves the specified state: truthful rows in order, counts and notifications that match them, exactly the calls the decisions ask for, no budget changed except to an amount sent to it, and every campaign paused or enabled as the log says |
| OptimizationEngine.CountsAddUp | backend/app/services/optimization_engine.py:78-132 | Applied, pending, rejected and failed add up to the number of log rows |
| OptimizationEngine.NotesAreCounted | backend/app/services/optimization_engine.py:234-255 | Info and critical notifications are as many as executed and failed rows |
| BudgetLoop.ContextKnowsBudgets | backend/app/services/optimization_engine.py:83-110 | Every campaign with metrics is a context key with the budget read back from the platform |
| BudgetLoop.ContextIsLastMetric | backend/app/services/optimization_engine.py:83-99 | A target is known exactly if it has metrics, with the clicks of the last ones, the budget read back or zero, and no bid or age |
| BudgetLoop.SentAmountsInBand | backend/app/services/optimization_engine.py:84-132 | However many recommendations and failures a run has, every amount sent for a protected campaign lies in its one-run band |
| BudgetLoop.RunStaysInBand | backend/app/services/optimization_engine.py:84-132 | One run leaves a protected campaign's budget as it was or inside the band |
| BudgetLoop.RunMovesWithin | backend/app/services/optimization_engine.py:84-132 | One run multiplies a protected budget in cents by a factor between the caps, up to half a cent of rounding |
| BudgetLoop.CompoundMoves | backend/app/services/safety.py:61-79 | Any sequence of such moves stays within the compounded bounds |
| BudgetLoop.CompoundedBounds | backend/app/services/safety.py:61-79 | After n runs the budget in cents is within the compounded caps plus and minus half the geometric sum of the roundings |
| BudgetLoop.BandHoldsIffSpelledAsKeyed | backend/app/integrations/google_ads/client.py:149-161 | No run whose recommendations use given names, and that sees metrics and a positive budget of a campaign, takes the budget out of its band, if and only if no given name but the printed id is read as it |
| BudgetLoop.MisspelledRun | backend/app/services/optimization_engine.py:100-111 | With another spelling one recommendation takes the campaign's budget from one cent to seven units |
| BudgetLoop.UnkeyedSpellingEscapesCap | backend/app/services/safety.py:66-79 | For a target that is no context key, a recommendation to keep any claimed amount is sent at that amount |
| BudgetLoop.Optimize | backend/app/services/optimization_engine.py:78-132 | Reading budgets back, evaluating and executing leaves the state of a specified run, which is a completed run in the sense of the bounds above |
| RateLimit.CallIsItsSteps | backend/app/core/rate_limit.py:53-75 | An undisturbed call's interleaving steps change counter and window, and admit, just as the call does |
| RateLimitExact.FirstCallsGetThrough | backend/app/core/rate_limit.py:60-67 | While the counter lives and no call on it is lost, exactly the first `times` calls get through |
| RateLimitExact.CounterCountsCalls | backend/app/core/rate_limit.py:60-67 | The counter counts the calls of its life, which ends one window length after the first |
| RateLimitExact.NewLifeStartsOver | backend/app/core/rate_limit.py:60-67 | A call that finds the counter gone starts a new life as its first call |
| RateLimitExact.FallbackAllowsIffFewRecent | backend/app/core/rate_limit.py:53-75 | When a call on the counter raises, the call gets through exactly if fewer than `times` calls of the bucket are recent |
| RateLimitExact.FallbackStepDecides | backend/app/core/rate_limit.py:69-75 | In every reachable state a process falling back lets a call through exactly if fewer than `times` of all the calls it was ever asked are recent |
| RateLimitExact.CounterStepDecides | backend/app/core/rate_limit.py:60-67 | A step of the counter lets a call through exactly if it is at most the `times`-th of the life, and sets the expiry one window length ahead |
| RateLimiter.Limiter.AllowedMemory | backend/app/core/rate_limit.py:69-75 | The bucket becomes the calls inside the window plus this one, and the decision is its size against the limit |
| RateLimiter.Limiter.AllowedRedis | backend/app/core/rate_limit.py:60-67 | Counter and answer after INCR and EXPIRE, for every way either can fail; other keys are untouched |
| RateLimiter.Limiter.Allowed | backend/app/core/rate_limit.py:53-58 | The counter decides unless a call on it raised; then the process's own window does; other keys are untouched |
| RateLimitBounds.LivesStep | backend/app/core/rate_limit.py:60-67 | Every step keeps: each life of the counter admits one first call and at most times - 1 later ones |
| RateLimitBounds.TimesStep | backend/app/core/rate_limit.py:60-67 | Every step keeps: admissions two lives apart, or after a life's first admission, are a window length apart |
| RateLimitBounds.LocalStep | backend/app/core/rate_limit.py:53-75 | Every step keeps, for each process: its bucket is its filtered history and any window holds at most times of its own admissions |
| RateLimitBounds.TraceInv | backend/app/core/rate_limit.py:53-75 | The three invariants hold in every reachable state |
| RateLimitBounds.BucketIsFilteredHistory | backend/app/core/rate_limit.py:70-74 | Pruning a pruned bucket gives the whole history filtered to the new window |
| RateLimitBounds.BucketsAreFilteredHistories | backend/app/core/rate_limit.py:69-75 | In every reachable state each process's bucket is its whole call history filtered to the last window |
| RateLimitBounds.SharedWindowBound | backend/app/core/rate_limit.py:60-67 | Any window holds at most 2 * times - 1 admissions by the counter |
| RateLimitBounds.WindowBound | backend/app/core/rate_limit.py:53-75 | With W processes, in every interleaving with any failures, any window admits at most (W + 2) * times - 1 calls per key, and none if times is not positive |
| RateLimitBounds.BoundIsReached | backend/app/core/rate_limit.py:53-75 | For every positive limit and window and every number of processes but none, some run fills a window with exactly (W + 2) * times - 1 calls |
| RateLimitBounds.ExceedsIffAnyone | backend/app/core/rate_limit.py:32-32 | No window of any run holds more than times calls if and only if there is no process or times is not positive |
| RateLimitBounds.LockedOutIff | backend/app/core/rate_limit.py:60-67 | From a reachable state no continuation is let through by the counter if and only if there is no process, times is not positive, or the counter is full, has no expiry time and no call is about to set one |
| RateLimitBounds.LockOutIsReached | backend/app/core/rate_limit.py:64-67 | Such a locked-out state is reached by losing one EXPIRE, for every limit |
| RateLimitBounds.SomeoneGetsThrough | backend/app/core/rate_limit.py:60-67 | From every other reachable state some continuation is let through by the counter |
| RateLimitBounds.OrphanedKeyIsLockedOut | backend/app/core/rate_limit.py:64-67 | After a lost EXPIRE a full counter admits nothing in any continuation; only in-process admissions remain |
| Text.StripCuts | backend/app/services/campaign_assembler.py:29-29 | Stripping cuts white space off both ends and nothing else |
| Text.JoinInParts | backend/app/integrations/website.py:57-58 | Joining two lists of texts keeps texts and order with one separator between them |
| Text.JoinOfOne | backend/app/integrations/website.py:57-58 | No text joins to nothing and one text to itself |
| AdCleaning.Clean | backend/app/services/campaign_assembler.py:25-39 | The loop returns the first texts, up to the limit, of the first occurrences of valid stripped items |
| AdCleaning.CleanedIsValid | backend/app/services/campaign_assembler.py:25-39 | The result is trimmed, within length, distinct under case folding, and as long as the number of distinct valid texts and the limit permit |
| AdCleaning.CleanedPicksFirsts | backend/app/services/campaign_assembler.py:25-39 | The result is, in order, the stripped text of every item that is valid and the first of its key, as many as there is room for |
| AdCleaning.CleanedTwice | backend/app/services/campaign_assembler.py:25-39 | Cleaning is idempotent |
| CampaignAssembler.JoinIsLastWins | backend/app/services/campaign_assembler.py:49-56 | The join finds the last record of a group's name, and none exactly when there is none |
| CampaignAssembler.GroupIsJoined | backend/app/services/campaign_assembler.py:54-94 | A joined group has the keywords and negatives of the last keyword record of its name and the cleaned ad of the last creative, and nothing where there is none |
| CampaignAssembler.WarningsSayWhatLacks | backend/app/services/campaign_assembler.py:59-85 | Each warning is present exactly if the group lacks what it names |
| CampaignAssembler.WarningsAreOfGroups | backend/app/services/campaign_assembler.py:54-94 | The blueprint's warnings are those of its groups |
| CampaignAssembler.AssembleGroup | backend/app/services/campaign_assembler.py:54-94 | One planned group is joined with its cleaned ad and keywords, and the warnings added are those of the resulting group |
| CampaignAssembler.AssembleBlueprint | backend/app/services/campaign_assembler.py:42-108 | The groups are the planned ones in order, each joined, and the warnings are those of the groups in order |
| CampaignAssembler.GroupVerdict | backend/app/services/campaign_assembler.py:54-94 | A group has no warning exactly when it is publishable, and exactly when the agents supplied enough for it |
| CampaignAssembler.AdVerdict | backend/app/services/campaign_assembler.py:59-79 | A cleaned ad is clean, distinct and within the upper limits, and reaches the lower ones exactly when enough distinct valid texts were supplied |
| CampaignAssembler.WarningsAreAValidator | backend/app/services/campaign_assembler.py:42-108 | A blueprint has no warnings if and only if every ad group of the campaign the builder would create has keywords and one ad with 3-15 headlines of at most 30 and 2-4 descriptions of at most 90 characters, distinct under case folding; and if and only if the agents supplied enough |
| CampaignAssembler.StoredIsComplete | backend/app/integrations/google_ads/client.py:166-204 | No entry the builder insists on is missing from a stored blueprint |
| CampaignAssembler.BlueprintIsPublished | backend/app/services/campaign_creation.py:206-227 | An account that reads back as a stored blueprint shows the blueprint's own name, budget, negatives, groups, keywords and ads with their paths |
| WebsiteParser.Extractor.HandleStartTag | backend/app/integrations/website.py:29-37 | The handler's effect on all five fields |
| WebsiteParser.Extractor.HandleEndTag | backend/app/integrations/website.py:39-43 | As above |
| WebsiteParser.Extractor.HandleData | backend/app/integrations/website.py:45-54 | As above |
| WebsiteParser.ReadPage | backend/app/integrations/website.py:88-95 | Title and text are those of the document tree exactly when no title's text follows a title nested in it; the description is the last one |
| TextExtractor.SkipDepthIsLargestBalance | backend/app/integrations/website.py:29-43 | On an arbitrary event stream the skip depth is the largest number of unclosed skipped elements of any suffix, so it is never negative and stray end tags are forgotten |
| TextExtractor.MachineFollowsTree | backend/app/integrations/website.py:20-58 | From any state the flag machine over a well-nested document reads its tree unless a title leaks, and restores the depth |
| TextExtractor.ExtractorReadsTree | backend/app/integrations/website.py:20-58 | Text is the join of visible texts outside titles and title the concatenation inside, exactly when no title leaks |
| TextExtractor.HiddenElements | backend/app/integrations/website.py:10-36 | The five skipped elements are not read at all, and any other element reads as its children |
| TextExtractor.AttrIsLast | backend/app/integrations/website.py:33-37 | An attribute counts with the value of its last occurrence |
| TextExtractor.TitlesApartAreRead | backend/app/integrations/website.py:20-58 | Every well-nested document without nested titles is read exactly |
| TextExtractor.NestedTitleLeaks | backend/app/integrations/website.py:39-54 | Visible text after a nested title becomes page text instead of title |
| Snapshots.UpsertMembers | backend/app/repositories/metrics.py:20-44 | A write keeps one row per key, replaces the row of its key and leaves all others |
| Snapshots.WrittenRows | backend/app/repositories/metrics.py:20-44 | After any writes there is one row for each key ever written, and it is the last write of that key |
| Snapshots.LatestIsLastMention | backend/app/repositories/metrics.py:60-83 | After any writes on passing days the query returns one row for each campaign ever written in its scope, and it is the row written last |
| Snapshots.LatestIsOwn | backend/app/repositories/metrics.py:60-83 | The query shows an organization, or one of its accounts, only rows written for it |
| Snapshots.LatestIsComplete | backend/app/repositories/metrics.py:60-83 | Every campaign ever written in the scope is in the answer, at that day or a later one |
| Snapshots.FetchIsStored | backend/app/services/metrics.py:22-51 | A fetch stores what it got last for each campaign under its organization, account and day |
| Snapshots.FetchSparesOthers | backend/app/services/metrics.py:22-51 | A fetch leaves the rows of other organizations, accounts and days as they were |
| Snapshots.OneRowIffOneAccount | backend/app/repositories/metrics.py:60-83 | After any writes the query returns one row per campaign if and only if no campaign was written for two accounts on its largest day in the scope; for one account it always does |
| Snapshots.SharedIdGivesTwoRows | backend/app/repositories/metrics.py:72-80 | The condition can fail: two writes of one id for two accounts on one day give two rows |
| Snapshots.SumIsTotal | backend/app/services/analytics.py:36-43 | Summing a listing of a map gives the total over the map |
| Snapshots.SumIsByColumn | backend/app/services/analytics.py:36-43 | Each total is the integer sum of its own column |
| Snapshots.ListsOfLatest | backend/app/services/analytics.py:30-43 | The latest rows list the last mentions once each, and their sum is the total over them |
| Snapshots.SortSorts | backend/app/services/analytics.py:70-70 | The sorted list is a permutation by descending cost |
| Analytics.MetricTable.UpsertSnapshot | backend/app/repositories/metrics.py:20-44 | The row of that key is updated, or a row is added |
| Analytics.MetricTable.FetchAndStore | backend/app/services/metrics.py:22-51 | A fetch writes every metric under the day it ran, in order |
| Analytics.MetricTable.Summarize | backend/app/services/analytics.py:27-71 | Totals are the sums over the last mentions, each of its own column, the list has each campaign once by descending cost, and the date is the newest |
| Memberships.RequestSetsOneRole | backend/app/services/organization.py:71-137 | A request is served exactly when the roles grant it, and then sets the role of one user in one organization and of nobody else |
| Memberships.RequestIsAnswered | backend/app/services/organization.py:71-137 | Each refusal has its own exact condition in terms of who holds which role, and changes nothing |
| Memberships.AdminsMayUnseatAdmins | backend/app/services/organization.py:104-131 | An administrator's request to remove or demote an administrator is served |
| Memberships.RequestMovesRoles | backend/app/services/organization.py:71-137 | A request changes roles only in its own organization, never the owner's, and only to ranks below the caller's |
| Memberships.RequestKeepsInv | backend/app/services/organization.py:38-137 | A request keeps one row per member and the owner's role with exactly the user recorded as owner |
| Memberships.EmptyTenancyInv | backend/app/services/organization.py:24-29 | The invariant holds before the first organization |
| Memberships.RunKeepsInv | backend/app/services/organization.py:38-137 | The invariant holds in every state of every run, and no organization changes its owner |
| Memberships.OneOwnerForever | backend/app/services/organization.py:38-132 | Over any run an organization has exactly one owner, its creator, and one row per member |
| Memberships.AdminsGrowOnlyByOwner | backend/app/services/organization.py:71-137 | While the owner makes no request, nobody joins the administrators, whatever all others do |
| Memberships.NobodyPromotesThemself | backend/app/services/organization.py:71-137 | Acting alone, no user ends a run with a higher rank than at its start |
| Memberships.TenantsAreIsolated | backend/app/api/deps.py:102-128 | Requests in other organizations never change a role in this one |
| OrganizationService.Service.CreateOrganization | backend/app/services/organization.py:38-48 | Adds the organization and its owner's membership, and nothing else |
| OrganizationService.Service.AddMember | backend/app/services/organization.py:71-94 | The tables and the outcome are the specified ones, each refusal in its order |
| OrganizationService.Service.UpdateMemberRole | backend/app/services/organization.py:96-116 | As above |
| OrganizationService.Service.RemoveMember | backend/app/services/organization.py:118-132 | As above |
| OrganizationService.Service.Handle | backend/app/api/deps.py:102-128 | An endpoint call acts with the caller's own membership in the organization it names, as specified, and keeps the invariant |

## Left out

- Language-model agents, prompts, the ads and payment SDKs, OAuth, e-mail and HTTP fetching: only their effect on the modelled state, or an arbitrary result, enters.
- Cryptography and token encoding; an access token is only named by the refresh token issued with it, and its expiry is the arbitrary 401 of a response.
- Interleaved server transactions: the server takes no row lock, so the family invariant is claimed for serial requests only.
- Several tabs of one browser: they share storage but not the promise, so the claims are for one tab.
- TabSession.ReuseNeverReached: does not cover requests that touch a family this tab holds from elsewhere, because such a request (a logout, a reset, a second holder) is exactly what the reuse branch is for.
- BlueprintRuns.OneCampaignPerBlueprint: assumes that removing calls that are made succeed; with failing removals `BlueprintRuns.OwnedIsBounded` bounds what is left.
- Campaigns and budgets that were in the accounts before the first blueprint; the machine starts with no campaigns.
- An API call that takes effect and still reports an error while building; budget updates of the optimisation engine do model it.
- Normalising an account number to its digits; account numbers are compared as given.
- Pausing and enabling of campaigns that the account does not have; such a call may return or raise, and changes nothing.
- Blueprint fields that are only copied (objective, bidding strategy, targeting, extensions), and execution-log rows.
- Optimisation runs that raise before the decision loop, explanations, insights, audit rows and token counts.
- BudgetLoop.CompoundedBounds: assumes a positive budget and exactly spelled targets in every run, because without them the band does not hold (`SafetyEngine.CapHoldsIffBudgetStored`, `BudgetLoop.BandHoldsIffSpelledAsKeyed`).
- The binary representation of floating-point amounts; amounts are exact here.
- Different rate-limit scopes and the derivation of the client address; a key is any string.
- Case folding is an arbitrary function on texts; only equality of folded texts matters.
- How the HTML parser cuts a page into events, and the final truncation of title, description and text.
- Snapshots.LatestIsLastMention: holds where the query returns one row per campaign, whose exact condition is `OneRowIffOneAccount`.
- Daily totals, time series, ratios of the summary, and metric columns that are only copied.
- Slugs, organization names, soft deletion of organizations, and registration of further users during a membership run.
- Usage quota, API keys, billing events, industry templates and the execution agent: single branches or simple counters.
