# Verified model of the video-generation backend

This project models five pieces of a NestJS backend for AI video generation and proves what
they keep over whole runs: view counting, the provider loop with its circuit breaker, the life
of a video job and its credits, payment orders with PRO time, and the explore feed with its
events, scores and cache.

Each piece is written down twice where the source changes state. A state machine or a function
on values says what one await, one transaction or one call does, and the theorems are about
every run of it. Beside it a class holds the source's fields, and its methods, with the source's
loops, are proved to compute exactly that function. The database and Redis are maps and
sequences, each database transaction is one step that rolls back when it throws, and time is a
number that callers pass in.

| file | contents |
|---|---|
| `Prelude.dfy`, `Catalog.dfy` | shared types, text joined by colons, preset and quota constants |
| `PostViews.dfy` | view locks, the buffer, concurrent sync runs |
| `VastBreaker.dfy`, `VastGate.dfy`, `ProviderPlan.dfy` | circuit breaker histories; the gate with its health check apart; the provider loop against a recursion |
| `VideoJob.dfy`, `VideoHandler.dfy`, `JobCalls.dfy` | the worker's handler as a step machine with cancellations and faults; the handler itself; deliveries with the provider plan inside |
| `Credits.dfy`, `LedgerRuns.dfy`, `Settlement.dfy`, `Database.dfy` | transactions as functions; runs of every writer; the database and the worker together; the services |
| `Payments.dfy`, `ProTime.dfy`, `ProOrders.dfy` | callbacks racing for an order; PRO expiry; PRO orders that race each other |
| `ExploreFeed.dfy`, `ExploreEvents.dfy`, `ExploreScore.dfy` | merge, rank, diversify, page; event batches; scores and trending |
| `CacheKeys.dfy`, `ExploreCache.dfy` | cache keys and who shares one; the stale-while-revalidate cache |

## What the code does that one would not expect

Each of these is a theorem with the exact condition, or a run that shows it.

- Progress writes do not look at the status. A cancellation that commits inside an attempt is
  honoured only in five of the handler's gaps; one that arrives during the provider call is
  always overwritten, and the job then completes after its refund (`VideoJob.CancelWindows`,
  `VideoJob.CancelSettlesIff`). In the gaps of the error handler none is honoured
  (`VideoJob.HandlerCancelSettlesIff`).
- A cancel commits without looking at the status again. One that was checked before the job
  completed leaves a CANCELLED, refunded job with its video in the folder
  (`VideoJob.StorageMatchesStatus`, `VideoJob.CancelledWithVideo`); one that was checked before
  the final failure pays a second refund (`VideoJob.LateCancelSettlesIff`, and for runs of the whole
  system `Settlement.LateCommitSettlesIff`).
- When a database step of the error handler throws, a charged job can end FAILED without a
  refund or not FAILED at all (`VideoJob.FinalFailureSettledIff`).
- The breaker's failure window is configured, recorded and trimmed but never read
  (`VastBreaker.WindowNeverConsulted`); `docs/vastai-deploy-runbook.md` and the setup checklist
  present it as a setting of the breaker. The model follows the code.
- A health answer that arrives late can pull the breaker's open-until time back, and a healthy
  one is never weighed against the breaker again (`VastGate.LateHealthAnswerIff`,
  `VastGate.AdmittedWhileOpen`, `VastGate.AdmittedTooEarly`).
- A token validation that read an expired PRO writes its demotion without looking again and can
  erase time bought in between (`ProTime.DemotionsChangeNothingIff`,
  `ProTime.ErasesIffPaidBetween`, `ProTime.BoughtTimeErased`).
- A failure callback can overwrite a paid order with FAILED after its credits were granted
  (`Payments.FailureOverwritesIff`, `Payments.GrantedButFailed`). A success that arrives after a
  failure grants nothing (`Payments.UnpaidFailureIsFinal`).
- A PRO order extends the expiry that was read with it, so an order of the same user claimed in
  between loses its time. A user's bought time counts at every moment of a run exactly when no
  such claim is made and no late demotion lands on a running PRO (`ProOrders.BoughtTimeCountsIff`,
  `ProOrders.StaleClaimIff`, `ProOrders.SecondTermLost`).
- A sync run that renames the buffer onto a temporary key another run still holds puts views at
  stake: some continuation in which nothing fails loses them (`PostViews.RenameConservesIff`,
  `PostViews.HeldKeyLosesViews`), though a lucky order may not.
- The revalidation lock of a request is also the cache key of the request whose cursor ends in
  `:revalidate-lock`, which is then served the lock's value (`CacheKeys.LockClashIff`,
  `ExploreCache.LockMarkServed`). With colons in topics and cursors different requests can share a
  cache key, exactly when the topic of one takes in the topic, the middle of the key and the start
  of the cursor of the other (`CacheKeys.SameKeyIff`, `CacheKeys.AmbiguousKey`). A set of requests is
  safe from foreign answers exactly when its keys and locks stay apart
  (`ExploreCache.AnswersAreOwnIff`).
- A feed cursor whose item has left the list restarts the feed (`ExploreFeed.LostCursorRestarts`).
- Without the merge, paging shows the list once exactly when no full page ends on a repeated id
  (`ExploreFeed.WalkShowsListIff`).

## Model

| member | source | states |
|---|---|---|
| PostViews.ViewsConserved | src/modules/posts/posts.service.ts:161-225 | in every interleaving of viewers and sync runs on distinct temporary keys, stored + buffered + renamed or fetched views of a post equal the initial count plus accepted views minus those dropped by failed updates or removed posts |
| PostViews.QuietCountExact | src/modules/posts/posts.service.ts:161-225 | between two states with nothing in flight, when no update failed and the post stays, the stored count grows by exactly the accepted views: none lost, none counted twice |
| PostViews.RenameKeepsOwnTempsIff | src/modules/posts/posts.service.ts:195-203 | renaming keeps one owner per temporary key iff nothing is renamed or no run holds the key |
| PostViews.SharedTempKeyLosesViews | src/modules/posts/posts.service.ts:194-225 | a run in which a shared temporary key turns two accepted views into one |
| PostViews.RenameConservesIff | src/modules/posts/posts.service.ts:197-225 | a rename keeps account of every view in all continuations iff nothing is renamed or no run holds the target key |
| PostViews.HeldKeyLosesViews | src/modules/posts/posts.service.ts:197-225 | onto a held key: when the holder goes on first, every step succeeds and exactly the views at stake are gone, the holder's unread ones or the renamed ones |
| PostViews.GoneKeySyncsNothing | src/modules/posts/posts.service.ts:205-225 | a sync run whose key was taken away changes nothing but its own place |
| PostViews.AcceptedIff | src/modules/posts/posts.service.ts:161-190 | in any run from a store without locks whose clock does not go back, a view is counted iff no view of the same post by the same viewer was counted less than 86 400 000 ms before it, 1 800 000 ms for guests |
| PostViews.AcceptedViewsApart | src/modules/posts/posts.service.ts:161-190 | whatever store and clock, two accepted views of a post by one viewer are at least a day apart, half an hour for guests |
| PostViews.PostsService.TrackView | src/modules/posts/posts.service.ts:161-190 | one view on its own is the machine's lock and increment |
| PostViews.PostsService.SyncViewsToDb | src/modules/posts/posts.service.ts:192-225 | one sync on its own is the machine's rename, fetch, delete and apply |
| VastBreaker.ReachableIsSound | src/workers/video.worker.ts:932-1002 | on every history failures stay below the threshold, half-open successes below the required number, and a closed breaker counts none |
| VastBreaker.OpenBreakerAdmitsNothing | src/workers/video.worker.ts:932-1002 | after an opening at t no gate check before t + cooldown admits Vast, whatever comes between |
| VastBreaker.AdmitsIff | src/workers/video.worker.ts:932-1002 | on every history of a fresh breaker a gate check admits Vast iff it is enabled and healthy and no opening is still within its cooldown |
| VastBreaker.OpensOnTrailingFailures | src/workers/video.worker.ts:951-1002 | with gate checks anywhere that do not open it themselves, call outcomes open a fresh breaker iff they end in `threshold` transient failures, and until then the counter is that trailing run |
| VastBreaker.ReopensWhileCooling | src/workers/video.worker.ts:951-1002 | outcomes that come in during a cooldown open the breaker anew iff they end in `threshold` transient failures without a success between them |
| VastBreaker.HalfOpenResolves | src/workers/video.worker.ts:951-1002 | a half-open breaker closes or reopens within required + threshold - 1 counted outcomes |
| VastBreaker.ClosesOnSuccesses | src/workers/video.worker.ts:951-965 | a half-open breaker that nothing opens is closed at the end of a history iff at least `required` calls succeeded, and until then its open-until time stands |
| VastBreaker.ReopensOnFailures | src/workers/video.worker.ts:951-989 | while half-open it reopens when its transient failures reach the threshold, successes in between notwithstanding, and both counters count the outcomes |
| VastBreaker.MarginShrinks | src/workers/video.worker.ts:951-1002 | each counted outcome of an unresolved half-open breaker uses up its margin |
| VastBreaker.WindowNeverConsulted | src/workers/video.worker.ts:967-1020 | no decision of any history depends on the remembered failure times or the window length |
| VastGate.PromptAnswerIsGate | src/workers/video.worker.ts:932-949 | a check answered before anything else happens is the gate as one step |
| VastGate.LateHealthAnswerIff | src/workers/video.worker.ts:932-949 | on every history with the answer a step of its own: before the cooldown of an opening ends, some moment lets a check that reads clock `now` past the clock test iff an unhealthy answer has come to a check begun a cooldown or more before `now` |
| VastGate.AdmittedWhileOpen | src/workers/video.worker.ts:943-949 | while an opening stands, a check still waiting for its answer was waiting when the breaker opened or got in behind such an early answer |
| VastGate.AdmittedTooEarly | src/workers/video.worker.ts:932-1002 | for every configuration a history that admits a call before the cooldown of an opening is over |
| VastBreaker.ResolveConfig | src/workers/video.worker.ts:1004-1038 | absent settings and those below one fall back to 3 failures, 300 s, 600 s and 3 successes; others count in whole units and milliseconds |
| ProviderPlan.ResolvePlan | src/workers/video.worker.ts:885-906 | the plan is never empty and names no provider twice: the job's own providers where they first stand, else the primary and then the fallback |
| ProviderPlan.MaxRetries | src/workers/video.worker.ts:919-930 | the whole number of a non-negative setting, else one |
| ProviderPlan.PlanSettles | src/workers/video.worker.ts:661-827 | for any script of gates and answers: the calls of a plan are orderly retries within the budget, in plan order and to its providers, only the last is answered, every provider the loop came to was called or refused at its gate, and the outcome is the verdict of the calls |
| ProviderPlan.PlanInOrder | src/workers/video.worker.ts:677-805 | the loop goes through the plan from left to right, passes nobody over, and stops early only at the provider that answers |
| ProviderPlan.VerdictMeans | src/workers/video.worker.ts:661-827 | success iff the last call was answered; fallback reported iff another provider was called before; the thrown error is non-retryable iff the plan's last provider was the last called and refused non-retryably |
| ProviderPlan.RetriedIff | src/workers/video.worker.ts:688-803 | along the calls of any plan a call is repeated iff it was refused, its error says so itself or by no status, 408, 425, 429 or 500 and above, and that provider's own retries are not used up |
| ProviderPlan.PlanFeedsBreaker | src/workers/video.worker.ts:677-803 | what a plan does to the breaker is one gate check when the loop comes to Vast, then a success per answered Vast call and a counted failure per refused one, client errors from 400 to 499 other than 408, 425 and 429 not counted; Vast is turned away iff that check fails |
| ProviderPlan.ModalNeverSkipped | src/workers/video.worker.ts:677-689 | a plan that gives up has called Modal if it lists it |
| ProviderPlan.PlanKeepsBreaker | src/workers/video.worker.ts:677-827 | every plan keeps the breaker's invariant |
| ProviderPlan.VideoWorker.OpenVastBreaker | src/workers/video.worker.ts:998-1002 | the fields after an opening are the breaker function's |
| ProviderPlan.VideoWorker.ResetVastBreaker | src/workers/video.worker.ts:991-996 | the fields after a reset are a fresh breaker |
| ProviderPlan.VideoWorker.RecordVastSuccess | src/workers/video.worker.ts:951-965 | refines the breaker's success step |
| ProviderPlan.VideoWorker.RecordVastFailure | src/workers/video.worker.ts:967-989 | refines the breaker's failure step, window trimming included |
| ProviderPlan.VideoWorker.ShouldUseVastProvider | src/workers/video.worker.ts:932-949 | refines the gate: its answer and the opening an unhealthy answer causes |
| ProviderPlan.VideoWorker.TryProvider | src/workers/video.worker.ts:688-803 | the retry loop computes the recursion over attempts |
| ProviderPlan.VideoWorker.ExecuteProviderPlan | src/workers/video.worker.ts:661-827 | the nested loops compute the recursive specification: same outcome, calls and breaker |
| VideoJob.RefundedOncePerReason | src/modules/jobs/jobs.service.ts:1206-1248 | in every history, cancellations inside attempts and faults anywhere, each refund reason is paid at most once |
| VideoJob.QuietAttempt | src/workers/video.worker.ts:262-653 | an attempt left alone completes iff nothing throws, is queued again iff the error is retryable and attempts remain, fails with its refund otherwise |
| VideoJob.ThrowsIff | src/workers/video.worker.ts:562-653 | the queue sees a throw iff the try block threw a retryable error or a database step of the error handler threw |
| VideoJob.NoticedCancelEnds | src/workers/video.worker.ts:570-579 | a noticed cancellation with a working database leaves the job CANCELLED and without output rows, and the queue never runs it again |
| VideoJob.SkippedIff | src/workers/video.worker.ts:243-262 | a delivery is passed over, whatever would meet it, iff the job is CANCELLED or COMPLETED |
| VideoJob.SettledBetweenAttempts | src/workers/video.worker.ts:581-653 | on every history with cancellations between attempts and no commit after a final failure, the charge stands while the job is queued or completed and is paid back once when it failed or was cancelled |
| VideoJob.LateCancelSettlesIff | src/modules/jobs/jobs.service.ts:765-846 | with the check and the commit of a cancel apart, the job is settled iff no cancel checked before the final failure of a charged job commits after it |
| VideoJob.SettledBalance | src/workers/video.worker.ts:1257-1305 | a settled job's balance is minus its charge, or zero once failed or cancelled |
| VideoJob.FinalFailureSettledIff | src/workers/video.worker.ts:619-653 | a final failure of a charged job, also one left PROCESSING by an attempt whose QUEUED write failed, ends FAILED and refunded iff no database step of the error handler throws |
| VideoJob.DoneWithinAttempts | src/workers/video.worker.ts:581-653 | left to the queue a job is COMPLETED or FAILED after at most `attempts` deliveries |
| VideoJob.AttemptsBounded | src/modules/jobs/jobs.service.ts:290-300 | whatever meets its attempts, the queue hands a job out at most `attempts` times |
| JobCalls.CallsBounded | src/workers/video.worker.ts:677-820 | whatever meets its attempts, a job makes at most `attempts` times the sum over its plan of maxRetries + 1 provider calls |
| JobCalls.PlanDecides | src/workers/video.worker.ts:581-653 | where only the plan can fail: the job completes iff the plan succeeds, is queued again iff the plan's error is retryable and attempts remain, and fails with its refund otherwise |
| VideoJob.NeverCancelledAlone | src/workers/video.worker.ts:562-579 | no job becomes CANCELLED without a cancel |
| VideoJob.CancelNoticedIff | src/workers/video.worker.ts:1210-1220 | a cancellation before step p is noticed iff a check comes before the next status write or throw |
| VideoJob.CancelSettlesIff | src/workers/video.worker.ts:562-653 | an attempt with one cancellation inside ends settled iff it was noticed; otherwise the job completes free, is queued though refunded, or is refunded twice |
| VideoJob.CancelWindows | src/workers/video.worker.ts:262-536 | with nothing throwing, exactly five gaps between steps honour a cancellation; the provider call is not one |
| VideoJob.HandlerCancelSettlesIff | src/workers/video.worker.ts:562-653 | a cancellation in a gap of the error handler leaves the job settled iff the handler does not come by that gap; else it is queued though refunded, or both refunds are paid |
| VideoJob.AttemptArtifacts | src/workers/video.worker.ts:426-619 | whichever step throws, a cleanup between its deletes and its row removal included, from any folder: a finished attempt leaves exactly the two named objects beside what its cleanup could not delete, any other only what storage refused to delete or no cleanup came to; rows are gone after a final failure or a noticed cancellation unless that cleanup threw |
| VideoJob.StorageMatchesStatus | src/workers/video.worker.ts:1222-1254 | over every history with working deletes, the folder holds the two named objects when COMPLETED and nothing otherwise iff no cancel checked before the completion commits after it |
| VideoJob.CancelledWithVideo | src/modules/jobs/jobs.service.ts:765-831 | a run that ends CANCELLED and paid back with both objects and rows in place |
| VideoHandler.Handler.Await | src/workers/video.worker.ts:262-536 | one await of the try block, with a cancellation before it or a throw in it, is one machine step |
| VideoHandler.Handler.TryBlock | src/workers/video.worker.ts:262-536 | the whole try block reaches the machine's end |
| VideoHandler.Handler.CleanupOutputArtifacts | src/workers/video.worker.ts:1222-1254 | the delete loop removes every named object storage gives up, then every row |
| VideoHandler.Handler.RollbackUploads | src/workers/video.worker.ts:565-568 | the rollback loop removes this attempt's uploads storage gives up |
| VideoHandler.Handler.HandleError | src/workers/video.worker.ts:562-653 | the error handler leaves the machine's job and throws exactly when it does |
| VideoHandler.Handler.Handle | src/workers/video.worker.ts:243-654 | the handler is one machine attempt: the job it leaves and whether the queue sees a throw |
| Credits.CreationAnswers | src/modules/jobs/jobs.service.ts:58-237 | a creation is accepted iff the input fits the preset and is the user's own, a premium preset is asked for by a running PRO or an administrator, and the wallet covers what the free credits do not; each refusal by its own condition, and nothing changes unless accepted |
| Credits.FreeCreditsIff | src/modules/jobs/jobs.service.ts:153-196 | TURBO and QUALITY jobs of users with a running PRO take as much of what is left of the day's 20 free credits as they cost, all others none, and no other usage moves |
| Credits.CreationCharges | src/modules/jobs/jobs.service.ts:142-288 | free credits used plus the charge equal the preset's price (5, 15, 10, 14, 20); the wallet drops by the charge and not below zero; an expired PRO is stored as FREE; nothing else of anyone changes |
| Credits.CreationRows | src/modules/jobs/jobs.service.ts:176-237 | exactly the free-usage row and the charge row are added, each when its amount is positive |
| LedgerRuns.WalletIsLedger | src/modules/jobs/jobs.service.ts:196-232 | over every run of every writer each wallet is the sum of its user's ledger rows and never negative |
| LedgerRuns.WalletMoves | src/modules/users/users.service.ts:124-158 | over every run a wallet moves by 100 at registration, by the amount of a top-up, by the credits of a claimed order, and otherwise by just what the rows of the user's job move |
| LedgerRuns.JobRowsBalance | src/modules/jobs/jobs.service.ts:1206-1248 | over every run each job is refunded at most once per reason and its rows sum to minus its charge plus its refunds |
| LedgerRuns.RefundProjects | src/workers/video.worker.ts:1257-1305 | a database refund is the per-job refund: the wallet is always there and other jobs are untouched |
| LedgerRuns.CloseProjects | src/modules/jobs/jobs.service.ts:765-846 | a status write with its refund is the per-job commit |
| LedgerRuns.CreateKeepsJobs | src/modules/jobs/jobs.service.ts:104-288 | a creation adds a balanced job and leaves the others alone |
| LedgerRuns.SettledJobRows | src/modules/jobs/jobs.service.ts:765-846 | a settled job's ledger rows sum to minus its charge, or to zero once failed or cancelled |
| LedgerRuns.CancelAnswers | src/modules/jobs/jobs.service.ts:765-846 | in every reachable database a cancel is accepted iff the job is the caller's and PENDING, QUEUED or PROCESSING; then it is CANCELLED and the charge is back in the wallet unless it was already, otherwise nothing changes |
| LedgerRuns.FailurePaysBack | src/workers/video.worker.ts:619-629 | in every reachable database the worker's final failure, or a failed enqueue, leaves the job FAILED and its charge back in the wallet unless it was already |
| LedgerRuns.QuotaClosedForm | src/modules/jobs/jobs.service.ts:143-237 | on one day the TURBO (15) and QUALITY (20) jobs of a user with a running PRO use min(20, total) free credits and charge max(0, total - 20), whatever else happens |
| Settlement.DeliverAdvances | src/workers/video.worker.ts:243-654 | a delivery, whatever cancels and faults its attempt meets, changes its job's rows as the per-job model advances, adds exactly the refunds of the attempt, and touches no other job |
| Settlement.RunProjects | src/modules/jobs/jobs.service.ts:198-414 | in every run of the whole system, cancels inside attempts, faults and late commits included, each job's status, refunds, attempts and queue place are those of a run of the per-job queue, or of a job refused by the queue |
| Settlement.EveryJobSettles | src/modules/jobs/jobs.service.ts:198-288 | after any run of creations, failed enqueues, cancels whole or in two halves, deliveries and other writers in which no cancel checked before a final failure commits after it, each job's ledger rows sum to minus its charge while queued or completed and to zero once failed or cancelled, by one refund of the right reason, after at most three attempts |
| Settlement.LateCommitSettlesIff | src/modules/jobs/jobs.service.ts:765-846 | in runs with the check and the commit of a cancel apart, a job is settled iff no such late commit happens to it; one leaves the user with the charge paid back twice |
| Settlement.NeverQueuedAgain | src/modules/jobs/jobs.service.ts:786-800 | in every run a job that has left the queue is never handed out again |
| Settlement.RemovedIsGone | src/modules/jobs/jobs.service.ts:786-800 | an accepted cancel that can remove the job from the queue does so, and removes no other |
| Settlement.EveryJobBalances | src/modules/jobs/jobs.service.ts:1206-1248 | after any run, cancels inside attempts, faults and late commits included, a job's rows sum to minus its charge plus one charge per refund, and no reason is paid twice |
| Settlement.WalletsFollow | src/modules/jobs/jobs.service.ts:198-237 | in the same runs every wallet is the sum of its ledger rows and never negative |
| Database.Store.RegisterUser | src/modules/auth/auth.service.ts:71-88 | registration with its bonus row |
| Database.Store.TopUpMyCredits | src/modules/users/users.service.ts:124-158 | a top-up and its row, or not found |
| Database.Store.ValidateToken | src/modules/auth/strategies/jwt.strategy.ts:21-74 | the role a token stands for and the stored downgrade, of one call on its own |
| Database.Store.ApplyDailyQuota | src/modules/jobs/jobs.service.ts:143-196 | the free credits applied, the usage row and the usage ledger row |
| Database.Store.ChargeWallet | src/modules/jobs/jobs.service.ts:198-237 | the wallet's refusals, or the decrement and its row |
| Database.Store.CreateTransaction | src/modules/jobs/jobs.service.ts:104-288 | the answer in the order of the source's checks, and the tables to commit |
| Database.Store.CreateVideoJob | src/modules/jobs/jobs.service.ts:58-414 | creation with its QUEUED write is the transaction function; a rejected call changes nothing |
| Database.Store.RefundCreditIfMissing | src/modules/jobs/jobs.service.ts:1206-1248 | refunds the charge once per reason, or fails when the wallet is missing |
| Database.Store.CancelVideoJob | src/modules/jobs/jobs.service.ts:765-846 | cancel with its refund in one transaction, or its rejection |
| Database.Store.FailVideoJob | src/workers/video.worker.ts:619-629 | the FAILED write, then the refund on its own |
| Database.Store.MarkOrderPaid | src/modules/billing/billing.service.ts:386-508 | claim, wallet, PRO time and ledger row together, or its rejection |
| Database.Store.HandleMomoIpn | src/modules/billing/billing.service.ts:536-633 | one MoMo notification on its own is the machine's run of its caller |
| Database.Store.HandlePayosWebhook | src/modules/billing/billing.service.ts:635-737 | one payOS webhook on its own is the machine's run of its caller |
| Database.Store.SyncPayosOrderStatus | src/modules/billing/billing.service.ts:775-970 | one payOS lookup on its own is the machine's run of its caller, under the id on record |
| Payments.GrantedOnce | src/modules/billing/billing.service.ts:386-508 | in every interleaving at most one claim of an order succeeds, its credits are granted exactly as often, and no two orders hold one provider payment |
| Payments.NeverPendingAgain | src/modules/billing/billing.service.ts:594-729 | no run takes an order back to PENDING, changes its terms or clears its paid stamp |
| Payments.UnpaidFailureIsFinal | src/modules/billing/billing.service.ts:413-415 | once an order has failed unpaid, no later notification, lookup or administrator ever pays it or grants its credits |
| Payments.AloneIsOneCall | src/modules/billing/billing.service.ts:536-737 | a callback that meets no other marks the order paid, fails a pending one, or does nothing |
| Payments.PaidOnlyWhenSaid | src/modules/billing/billing.service.ts:536-970 | in every interleaving an order is paid only after a callback on it that reports success with the right amount, from the right provider, or an administrator's call |
| Payments.FailedOnlyWhenSaid | src/modules/billing/billing.service.ts:536-737 | in every interleaving an order fails only after a callback on it that reports a failure with the right amount, or a write from elsewhere |
| Payments.AloneSettles | src/modules/billing/billing.service.ts:386-970 | one callback of any kind on a pending order: PAID iff it reports success and the provider payment is not in use, with the credits on the wallet and the days on the PRO time; FAILED iff it reports a failure; otherwise nothing changes |
| Payments.ClosedAnswers | src/modules/billing/billing.service.ts:404-415 | on a closed order no callback changes anything; a success is answered as paid already or refused |
| Payments.RaceKeepsWallets | src/modules/billing/billing.service.ts:457-508 | the race is a run of the database, so wallets equal the ledger throughout |
| Payments.FailureOverwritesIff | src/modules/billing/billing.service.ts:594-625 | in every interleaving an order ends granted and FAILED iff some write of FAILED on it follows its successful claim |
| Payments.GrantedButFailed | src/modules/billing/billing.service.ts:594-625 | a run that ends FAILED with the credits granted |
| Payments.AlreadyPaidReportIff | src/modules/billing/billing.service.ts:449-455 | a lost claim is reported as already paid wrongly iff the order has failed |
| Payments.AlreadyPaidReported | src/modules/billing/billing.service.ts:449-455 | a run of two callbacks that reports an unpaid, failed order as already paid |
| ProOrders.BoughtTimeCountsIff | src/modules/billing/billing.service.ts:386-489 | in every interleaving, validations included: a user counts as PRO at every moment exactly as long as the fold of their paid PRO orders lasts, iff no successful claim starts from a base, the later of the expiry it read and now, that is no longer the row's, and no late demotion lands on a running PRO |
| ProOrders.RowFollowsOrders | src/modules/billing/billing.service.ts:472-489 | as long as neither happens the stored row is the fold of the paid orders, or was demoted after it ran out |
| ProOrders.TokenSaysPro | src/modules/auth/strategies/jwt.strategy.ts:21-74 | in the same runs a token validation answers PRO iff the paid orders still last, stores what it answers and touches nobody else |
| ProOrders.StaleClaimIff | src/modules/billing/billing.service.ts:386-489 | a callback that read its order earlier loses time with its claim iff another PRO order of the user was claimed since and lasts beyond the moment this claim extends from |
| ProOrders.SecondTermLost | src/modules/billing/billing.service.ts:594-611 | a run from the empty database: two notifications pay two thirty-day orders, both end PAID, and the user has one term |
| ProOrders.StaleExpiryIff | src/modules/billing/billing.service.ts:472-489 | two PRO orders read together and claimed in turn, with or without provider ids, keep both purchases iff the first runs out by the second anyway or the standing expiry covers it |
| ProTime.DeadlineClosedForm | src/modules/billing/billing.service.ts:472-489 | the expiry after any payments is the largest of e0 + all time and each payment's time + the time bought from it on |
| ProTime.RowTracksDeadline | src/modules/auth/strategies/jwt.strategy.ts:21-74 | while no demotion erases a running PRO, the stored row agrees with that deadline |
| ProTime.ProUntilDeadline | src/modules/jobs/jobs.service.ts:1180-1193 | under the same condition a non-admin's effective role is PRO iff now is before the deadline |
| ProTime.DemotionsChangeNothingIff | src/modules/auth/strategies/jwt.strategy.ts:37-64 | with the read and the write of a validation apart: the demotions change no answer at any moment iff none of them lands on a row that is PRO again |
| ProTime.ErasesIffPaidBetween | src/modules/auth/strategies/jwt.strategy.ts:22-48 | a validation that read an expired row erases a running PRO with its write iff a payment came in between whose time is not over |
| ProTime.BoughtTimeErased | src/modules/auth/strategies/jwt.strategy.ts:22-48 | a run that erases thirty bought days |
| ProTime.AdminKeptIff | src/modules/billing/billing.service.ts:472-489 | an admin stays one iff no PRO order of theirs is ever paid |
| ExploreFeed.MergeById | src/modules/explore/explore.service.ts:654-662 | the loop keeps the first item of every id |
| ExploreFeed.MergedItems | src/modules/explore/explore.service.ts:654-662 | merged ids are distinct and are the candidates' ids, each item the first that carries its id, in order of first appearance |
| ExploreFeed.StableSortIsSort | src/modules/explore/explore.service.ts:434-461 | a list is the sort iff it is ordered by score then recency and keeps ties in order, so any stable algorithm gives it |
| ExploreFeed.Diversify | src/modules/explore/explore.service.ts:441-461 | the counting loop and second sort compute the spread list |
| ExploreFeed.DiversifiedIsSorted | src/modules/explore/explore.service.ts:441-461 | the spread list is a permutation of the penalised items, ordered by penalised score then recency, ties in ranked order |
| ExploreFeed.CreatorOrderKept | src/modules/explore/explore.service.ts:441-461 | each creator's items keep their ranked order, the k-th exactly k penalties down |
| ExploreFeed.TopItemStays | src/modules/explore/explore.service.ts:441-461 | the top-ranked item comes first, unpenalised |
| ExploreFeed.BuildForYouResponse | src/modules/explore/explore.service.ts:322-474 | merge, rank, spread and cut give the page of the feed at the cursor, and the cursor of the next |
| ExploreFeed.FeedShowsCandidates | src/modules/explore/explore.service.ts:322-461 | the feed shows every candidate id exactly once |
| ExploreFeed.FeedOrder | src/modules/explore/explore.service.ts:434-461 | the feed shows higher scores first and newer items first among equals; the items of one creator stand by personal score and recency, the k-th 1.25 k points down |
| ExploreFeed.FeedTop | src/modules/explore/explore.service.ts:434-461 | the newest of the items with the best personal score is shown first, at that score |
| ExploreFeed.FeedItems | src/modules/explore/explore.service.ts:654-662 | every item shown is the first candidate with its id, up to the score |
| ExploreFeed.WalkListsEverything | src/modules/explore/explore.service.ts:463-472 | with first ids at the ends of full pages, following the cursor ends after ceil(n / limit) pages whose concatenation is the list |
| ExploreFeed.WalkEnds | src/modules/explore/explore.service.ts:463-472 | for such lists, all those with distinct ids included, the walk exists for every limit |
| ExploreFeed.WalkShowsListIff | src/modules/explore/explore.service.ts:463-472 | for any list, a walk ends and shows it once in order iff the item each full page ends on is the first with its id |
| ExploreFeed.FeedWalk | src/modules/explore/explore.service.ts:322-472 | for one snapshot the pages of a whole walk show every candidate exactly once, in feed order |
| ExploreFeed.RepeatedIdsTrapTheCursor | src/modules/explore/explore.service.ts:463-472 | one list with a repeated id on which no walk ever ends |
| ExploreFeed.LostCursorRestarts | src/modules/explore/explore.service.ts:463-465 | for distinct ids a cursor gives the first page iff its id is not in the list |
| ExploreEvents.KeysDiffer | src/modules/explore/explore.service.ts:946-953 | the dedupe key separates different (post, type) pairs even when post ids hold colons |
| ExploreEvents.NormalizeExploreEvents | src/modules/explore/explore.service.ts:925-959 | the two seen sets keep the first valid event of each pair |
| ExploreEvents.ProfilesAreLogSums | src/modules/explore/explore.service.ts:771-923 | after any batches each topic profile is the sum of the weights logged for it, and exactly the posts with a logged HIDE are hidden |
| ExploreEvents.BatchEffects | src/modules/explore/explore.service.ts:771-959 | by the texts sent: each topic gains 0.2, 1, 1.5, 2.5, 3, 4, 3.5 or -8 per event of its type on its posts, repetitions counted once when duplicates are dropped; exactly the posts with a HIDE are hidden besides; nobody else is touched |
| ExploreEvents.BatchIsOneByOne | src/modules/explore/explore.service.ts:494-524 | for a fixed post-to-topic map a batch leaves the log, profiles and hidden posts as sending the first occurrence of each pair on its own |
| ExploreEvents.SummaryBalances | src/modules/explore/explore.service.ts:903-922 | accepted = recorded + skipped, and the counts by type add up to recorded |
| ExploreEvents.ExploreTables.CollectRows | src/modules/explore/explore.service.ts:801-837 | one pass gives the rows, the totals per topic, the hidden posts and the counts by type |
| ExploreEvents.ExploreTables.Commit | src/modules/explore/explore.service.ts:855-901 | every touched profile rises by its total once, missing ones are created, hidden posts are added |
| ExploreEvents.ExploreTables.ProcessExploreEvents | src/modules/explore/explore.service.ts:771-923 | the grouped transaction leaves the tables of recording row by row, and the summary describes it |
| ExploreScore.ScoreFalls | src/modules/explore/explore.service.ts:999-1030 | with the counts frozen a score never rises with age, rounding included |
| ExploreScore.TrendingNeverReturns | src/modules/explore/explore.service.ts:1032-1035 | over successive refreshes without new engagement the flag is on up to some refresh and off from there |
| ExploreScore.LikesHelp | src/modules/explore/explore.service.ts:999-1030 | more likes or comments never lower a score |
| ExploreScore.TrendingIff | src/modules/explore/explore.service.ts:999-1035 | the trending flag in closed form: at most 72 hours old and 3 per like, 4 per comment, 2 per log of views, the capped reaction rate and the points of its age bracket reach 13.99995 |
| ExploreScore.QuietPostTrendsIff | src/modules/explore/explore.service.ts:999-1035 | a post without any engagement trends iff it is at most two hours old |
| CacheKeys.SameKeyIff | src/modules/explore/explore.service.ts:1090-1126 | two requests of either feed share a key iff they ask for the same thing, absent fields counting as empty, or they are of one feed and the topic of one is the topic, the middle of the key and the start of the cursor of the other, whose cursor ends in the rest |
| CacheKeys.SharedKeyIff | src/modules/explore/explore.service.ts:1090-1126 | when topics, or else cursors, hold no colon, two requests share a key iff they ask for the same thing |
| CacheKeys.AmbiguousKey | src/modules/explore/explore.service.ts:1090-1126 | for every feed and all texts two different requests that share a key |
| CacheKeys.LockClashIff | src/modules/explore/explore.service.ts:1196 | for colon-free topics one request's lock is another's entry iff the other has the lock suffix on its cursor |
| ExploreCache.ReadTtl | src/modules/explore/explore.service.ts:1156-1162 | an absent, zero or negative setting gives the fallback, a fraction of a second gives zero, any larger one its whole seconds |
| ExploreCache.AnswersAreOwnIff | src/modules/explore/explore.service.ts:1164-1296 | for any set of requests: in every interleaving of them each answer was produced for the same request, a cached one at most fresh + stale seconds before, iff no two different ones that are stored share a key and none has the key of another's lock that can be taken |
| ExploreCache.CleanIsApart | src/modules/explore/explore.service.ts:1090-1126 | requests meet that condition when topics hold no colon and cursors no lock suffix, or when cursors hold no colon |
| ExploreCache.RevalidationsSpaced | src/modules/explore/explore.service.ts:1190-1223 | under the same condition background revalidations of one key take their lock at least five seconds apart |
| ExploreCache.LockTakenIff | src/modules/explore/explore.service.ts:1190-1208 | under the same condition a revalidation goes on iff no lock of its key was taken in the last 5000 ms, and ends otherwise |
| ExploreCache.FreshThenStale | src/modules/explore/explore.service.ts:1164-1270 | an entry is served as it is for its fresh seconds, served and revalidated for its stale seconds, and made anew for a waiting client from then on |
| ExploreCache.StaleIsRenewed | src/modules/explore/explore.service.ts:1190-1223 | once a background revalidation has written, the next client is served what was made then, as fresh |
| ExploreCache.EveryClientCounted | src/modules/explore/explore.service.ts:1164-1188 | in every interleaving each client has been served once, waits for its producer or was told of its failure |
| ExploreCache.LockMarkServed | src/modules/explore/explore.service.ts:1190-1248 | for every request whose entries go stale, a run that serves the lock's value as a cached payload to any request with the key of its lock |
| ExploreCache.OtherServed | src/modules/explore/explore.service.ts:1164-1188 | for every request that is stored, a run that serves its payload to any other request with the same key |
| ExploreCache.ExploreCacheService.GetCacheEnvelope | src/modules/explore/explore.service.ts:1225-1270 | miss, fresh or stale as the machine looks it up, plain values included |
| ExploreCache.ExploreCacheService.GetCachedWithStaleWhileRevalidate | src/modules/explore/explore.service.ts:1164-1223 | one call on its own leaves the store and gives the answer of the machine's steps |

## Left out

- VideoHandler.Handler.Handle: other requests reach the handler only through its script of cancellations; the notifications, status events and log rows it writes are not modelled, and log writes inside the error handler are taken to succeed.
- Settlement.EveryJobSettles: an attempt is one step that meets no cancel inside and no database fault in its error handler; what else can meet a job is the subject of Settlement.RunProjects, Settlement.EveryJobBalances and the VideoJob lemmas.
- ProviderPlan.PlanSettles: the gate and its health check are one step here; VastGate takes them apart.
- ProOrders.BoughtTimeCountsIff: the clock does not go back between the timed steps of a run, and every user registers as FREE; administrators are the subject of ProTime.AdminKeptIff.
- ProTime.DemotionsChangeNothingIff: a job creation reads and demotes in one transaction and is taken as one step.
- VideoJob.AttemptArtifacts: an upload that stores its object and then throws leaves an object no key is known for; it is not modelled.
- PostViews.ViewsConserved: a view whose buffer increment fails after its lock is set, and a sync that dies after its rename, stay in the account as pending or in flight for ever.
- VideoJob.FinalFailureSettledIff: the existing-refund lookup and the refund transaction of the worker are one step.
- Database.Store.CreateVideoJob: reading a wallet and decrementing it is one atomic step, so what weaker isolation between two creations could do is not modelled; the id of a job is stored with its charge row as bookkeeping; unknown preset ids are refused before this point.
- Payments.GrantedOnce: signatures, amounts and provider lookups are arbitrary answers of the callback, and the metadata it stores is not modelled.
- ExploreFeed.BuildForYouResponse: the personal score of an item is any number of four decimals; its bonuses, decay terms and debug output are not modelled, nor is the trending fallback for users without a profile.
- ExploreEvents.NormalizeExploreEvents: trimming and upper-casing come before it, and event metadata is dropped.
- ExploreEvents.ExploreTables.ProcessExploreEvents: the post-to-topic map is given; syncing missing posts while resolving it is not modelled.
- ExploreCache.AnswersAreOwnIff: a for-you answer that falls back to the public feed may itself carry a cached public payload, whose extra age is not counted.
- ExploreScore.ScoreFalls: log1p of the views is a given number; scores are exact decimals.
- HTTP, validation of request bodies, S3, ffmpeg, mail, BullMQ and Redis internals: arbitrary outcomes or atomic map operations.
- The queue hands out at most one attempt of a job at a time, and a job is queued in the step that creates it; a failed enqueue is a separate action that fails the job with its refund.
- Integer widths and timestamps: unbounded integers.
- Authentication other than the register bonus and the PRO downgrade: cryptography and library behaviour.
- Galleries, follows, comments, assets and public cursor lists: plain reads and writes ordered by the database.
- Live job events, notifications, Swagger, seeding and operations scripts, and the Python worker app.
