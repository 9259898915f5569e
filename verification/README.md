# A verified model of the authorization, cache, batch, storage and text logic

The repository runs two services. *Login* signs users in through a browser and obtains Copilot OAuth tokens; *Proxy* keeps
one account row per identity, forwards requests to Copilot with those tokens, and serves a console. This project models
the parts of both in which several calls interleave, in which a crash may fall between two steps, or in which a
transformation promises more than its code shows at a glance, and proves what they promise.

| Modules | What they model |
|---|---|
| `ProxyAccounts`, `ProxyLedger` | Proxy's account row and the handlers that write it across an await |
| `LoginStore`, `LoginService`, `LoginInvariants`, `LoginProofs`, `LoginTheorems`, `LoginOutcomes`, `LoginWitnesses`, `LoginQueue` | Login's two tables, its queue, its runner, its retry and recovery code |
| `OauthProtocol` | both services and the messages between them |
| `ModelsCache`, `ModelsAnswers`, `CopilotClient` | the single-flight cache of model catalogs |
| `BatchOperations`, `BatchResults`, `OperationManager` | batch operations of the console |
| `InitializationLease`, `StatsRetention`, `MysqlMigration` | leases, retention and the resumable MySQL upgrade |
| `ClaudeProfile`, `ClaudeProfileFields`, `ClaudeMessages`, `ClaudeTexts` | the rewriting of Claude requests |
| `DiagnosticFormat`, `DiagnosticLog` | the diagnostic log: framing and rotation |
| `LikeSearch`, `CsvText`, `TokenImport`, `JsText` | search patterns, CSV cells and the token import |
| `LastWriter` | reading a value off the history of its writes |

## How the model is built

Code between two awaits runs without interruption, so one such piece is one step. A system is a state, a datatype of
steps with an `Enabled` predicate and an `Apply` function, and `IsRun`, which says that a sequence of states is a run. The
theorems quantify over every run. Most invariants are conjunctions of small predicates about one task, entry, item or
account, and each step is shown to keep each of them.

Beside what is never wrong, `ProxyLedger`, `LoginOutcomes`, `ModelsAnswers` and `BatchResults` state what every run
achieves: which step writes what, and that nothing else does. `ProxyLedger`, `ModelsAnswers` and `BatchResults` read a
row, a cached catalog or an item off the history of its writers, without the step functions. `ClaudeTexts` and
`ClaudeProfileFields` say the same of a request, in terms of its JSON.

State the program changes in place is a class (`AccountTable`, `TasksRepo`, `LoginQueue`, `ModelsCacheState`,
`RunningOperation`, `Manager`, `LeaseTable`, `StatsTable`, `Connection`, `RequestBody`, `ErrorDiagnosticsStore`); its
methods keep the program's loops and are proved equal to the step functions the theorems speak about.

Where the code falls short of a general promise, a lemma constructs a run that shows it and the theorem states the exact
condition:

- A retry that names no previous attempt can begin the same attempt twice when its request is delivered twice, and can then
  store two tokens (`UnnamedRetryCanStoreTwoTokens`). Login always names the previous attempt, so the composed system is
  not affected (`RetryBeginsAgainIff`, `NamedRetriesAreFenced`, `SuccessMeansProxyAccepted`).
- An attempt id submitted again after its task was deleted is queued, and can be run, a second time
  (`RecycledAttemptRunsTwice`); nothing else queues an attempt twice (`QueuedTwiceIff`).
- `retryTask` tests `isBusy` before it waits for the pool check, and the queue drops a prepared retry whose task is busy. The
  task then stays `pending` with nobody to run it until it is cancelled or Login restarts (`RetryCanStrandATask`), and this
  is the only way there (`RetryIsStrandedIff`, `UnfinishedTasksAreOwned`).
- A lease claim compares with the time it read when it started, and on MySQL needs two statements. It can therefore refuse
  although nobody holds the lease, in exactly three cases, and all three happen: the lease ran out meanwhile, the row that
  stopped the INSERT is gone by the UPDATE, or the row is that of a claim whose answer was lost and which nobody will
  release before it expires (`SpuriousRefusalIff`, `SpuriousRefusalHappens`).
- A completed batch operation can show `pending` items, exactly those for which `perform` or `refresh` answered `pending`
  (`FinishedItemsAreSettled`, `CompletedCanShowPending`). This depends on the callbacks: none of those the two services pass
  to the operation manager answers `pending`.
- A diagnostic record is not read back whole when its text contains its own end marker, or a marker line followed by a
  summary that names its id, as a body does that quotes another record on lines of its own. Every other record is
  (`ReadBackIff`, `QuotedRecordBreaks`).
- A CSV row written by the console spans several lines of the import file exactly when a cell contains a line feed
  (`RowIsOneLineIff`).

## Model

| member | source | states |
|---|---|---|
| `ProxyAccounts.AccountTable.SaveCopilotOauthToken` | src/proxy/src/db/sqliteStorage.ts:259-278 | only while the row names this attempt and is refreshing: the row then holds the token and the login if one is given, is valid and names no attempt, and keeps the rest |
| `ProxyAccounts.AccountTable.BeginCopilotOauthAuthorization` | src/proxy/src/db/sqliteStorage.ts:286-296 | an attempt begins unconditionally, or only when the row still names the expected attempt |
| `ProxyAccounts.AccountTable.FailCopilotOauthAuthorization` | src/proxy/src/db/sqliteStorage.ts:298-306 | a failure is recorded only for the attempt the row names |
| `ProxyAccounts.AccountTable.InvalidateCopilotOauthToken` | src/proxy/src/db/sqliteStorage.ts:308-322 | a token is invalidated only while it is still the stored one |
| `ProxyAccounts.AccountTable.ImportCopilotOauthToken` | src/proxy/src/db/sqliteStorage.ts:228-257 | an import stores a valid token and clears the attempt |
| `ProxyAccounts.StepKeepsInv` | src/proxy/src/db/mysqlStorage.ts:323-383 | every statement and every suspended handler keeps the invariant that ties the row to the history of begun, saved and failed attempts |
| `ProxyAccounts.RunKeepsInv` | src/proxy/src/routes/internalApi.ts:107-130 | the invariant holds after every run with delayed, duplicated and lost requests and restarts |
| `ProxyAccounts.WritesBelongToLatestAttempt` | src/proxy/src/db/sqliteStorage.ts:259-306 | over every run, a stored token or recorded failure belonged to the attempt begun most recently at that moment |
| `ProxyAccounts.NamedRetriesAreFenced` | src/proxy/src/accounts/loginAuthorization.ts:42-62 | when every retry names the attempt it replaces, no attempt is ever begun twice |
| `ProxyAccounts.RetryBeginsAgainIff` | src/proxy/src/accounts/loginAuthorization.ts:42-78 | a suspended retry whose attempt was begun before begins it again exactly when it names no previous attempt and the account names none |
| `ProxyAccounts.AtMostOneToken` | src/proxy/src/db/sqliteStorage.ts:259-278 | at most one token is ever stored for an attempt |
| `ProxyAccounts.CancelWins` | src/proxy/src/db/sqliteStorage.ts:298-306 | once the failure of an attempt took effect, no token of it is ever stored |
| `ProxyAccounts.StoredTokenIsKept` | src/proxy/src/routes/internalApi.ts:203-223 | once a token is stored, no failure report of its attempt ever takes effect |
| `ProxyAccounts.RetryReplacesOnlyItsPrevious` | src/proxy/src/accounts/loginAuthorization.ts:42-78 | a retry that names a previous attempt replaces exactly that one and never reopens a valid account, although it is suspended between check and write |
| `ProxyAccounts.RetryReopensValidIff` | src/proxy/src/accounts/loginAuthorization.ts:42-78 | a suspended retry turns a valid account to refreshing exactly when it names no previous attempt |
| `ProxyAccounts.UnnamedRetryCanStoreTwoTokens` | src/proxy/src/accounts/loginAuthorization.ts:42-62 | a concrete run in which a duplicated retry without a previous attempt stores two tokens for one attempt |
| `ProxyLedger.FieldsAreLastWritten` | src/proxy/src/db/sqliteStorage.ts:201-322 | over every run, the token, status, attempt, owner and login of a row are what the last step that writes that field wrote, and no token is on record for a deleted account |
| `ProxyLedger.SavedTokenIsStored` | src/proxy/src/db/sqliteStorage.ts:259-278 | over every run, a save the account still awaits leaves the row valid with exactly its token, which the appended event carries; a known login is replaced only by a given one, and any other save changes nothing |
| `ProxyLedger.RowsComeAndGo` | src/proxy/src/db/sqliteStorage.ts:201-257 | a row comes with a creation or an import and goes with a deletion, together with its token |
| `ProxyLedger.SuspendedRetryWasChecked` | src/proxy/src/accounts/loginAuthorization.ts:42-78 | every suspended retry found its account, at some earlier moment of the run, in its enterprise, under its user and login, not valid and naming the attempt it replaces |
| `ProxyLedger.SuspendedSaveWasChecked` | src/proxy/src/routes/internalApi.ts:107-117 | every suspended save found its attempt in charge of an account of its enterprise |
| `LoginStore.MaxNumber` | src/login/src/db/tasksRepo.ts:443-450 | the highest attempt number of a task, 0 without attempts |
| `LoginStore.HistoryKeepsNumbered` | src/login/src/db/tasksRepo.ts:452-476 | a write that keeps the attempts of surviving tasks keeps their numbering 1..n |
| `LoginStore.ExtensionKeepsNumbered` | src/login/src/db/tasksRepo.ts:193-212 | a retry's new attempt extends the numbering by one and becomes the highest |
| `LoginTheorems.StepKeepsInv` | src/login/src/tasks/queue.ts:57-205 | every step of enqueue, retry, cancel, run, delete and restart keeps the invariant of tables and queue |
| `LoginTheorems.RunKeepsInv` | src/login/src/tasks/queue.ts:57-205 | the invariant holds after every run of the Login process |
| `LoginTheorems.OneActiveTaskPerIdentity` | src/login/src/db/tasksRepo.ts:79-99 | over every run, at most one task per identity is pending, running or cancelling, across all enterprises |
| `LoginTheorems.HistoryIsConsistent` | src/login/src/db/tasksRepo.ts:418-476 | a task shows its current attempt's status, all others are failed, numbers are exactly 1..n with the current one highest, and the counter equals the attempts that started |
| `LoginTheorems.SupersededAttemptIsFrozen` | src/login/src/db/tasksRepo.ts:193-290 | from the moment an attempt is no longer current, at every later moment of the run its row is the same and still superseded, or its task is gone for good |
| `LoginTheorems.EndedAttemptIsFinal` | src/login/src/db/tasksRepo.ts:214-290 | from the moment an attempt ended, at every later moment of the run its row is the same and no task takes it up again, or its task is gone for good |
| `LoginTheorems.UnfinishedTasksAreOwned` | src/login/src/tasks/queue.ts:57-132 | over every run, a running or cancelling task has its run or its cancellation, and a pending one is neither queued nor being prepared exactly when Proxy's answer to its retry arrived while the task was busy |
| `LoginTheorems.RetryIsStrandedIff` | src/login/src/tasks/queue.ts:75-90 | after a wanted retry was prepared, the task is stranded exactly when it is busy at that moment, the guard of `retry` |
| `LoginTheorems.StepQueues` | src/login/src/tasks/queue.ts:57-90 | a step queues at most one attempt, and one that was queued before exactly when a submission recreates its deleted task |
| `LoginTheorems.QueuedTwiceIff` | src/login/src/db/tasksRepo.ts:79-90 | over every run, an attempt is queued more than once exactly when some submission finds it queued before, gone from the tables and its account without an active task |
| `LoginTheorems.SuccessWasConfirmed` | src/login/src/tasks/runner.ts:60-67 | a successful task's attempt had its token write confirmed |
| `LoginTheorems.StartsFollowQueueOrder` | src/login/src/tasks/queue.ts:168-205 | the sequence of started attempts is a subsequence of the order in which they were queued |
| `LoginTheorems.AttemptStartsAtMostOnce` | src/login/src/tasks/queue.ts:57-94 | an attempt that is never resubmitted in this way reaches the runner at most once in the whole history, restarts included |
| `LoginTheorems.SlotsAreExclusive` | src/login/src/tasks/queue.ts:183-205 | queued tasks are distinct and hold no slot, so a start never replaces the controller or completion of a live run |
| `LoginTheorems.DrainFillsSlots` | src/login/src/tasks/queue.ts:168-176 | draining never passes the limit read at that moment and stops only at the limit or with an empty queue |
| `LoginTheorems.CancellingNeverFails` | src/login/src/tasks/queue.ts:96-132 | once cancelling, a task is cancelling, cancelled, successful or deleted at every later moment, never failed |
| `LoginOutcomes.ConfirmedRunSucceeds` | src/login/src/tasks/runner.ts:60-67 | a run whose token write Proxy confirmed ends its task and attempt as successful, and the task shows that for as long as it exists |
| `LoginOutcomes.ThrownRunFails` | src/login/src/tasks/runner.ts:69-83 | a run that throws, before or after its token was sent, fails its attempt at once; an aborted one leaves the tables alone |
| `LoginOutcomes.FailureIsReported` | src/login/src/tasks/queue.ts:191-216 | the failure of a run that was not aborted is reported to Proxy under its own account and attempt, and nothing else is sent |
| `LoginOutcomes.ObtainedTokenIsSent` | src/login/src/tasks/runner.ts:60-64 | the token is sent under the run's own account and attempt while the task goes on running |
| `LoginOutcomes.StageIsShown` | src/login/src/db/tasksRepo.ts:214-229 | the stage a live run reports is shown by its task and its attempt |
| `LoginOutcomes.SettledSlotIsFreed` | src/login/src/tasks/queue.ts:196-203 | a settled run gives up its slot and all others keep theirs |
| `LoginOutcomes.CancellationIsOpened` | src/login/src/tasks/queue.ts:96-109 | cancelling an unfinished task marks it, takes it and no other out of the queue, aborts its run and opens the closing; cancelling any other changes nothing |
| `LoginOutcomes.CancellationIsClosed` | src/login/src/tasks/queue.ts:116-132 | a task that is still cancelling ends as cancelled for good and Proxy is told; otherwise nothing is written or sent |
| `LoginOutcomes.EndedStays` | src/login/src/db/tasksRepo.ts:452-476 | a task that shows a successful or cancelled attempt shows it at every later moment, and an attempt that failed keeps its row, until the task is deleted |
| `LoginOutcomes.SubmissionIsTaken` | src/login/src/tasks/queue.ts:57-73 | a submission is queued or started exactly when its attempt is unknown and its account has no unfinished task; any other changes nothing |
| `LoginOutcomes.SubmissionIsAnswered` | src/login/src/db/tasksRepo.ts:79-99 | what a submission is answered: created, existing, conflict or already active |
| `LoginOutcomes.RetryIsReserved` | src/login/src/tasks/retry.ts:27-32 | exactly while its task can be retried, a retry starts it over with the next attempt and asks Proxy to prepare that in place of the one it saw |
| `LoginOutcomes.RetryIsAnswered` | src/login/src/tasks/retry.ts:32-52 | a wanted retry that was prepared is queued or started unless an earlier run holds its slot, a refused one fails, and one no longer wanted is released at Proxy |
| `LoginOutcomes.FinishedTaskIsDeleted` | src/login/src/db/tasksRepo.ts:326-335 | a finished task is deleted with all of its attempts and nothing else |
| `LoginOutcomes.DeletionIsClaimed` | src/login/src/db/tasksRepo.ts:337-347 | a finished task is claimed once and remembers the stage it showed |
| `LoginOutcomes.ClaimIsGivenUp` | src/login/src/db/tasksRepo.ts:350-357 | a claim that is given up shows the remembered stage again, or how the task ended |
| `LoginOutcomes.RestartEndsTasks` | src/login/src/tasks/recovery.ts:24-44 | a restart fails every pending or running task and cancels every cancelling one, tells Proxy of each and of nothing else, and leaves the others as they were |
| `LoginWitnesses.RecycledAttemptRunsTwice` | src/login/src/db/tasksRepo.ts:326-335 | a run in which an attempt resubmitted after the deletion of its task is started twice |
| `LoginWitnesses.RetryCanStrandATask` | src/login/src/tasks/retry.ts:22-42 | a run after which a task is pending although no queue entry, run, preparation or cancellation owns it |
| `LoginQueue.TasksRepo.CreateTask` | src/login/src/db/tasksRepo.ts:79-90 | creates the task and its first attempt, returns the existing one, or refuses a conflict or a second active task |
| `LoginQueue.TasksRepo.HighestNumber` | src/login/src/db/tasksRepo.ts:443-450 | the loop over the attempts finds the highest number of the task |
| `LoginQueue.TasksRepo.ReserveRetry` | src/login/src/db/tasksRepo.ts:193-212 | reserves exactly when the task is failed, not being deleted, still names the expected attempt and no task of the identity is active |
| `LoginQueue.TasksRepo.SetStage` | src/login/src/db/tasksRepo.ts:214-229 | the stage is written only for the current attempt of an unfinished task |
| `LoginQueue.TasksRepo.MarkRunning` | src/login/src/db/tasksRepo.ts:231-254 | only the current pending attempt starts, and it is counted |
| `LoginQueue.TasksRepo.RequestCancellation` | src/login/src/db/tasksRepo.ts:274-290 | an unfinished task and its attempt become cancelling |
| `LoginQueue.TasksRepo.FinishAttempt` | src/login/src/db/tasksRepo.ts:452-476 | only the current attempt of an unfinished task is finished |
| `LoginQueue.TasksRepo.DeleteTask` | src/login/src/db/tasksRepo.ts:326-335 | deletes a finished task together with its attempts, and no other |
| `LoginQueue.TasksRepo.ClaimTaskDeletion` | src/login/src/db/tasksRepo.ts:337-347 | claims a finished task that is not claimed yet and remembers its stage |
| `LoginQueue.TasksRepo.ReleaseTaskDeletion` | src/login/src/db/tasksRepo.ts:350-357 | gives a claim up |
| `LoginStore.ReleaseUndoesClaim` | src/login/src/db/tasksRepo.ts:337-357 | a claim that is given up leaves the task as it was, its diagnostic stage included |
| `LoginQueue.TasksRepo.ListUnfinished` | src/login/src/db/tasksRepo.ts:359-366 | lists every unfinished task of the enterprise exactly once |
| `LoginQueue.TasksRepo.CloseInterruptedTasks` | src/login/src/tasks/recovery.ts:29-44 | releases deletion claims, then finishes every unfinished task of the enterprise and lists exactly those for Proxy |
| `LoginQueue.TasksRepo.RecoverLoginOutcomes` | src/login/src/tasks/recovery.ts:24-27 | recovery enterprise by enterprise leaves the tables in which everything unfinished is closed at once |
| `LoginQueue.FinishAllClosesListed` | src/login/src/tasks/recovery.ts:34-42 | one transaction per listed task closes exactly the listed tasks and their current attempts |
| `LoginQueue.OneMoreEnterprise` | src/login/src/tasks/recovery.ts:24-27 | recovering one more enterprise extends what is closed by exactly its tasks |
| `LoginQueue.LoginQueue.constructor` | src/login/src/tasks/queue.ts:42-55 | a new queue is empty and accepts work |
| `LoginQueue.LoginQueue.FindIndex` | src/login/src/tasks/queue.ts:100-101 | finds the first queued payload of a task and what removing it leaves |
| `LoginQueue.LoginQueue.IsBusy` | src/login/src/tasks/queue.ts:92-94 | true exactly when the task holds a slot or is queued |
| `LoginQueue.LoginQueue.Start` | src/login/src/tasks/queue.ts:183-205 | takes a slot, marks the task running and registers its controller and completion |
| `LoginQueue.LoginQueue.Drain` | src/login/src/tasks/queue.ts:168-176 | the loop does what the scheduling function of the theorems does |
| `LoginQueue.LoginQueue.Enqueue` | src/login/src/tasks/queue.ts:57-73 | creates or finds the task and queues it unless it is busy or no longer waiting |
| `LoginQueue.LoginQueue.Retry` | src/login/src/tasks/queue.ts:75-90 | queues a reserved attempt only while it is still pending and the task is idle |
| `LoginQueue.LoginQueue.Cancel` | src/login/src/tasks/queue.ts:96-109 | marks, removes from the queue, aborts the run and opens at most one cancellation |
| `LoginQueue.LoginQueue.FinishCancellation` | src/login/src/tasks/queue.ts:116-132 | closes the task as cancelled and reports it only while it is still cancelling that attempt |
| `LoginQueue.LoginQueue.CloseCancellation` | src/login/src/tasks/queue.ts:128-131 | releases the guard key and the cancellation |
| `LoginQueue.LoginQueue.CatchRun` | src/login/src/tasks/queue.ts:191-195 | an aborted run is left to its cancellation; any other is failed and reported |
| `LoginQueue.LoginQueue.Settle` | src/login/src/tasks/queue.ts:196-203 | frees the slot and drains |
| `LoginQueue.LoginQueue.StopAccepting` | src/login/src/tasks/queue.ts:164-166 | nothing starts afterwards |
| `OauthProtocol.RunKeepsInv` | src/proxy/src/routes/internalApi.ts:107-130 | over every run of both services, what Login learned is in Proxy's history and every stored token was sent by Login |
| `OauthProtocol.SuccessMeansProxyAccepted` | src/login/src/tasks/runner.ts:60-81 | when Login shows success, Proxy stored exactly one token for that attempt, sent by Login, while the attempt was the account's latest |
| `OauthProtocol.NoSuccessAfterReportedFailure` | src/login/src/tasks/queue.ts:116-132 | once a failure report took effect at Proxy, Login never shows success for that attempt |
| `OauthProtocol.AnswersAreExact` | src/proxy/src/routes/internalApi.ts:107-130 | over every run, Proxy accepted exactly the tokens it stored and confirmed exactly the retries it began |
| `OauthProtocol.AcceptedLoginSucceeds` | src/login/src/tasks/runner.ts:64-65 | a login that hears of its stored token shows success, and Proxy stored a token Login sent for that attempt |
| `ModelsCache.StepKeepsInv` | src/proxy/src/copilot/copilotClient.ts:267-388 | lookup, abort, response, timeout, clear and removal keep the invariant of entries, refreshes and waiters |
| `ModelsCache.OneCurrentEntryPerAccount` | src/proxy/src/copilot/copilotClient.ts:297-315 | at most one credential of an account has a current entry, a retired entry holds no catalog, and a key maps to its own entry |
| `ModelsCache.WaitersSettleOnceAndInTime` | src/proxy/src/copilot/copilotClient.ts:317-388 | every waiter is resolved or rejected at most once and has been when the refresh timeout has passed |
| `ModelsCache.DetachedRefreshIsDead` | src/proxy/src/copilot/copilotClient.ts:328-376 | a refresh detached from its entry stays detached, has no waiters, and no entry ever receives its catalog |
| `ModelsCache.NothingOlderThanTheClear` | src/proxy/src/copilot/copilotClient.ts:173-178 | a lookup started after a clear returns only a catalog whose request went out after that clear, cached, fresh or stale |
| `ModelsCache.LookupsReturnUsableCatalogs` | src/proxy/src/copilot/copilotClient.ts:267-295 | a cached catalog is unexpired, a fresh one was fetched by the refresh the lookup joined, a stale one follows only a failure that does not speak against the credential and is at most six hours old |
| `ModelsCache.LastAbortSettles` | src/proxy/src/copilot/copilotClient.ts:330-341 | the last waiter to leave settles the refresh as a timeout would, rejecting only itself |
| `ModelsAnswers.OutcomeWasGiven` | src/proxy/src/copilot/copilotClient.ts:317-388 | over every run, what ended a lookup is what some step gave it, and it holds what its call read |
| `ModelsAnswers.FreshIff` | src/proxy/src/copilot/copilotClient.ts:278-280 | a lookup answers a fresh catalog exactly when a response brought that one while it waited for it |
| `ModelsAnswers.CachedIff` | src/proxy/src/copilot/copilotClient.ts:273-276 | it answers a cached one exactly when that was held and under an hour old at the call, and no refresh was forced |
| `ModelsAnswers.FailedLookupAnswers` | src/proxy/src/copilot/copilotClient.ts:281-294 | after a failure it answers the catalog captured at the call exactly when the failure is no collision, 401, 403 or 429, stale is allowed, the signal did not fire and the catalog is at most six hours old; otherwise it throws the failure or the abort |
| `ModelsAnswers.OtherAnswersFollowFailures` | src/proxy/src/copilot/copilotClient.ts:281-294 | it throws or answers stale only after such a failure |
| `ModelsAnswers.LookupJoins` | src/proxy/src/copilot/copilotClient.ts:317-353 | a lookup without a usable catalog waits for the refresh its key has under way, or starts the only one, with thirty seconds to go |
| `ModelsAnswers.ResponseIsDelivered` | src/proxy/src/copilot/copilotClient.ts:353-388 | a response in time resolves every unanswered lookup of its refresh and is stored unless the entry was retired; one of a given-up refresh is stored nowhere |
| `ModelsAnswers.HeldIsLastDelivered` | src/proxy/src/copilot/copilotClient.ts:297-315 | over every run, the cache holds for a key the catalog last delivered to its current entry, unless the account was cleared, the key forgotten or another credential looked up since; no other account is touched |
| `CopilotClient.ModelsCacheState.Retire` | src/proxy/src/copilot/copilotClient.ts:302-307 | the loop retires exactly the other credentials of the account and drops the idle ones |
| `CopilotClient.ModelsCacheState.ModelsCacheEntry` | src/proxy/src/copilot/copilotClient.ts:297-315 | the key afterwards has a current entry: found, revived or created |
| `CopilotClient.ModelsCacheState.RefreshModelsSnapshot` | src/proxy/src/copilot/copilotClient.ts:317-376 | joins the entry's refresh or starts one with its timer |
| `CopilotClient.ModelsCacheState.LookupModelsSnapshot` | src/proxy/src/copilot/copilotClient.ts:267-280 | serves an unexpired catalog or waits for a refresh, and keeps the invariant |
| `CopilotClient.ModelsCacheState.SettleModelsRefresh` | src/proxy/src/copilot/copilotClient.ts:378-388 | detaches the refresh, drops a retired entry and answers every waiter once |
| `CopilotClient.ModelsCacheState.AnswerAll` | src/proxy/src/copilot/copilotClient.ts:382-387 | the loop answers exactly the waiters, one call each |
| `CopilotClient.ModelsCacheState.OnTimeout` | src/proxy/src/copilot/copilotClient.ts:346-351 | the waiters are rejected and the request is aborted |
| `CopilotClient.ModelsCacheState.OnFetched` | src/proxy/src/copilot/copilotClient.ts:354-372 | an aborted or colliding response stores nothing; otherwise a current entry receives the catalog and the waiters are resolved |
| `CopilotClient.ModelsCacheState.OnFetchFailed` | src/proxy/src/copilot/copilotClient.ts:373-373 | the waiters are rejected |
| `CopilotClient.ModelsCacheState.OnAbort` | src/proxy/src/copilot/copilotClient.ts:330-341 | the waiter leaves; the last one takes the refresh with it |
| `CopilotClient.ModelsCacheState.ClearModelsCache` | src/proxy/src/copilot/copilotClient.ts:173-178 | removes exactly the keys of the account |
| `BatchOperations.WorkerCount` | src/packages/shared/src/operations.ts:149-149 | at least one worker when there are items, at most 20 and at most one per item |
| `BatchOperations.StepKeepsInv` | src/packages/shared/src/operations.ts:116-201 | every step of the workers and of the poll keeps the invariant of items, workers and history |
| `BatchOperations.PerformedExactlyOnce` | src/packages/shared/src/operations.ts:89-146 | however workers interleave and however often the operation is confirmed, each pending item is performed at most once and exactly once when completed; a skipped item never is |
| `BatchOperations.FinishedItemsAreSettled` | src/packages/shared/src/operations.ts:106-155 | a completed operation shows an item pending exactly when it was answered pending, and with a refresh function none running; a stopped one shows neither |
| `BatchOperations.CompletedCanShowPending` | src/packages/shared/src/operations.ts:116-155 | a run in which an item answered pending stays pending in a completed operation |
| `BatchOperations.PollingIsBounded` | src/packages/shared/src/operations.ts:165-201 | reads of an item fail at most ten times in a row, after which it is interrupted; its status is what its last reading says |
| `BatchResults.ItemsAreLastWritten` | src/packages/shared/src/operations.ts:116-201 | over every run, an item is what was last written into it: the start of its work, the answer of `perform`, a reading, or the stop |
| `BatchResults.PerformedItemShowsAnswer` | src/packages/shared/src/operations.ts:130-140 | an item that was performed shows exactly what `perform` answered until it is read, then its last reading; a stop changes it only from pending or running to interrupted |
| `BatchResults.PerformingItemIsRunning` | src/packages/shared/src/operations.ts:126-129 | while `perform` works on an item it shows as running and was pending in the preview |
| `BatchResults.StatusIsExact` | src/packages/shared/src/operations.ts:99-155 | an operation is confirmed once with the workers it asked for within bounds, is stopped exactly when a worker crashed, and completed once nothing is running |
| `OperationManager.UnreachableServiceEndsPolling` | src/packages/shared/src/operations.ts:157-201 | when progress can no longer be read at all, ten more rounds complete the operation |
| `OperationManager.TurnKeepsInv` | src/packages/shared/src/operations.ts:123-141 | a worker's turn is a run of single looks at the shared index |
| `OperationManager.RunningOperation.WorkerTurn` | src/packages/shared/src/operations.ts:125-132 | the loop passes over settled items until it performs one or finds no more |
| `OperationManager.RunningOperation.PerformReturned` | src/packages/shared/src/operations.ts:131-140 | the answer of `perform` is stored as it is in the item the worker took, and no other item changes |
| `OperationManager.RunningOperation.Stop` | src/packages/shared/src/operations.ts:106-112 | after a crash every pending or running item is interrupted and no other changes |
| `OperationManager.RunningOperation.VisitItem` | src/packages/shared/src/operations.ts:173-198 | one read of one running item: success resets its failures, the tenth failure or a missing resource interrupts it |
| `OperationManager.RunningOperation.PollRound` | src/packages/shared/src/operations.ts:171-200 | one round reads every running item once, in order |
| `OperationManager.Manager.Sweep` | src/packages/shared/src/operations.ts:204-212 | removes exactly the expired previews and old results, never an executing operation |
| `OperationManager.Manager.Get` | src/packages/shared/src/operations.ts:66-70 | finds an operation of its own scope that has not expired |
| `OperationManager.Manager.StartPreview` | src/packages/shared/src/operations.ts:72-87 | accepts 1 to 1000 records and freezes each as pending or skipped |
| `OperationManager.Manager.Confirm` | src/packages/shared/src/operations.ts:89-114 | starts a preview once; a repeated confirmation changes nothing |
| `InitializationLease.LeaseIsExclusive` | src/proxy/src/db/mysqlStorage.ts:385-413 | over every interleaving of replicas, no two hold an unexpired, unreleased lease of one identity, and the table names the one that does |
| `InitializationLease.OnlyHolderEndsLease` | src/proxy/src/db/sqliteStorage.ts:324-351 | the table row of a live lease stays as it is, whatever the other replicas do, until its holder releases it or it runs out |
| `InitializationLease.SupersededReleaseRemovesNothing` | src/proxy/src/db/mysqlStorage.ts:415-421 | once another claim of the identity was granted after it, every later release of the earlier holder leaves the table unchanged |
| `InitializationLease.StepKeepsLost` | src/proxy/src/db/mysqlStorage.ts:393-421 | a row that a finished claim no longer holds is lost to it for good |
| `InitializationLease.TwoStatementsAreOne` | src/proxy/src/db/mysqlStorage.ts:393-406 | without another replica in between, INSERT then UPDATE decides and writes what the one upsert does |
| `InitializationLease.SpuriousRefusalIff` | src/proxy/src/db/mysqlStorage.ts:391-406 | over every run, a deciding statement refuses although no replica holds the lease exactly when the lease ran out after the claim read its clock, the row that stopped the INSERT is gone by the UPDATE, or the row is that of a claim whose answer was lost |
| `InitializationLease.SpuriousRefusalHappens` | src/proxy/src/db/mysqlStorage.ts:385-413 | runs for all three cases: the row gone, the row still there but run out, and the row of a claim whose answer was lost |
| `InitializationLease.StatementDecides` | src/proxy/src/db/mysqlStorage.ts:385-413 | over every run, a statement takes the row with the claim's id and expiry exactly when no row stands in its way at the claim's time, and the claim is granted, refused or goes on to its UPDATE accordingly |
| `InitializationLease.ReleaseFrees` | src/proxy/src/db/sqliteStorage.ts:347-351 | a release removes exactly the row of its claim |
| `InitializationLease.ClaimKeepsTimes` | src/proxy/src/db/sqliteStorage.ts:324-345 | a claim compares with the time it was called at, and its lease lasts as long as it asked for |
| `InitializationLease.LockErrorRetries` | src/proxy/src/db/mysqlStorage.ts:385-413 | the third lock error of a claim is thrown, after the first two it starts again |
| `InitializationLease.LeaseTable.ClaimSqlite` | src/proxy/src/db/sqliteStorage.ts:324-345 | grants exactly when there is no lease that outlives the claim's time |
| `InitializationLease.LeaseTable.ClaimMysql` | src/proxy/src/db/mysqlStorage.ts:385-413 | at most three attempts; the first without a lock error decides as SQLite would, and only a third error is thrown |
| `InitializationLease.LeaseTable.Release` | src/proxy/src/db/sqliteStorage.ts:347-351 | deletes the lease only when this claim holds it |
| `StatsRetention.PruneKeepsTop` | src/proxy/src/db/sqliteStorage.ts:435-448 | ordering with a limit keeps exactly the rows with fewer newer rows than the limit, and no other account changes |
| `StatsRetention.PruneAllKeepsTop` | src/proxy/src/db/sqliteStorage.ts:410-429 | numbering each account's rows by their place in its ordered listing keeps of every account exactly what its own ordered LIMIT keeps |
| `StatsRetention.RowNumberIsRank` | src/proxy/src/db/sqliteStorage.ts:414-426 | the row number of a row is one more than the newer rows of its account |
| `StatsRetention.TopSize` | src/proxy/src/db/sqliteStorage.ts:435-448 | the kept rows are as many as the limit allows |
| `StatsRetention.TopSurvives` | src/proxy/src/db/mysqlStorage.ts:509-522 | a table that holds the newest rows ever recorded ranks them as the full history does |
| `StatsRetention.NewestAreKept` | src/proxy/src/db/mysqlStorage.ts:423-449 | over every interleaving of inserts and deletes the newest rows are present, and once a delete follows the last insert they are the only ones |
| `StatsRetention.LatestRowSurvives` | src/proxy/src/db/sqliteStorage.ts:435-448 | a row requested later than all others of its account survives every delete when any row is kept |
| `StatsRetention.DroppedRowsAreOlder` | src/proxy/src/db/sqliteStorage.ts:435-448 | once an account is pruned, every row that is gone was requested earlier than every row left, or at the same time with a lower id |
| `StatsRetention.GlobalPruneIsNoOp` | src/proxy/src/db/mysqlStorage.ts:489-507 | once every account is pruned the global delete changes nothing |
| `StatsRetention.StatsTable.PruneStats` | src/proxy/src/db/sqliteStorage.ts:435-448 | leaves the newest rows of the account and every other account's rows |
| `StatsRetention.StatsTable.RecordRequestStat` | src/proxy/src/db/sqliteStorage.ts:353-380 | after a record the account holds its newest rows, the new one counted |
| `MysqlMigration.DoneStaysDone` | src/proxy/src/db/mysqlEnterpriseMigrations.ts:280-341 | no statement undoes another: what a guard found applied stays applied |
| `MysqlMigration.CrashIsHarmless` | src/proxy/src/db/mysqlEnterpriseMigrations.ts:69-87 | a run cut at any statement boundary and started again ends like the uninterrupted run |
| `MysqlMigration.RestartsReachTheSameDatabase` | src/proxy/src/db/mysqlEnterpriseMigrations.ts:69-87 | any number of crashes at any boundaries leaves the same columns, defaults, keys, rows and records |
| `MysqlMigration.RecordedStepsHold` | src/proxy/src/db/mysqlEnterpriseMigrations.ts:74-79 | wherever a run is cut, every recorded step has all of its changes in place |
| `MysqlMigration.OrderedStepsSucceed` | src/proxy/src/db/mysqlEnterpriseMigrations.ts:83-87 | steps whose changes come after what they need run through, whichever were recorded before; a key needs the enterprise column, a foreign key also what it refers to |
| `MysqlMigration.BaseStepsOrdered` | src/proxy/src/db/mysqlEnterpriseMigrations.ts:32-51 | in the base steps every statement comes after the column, registry row or table it needs |
| `MysqlMigration.PoolStepsOrdered` | src/proxy/src/db/mysqlEnterpriseMigrations.ts:53-67 | the same in the pool steps, given the unique key of the accounts from the base steps |
| `MysqlMigration.UpgradeIsCrashSafe` | src/proxy/src/db/mysqlEnterpriseMigrations.ts:32-87 | the whole upgrade with any crashes ends as uninterrupted, with every step recorded and every change in place |
| `MysqlMigration.EveryRowIsAssigned` | src/proxy/src/db/mysqlEnterpriseMigrations.ts:279-341 | afterwards every row of a legacy database belongs to the default enterprise and no temporary default is left |
| `MysqlMigration.UpgradeKeepsData` | src/proxy/src/db/mysqlEnterpriseMigrations.ts:69-87 | however often the upgrade is cut and restarted, no key, no assigned row and no registered enterprise is lost or changed |
| `MysqlMigration.UpgradedSchema` | src/proxy/src/db/mysqlEnterpriseMigrations.ts:32-67 | afterwards the registry holds the default enterprise and every table its column, keys and foreign keys |
| `MysqlMigration.Connection.ApplyChanges` | src/proxy/src/db/mysqlEnterpriseMigrations.ts:83-87 | runs the guarded statements in order |
| `MysqlMigration.Connection.RunMigrationSteps` | src/proxy/src/db/mysqlEnterpriseMigrations.ts:69-81 | performs the plan of the unrecorded steps and returns their ids in order |
| `ClaudeProfile.RewrittenBodyConforms` | src/proxy/src/routes/claudeCodeCompat.ts:232-308 | effort and thinking mode fit the profile, an enabled budget is within the cap and strictly below max_tokens, and no tool is forced while thinking |
| `ClaudeProfile.ConformingBodyIsUnchanged` | src/proxy/src/routes/claudeCodeCompat.ts:232-308 | a body that already fits is left alone |
| `ClaudeProfile.ApplyModelProfileIsIdempotent` | src/proxy/src/routes/claudeCodeCompat.ts:232-238 | rewriting twice is rewriting once |
| `ClaudeProfile.AdaptiveRequestIsTranslated` | src/proxy/src/routes/claudeCodeCompat.ts:249-276 | for a model without adaptive thinking, an adaptive request keeps a requested budget that fits and loses its thinking exactly when max_tokens is at most 1024 |
| `ClaudeProfile.OtherFieldsAreKept` | src/proxy/src/routes/claudeCodeCompat.ts:232-308 | only effort, thinking and tool choice can change |
| `ClaudeProfile.RequestBody.ApplyEffort` | src/proxy/src/routes/claudeCodeCompat.ts:240-247 | removes an effort the profile does not accept, and an output configuration left empty |
| `ClaudeProfile.RequestBody.ApplyThinking` | src/proxy/src/routes/claudeCodeCompat.ts:249-276 | translates the thinking mode to one the profile has |
| `ClaudeProfile.RequestBody.CapBudget` | src/proxy/src/routes/claudeCodeCompat.ts:278-299 | caps an enabled budget, or drops thinking when no budget fits |
| `ClaudeProfile.RequestBody.DisableForcedTool` | src/proxy/src/routes/claudeCodeCompat.ts:301-308 | a forced tool becomes automatic while thinking is on |
| `ClaudeProfile.RequestBody.ApplyProfile` | src/proxy/src/routes/claudeCodeCompat.ts:232-238 | the steps in order leave a body that fits the profile |
| `ClaudeProfileFields.EffortIsExact` | src/proxy/src/routes/claudeCodeCompat.ts:240-247 | the output configuration loses its effort exactly when the model refuses it or no thinking fits, keeps every other key, and goes when nothing is left |
| `ClaudeProfileFields.ThinkingIsExact` | src/proxy/src/routes/claudeCodeCompat.ts:249-299 | what thinking becomes: adaptive to enabled with the fitting budget, enabled to adaptive, a large budget to the cap, gone when nothing fits, unchanged otherwise |
| `ClaudeProfileFields.ToolChoiceIsExact` | src/proxy/src/routes/claudeCodeCompat.ts:301-308 | a forced tool becomes automatic exactly when the rewritten body thinks |
| `ClaudeMessages.RewriteFromIsLegal` | src/proxy/src/routes/claudeCodeCompat.ts:412-429 | the left-to-right rewriting never makes an earlier system message illegal |
| `ClaudeMessages.ConversationIsAcceptable` | src/proxy/src/routes/claudeCodeCompat.ts:412-456 | the result does not end with the assistant, every system message left is legally placed, and none is left for a model that refuses them |
| `ClaudeMessages.PreparedConversationIsAcceptable` | src/proxy/src/routes/claudeCodeCompat.ts:80-103 | the same for the prepared conversation, unless a message carries output_config, in which case nothing changes |
| `ClaudeMessages.OtherMessagesAreKept` | src/proxy/src/routes/claudeCodeCompat.ts:412-423 | only system messages change, into user messages that carry their text behind the marker |
| `ClaudeMessages.MergingLosesNothing` | src/proxy/src/routes/claudeCodeCompat.ts:337-389 | merging keeps all other blocks in order, changes only the content of the last tool result, and that result shows every non-blank text |
| `ClaudeMessages.BlocksAreAccountedFor` | src/proxy/src/routes/claudeCodeCompat.ts:347-356 | every block is kept, or its trimmed text is collected, or it was blank |
| `ClaudeMessages.OwnTextIsKept` | src/proxy/src/routes/claudeCodeCompat.ts:374-389 | the text a tool result already showed is still shown |
| `ClaudeMessages.RewriteMidConversationSystemMessages` | src/proxy/src/routes/claudeCodeCompat.ts:412-423 | the in-place loop computes the rewriting of the theorems |
| `ClaudeMessages.MergeToolResultTextBlocks` | src/proxy/src/routes/claudeCodeCompat.ts:337-366 | the in-place loop merges every message |
| `ClaudeMessages.MergeOne` | src/proxy/src/routes/claudeCodeCompat.ts:341-365 | the merging of one message with its early exits |
| `ClaudeMessages.SplitBlocks` | src/proxy/src/routes/claudeCodeCompat.ts:347-356 | separates the texts from the other blocks, both in order |
| `ClaudeMessages.FindLastToolResult` | src/proxy/src/routes/claudeCodeCompat.ts:516-521 | finds the last tool result, -1 without one |
| `ClaudeMessages.MarkBlocks` | src/proxy/src/routes/claudeCodeCompat.ts:440-447 | the marker goes before the first text block's text, or into a new first block |
| `ClaudeTexts.MessagesAreRewritten` | src/proxy/src/routes/claudeCodeCompat.ts:412-448 | exactly the refused or misplaced system messages become user messages, every other field kept and their content behind the marker: in front of a string, of the first text block, or in a new first block; every other message is unchanged |
| `ClaudeTexts.TrailingIsFixed` | src/proxy/src/routes/claudeCodeCompat.ts:450-456 | one user message with the prompt is added exactly behind a last message of the assistant |
| `ClaudeTexts.TrimIsExact` | src/proxy/src/routes/claudeCodeCompat.ts:350-350 | trimming removes the white space at both ends and nothing else |
| `ClaudeTexts.BlocksAreSplit` | src/proxy/src/routes/claudeCodeCompat.ts:347-355 | each block, in order, is kept or gives its trimmed text when that is not empty |
| `ClaudeTexts.JoinAppend` | src/proxy/src/routes/claudeCodeCompat.ts:362-362 | the texts are joined in order with an empty line between two of them |
| `ClaudeTexts.TextIsMoved` | src/proxy/src/routes/claudeCodeCompat.ts:358-389 | the joined text moves into the last tool result behind what that already holds, with all other blocks and fields kept |
| `ClaudeTexts.NothingIsMoved` | src/proxy/src/routes/claudeCodeCompat.ts:356-361 | without text, without a tool result or with a reference in the last one, nothing changes |
| `ClaudeTexts.MessagesAreMerged` | src/proxy/src/routes/claudeCodeCompat.ts:337-345 | only a user message with a tool result among its blocks is merged |
| `ClaudeTexts.MarkersAreDropped` | src/proxy/src/routes/claudeCodeCompat.ts:402-405 | exactly the blocks that say a tool was loaded are dropped from a list |
| `ClaudeTexts.EmptiedMessagesAreDropped` | src/proxy/src/routes/claudeCodeCompat.ts:391-410 | a message goes exactly when its list of blocks is empty then; any other keeps its place and fields |
| `ClaudeTexts.RepairsAreIndependent` | src/proxy/src/routes/claudeCodeCompat.ts:80-103 | a conversation that only one repair concerns is changed by that one alone |
| `DiagnosticFormat.ParseDiagnosticLog` | src/proxy/src/diagnostics/humanDiagnosticFormat.ts:52-79 | the scanning loop finds the records of the reading function, resuming after each marker line |
| `DiagnosticFormat.ParseBehindNewline` | src/proxy/src/diagnostics/humanDiagnosticFormat.ts:54-68 | text behind a line feed is parsed as if it stood alone |
| `DiagnosticFormat.FirstBlock` | src/proxy/src/diagnostics/humanDiagnosticFormat.ts:15-79 | a record with an id of id characters, a one-line summary naming it and an unbroken block is read back with its exact text whatever follows |
| `DiagnosticFormat.WrittenLogIsReadBack` | src/proxy/src/diagnostics/humanDiagnosticFormat.ts:15-79 | a text of such records is read back record by record |
| `DiagnosticFormat.ReadBackIff` | src/proxy/src/diagnostics/humanDiagnosticFormat.ts:15-79 | a record with such an id and summary is read back whole in front of every text exactly when its end marker stands only at its end and no marker line inside is followed by a summary naming its id |
| `DiagnosticFormat.QuotedRecordBreaks` | src/proxy/src/diagnostics/humanDiagnosticFormat.ts:15-79 | a record whose body quotes another record on lines of its own is not |
| `DiagnosticLog.ErrorDiagnosticsStore.Rotate` | src/proxy/src/diagnostics/errorDiagnosticsStore.ts:166-176 | every file moves up by one, the oldest is dropped and none is overwritten |
| `DiagnosticLog.ErrorDiagnosticsStore.Append` | src/proxy/src/diagnostics/errorDiagnosticsStore.ts:56-72 | appends to the active file, after a rotation when the block would not fit |
| `DiagnosticLog.ErrorDiagnosticsStore.VisitNewestFirst` | src/proxy/src/diagnostics/errorDiagnosticsStore.ts:178-198 | visits the files from the newest, each backwards |
| `DiagnosticLog.WrittenIsGrouped` | src/proxy/src/diagnostics/errorDiagnosticsStore.ts:56-72 | the files are groups of whole records, each within the size limit or of one record, and no more than the file limit |
| `DiagnosticLog.KeptIsSuffix` | src/proxy/src/diagnostics/errorDiagnosticsStore.ts:166-176 | the records in the files, oldest to newest, are a suffix of the history that includes the newest |
| `DiagnosticLog.LogIsSuffixOfHistory` | src/proxy/src/diagnostics/errorDiagnosticsStore.ts:56-198 | after any appends of such records to an empty directory, reading newest first yields exactly that suffix reversed |
| `DiagnosticLog.ProxyLogIsSuffixOfHistory` | src/proxy/src/diagnostics/humanDiagnosticFormat.ts:11-13 | the same for the marker texts Proxy writes |
| `DiagnosticLog.FilesFitTheLimit` | src/proxy/src/diagnostics/errorDiagnosticsStore.ts:64-70 | each file holds whole records and fits the limit or holds one record |
| `DiagnosticLog.LogUsesItsRoom` | src/proxy/src/diagnostics/errorDiagnosticsStore.ts:56-72 | every older file could not take the first record of the next one, and records are missing only when all files are in use |
| `LikeSearch.EscapedMatchesLiterally` | src/packages/shared/src/management.ts:131-140 | an escaped term matches itself and nothing else, whatever follows in the pattern |
| `LikeSearch.LikeContainsFindsSubstrings` | src/packages/shared/src/management.ts:138-140 | the pattern matches a text exactly when the text contains the term, in any collation that folds characters |
| `CsvText.ParseCsvLine` | src/proxy/src/accounts/copilotOauthTokenImport.ts:157-179 | the loop computes the reading function, None for an unclosed quote |
| `CsvText.WrittenCellsAreReadBack` | src/packages/shared/src/management.ts:124-144 | any cells, quotes, commas and line breaks included, are read back as their guarded texts |
| `CsvText.GuardDefuses` | src/packages/shared/src/management.ts:124-129 | a guarded text is no formula, and guarding it again adds nothing |
| `CsvText.GuardIsExact` | src/packages/shared/src/management.ts:124-129 | an apostrophe precedes exactly the texts that are no plain number and start with a tab or line break, or behind white space with '=', '+', '-' or '@' |
| `CsvText.NumberIff` | src/packages/shared/src/management.ts:124-129 | a plain number is a sign, digits, a fraction and an exponent, of which only the digits have to be there |
| `CsvText.AnyLineIsReadBack` | src/proxy/src/accounts/copilotOauthTokenImport.ts:157-179 | a line of bare and quoted cells is read back as their texts |
| `CsvText.RefusedIff` | src/proxy/src/accounts/copilotOauthTokenImport.ts:157-179 | a line is refused exactly when it holds an odd number of quotes |
| `CsvText.RowIsOneLineIff` | src/proxy/src/accounts/copilotOauthTokenImport.ts:111-117 | a written row is one line of the import file exactly when no cell contains a line feed |
| `TokenImport.ParseTokenCsv` | src/proxy/src/accounts/copilotOauthTokenImport.ts:105-155 | row lines and error lines, each in file order, partition the filled lines other than the header, up to a wrong header; rows come from the file with distinct names and only under a header, every error names a fault its line has, and a file without a candidate gets one more error |
| `TokenImport.ReadRow` | src/proxy/src/accounts/copilotOauthTokenImport.ts:131-151 | a line is a row exactly when it has two filled columns and a new name; otherwise its error names the line, the name and the first fault |
| `TokenImport.ReadLine` | src/proxy/src/accounts/copilotOauthTokenImport.ts:113-151 | the first line that parses is taken for the header, later ones for rows, and a malformed line is an error |

## Assumptions

- Generated ids are fresh, and sha256 is injective: ids and cache keys are values of their own.
- `markCopilotOauthStatus` (src/proxy/src/db/sqliteStorage.ts:280-284) is not called; it writes the status unconditionally
  and would break the fencing.
- Replicas read one clock that does not run backwards, and a timer whose deadline is reached fires before time moves on.
- Nobody else writes to a database while it is upgraded. An event with a NULL enterprise written between a crash after the
  backfill and the restart would be assigned to the default enterprise by the repeated backfill.
- `maxFiles` and a profile's `maxThinkingBudget` are at least 1, as configuration and profile table have them.
- No caller passes `createAccount` its optional `copilotOauthAttemptId` (src/proxy/src/db/sqliteStorage.ts:201-226), so an
  account is created without an attempt.

## Left out

- LoginQueue.LoginQueue.Start: always marks a pending task running; that `AccountLogger.create` (src/login/src/tasks/runner.ts:30) can throw before that, so that a task fails which never started, is not modelled, because it is an error of the file system.
- Legacy tasks without an attempt id: their recovery differs (src/login/src/db/tasksRepo.ts:368-384), and every modelled task carries one.
- The user pool store, its scheduler and share ranking, and the pool's own protection rules: only the suspension they cause in a retry is modelled.
- Liveness of a lost report: an account may stay `refreshing` when Login's failure report is lost, which the source only logs.
- The wording of the explanations an item shows: of those the process writes itself, `detail` keeps one word.
- Timestamps, failure texts, log paths and audit fields of tasks and accounts: no modelled decision reads them.
- `listTasksPage`, summaries and other read-only listings: they would only add easy members.
- The MySQL `transaction` helper with its bounded replay and connection deadlines: each modelled statement is atomic.
- `resolveOperationSelection`: its paging loop ends only if the listing it is given does.
- The mapping of errors thrown by `perform` to item states: any resulting item is allowed instead.
- Update in place of nested JSON objects: the rewriting of Claude requests is on values, with a class only for the top-level body and arrays for the messages.
- `stripCacheControlScope`, `stripVolatileCurrentDate`, `filterInvalidAssistantThinkingBlocks`, `sanitizeTools` and the beta header: they do not touch what the theorems are about.
- Key order of JSON objects and the layout of a diagnostic record's sections: a block is its markers, its metadata line and its body.
- Shared diagnostics directories, clearing and paging of diagnostics: only the single-directory log is modelled.
- Other writers of the same log file: the newline that repairs a file without a final one is modelled but never needed from an empty directory.
- SQLite's own upgrade: each of its steps is atomic, so it is an easier form of the MySQL result.
- Browser automation, HTTP, SSO, routing, the console, configuration and registry loading: input, output and user interface.
