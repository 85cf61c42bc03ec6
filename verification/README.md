# Verified model of the research service

This project models the core of a research-and-scraping service and proves what that core promises.
Each `.dfy` file is one component; to check them together, use `dafny verify dfyconfig.toml`.

**The task lifecycle** (`ResearchStore`, `Lifecycle`, `LifecycleSafety`, `LifecycleTheorems`,
`LifecycleCode`). The API admits a task, writes its record and enqueues it; a worker picks the message
up and completes, fails or parks the task; a supervisor in every worker process snapshots the parked
tasks, claims each with a 120 s lock, writes `running` and enqueues again. `Lifecycle` is this protocol as
a step relation with a clock: the owner of a task (API before its enqueue returns, queued message,
executing worker, supervisor between claim and enqueue) is a thread with its own id, `set_task` is a
read step and a write step, the admission scan reads one key per step, and any number of processes
interleave. `ResearchStore.Store` is the store as one object with its whole operations;
`LifecycleCode.SetTask` and the scans are the same operations cut into the steps between which other
processes act. `LifecycleSafety` proves the inductive invariant, `LifecycleTheorems` what it means, and
`LifecycleCode` shows that the code of the three processes, action by action, is a run of the protocol.

**What clients see** (`TaskCache`, `StatusReads`): status polls through the bounded TTL cache while the
lifecycle runs behind it.

**The agent loop** (`ChatHistory`, `ToolResults`, `AgentBooks`, `Submissions`, `ResearchAgent`, `AgentLaws`,
`ResearchAgentCode`). What the model, the critic, the tools and the compaction calls answer, and when the
deadline strikes, are arbitrary inputs, one per turn. `ResearchAgent` is the loop as a function of them
and holds the whole-run theorems, `AgentLaws` says what a turn does with its inputs, and
`ResearchAgentCode` is the object whose variables the loop updates, equal to that function after every step.

**Self-contained algorithms**: the JS-object scanner against a concrete syntax of JSON text
(`JsonText`, `JsObjectScanner`), the string-blind brace counters (`BraceSearch`), the interval merge and
budgeted extract (`ContextExtract`), the fixed-window limiter (`RateLimiter`), proxy rotation with
benching (`ProxyRotation`), and the monitor's exactly-once sweep (`MonitorSweep`).

## Assumptions

- Redis is reachable, no process crashes, and there is one API process. `kiq` that raises has not
  enqueued. Only finished records reach the 24 h expiry (`Lifecycle.Timely`).
- A supervisor claims a task less than (lock TTL - write delay) after it read the task as waiting, and
  writes `running` within the write delay (`Lifecycle.Timely`). `SafeExactlyWithin` shows that this is exactly
  what single flight needs: with any longer claim age some run gives a task two owners.
- Writes to the durable tier succeed; the source logs and drops a failed one.
- A key scan yields every key present throughout, possibly repeatedly.
- The API's clock does not go back (`TaskCache.MadeBy`, for the eviction order only).
- Time is an integer, and advances between any two steps by any amount.

## Where code and description disagree

- `token_bucket.py` implements a fixed window, not a token bucket; the model follows the code.
- The vacancy-page scan tests `depth == 0 and i > 0`, so two characters before the object end it
  (`BraceSearch.LeadingSpacesAreCut`), and a closing brace before it misleads the count (`StrayCloserIsCut`).
  It finds an object without braces in its strings exactly when at most one character comes first and that
  is no closing brace (`CleanObjectCutExactlyWhen`), and any object exactly when `CutAgreesExactlyWhen` says.
- The string-blind counters do not always find the object the scanner finds: `NaiveCutsShort` is an input
  on which they cut it short, `NaiveAgreesExactlyWhen` the exact condition.
- After a salvage submission the reported critic is the one of the empty proposal before it: one run is
  `Submissions.ForeignCriticReported`, the exact condition `CriticIsForeignExactlyWhen`.
- A hard compaction ends its turn before the token cap is tested, so a run may go past the cap by one call
  for each such turn and two more. `ResearchAgent.CostWall` is the bound, `CostWallIsAttained` a run that
  attains it, and `GoesOnAboveCapExactlyWhen` says which turns go on above the cap.

## Model

| member | source | states |
|---|---|---|
| ResearchStore.Store.GetTask | src/infrastructure/tasks/research_store.py:59-77 | the volatile record if there is one, else the durable copy |
| ResearchStore.Store.SetTask | src/infrastructure/tasks/research_store.py:80-106 | the merged record is stored volatile, and durably too exactly when it is completed; other tasks are untouched |
| ResearchStore.LookupSays | src/infrastructure/tasks/research_store.py:67-77 | volatile record first, durable copy second, spelled out |
| ResearchStore.PutSays | src/infrastructure/tasks/research_store.py:95-106 | the volatile tier takes every record, the durable tier exactly the completed ones |
| ResearchStore.MergeKeepsUnpatchedFields | src/infrastructure/tasks/research_store.py:80-92 | every patched field takes effect, every other field survives |
| ResearchStore.Store.TryClaimDrain | src/infrastructure/tasks/research_store.py:237-249 | the claim succeeds exactly when no unexpired lock exists, and then locks for 120 s |
| ResearchStore.Store.GetConcurrentTaskCount | src/infrastructure/tasks/research_store.py:169-202 | the number of the tenant's running or parked tasks |
| ResearchStore.Store.GetTasksWaitingForLlm | src/infrastructure/tasks/research_store.py:144-166 | exactly the parked tasks, each once |
| LifecycleSafety.StepInv | src/infrastructure/queue/llm_health.py:132-185 | every timely step of any process keeps ownership, store and slot invariants |
| LifecycleSafety.StepOwnership | src/infrastructure/queue/llm_health.py:162-183 | every step keeps single ownership, owned running tasks, and every supervisor sighting that can still be claimed pointing at an ownerless parked task |
| LifecycleSafety.StepStore | src/infrastructure/tasks/research_store.py:80-106 | every step keeps each record equal to the fold of its patches and the two tiers consistent |
| LifecycleSafety.StepSlots | src/api/routers/research.py:119-149 | every step keeps every tenant within its cap |
| LifecycleSafety.CountBoundsSlots | src/infrastructure/tasks/research_store.py:169-202 | a record-by-record count taken while others write is never below the slots held when it ends |
| LifecycleSafety.RunInv | src/infrastructure/queue/research_task.py:80-153 | the invariant holds along every run |
| LifecycleTheorems.SingleFlight | src/infrastructure/queue/llm_health.py:141-183 | no two processes are ever responsible for one task |
| LifecycleTheorems.NoTaskLost | src/infrastructure/queue/research_task.py:80-153 | a running task has an owner, a parked one none but a supervisor before its `running` write, a finished one none |
| LifecycleTheorems.FinishedAbsorbs | src/infrastructure/queue/research_task.py:125-153 | completed records never change again; failed ones only vanish by expiry, and stay gone |
| LifecycleTheorems.EvictionKeepsCompleted | src/infrastructure/tasks/research_store.py:67-73 | a completed record reads back identically once the volatile tier dropped it |
| LifecycleTheorems.TenantCap | src/api/routers/research.py:119-149 | no tenant ever holds more slots than its cap |
| LifecycleTheorems.OnlyCreateTakesSlots | src/infrastructure/tasks/research_store.py:28-31 | parking, draining, re-parking and finishing never add to a tenant's slots |
| LifecycleTheorems.SlotsAreUnfinishedTasks | src/infrastructure/tasks/research_store.py:28-31 | a slot is held by the tenant's own running or parked tasks and no others |
| LifecycleTheorems.HistoryIsWhatWasWritten | src/infrastructure/tasks/research_store.py:80-106 | a task's patch history is the sequence of patches the run's events wrote for it |
| LifecycleTheorems.MergeLosesNothing | src/infrastructure/tasks/research_store.py:90-106 | with racing read and write steps a record is still the fold of all patches ever written, in order |
| LifecycleTheorems.IdentityNeverChanges | src/api/routers/research.py:129-149 | tenant, query, mode, LLM configuration and creation time keep their first value |
| LifecycleTheorems.CreationCarriesRequest | src/api/routers/research.py:129-149 | the first record of a task is running and holds, field by field, the request, its tenant and the time |
| LifecycleTheorems.RequestNeverChanges | src/api/routers/research.py:129-149 | as long as a task has a record, the record carries the request it was created with |
| LifecycleTheorems.LateClaimBreaksSingleFlight | src/infrastructure/queue/llm_health.py:167-173 | for every write delay, a run whose last claim is exactly (lock TTL - delay) old gives a task two owners |
| LifecycleTheorems.SafeExactlyWithin | src/infrastructure/queue/llm_health.py:162-173 | for any positive bound on the claim age, and a tenant that may run a task, all runs keep single owners if and only if bound and write delay together stay within the lock's 120 s |
| LifecycleCode.SetTask | src/infrastructure/tasks/research_store.py:90-106 | one read and one write event of its caller, whatever happens between |
| LifecycleCode.RunPatch | src/infrastructure/queue/research_task.py:80-153 | parked, completed and failed each exactly when; the parked record holds the endpoint, the completed one the report, the failed one the error |
| LifecycleCode.ExecuteResearchTask | src/infrastructure/queue/research_task.py:53-153 | the worker picks the message, reads the record, writes exactly one status, which the run's end and the record's own endpoint decide, gives the task up and returns that status |
| LifecycleCode.PickUp | src/infrastructure/queue/research_task.py:60-64 | the record the worker reads, or none |
| LifecycleCode.ParkedUnderItsEndpoint | src/infrastructure/queue/llm_health.py:146-148 | a parked task is later grouped under the endpoint its configuration had when it was parked |
| LifecycleCode.ConfigOfRequest | src/infrastructure/queue/research_task.py:74-74 | the configuration in a task's record is its request's |
| LifecycleCode.CountActive | src/infrastructure/tasks/research_store.py:187-195 | every key the scan yields, in any order and possibly repeatedly, is read while all other processes may write |
| LifecycleCode.EnqueueCreated | src/api/routers/research.py:151-162 | the created task is queued, or written `failed` when enqueueing raises |
| LifecycleCode.EnqueueActsSay | src/api/routers/research.py:154-162 | the API's last actions spelled out: the message, or one `failed` record with the error |
| LifecycleCode.PostRun | src/api/routers/research.py:115-168 | the scan, then, after any steps of others, one decision; an admitted task's first record carries the request, its tenant and the time |
| LifecycleCode.Admit | src/api/routers/research.py:120-162 | rejected exactly when the count reaches the cap; an admitted task is created once, with its request, and then queued, or failed when enqueueing raises |
| LifecycleCode.GetTasksWaitingForLlm | src/infrastructure/tasks/research_store.py:144-166 | every key the scan yields is looked at while other processes act, and just those found waiting are returned, in scan order, with the keys their records imply |
| LifecycleCode.FoundAreWaiting | src/infrastructure/tasks/research_store.py:155-160 | what is returned is just the tasks read as parked |
| LifecycleCode.GroupByEndpoint | src/infrastructure/queue/llm_health.py:145-148 | every waiting task lies, in order, in its own endpoint's group and no other |
| LifecycleCode.KeysSeenInOrder | src/infrastructure/queue/llm_health.py:145-151 | the groups come in the order in which their first tasks were seen |
| LifecycleCode.Redispatch | src/infrastructure/queue/llm_health.py:169-183 | a claimed task is written `running`, then queued, or parked again when enqueueing raises |
| LifecycleCode.PassActsSay | src/infrastructure/queue/llm_health.py:162-183 | a pass spelled out: the refusal alone; or claim, `running` record and message; or claim, `running` record and parked record |
| LifecycleCode.DrainOne | src/infrastructure/queue/llm_health.py:162-183 | a task whose lock is taken is left alone; otherwise it is claimed and one whole pass is made for it |
| LifecycleCode.DrainGroup | src/infrastructure/queue/llm_health.py:162-183 | one pass for each task of the group, in order, and an exact count of those enqueued |
| LifecycleCode.EnqueuedCountSays | src/infrastructure/queue/llm_health.py:176-176 | the drained count is the number of passes that enqueued |
| LifecycleCode.ProbeAndDrain | src/infrastructure/queue/llm_health.py:151-155 | the group is drained exactly when its first task's endpoint answers |
| LifecycleCode.LookAt | src/infrastructure/tasks/research_store.py:155-160 | a parked task is taken down with the group key and the configuration of the record read |
| LifecycleCode.DrainsExactlyReachable | src/infrastructure/queue/llm_health.py:151-162 | a waiting task gets a pass exactly when its group's probe, through the configuration of the first task of the group that was seen, is answered |
| LifecycleCode.RunSupervisorOnce | src/infrastructure/queue/llm_health.py:132-185 | every yielded task is looked at, then each task found waiting behind a group whose probe is answered gets one pass and nothing else happens; probes may differ by group and enqueueing by pass; both counts are exact |
| LifecycleCode.TimelyDeploymentIsSafe | src/infrastructure/queue/llm_health.py:132-185 | however the processes interleave, a timely deployment has one owner per task and no tenant over its cap |
| TaskCache.Cache.Get | src/api/routers/research.py:53-62 | the entry if unexpired, else nothing and it is dropped; nothing else changes |
| TaskCache.Cache.Set | src/api/routers/research.py:64-68 | the key is present with a full TTL and at most 512 entries remain; below the ceiling nothing else is touched; an unexpired entry evicted expires no later than any left, the inserted one included |
| TaskCache.Cache.Sweep | src/api/routers/research.py:70-79 | no expired entry stays, and an unexpired entry that is dropped expires no later than every one kept |
| TaskCache.FindOldest | src/api/routers/research.py:77-77 | a key whose expiry is the least of all |
| StatusReads.StatusIsFresh | src/api/routers/research.py:176-182 | each answer is the store's record as of less than the TTL ago |
| StatusReads.StatusNeverGoesBack | src/api/routers/research.py:53-68 | a later answer comes from the same store read or a later one |
| StatusReads.FinishedAnswersStick | src/api/routers/research.py:176-191 | once anyone was told `completed`, everyone later gets that very record |
| StatusReads.GetResearchStatus | src/api/routers/research.py:172-191 | cached record on a hit, stored on a miss, ownership checked either way; on the cache it is an eviction followed by the status read of the theorems above |
| StatusReads.OnlyOwnerReads | src/api/routers/research.py:100-107 | without the bootstrap key a task's record is read by the tenant that created it and by no other |
| StatusReads.PollTask | src/api/routers/research.py:176-182 | a hit leaves the cache alone, a miss caches what it found, one that found nothing drops the entry |
| ChatHistory.RoundsAreExact | src/actions/research/agent.py:777-788 | in a well-formed list an assistant message with n calls is followed by exactly n matching replies |
| ChatHistory.EveryReplyHasItsCall | src/actions/research/agent.py:1010-1016 | every tool reply answers a call of an assistant message before it |
| ChatHistory.WellFormedAlike | src/actions/research/agent.py:294-330 | changes like those of stripping and eliding keep a list well formed |
| ChatHistory.StripMeta | src/actions/research/agent.py:294-298 | stripping keeps roles, ids, names and contents |
| ChatHistory.Elided | src/actions/research/agent.py:301-330 | eliding keeps roles, ids and names of every message |
| ChatHistory.ElidesOnce | src/actions/research/agent.py:305-329 | eliding again at the same cutoff changes and counts nothing |
| AgentBooks.AgentState.WebSerp | src/actions/research/agent.py:826-873 | the books after a search and its answer: repeated, or performed with the blocked domains and the reminder |
| AgentBooks.AgentState.WebScrape | src/actions/research/agent.py:889-926 | the books after a scrape and its answer: duplicate, exhausted domain, or fetched |
| AgentBooks.SearchKeepsBooks | src/actions/research/agent.py:826-849 | the seen set stays exactly the non-empty normalised queries issued |
| AgentBooks.RefusedExactlyWhenRepeated | src/actions/research/agent.py:831-846 | a search is refused exactly when an earlier query normalises to the same non-empty text |
| AgentBooks.SearchAnswerSays | src/actions/research/agent.py:831-873 | what a search answers: the eight latest queries, or exactly the domains with too many failed pages and the reminder |
| AgentBooks.ScrapeKeepsBooks | src/actions/research/agent.py:889-926 | per domain, visits equal the visited pages and stay within the cap, and failures equal the failed ones, never counted for never-block domains |
| AgentBooks.ScrapeAnswersExactly | src/actions/research/agent.py:892-926 | a page is fetched exactly when new and its domain has visits left; it is failed exactly if the scrape failed |
| AgentBooks.BlockedDomainsAreSpent | src/actions/research/agent.py:859-863 | failures never exceed visits, and with threshold at least the cap a blocked domain spent its whole cap on failures |
| ToolResults.ReviewTakenAsGiven | src/actions/research/agent.py:425-462 | score and verdict are the critic's; what it leaves out reads 7 and "pass" |
| Submissions.SubmitKeepsReplies | src/actions/research/agent.py:963-1006 | every submission's verdict follows its critic and its number, and only the selected mode's payload is non-empty |
| Submissions.SubmitKeepsHolders | src/actions/research/agent.py:936-969 | the held proposal and critic are those last submitted, the final ones those last accepted |
| Submissions.SubmissionIsLogged | src/actions/research/agent.py:928-954 | what is logged is what was submitted, in the selected mode, with its critic and turn |
| Submissions.RejectedExactlyWhen | src/actions/research/agent.py:963-999 | rejected exactly when score and verdict both fail and rejects are left; called forced exactly when none were left and the score is below |
| Submissions.CountdownIsExact | src/actions/research/agent.py:963-999 | a rejection's countdown is the number of submissions after which one is accepted whatever the critic says, none forced before |
| Submissions.RejectionsAreBounded | src/actions/research/agent.py:963-999 | at most `max_rejects` submissions are rejected |
| Submissions.CriticOutageAccepts | src/actions/research/agent.py:425-462 | a critic that fails or answers unusably never blocks a submission |
| Submissions.LastAcceptedIsLast | src/actions/research/agent.py:964-969 | the accepted submission that counts is the last one accepted |
| Submissions.ReportIsOneSubmission | src/actions/research/agent.py:1036-1064 | the report is one submission, with its critic when accepted; salvage replaces only an empty proposal |
| Submissions.SalvageNeverOverwrites | src/actions/research/agent.py:1039-1064 | a forced result is reported only after an empty payload or none; the attempts are counted |
| Submissions.OriginsAreTrue | src/actions/research/agent.py:1036-1064 | the numbered submissions that result and critic are said to come from are where they come from |
| Submissions.CriticIsForeignExactlyWhen | src/actions/research/agent.py:1041-1063 | the reported critic judged another submission if and only if a forced result replaced an earlier empty proposal |
| Submissions.ForeignCriticReported | src/actions/research/agent.py:1041-1063 | an empty rejected answer and a forced one: the forced answer is reported with the empty one's critic |
| ResearchAgent.TurnsPreserve | src/actions/research/agent.py:744-1034 | what holds at the start and is kept by every turn holds after any number of turns |
| ResearchAgent.RoundsKeepHistory | src/actions/research/agent.py:777-1016 | an assistant message and the replies to its calls, added together, keep the history well formed |
| ResearchAgent.CompactionKeepsHistory | src/actions/research/agent.py:508-574 | a compaction, succeeded or failed, keeps the history well formed |
| ResearchAgent.TurnKeepsHistory | src/actions/research/agent.py:744-1034 | every turn, whichever way it ends, keeps the history and all lists sent well formed |
| ResearchAgent.EveryCallIsWellFormed | src/actions/research/agent.py:744-1034 | every list sent to the model, the forced submission's included, is well formed over the original system and user messages |
| ResearchAgent.SalvageKeepsHistory | src/actions/research/agent.py:606-635 | so is the list of the forced submission |
| ResearchAgent.AccountsInv | src/actions/research/agent.py:816-1016 | visit, failure and query accounts and the submission desk are right after every turn of every run |
| ResearchAgent.CallsKeepAccounts | src/actions/research/agent.py:816-1016 | and after each single tool call within a turn |
| ResearchAgent.ReturnedResultIsOneSubmission | src/actions/research/agent.py:928-1064 | over a whole run: the result is one submission's, of the selected mode, and at most `max_rejects` were rejected |
| ResearchAgent.TurnCosts | src/actions/research/agent.py:768-810 | a turn costs at most one main call, and goes on only below the cap or through a hard compaction |
| ResearchAgent.WorkedCost | src/actions/research/agent.py:1018-1034 | a turn that handled its tool calls goes on only below the token cap |
| ResearchAgent.MetersInv | src/actions/research/agent.py:768-775 | token counters equal the logged calls, and compactions counted are those that succeeded, never above the maximum |
| ResearchAgent.CostWall | src/actions/research/agent.py:801-1045 | main tokens stay below the cap plus (hard-compaction turns + 2) largest calls; those turns are at most the maximum plus failed compactions |
| ResearchAgent.CostWallIsAttained | src/actions/research/agent.py:801-1045 | for any number of hard-compaction turns, and calls at least as large as trigger and cap, a run spends exactly one token less than the bound |
| ResearchAgent.GoesOnAboveCapExactlyWhen | src/actions/research/agent.py:801-810 | a turn goes on with the cap reached if and only if its own reply triggered a hard compaction and brought the tokens to the cap |
| AgentLaws.StopsExactlyWhen | src/actions/research/agent.py:744-1034 | the run ends with a turn exactly on deadline, failed call, no tool call, acceptance or token cap |
| AgentLaws.AcceptanceEndsRun | src/actions/research/agent.py:1018-1019 | once a turn leaves a submission accepted, no turn follows and nothing is salvaged |
| AgentLaws.EarlierTurnsRejected | src/actions/research/agent.py:1018-1019 | every submission of an earlier turn than the last submitting one was turned down |
| AgentLaws.TurnCharges | src/actions/research/agent.py:766-773 | only a reply is charged, prompt to prompt and completion to completion |
| AgentLaws.TurnSendsHistory | src/actions/research/agent.py:749-760 | each turn before the deadline sends one list: the history, with just the old long scrape results as notices |
| AgentLaws.SalvageSendsHistory | src/actions/research/agent.py:630-635 | the forced submission sends the history and the forcing message |
| AgentLaws.TurnKeepsPrefix | src/actions/research/agent.py:788-1016 | nothing leaves the history except by a successful compaction, digests included |
| AgentLaws.CompactsExactlyWhen | src/actions/research/agent.py:801-1029 | when a turn compacts, and that the two first messages, the digest and a note are left |
| AgentLaws.EachToolDoesItsWork | src/actions/research/agent.py:816-1016 | which books each tool touches, and that the reply carries its result, cut to 8000 characters |
| AgentLaws.CallsAreCounted | src/actions/research/agent.py:816-818 | calls are counted by name, and the turn's submissions logged under it |
| ResearchAgentCode.ResearchRun.SoftElide | src/actions/research/agent.py:301-330 | exactly the old, long, not yet elided scrape replies become notices, and are counted |
| ResearchAgentCode.ResearchRun.CompactContext | src/actions/research/agent.py:508-574 | on success the two first messages, the digest and a note remain; on failure nothing changes |
| ResearchAgentCode.ResearchRun.Submit | src/actions/research/agent.py:928-1006 | the desk and the reply after a submission |
| ResearchAgentCode.ResearchRun.HandleCall | src/actions/research/agent.py:816-1016 | one call's effects, and its reply appended to the history under the call's id |
| ResearchAgentCode.ResearchRun.HandleCalls | src/actions/research/agent.py:816-1016 | all calls of a turn in order, also after an acceptance |
| ResearchAgentCode.ResearchRun.RunTurn | src/actions/research/agent.py:744-1034 | the state after one iteration, and whether the loop is left |
| ResearchAgentCode.ResearchRun.RunLoop | src/actions/research/agent.py:744-1034 | the state after the loop is that of the turn function, stopped where it stops |
| ResearchAgentCode.ResearchRun.ForcedSubmit | src/actions/research/agent.py:606-657 | the forced call is charged to the main usage and yields arguments or nothing |
| ResearchAgentCode.ResearchRun.Salvage | src/actions/research/agent.py:1036-1056 | a forced submission is made only without acceptance and without a proposal in the selected mode |
| ResearchAgentCode.ResearchRun.Conclude | src/actions/research/agent.py:1058-1064 | the accepted result, or else the last proposal with the last critic |
| ResearchAgentCode.RunResearch | src/actions/research/agent.py:662-1140 | a whole run: its report, tokens and compactions, every list sent well formed, books and desk right, rejections bounded, the result one submission's, the costs within the wall, ended by the first turn with an acceptance |
| JsObjectScanner.ExtractJsObject | src/actions/catalog/kwork_services.py:75-107 | the parse of the text selected from the first brace after the anchor, nothing when there is none or it does not parse |
| JsObjectScanner.ScanFrom | src/actions/catalog/kwork_services.py:83-102 | the end of the object at the first close of the scan, or none exactly when it never closes |
| JsObjectScanner.FirstCloseIsFirst | src/actions/catalog/kwork_services.py:83-101 | the scan stops at the first unquoted `}` met at depth one, and nowhere without one |
| JsObjectScanner.ScanConcat | src/actions/catalog/kwork_services.py:85-101 | scanning two texts in a row is scanning the second from where the first left off |
| JsObjectScanner.LiteralPasses | src/actions/catalog/kwork_services.py:87-96 | a string literal in single or double quotes, whatever it holds, leaves depth and quoting as they were |
| JsObjectScanner.ValuePasses | src/actions/catalog/kwork_services.py:86-101 | any printed JSON value, whatever its strings hold, leaves depth and quoting as they were and never closes the scan |
| JsObjectScanner.ObjectCloses | src/actions/catalog/kwork_services.py:83-102 | on a printed object with any suffix the scan first closes at the object's last brace |
| JsObjectScanner.ExtractorSelectsPrintedObject | src/actions/catalog/kwork_services.py:75-107 | an object printed after the anchor with no brace between is selected exactly |
| BraceSearch.SpanFrom | src/actions/research/llm_utils.py:65-76 | the end of the minimal balanced span from a start, or none exactly when there is none |
| BraceSearch.SpanIsUnique | src/actions/research/llm_utils.py:65-76 | a start has at most one minimal balanced span |
| BraceSearch.NetIsCountDifference | src/actions/research/llm_utils.py:65-71 | the balance is openers minus closers, for either pair of brackets |
| BraceSearch.SearchSpans | src/actions/research/llm_utils.py:63-80 | the parse of the earliest start whose minimal span parses, or none exactly when none does |
| BraceSearch.ExtractJson | src/actions/research/llm_utils.py:47-81 | first parsing fence, else earliest object span, else earliest array span; None exactly when nothing parses |
| BraceSearch.StateEnd | src/actions/monitoring/sources/superjob.py:60-73 | the cut position of the string-blind scan, its test past the first character included |
| BraceSearch.NetSplits | src/actions/monitoring/sources/superjob.py:64-73 | the string-blind balance is the scanner's depth plus the braces inside strings |
| BraceSearch.NaiveAgreesExactlyWhen | src/actions/research/llm_utils.py:65-76 | the span counter closes where the string-aware scanner does if and only if braces in strings cancel out and no closer before comes at a count below two |
| BraceSearch.SpanIsCut | src/actions/monitoring/sources/superjob.py:64-73 | on any text that opens with a brace the page cut and the span counter are the same |
| BraceSearch.CutAfterGap | src/actions/monitoring/sources/superjob.py:62-73 | after leading text without braces the cut is the span's end if and only if that text is at most one character; after two it stops there |
| BraceSearch.CutAgreesExactlyWhen | src/actions/monitoring/sources/superjob.py:62-76 | for any text with a brace: the page cut is the string-aware scanner's if and only if at most one character comes before the first opening brace, that is no closing brace, and the span counter's condition holds |
| BraceSearch.CleanObjectCutExactlyWhen | src/actions/monitoring/sources/superjob.py:62-76 | an object without braces in strings is cut out whole if and only if at most one character precedes it, and no closing brace |
| BraceSearch.LeadingSpacesAreCut | src/actions/monitoring/sources/superjob.py:66-73 | two spaces before an empty object are cut off instead of it |
| BraceSearch.StrayCloserIsCut | src/actions/monitoring/sources/superjob.py:66-73 | a closing brace right before an empty object makes the scan cut after the object's first brace |
| BraceSearch.StrayCloserSpoilsCut | src/actions/monitoring/sources/superjob.py:66-73 | after a stray closing brace the scan never cuts at a closer of the object |
| BraceSearch.CleanTextAgrees | src/actions/monitoring/sources/superjob.py:64-73 | with no brace inside a string both stop at the same index or neither stops |
| BraceSearch.CleanObjectSelected | src/actions/research/llm_utils.py:62-76 | such a printed object is cut out whole by all three, whatever follows |
| BraceSearch.EmbeddedObjectFound | src/actions/research/llm_utils.py:61-81 | an object that parses, without braces in strings, is what the search returns wherever it stands in an answer that opens no brace before it |
| BraceSearch.NaiveCutsShort | src/actions/monitoring/sources/superjob.py:158-165 | a valid object that the string-blind counters cut short |
| ContextExtract.PadMatches | src/actions/research/agent.py:130-140 | every match padded and clipped to the text |
| ContextExtract.PaddedIsContext | src/actions/research/agent.py:130-131 | a padded span is the characters of the text at most the pad away from the match |
| ContextExtract.OnlyMatchesCovered | src/actions/research/agent.py:130-145 | what the spans cover is just the contexts of the matches |
| ContextExtract.MergeKeepsMatches | src/actions/research/agent.py:145-151 | every match lies with its whole context in one merged interval |
| ContextExtract.SortSorts | src/actions/research/agent.py:145-145 | a sorted permutation of the spans |
| ContextExtract.MergeSpans | src/actions/research/agent.py:146-151 | sorted intervals more than 50 apart that cover exactly the spans and the gaps of at most 50, each span whole within one |
| ContextExtract.EarlyStopIsLossless | src/actions/research/agent.py:159-163 | chunks left out once the budget is reached do not show in the truncated text |
| ContextExtract.ChunkSays | src/actions/research/agent.py:156-158 | an interval's chunk is its own text without the spaces at both ends, none exactly when it is all spaces |
| ContextExtract.ChunksSay | src/actions/research/agent.py:155-159 | one chunk for each interval that is not all spaces, in order |
| ContextExtract.JoinAt | src/actions/research/agent.py:163-163 | every part stands whole in the joined text, with " || " before the next |
| ContextExtract.CollectChunks | src/actions/research/agent.py:153-162 | the stripped non-empty chunks, all of them or enough to fill the budget |
| ContextExtract.CutChunks | src/actions/research/agent.py:153-163 | equal to joining every non-empty chunk and truncating |
| ContextExtract.GoalConditionedExtract | src/actions/research/agent.py:122-163 | head of the text without matches; else the joined trimmed texts of a correct merge that holds every match with its context, cut; never above the budget |
| RateLimiter.TokenBucketRateLimiter.CheckRateLimit | src/infrastructure/rate_limiter/token_bucket.py:32-55 | allowed exactly below the quota, without counting |
| RateLimiter.TokenBucketRateLimiter.Consume | src/infrastructure/rate_limiter/token_bucket.py:57-92 | the request is counted, the expiry set only by the first of a window, and the verdict follows the new count |
| RateLimiter.TokenBucketRateLimiter.GetRemaining | src/infrastructure/rate_limiter/token_bucket.py:99-105 | quota minus count, never negative |
| RateLimiter.TokenBucketRateLimiter.Reset | src/infrastructure/rate_limiter/token_bucket.py:94-97 | the bucket is forgotten, the others kept |
| RateLimiter.CheckPredictsConsume | src/infrastructure/rate_limiter/token_bucket.py:32-92 | a check predicts the following consume, verdict and retry time |
| RateLimiter.RemainingIsExact | src/infrastructure/rate_limiter/token_bucket.py:99-105 | of the next requests made at once, exactly the remaining number passes |
| RateLimiter.InsideItsWindow | src/infrastructure/rate_limiter/token_bucket.py:63-74 | every request, admitted or not, falls inside the window that counts it |
| RateLimiter.WindowsAreFixed | src/infrastructure/rate_limiter/token_bucket.py:65-73 | windows are disjoint and never extended, not even by rejected requests |
| RateLimiter.WindowQuota | src/infrastructure/rate_limiter/token_bucket.py:76-92 | a window admits at most the quota |
| RateLimiter.AnyIntervalQuota | src/infrastructure/rate_limiter/token_bucket.py:57-92 | any interval as long as the window admits at most twice the quota |
| RateLimiter.RetryAfterIsHonoured | src/infrastructure/rate_limiter/token_bucket.py:78-86 | the first request at or after the advertised retry time is admitted |
| RateLimiter.BucketsAreIndependent | src/infrastructure/rate_limiter/token_bucket.py:60-60 | a bucket's counter depends only on its own requests |
| ProxyRotation.ProxyProvider.GetProxy | src/infrastructure/browser/proxy_provider.py:18-26 | the pool entry under the cursor, which moves on; nothing from an empty pool |
| ProxyRotation.PoolIs | src/infrastructure/browser/proxy_provider.py:21-23 | the pool is all http proxies, or all proxies if none is http |
| ProxyRotation.FullTurnSeesAll | src/infrastructure/http/rotating_client.py:57-67 | as many probes as there are entries miss none, wherever the cursor stands |
| ProxyRotation.RotatingHTTPClient.NextProxyUrl | src/infrastructure/http/rotating_client.py:55-68 | the first live entry in cyclic order, a benched one only when all are benched, nothing from an empty pool |
| ProxyRotation.RotatingHTTPClient.MarkDead | src/infrastructure/http/rotating_client.py:71-73 | the proxy is benched until 60 s from now and not longer; other marks are kept |
| ProxyRotation.RotatingHTTPClient.Attempt | src/infrastructure/http/rotating_client.py:112-130 | one attempt takes the next proxy and benches it exactly when it cannot be connected to |
| ProxyRotation.CoveredAll | src/infrastructure/http/rotating_client.py:110-112 | a cursor that moved on by at least the pool's size has met every entry |
| ProxyRotation.RotatingHTTPClient.Request | src/infrastructure/http/rotating_client.py:109-132 | attempts stop at the first usable answer; whatever they ran into, every place the cursor passed was tried or benched from the start, so when all fail and retries cover the pool every live proxy was tried; exactly the connect failures are marked |
| ProxyRotation.RotatingHTTPClient.Rotate | src/infrastructure/http/rotating_client.py:111-132 | the loop: every attempt but the last is retried, and the last says how the request ends |
| ProxyRotation.MarksLast | src/infrastructure/http/rotating_client.py:71-73 | a mark keeps its proxy benched for 60 s, whatever is marked after it |
| ProxyRotation.BenchedIsSkipped | src/infrastructure/http/rotating_client.py:55-73 | a benched proxy is not chosen before its time unless the whole pool is benched |
| ProxyRotation.RequestMarks | src/infrastructure/http/rotating_client.py:126-127 | the marks a request leaves are those of its connect failures |
| ProxyRotation.RequestBenches | src/infrastructure/http/rotating_client.py:71-127 | a proxy a request could not connect to stays benched for 60 s after that attempt |
| ProxyRotation.EndsRotationExactlyWhen | src/infrastructure/http/rotating_client.py:31-38 | which statuses and errors end the rotation |
| ProxyRotation.TriesAre | src/infrastructure/http/rotating_client.py:110-110 | as many attempts as proxies, one without any, never more than allowed |
| MonitorSweep.MonitorStore.FilterNew | src/infrastructure/tasks/monitor_store.py:41-58 | the non-empty ids not seen for the source, in order |
| MonitorSweep.UnseenInOrder | src/infrastructure/tasks/monitor_store.py:41-54 | the unseen ids keep their order |
| MonitorSweep.OrderIsKept | src/infrastructure/queue/monitor_worker.py:64-67 | matched and new items keep the order in which they were collected |
| MonitorSweep.MonitorStore.MarkSeen | src/infrastructure/tasks/monitor_store.py:61-76 | the non-empty ids join the source's seen set; other sources keep theirs |
| MonitorSweep.MonitorStore.RecordNew | src/infrastructure/tasks/monitor_store.py:79-93 | the items pushed one by one in front of the list, cut to 500 |
| MonitorSweep.RecentIsNewestFirst | src/infrastructure/tasks/monitor_store.py:79-91 | the inspection list is the latest emitted items, at most 500, newest first |
| MonitorSweep.MatchesExactlyWhen | src/infrastructure/queue/monitor_worker.py:39-43 | an item matches without keywords, or when its text has one of them in it |
| MonitorSweep.EmittedExactlyOnce | src/infrastructure/queue/monitor_worker.py:56-83 | an id is emitted exactly in the first turn that collects it with a match of that turn's keywords, as often as it was collected there |
| MonitorSweep.NeverEmittedTwice | src/infrastructure/queue/monitor_worker.py:64-71 | no two turns of a source emit the same id |
| MonitorSweep.OtherTurnsDoNotMatter | src/infrastructure/queue/monitor_worker.py:57-62 | failed turns and other sources' turns do not alter what a source has seen |
| MonitorSweep.SweepSource | src/infrastructure/queue/monitor_worker.py:57-79 | one source's turn turns a store that follows a history into one that follows it with that turn |
| MonitorSweep.SummaryCounts | src/infrastructure/queue/monitor_worker.py:73-79 | collected, matched and new, each at most the one before |
| MonitorSweep.LatestSummaryKept | src/infrastructure/queue/monitor_worker.py:60-79 | a source's last turn gives its summary, failed exactly if its scraper raised |
| MonitorSweep.RunMonitorSweep | src/infrastructure/queue/monitor_worker.py:46-83 | a sweep has every source's turn with the keywords read for it, and the summaries and the total of new items those turns give |

## Left out

- Redis outages and the process-local fallbacks, crashes of workers, 24 h expiry of unfinished tasks: the
  code only degrades best-effort there.
- The SSE stream, authentication, the Postgres tables, the Telegram bot and the thin routers.
- Browser, HTTP, search-engine and LLM clients: their answers are inputs. The reachability probe's own
  short-lived cache is part of that input.
- Regular expressions, URL parsing, JSON parsing and rendering, prompt texts: matches, host names, parsed
  arguments and rendered texts are inputs or function parameters.
- `strip_reasoning` and the finding of code fences: the fences and the remaining body are inputs of
  `BraceSearch.ExtractJson`.
- `sanitize_sources`: a submission carries its already sanitised sources.
- Arguments that make `run_research` itself raise are not modelled: a `web_serp` call whose `k` is no number, a
  URL that cannot be parsed, a `sources` value or entry of the wrong type.
- Rephraser calls, auxiliary token counts, the trace and the timings of `run_research`: they do not feed
  back into the loop. The rephraser's hints are part of a tool reply's rendered text.
- ResearchAgent.CostWall: the post-tool trigger is `85 * trigger / 100` in integers, which floating-point
  truncation of `0.85 * trigger` may miss by one; the bound does not depend on it.
- AgentBooks.AgentState.WebSerp: the blocked domains are given as a set; the source lists them sorted.
- RateLimiter.TokenBucketRateLimiter.Consume: the store's rounding of the remaining time to whole seconds is
  not modelled; time is an integer.
- MonitorSweep.MonitorStore.RecordNew: the list is the Redis one, where a batch comes out reversed; the
  process-local list keeps the batch's order.
- MonitorSweep.RunMonitorSweep: the sweep's source list is given; the expiry of a source's seen set is
  left out.
- ProxyRotation.RotatingHTTPClient.Request: the direct path without proxies is one plain call and is left out.
- The rest of the site scrapers (habr, hh, zarplata, fl, avito, kwork and superjob field extraction, Yandex
  maps), catalog pagination and review collection: table-like code.
