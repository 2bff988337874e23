# Verified model of the durable AI job pipeline

A Dafny 4.11 project about the control plane in `backend/internal/controlplane`: the part that accepts durable AI jobs,
schedules them fairly, hands them to workers at least once, and charges for them. It models that part as atomic steps over
four pieces of state and proves what the steps keep, one at a time, over whole runs and over interleavings.

- **Job store** (`job_model`, `job_store`, `job_history`, `job_runs`, `admission`, `store_runs`, `store_theorems`,
  `job_claims`, `memory_repository`; answers in `store_answers`, `repository_answers`). Jobs, event log, outbox and operations, guarded by status versions, fence tokens and
  queue leases. An operation first decides what to do with the job it finds and then carries the decision out.
- **Fair scheduler** (`greedy_selection`, `fair_queue`, `fair_order`, `postgres_fair_queue`). Greedy selection under loads that grow with
  every pick, at three nested levels; and the PostgreSQL form that prunes candidates before ranking.
- **Ready index** (`round_robin`, `ready_index`, `redis_ready_index`, `candidate_order`, `index_answers`) and the service that keeps it in
  step with the store (`job_service`, `service_runs`, `service_answers`, `service_interleavings`, `memory_service`). The index is a cache that claims do not trust.
- **Delivery queue** (`delivery_queue`, `redis_delivery`; answers in `delivery_answers`, `redis_answers`), the worker around
  it (`delivery_worker`, `delivery_processing`) and the dispatch loop (`dispatch_loop`).
- **Companions**: billing holds against a monthly budget (`billing_holds`, `billing_answers`, with sums in `sums`) and the department forest
  (`departments`). `text`, `fold` and `sorting` hold strings, order-free folds and sorting.

Objects that the program updates in place are classes whose methods equal functions of the old state; runs and theorems are
about those functions. The `..._answers` modules and `fair_order`, `candidate_order` and the attempts of `dispatch_loop` say
once more, in terms of what a caller sees and without those functions, what each operation answers and leaves behind.
`dafny verify dfyconfig.toml` checks everything.

## How the model reads the program

- Time is an integer that never goes back; zero is the unset time. Lease tokens and ids are fresh values; deadlines and
  answers of providers, adapters, the capacity store and failing writes are parameters.
- Digests are injective: event and outbox ids are pairs of job id and version, the Redis scope digests come from a hash that is
  assumed injective, and delivery ids from a function that is assumed trimmed, non-empty and injective.
- Go maps are iterated in any order: loops take an arbitrary remaining key, and results are proved independent of it.
- The seven scope columns are trimmed where the program trims them. Where keys of different levels must differ, no column may
  hold the NUL separator; PostgreSQL text cannot hold it.
- 64-bit wrap-around is explicit in the budget comparison. Durations and times are unbounded.
- A claim, a transition and so on is one step of the store, as it is under the repository's lock or transaction. Runs of the
  service take a whole call as one step; `ServiceInterleavings` splits calls into their store and index steps.

## Findings

- The window query counts the wait from eligibility alone. It orders like the comparator at every moment if and only if
  eligibility does not precede creation or the priority is at its maximum (`PostgresFairQueue.SqlPriorityAgrees`); the store
  keeps the former.
- The fairness bounds hold between jobs of one kind. Expired dispatches come first, so one profile's can fill the limit
  (`FairQueue.ReclaimsMayCrowdOut`).
- The transition table admits queued to dispatching as a plain transition. It would set no lease and strand the job
  (`StoreTheorems.DispatchingWithoutLeaseStrands`); no caller asks for it, and runs exclude it.
- Redis removal trims the job id, memory removal does not (`RedisReadyIndex.RemovalsAgree`), and Redis candidates become due
  up to a millisecond early (`RedisReadyIndex.RedisSeesWholeMilliseconds`).
- Two concurrent renewals of one dispatch can make a registration conflict (`ServiceInterleavings.RenewalsCollide`, and from the
  empty world `ServiceInterleavings.ConcurrentRenewalsConflict`); a registration of a job that has not moved on conflicts if and
  only if that happened (`ServiceInterleavings.OnlyRenewalsConflict`).
- A worker whose submission was accepted re-reads the job and moves it to running under whatever claim it has by then
  (`DispatchLoop.AcceptanceFollowsTheCurrentJob`).
- The budget comparison can be fooled by wrap-around. It is right if and only if exposure plus reservation fits 64 bits or
  exceeds 2^64 plus the budget (`BillingHolds.BudgetVerdictIsExact`); any other reservation is let through
  (`BillingHolds.IncomparableIsLetThrough`), as beside one reserved unit the largest 64-bit amount (`BillingHolds.WrapBreaksBudget`).
- Republishing after both dedupe keys have run out makes a second copy (`RedisDelivery.ExpiredKeysDuplicate`).
- The Redis script that establishes a lease after a read does not look for a lease, so a reader that is late takes a message from
  the consumer that reclaimed it (`RedisDelivery.LateLeaseTakesOver`); nothing else takes a lease in force (`RedisDelivery.LeaseIsKept`).
- For columns with the separator a Redis count may include jobs of another scope level, and exactly when is stated
  (`RedisReadyIndex.CountsAgree`).

## Model

| member | source | states |
|---|---|---|
| FairQueue.CandidateLessOrder | backend/internal/controlplane/ai_job_fair_queue.go:87-142 | For any loads the comparator is irreflexive, asymmetric, and decides every two candidates with different ids |
| FairQueue.CandidateLessTransitive | backend/internal/controlplane/ai_job_fair_queue.go:87-142 | For any loads the comparator is transitive across its six criteria |
| FairQueue.ComparatorIsTotal | backend/internal/controlplane/ai_job_fair_queue.go:61-142 | Candidates with distinct ids are strictly totally ordered in every state of the loads, as the selection loop needs |
| FairQueue.CollectStats | backend/internal/controlplane/ai_job_fair_queue.go:33-60 | Counting in-flight jobs and latest dispatches in one pass gives the statistics that an order-free fold defines |
| FairQueue.Rank | backend/internal/controlplane/ai_job_fair_queue.go:33-78 | The loop over a mutable slice with swap removal returns exactly the ranking function of its inputs |
| GreedySelection.FindBest | backend/internal/controlplane/ai_job_fair_queue.go:63-68 | The inner scan finds the index that the recursive definition of the best candidate names |
| GreedySelection.SelectInPlace | backend/internal/controlplane/ai_job_fair_queue.go:62-77 | Scanning, picking and swap removal in place yield the picks of the selection function, for any order and any state update |
| GreedySelection.SelectIsGreedy | backend/internal/controlplane/ai_job_fair_queue.go:61-78 | The loop's picks are the greedy picks of the set of candidates: repeatedly the least one under the loads of that moment |
| FairQueue.RankedIsFair | backend/internal/controlplane/ai_job_fair_queue.go:33-78 | The ranking equals greedy selection from the unordered pool of candidates |
| FairQueue.RankingIgnoresInputOrder | backend/internal/controlplane/ai_job_fair_queue.go:33-78 | Permuting candidates, jobs and activities never changes the ranking, although the loop swaps and the callers iterate maps |
| FairQueue.RankingConservesWork | backend/internal/controlplane/ai_job_fair_queue.go:33-78 | A ranking has min(limit, candidates) distinct members, all of them candidates |
| FairQueue.RankingPrefix | backend/internal/controlplane/ai_job_fair_queue.go:33-78 | Ranking with a smaller limit is a prefix of ranking with a larger one |
| FairQueue.ReclaimsComeFirst | backend/internal/controlplane/ai_job_fair_queue.go:87-118 | Expired dispatches are ranked before every queued job, and none is left out while a queued job is picked |
| FairQueue.ProfilesShareFairly | backend/internal/controlplane/ai_job_fair_queue.go:87-142 | A profile that was served ends at most one above the load of a profile with a candidate of the same kind left out, whatever characters the columns hold |
| FairQueue.TenantsShareFairly | backend/internal/controlplane/ai_job_fair_queue.go:87-142 | The same bound among the tenants of one profile |
| FairQueue.PrincipalsShareFairly | backend/internal/controlplane/ai_job_fair_queue.go:87-142 | The same bound among the principals of one tenant |
| FairQueue.LoadsCountJobsInFlight | backend/internal/controlplane/ai_job_fair_queue.go:33-60 | Before the first pick a load is the number of in-flight jobs under its key, whatever the dispatch history |
| FairQueue.FinalLoadsCountPicks | backend/internal/controlplane/ai_job_fair_queue.go:71-77 | After the last pick a load has grown by exactly the picks under its key |
| FairQueue.ReclaimsMayCrowdOut | backend/internal/controlplane/ai_job_fair_queue.go:87-118 | Why the bounds compare jobs of one kind: expired dispatches of one profile that fill the limit take all of it, and no other profile's load moves |
| FairOrder.PicksAreFairest | backend/internal/controlplane/ai_job_fair_queue.go:33-142 | Every pick compared with every candidate not picked by then, told from jobs, dispatches and earlier picks: reclaims first; then the profile with the fewest jobs in flight and picks, of those the one never or longest ago dispatched, the key as last resort; the same for tenants inside the profile and principals inside the tenant; then priority, eligibility, creation and id |
| FairOrder.BetweenQueueAndEnd | backend/internal/controlplane/ai_job_fair_queue.go:165-167 | Exactly the jobs that left the queue and have not ended count as in flight |
| FairOrder.WaitingRaisesPriority | backend/internal/controlplane/ai_job_fair_queue.go:144-163 | A job has at least a given priority if and only if it is at most nine and the job was given it or has waited a minute for each step up |
| GreedySelection.GreedyPickIsLeast | backend/internal/controlplane/ai_job_fair_queue.go:61-78 | Each greedy pick is less, under the state of its moment, than every item not picked by then |
| PostgresFairQueue.SqlPriorityAgrees | backend/internal/controlplane/ai_job_postgres_fair_queue.go:30-33 | The window query's priority is the comparator's at every moment if and only if the wait starts at eligibility or the priority is already at the maximum |
| PostgresFairQueue.SqlPriorityDiffersBeforeCreation | backend/internal/controlplane/ai_job_postgres_fair_queue.go:30-33 | A concrete job, eligible before its creation, on which the two priorities differ |
| PostgresFairQueue.WindowOrderIsComparator | backend/internal/controlplane/ai_job_postgres_fair_queue.go:27-38 | Inside one partition the ORDER BY agrees with the comparator under all loads |
| GreedySelection.PruningLosesNothing | backend/internal/controlplane/ai_job_postgres_fair_queue.go:20-42 | Leaving out items that are always behind `limit` kept items never changes the first `limit` greedy picks |
| PostgresFairQueue.PrunedRankingLosesNothing | backend/internal/controlplane/ai_job_postgres_fair_queue.go:20-42 | Ranking only the rows with owner position up to the limit gives the ranking of all ready jobs |
| PostgresFairQueue.InFlightRowsSuffice | backend/internal/controlplane/ai_job_postgres_fair_queue.go:58-74 | Reading only in-flight rows gives the statistics of all jobs |
| PostgresFairQueue.SmallQueriesGiveSameStats | backend/internal/controlplane/ai_job_postgres_fair_queue.go:58-101 | The in-flight rows and one latest dispatch per owner give the statistics of the whole job and event tables |
| PostgresFairQueue.PostgresRanksLikeMemory | backend/internal/controlplane/ai_job_repository.go:753-783 | The three queries with ranking of all returned rows start with what the in-memory form ranks from the whole store |
| JobHistory.GuardsNeverFire | backend/internal/controlplane/ai_job_repository.go:1067-1155 | Recording the next version of a stored job never meets a duplicate event or outbox record nor a missing operation |
| JobHistory.RecordedKeepsConsistent | backend/internal/controlplane/ai_job_repository.go:1079-1176 | Recording a change keeps every job's history: one event and one outbox record per version, chained, ending in the job's status, with the operation where they lead |
| JobHistory.InsertKeepsConsistent | backend/internal/controlplane/ai_job_repository.go:25-92 | Creating a job keeps every history and starts its own with one event from accepted to queued |
| JobHistory.RenewalKeepsConsistent | backend/internal/controlplane/ai_job_repository.go:393-413 | Extending a lease touches no history |
| JobHistory.CarryOutSucceeds | backend/internal/controlplane/ai_job_repository.go:415-476 | A decision fails if and only if the transition table refused it |
| JobRuns.DecisionsAreSound | backend/internal/controlplane/ai_job_model.go:113-164 | Every decision of transition, requeue, cancel, extend and claim follows the table, advances the version by one or keeps it, never lowers a fence, and leaves exactly the dispatching jobs with a lease, exactly the finished ones with a completion time |
| JobRuns.ActKeepsValid | backend/internal/controlplane/ai_job_repository.go:155-476 | Every operation on one job keeps the store valid |
| JobRuns.ActEvolves | backend/internal/controlplane/ai_job_repository.go:155-476 | Every operation lets jobs only evolve: versions and fences grow, a version fixes status, fence and lease token, expired leases are not renewed |
| StoreRuns.EveryRunIsValid | backend/internal/controlplane/ai_job_repository.go:25-476 | Every store reachable from the empty one by creations and operations under a monotone clock is valid: the event log is each job's history and leases match statuses |
| StoreRuns.RunsEvolve | backend/internal/controlplane/ai_job_repository.go:25-476 | Over any run every job of any moment evolves into the job at the end |
| StoreTheorems.OperationReflectsJob | backend/internal/controlplane/ai_job_repository.go:1157-1187 | In a valid store an operation is finished exactly when its job is, with the matching result |
| StoreTheorems.OnlyTheTableRefuses | backend/internal/controlplane/ai_job_repository.go:1067-1104 | In a valid store a step fails if and only if the transition table refuses it |
| StoreTheorems.ReadyJobsAreClaimed | backend/internal/controlplane/ai_job_repository.go:313-342 | Claiming a ready job always succeeds and leaves the new lease, the next version and the next fence |
| StoreTheorems.SupersededStepsDoNothing | backend/internal/controlplane/ai_job_repository.go:393-476 | A transition, requeue or extension with another version, fence or lease token leaves the store unchanged |
| StoreTheorems.VersionsAreConsumedOnce | backend/internal/controlplane/ai_job_repository.go:415-476 | Over a run each version of a job is consumed by at most one transition or requeue; a later step presenting it does nothing |
| StoreTheorems.VersionFixesLease | backend/internal/controlplane/ai_job_repository.go:313-476 | Over a run status, fence and lease token are a function of job and version |
| StoreTheorems.RequeuedJobsWait | backend/internal/controlplane/ai_job_repository.go:444-476 | A requeued job is ready exactly from the later of its eligibility and the requeue on |
| StoreTheorems.HoldersRenew | backend/internal/controlplane/ai_job_repository.go:393-413 | A lease is renewed if and only if its live holder asks, and a renewal never shortens the time others are kept out |
| StoreTheorems.CancellationsAreAnswered | backend/internal/controlplane/ai_job_repository.go:155-251 | For every status, whether a cancellation is refused, already done, or ends or winds down the job; a cancelled dispatch takes a new fence |
| StoreTheorems.DispatchingWithoutLeaseStrands | backend/internal/controlplane/ai_job_model.go:113-135 | The table's queued-to-dispatching edge taken as a plain transition would leave a job that can never be claimed |
| StoreTheorems.CountsNest | backend/internal/controlplane/ai_job_admission.go:51-67 | Principal count <= tenant count <= profile count |
| StoreTheorems.AdmissionIsBounded | backend/internal/controlplane/ai_job_admission.go:34-67 | Over any run, at each level with a positive limit, waiting jobs of an owner never exceed the limit plus that owner's unknown-to-queued transitions |
| StoreTheorems.RequestsAreStoredOnce | backend/internal/controlplane/ai_job_repository.go:25-92 | Over any run no two stored jobs have the same idempotency scope |
| StoreAnswers.TransitionsAreAnswered | backend/internal/controlplane/ai_job_repository.go:415-442 | For every status of the job which targets its current holder gets and which fail, with the next job, its error, completion time and lease, the event and its type, the outbox record and the operation; nothing else of the store changes |
| StoreAnswers.RequeuesAreAnswered | backend/internal/controlplane/ai_job_repository.go:444-476 | The same for a requeue, eligible from the later of the asked time and now |
| StoreAnswers.CancellationsAreStored | backend/internal/controlplane/ai_job_repository.go:155-251 | What a cancellation leaves behind: a queued job canceled, a dispatched or running one canceling, a new fence after a dispatch, and the records of the change |
| StoreAnswers.ClaimsAreStored | backend/internal/controlplane/ai_job_repository.go:313-342 | What a claim leaves behind: a dispatch under the new lease, the next version and fence, recorded as scheduled from the queue and as reassigned after a lapsed lease |
| StoreAnswers.RenewalsAreStored | backend/internal/controlplane/ai_job_repository.go:393-413 | A renewal keeps the later end of the lease and changes nothing else but the time of the change |
| StoreAnswers.CreationsAreAnswered | backend/internal/controlplane/ai_job_repository.go:25-92 | A repeated request gets its job, a new one is refused exactly when its profile, tenant or principal has as many jobs waiting as a positive limit allows, told by columns, and otherwise stored: queued, version one, ready at once, with its first event |
| StoreAnswers.OwnersAreNamed | backend/internal/controlplane/ai_job_repository.go:155-200 | A client may cancel exactly the jobs whose owner columns equal its own, up to the credential's source |
| StoreAnswers.WaitingMeansClaimable | backend/internal/controlplane/ai_job_fair_queue.go:169-174 | A job waits exactly when there is a moment at which it can be claimed |
| StoreAnswers.EveryEndIsReached | backend/internal/controlplane/ai_job_repository.go:25-476 | There are runs from the empty store that reach success, failure, cancellation and expiry |
| Admission.CountJobs | backend/internal/controlplane/ai_job_admission.go:51-67 | One pass with early continues counts exactly the waiting jobs of the candidate's profile, tenant and principal |
| JobClaims.BatchClaimsAll | backend/internal/controlplane/ai_job_repository.go:313-342 | A batch of distinct ready candidates is claimed completely, each with the lease, next version and next fence, and no other job changes |
| JobClaims.BatchKeeps | backend/internal/controlplane/ai_job_repository.go:313-342 | A batch keeps the store valid and lets jobs evolve |
| RepositoryAnswers.LastReferenceCounts | backend/internal/controlplane/ai_job_repository.go:280-311 | Of several references to a job the last usable one says which version is wanted |
| RepositoryAnswers.ReferencedJobsAreChosen | backend/internal/controlplane/ai_job_repository.go:280-311 | A claim by references looks at exactly the ready jobs whose current version is the one last referred to |
| RepositoryAnswers.DispatchesLeaveTheQueue | backend/internal/controlplane/ai_job_repository.go:267-275 | In a valid store the dispatches that a claim counts are exactly the events from queued to dispatching, at their own times and for their jobs' owners; reassignments do not count |
| RepositoryAnswers.CancellationsReleaseHolds | backend/internal/controlplane/ai_job_repository.go:202-251 | Cancelling a queued job releases its operation's reserved or disputed hold and only that; after a dispatch the ledger stays as it is |
| MemoryRepository.RankingIsDetermined | backend/internal/controlplane/ai_job_repository.go:253-311 | Every way of listing the same store's maps gives the same ranking |
| MemoryRepository.ClaimsRankedPicks | backend/internal/controlplane/ai_job_repository.go:253-342 | Claiming the ranked picks of any listing claims min(limit, chosen jobs) of them and keeps the store valid |
| MemoryRepository.Repository.Save | backend/internal/controlplane/ai_job_repository.go:1067-1077 | Writes job, event, outbox record and operation together, or nothing when a guard fires |
| MemoryRepository.Repository.Transition | backend/internal/controlplane/ai_job_repository.go:415-442 | Transition equals the store's step function: versions and fences are checked, the table decides, all records are written |
| MemoryRepository.Repository.Requeue | backend/internal/controlplane/ai_job_repository.go:444-476 | The same for requeue |
| MemoryRepository.Repository.ExtendLease | backend/internal/controlplane/ai_job_repository.go:393-413 | The same for lease extension |
| MemoryRepository.Repository.Cancel | backend/internal/controlplane/ai_job_repository.go:202-251 | Cancellation equals the store's step, and ending a job before dispatch also releases its operation's billing hold and no other |
| MemoryRepository.Repository.ClientCancel | backend/internal/controlplane/ai_job_repository.go:155-200 | A client's cancellation does nothing for jobs of another owner and otherwise equals the store's step with the release of the billing hold |
| MemoryRepository.Repository.CreateJob | backend/internal/controlplane/ai_job_repository.go:25-92 | Creation is all or nothing over job, event, outbox, operation and billing hold; replays return the stored job; limits and budget are enforced |
| MemoryRepository.Repository.ClaimLocked | backend/internal/controlplane/ai_job_repository.go:313-342 | The claiming loop cuts the candidates at the limit and then equals the batch function, including what it keeps when a candidate fails |
| MemoryRepository.Repository.ClaimQueued | backend/internal/controlplane/ai_job_repository.go:253-278 | A claim takes min(limit, ready jobs) of the ranked ready jobs whatever order the maps are iterated in, or nothing for an unusable request |
| MemoryRepository.Repository.ClaimByReferences | backend/internal/controlplane/ai_job_repository.go:280-311 | The same among the jobs whose referenced version is current; the last reference to a job counts |
| RoundRobin.Interleave | backend/internal/controlplane/ai_job_ready_index.go:272-292 | The round loop stops after whole rounds and part of one, at the limit or when every group is used up |
| RoundRobin.OutputIsFull | backend/internal/controlplane/ai_job_ready_index.go:272-292 | The output has min(limit, total) elements |
| RoundRobin.SharesAreBalanced | backend/internal/controlplane/ai_job_ready_index.go:272-292 | Each group contributes a prefix of itself, and at most one element more than any group that was cut short |
| RoundRobin.OutputHasNoRepeats | backend/internal/controlplane/ai_job_ready_index.go:272-292 | No element comes twice |
| RoundRobin.CuttingLosesNothing | backend/internal/controlplane/ai_job_ready_redis.go:239-279 | Reading only the first `limit` groups and their first `limit` elements gives an output of the whole round robin |
| RoundRobin.OutputGoesByTurns | backend/internal/controlplane/ai_job_ready_index.go:272-292 | Elements come by rounds, inside a round by groups, none is skipped and none comes twice |
| RoundRobin.OutputIsDetermined | backend/internal/controlplane/ai_job_ready_index.go:272-292 | Any sequence of min(limit, total) elements that comes in such turns is the output |
| CandidateOrder.MemoryServesInOrder | backend/internal/controlplane/ai_job_ready_index.go:214-292 | Of two ready entries the one with fewer of its own principal's ahead of it is served first, where readiness, higher priority, creation and id decide inside a principal, and the earliest readiness and the key between principals |
| CandidateOrder.RedisServesInOrder | backend/internal/controlplane/ai_job_ready_redis.go:239-279 | The Redis index serves the same way by the millisecond of readiness and the id inside a principal, and by the earliest millisecond and the digest between principals |
| IndexAnswers.EachRegistration | backend/internal/controlplane/ai_job_ready_index.go:184-200 | Which registration is invalid, outdated or a conflict, and that any other puts the entry with all its text trimmed in place of its job's |
| IndexAnswers.RegistrationsKeepTheNewest | backend/internal/controlplane/ai_job_ready_index.go:184-200 | After any registrations in any order the index holds of every job the first entry of its highest version |
| IndexAnswers.EntriesTellTheirJob | backend/internal/controlplane/ai_job_ready_index.go:82-135 | Exactly the waiting jobs with an id, a tenant and a principal have an entry; it repeats the job's version, fence, priority, creation and columns, and is ready exactly when the job can be claimed |
| IndexAnswers.CountsGoByColumns | backend/internal/controlplane/ai_job_ready_index.go:137-171 | A count covers exactly the entries that agree with the scope in the first column, the first two, all seven, or none |
| JobModel.KeysNameColumns | backend/internal/controlplane/ai_job_ready_index.go:154-171 | For columns without the separator keys are equal exactly when the first column, the first two, or all seven trimmed columns are |
| Text.TrimCutsSpaces | backend/internal/controlplane/ai_job_ready_index.go:91-106 | Trimming takes away spaces at both ends and nothing else |
| Text.LessAtFirstDifference | backend/internal/controlplane/ai_job_fair_queue.go:117-141 | Strings are ordered by the first character in which they differ, a prefix first |
| ReadyIndex.CandidatesAreComplete | backend/internal/controlplane/ai_job_ready_index.go:214-292 | Candidates are min(limit, ready entries) distinct entries |
| ReadyIndex.CandidatesAreBalanced | backend/internal/controlplane/ai_job_ready_index.go:246-292 | Each principal gets a prefix of its list, and at most one more than a principal with entries left out |
| ReadyIndex.CandidatesAreStored | backend/internal/controlplane/ai_job_ready_index.go:214-228 | Every candidate is a stored entry that is ready |
| ReadyIndex.MemoryReadyIndex.Register | backend/internal/controlplane/ai_job_ready_index.go:184-200 | Registration refuses invalid, outdated and conflicting entries and otherwise replaces the job's entry |
| ReadyIndex.MemoryReadyIndex.Remove | backend/internal/controlplane/ai_job_ready_index.go:202-212 | Removal takes out exactly the entry of the given version |
| ReadyIndex.MemoryReadyIndex.Count | backend/internal/controlplane/ai_job_ready_index.go:230-244 | The count is the number of entries in the scope |
| ReadyIndex.MemoryReadyIndex.Candidates | backend/internal/controlplane/ai_job_ready_index.go:214-292 | Grouping by principal, sorting groups and entries, and round robin: the output is a round robin over the sorted groups of all ready entries |
| RedisReadyIndex.LevelsDiffer | backend/internal/controlplane/ai_job_ready_index.go:154-171 | Keys of different scope levels never coincide when no column holds the separator |
| RedisReadyIndex.DropKeepsDerived | backend/internal/controlplane/ai_job_ready_redis.go:198-237 | Taking a job out of the sets its owner record names keeps all derived sets right |
| RedisReadyIndex.AddKeepsDerived | backend/internal/controlplane/ai_job_ready_redis.go:149-196 | Adding a job to its three scope sets and refreshing its principal keeps all derived sets right |
| RedisReadyIndex.CountsAgree | backend/internal/controlplane/ai_job_ready_redis.go:128-137 | The jobs in a derived set are as many as the memory index counts if and only if no job has the key at another level only |
| RedisReadyIndex.SeparableCountsAgree | backend/internal/controlplane/ai_job_ready_redis.go:128-137 | So the counts agree at every level when no column holds the separator |
| RedisReadyIndex.RedisReadyIndex.Register | backend/internal/controlplane/ai_job_ready_redis.go:149-196 | For any columns the script refines the memory index and keeps the all set and the scope sets holding exactly the entries' jobs; while no column holds the separator also the principals set exactly the principals at their earliest score |
| RedisReadyIndex.RedisReadyIndex.Remove | backend/internal/controlplane/ai_job_ready_redis.go:198-237 | The same for removal |
| RedisReadyIndex.RedisReadyIndex.Count | backend/internal/controlplane/ai_job_ready_redis.go:128-137 | The count is the number of jobs with the key, and the memory index's count when no column holds the separator |
| RedisReadyIndex.RedisReadyIndex.Candidates | backend/internal/controlplane/ai_job_ready_redis.go:94-126 | Reading `limit` principals and `limit` jobs of each gives a round robin over all entries due by the millisecond, principals by earliest score and digest, jobs by score and id; the refresh at the end changes nothing and no entry is dropped |
| RedisReadyIndex.RedisSeesWholeMilliseconds | backend/internal/controlplane/ai_job_ready_redis.go:94-101 | An entry is due in Redis if and only if it is ready, or becomes ready within the same millisecond |
| RedisReadyIndex.RemovalsAgree | backend/internal/controlplane/ai_job_ready_redis.go:76-92 | The two removals agree if and only if the id is trimmed or the trimmed id has no entry of that version |
| JobService.RegisterCompletes | backend/internal/controlplane/ai_job_service.go:270-279 | Registering a stored job is never refused and completes the cache for it |
| JobService.StepIsFollowed | backend/internal/controlplane/ai_job_service.go:218-268 | Transition, requeue and extension keep store and index in step |
| JobService.ClientCancelIsFollowed | backend/internal/controlplane/ai_job_service.go:138-145 | A client's cancellation keeps them in step |
| JobService.AdminCancelKeepsStep | backend/internal/controlplane/ai_job_admin.go:170-190 | The administrator's cancellation keeps them in step although it leaves a stale entry |
| JobService.CreateIsFollowed | backend/internal/controlplane/ai_job_service.go:61-78 | Creation and its replays keep them in step |
| JobService.ReconcileKeeps | backend/internal/controlplane/ai_job_service.go:288-311 | Whatever candidates the index returned, reconciling keeps every unclaimed waiting job indexed |
| JobService.ClaimKeepsStep | backend/internal/controlplane/ai_job_service.go:155-206 | A claim with its two rounds, reconciliation and registration keeps them in step |
| ServiceRuns.CacheIsComplete | backend/internal/controlplane/ai_job_service.go:12-311 | After every run of service calls each waiting job has its current projection in the index, no entry is ahead of the store, and no registration was refused |
| ServiceRuns.ClaimsConserveWork | backend/internal/controlplane/ai_job_service.go:155-206 | Whatever jobs the index makes the first round look at and however the maps are listed, ranking in two rounds claims exactly min(limit, ready jobs) distinct ready jobs, leaves each with the lease, the next version and the next fence, and changes no other job |
| ServiceRuns.WaitingJobsBecomeReady | backend/internal/controlplane/ai_job_ready_index.go:108-113 | A waiting job can be claimed exactly from its ready time on, so none is stranded |
| ServiceAnswers.OnlyAdministratorsLeaveStale | backend/internal/controlplane/ai_job_service.go:12-311 | After every run of service calls each entry is the current projection of a waiting job, unless an administrator cancelled that job |
| ServiceAnswers.IndexIsExact | backend/internal/controlplane/ai_job_service.go:12-311 | Without administrators the index holds the projections of exactly the waiting jobs after every run |
| ServiceAnswers.ReconcileDropsStale | backend/internal/controlplane/ai_job_service.go:288-311 | Of the entries that a reconciliation looked at only current ones of unclaimed jobs are left |
| ServiceAnswers.RoundsDropStale | backend/internal/controlplane/ai_job_service.go:155-206 | A whole claim leaves no stale entry of those that it looked at |
| ServiceAnswers.RepeatsRegisterAgain | backend/internal/controlplane/ai_job_service.go:61-78 | Repeating a request with the same fingerprint registers its job again, should the first registration have been lost |
| ServiceAnswers.RepeatedCancelsRemove | backend/internal/controlplane/ai_job_service.go:138-145 | Cancelling a cancelled job again removes the entry of the version that was cancelled, should it have been left |
| ServiceInterleavings.EntriesNeverLead | backend/internal/controlplane/ai_job_service.go:218-311 | Under every interleaving of concurrent calls no entry is ahead of the store, and one at the store's version is right about everything but the end of a renewed lease |
| ServiceInterleavings.QuietIndexIsComplete | backend/internal/controlplane/ai_job_service.go:218-311 | Once no call is unfinished, every waiting job has an entry of its current version |
| ServiceInterleavings.OnlyRenewalsConflict | backend/internal/controlplane/ai_job_service.go:270-279 | Registering a job that has not moved on conflicts if and only if another call renewed its lease and registered it meanwhile |
| ServiceInterleavings.RenewalsCollide | backend/internal/controlplane/ai_job_service.go:218-238 | From any reachable world with a live dispatch, two calls that renew it have an interleaving after which the first one's registration conflicts |
| ServiceInterleavings.ConcurrentRenewalsConflict | backend/internal/controlplane/ai_job_service.go:218-238 | Such a conflict is reached from the empty world in seven steps: creation, claim, two renewals, two removals and one registration |
| MemoryService.Service.RegisterReadyState | backend/internal/controlplane/ai_job_service.go:270-279 | Registers the projection of a waiting job, if it has one |
| MemoryService.Service.RemoveReadyReference | backend/internal/controlplane/ai_job_service.go:281-286 | Removes a usable reference |
| MemoryService.Service.Begin | backend/internal/controlplane/ai_job_service.go:12-78 | Creation through repository and index; a replay with another fingerprint is not registered; the billing ledger stays well formed |
| MemoryService.Service.CancelForAuth | backend/internal/controlplane/ai_job_service.go:138-145 | The client's cancellation through repository and index, with the release of the billing hold |
| MemoryService.Service.CancelAdmin | backend/internal/controlplane/ai_job_admin.go:170-190 | The administrator's cancellation with the release of the billing hold leaves the index unchanged |
| MemoryService.Service.Transition | backend/internal/controlplane/ai_job_service.go:240-251 | The store's step on trimmed arguments, followed in the index |
| MemoryService.Service.Requeue | backend/internal/controlplane/ai_job_service.go:253-268 | Refuses a negative delay, otherwise the store's step followed in the index |
| MemoryService.Service.ExtendLease | backend/internal/controlplane/ai_job_service.go:218-238 | Refuses an invalid envelope and a non-positive duration, otherwise the store's step with the envelope's version, fence and token, followed in the index |
| MemoryService.Service.Reconcile | backend/internal/controlplane/ai_job_service.go:288-311 | The loop over candidates equals the reconciliation function |
| MemoryService.Service.ClaimWith | backend/internal/controlplane/ai_job_service.go:155-206 | From any candidate list exactly min(limit, ready jobs) jobs are claimed, each now leased under this lease with the next version and fence; every other job is unchanged, nothing fails, store and index stay in step, and no stale entry of that list is left |
| MemoryService.Service.ClaimReady | backend/internal/controlplane/ai_job_service.go:155-216 | The same with the index's own candidates, an error for a non-positive duration, nothing for a blank worker id or a limit that is not positive, and no stale entry left among the first min(16 times the limit, 1024) candidates |
| DeliveryQueue.DoKeepsValid | backend/internal/controlplane/ai_job_delivery_queue.go:163-359 | Every operation keeps dedupe keys and entries in bijection and sequence numbers distinct |
| DeliveryQueue.ClosedEntriesStay | backend/internal/controlplane/ai_job_delivery_queue.go:300-359 | Acknowledged and dead entries never change |
| DeliveryQueue.RepublishChangesNothing | backend/internal/controlplane/ai_job_delivery_queue.go:163-204 | Publishing an envelope again under its key is a duplicate and changes nothing, whatever state its entry is in |
| DeliveryQueue.SupersededTokensStayDead | backend/internal/controlplane/ai_job_delivery_queue.go:361-373 | A token that no longer works is never valid again |
| DeliveryQueue.TokensStayApart | backend/internal/controlplane/ai_job_delivery_queue.go:206-281 | A token is valid for at most one entry |
| DeliveryQueue.AttemptsAddUp | backend/internal/controlplane/ai_job_delivery_queue.go:206-340 | Each entry's attempt count is its nacks plus its expired leases plus one while in flight, acknowledged or dead |
| DeliveryQueue.EveryRunIsSound | backend/internal/controlplane/ai_job_delivery_queue.go:163-391 | All of this holds after every run from the empty queue |
| DeliveryQueue.TokensDieOnce | backend/internal/controlplane/ai_job_delivery_queue.go:361-373 | Over any run a token that stopped working never works again |
| DeliveryQueue.WakesInTime | backend/internal/controlplane/ai_job_delivery_queue.go:412-430 | If nothing is receivable now and nothing else happens, something is receivable at a later moment if and only if the wake time has come |
| DeliveryQueue.SortedIsFirst | backend/internal/controlplane/ai_job_delivery_queue.go:393-410 | Sorting and cutting the ready entries gives the first ones by availability and sequence |
| DeliveryQueue.ReceivesAreProper | backend/internal/controlplane/ai_job_delivery_queue.go:206-281 | What the receive code does with fresh random tokens is an operation that the runs admit |
| DeliveryAnswers.PublishedEntriesWait | backend/internal/controlplane/ai_job_delivery_queue.go:163-204 | A published entry can be received exactly from the time on that its publisher asked for, at once when that is unset or past; nobody holds it |
| DeliveryAnswers.NackedEntriesWait | backend/internal/controlplane/ai_job_delivery_queue.go:300-340 | After a nack by the live holder the entry can be received exactly from the retry time on, at once when that is unset or past; attempt, envelope and place in line stay, the reason is kept |
| DeliveryAnswers.AckedEntriesAreGone | backend/internal/controlplane/ai_job_delivery_queue.go:300-340 | An acknowledged entry is never received again and no token works for it |
| DeliveryAnswers.BuriedEntriesAreGone | backend/internal/controlplane/ai_job_delivery_queue.go:342-359 | Nor is a buried one, and its reason is kept |
| DeliveryAnswers.ExtendedEntriesAreKept | backend/internal/controlplane/ai_job_delivery_queue.go:283-298 | An extended lease keeps the entry from others and for its holder exactly until its new end |
| DeliveryAnswers.RefusalsChangeNothing | backend/internal/controlplane/ai_job_delivery_queue.go:283-373 | Without a lease that works nothing can be done to any entry, and no lease is extended into the past |
| DeliveryAnswers.DeliveredEntriesAreKept | backend/internal/controlplane/ai_job_delivery_queue.go:206-281 | A delivered entry is kept from others until its lease ends, only the token handed out works until then, and the attempt is counted |
| DeliveryAnswers.OtherEntriesAreReclaimed | backend/internal/controlplane/ai_job_delivery_queue.go:375-391 | A receive frees an entry whose lease ran out at once and leaves any other that it does not hand out as it was |
| DeliveryAnswers.DeliveriesCarryTheirLease | backend/internal/controlplane/ai_job_delivery_queue.go:222-281 | Each delivery carries its entry's envelope and attempt and the credentials that settle it until the lease ends |
| DeliveryAnswers.NewEntriesComeLast | backend/internal/controlplane/ai_job_delivery_queue.go:163-204 | A new entry stands in line after all earlier ones |
| DeliveryAnswers.DeliveriesGoInOrder | backend/internal/controlplane/ai_job_delivery_queue.go:393-410 | A ready entry that was available earlier than one handed out, or as early and published earlier, is handed out before it |
| DeliveryAnswers.SettlementsAreAnswered | backend/internal/controlplane/ai_job_delivery_queue.go:361-373 | Whether a settlement is accepted, unknown or expired, told by when its token works |
| DeliveryAnswers.PublicationsAreAnswered | backend/internal/controlplane/ai_job_delivery_queue.go:163-204 | A publication is new when neither key nor delivery id is known, a duplicate exactly when its envelope is stored under its key, and otherwise a conflict |
| DeliveryAnswers.KeysAreTrimmed | backend/internal/controlplane/ai_job_delivery_queue.go:163-175 | An empty dedupe key stands for the delivery id, and spaces around a key do not matter |
| DeliveryQueue.MemoryDeliveryQueue.PublishEnvelope | backend/internal/controlplane/ai_job_delivery_queue.go:163-204 | Publish refuses invalid envelopes, reports conflicts and duplicates, and otherwise adds one pending entry |
| DeliveryQueue.MemoryDeliveryQueue.ReclaimExpired | backend/internal/controlplane/ai_job_delivery_queue.go:375-391 | Expired leases become pending again, available now |
| DeliveryQueue.MemoryDeliveryQueue.ReadyEntries | backend/internal/controlplane/ai_job_delivery_queue.go:393-410 | The first ready entries by availability and sequence, up to the limit |
| DeliveryQueue.MemoryDeliveryQueue.ReceiveOnce | backend/internal/controlplane/ai_job_delivery_queue.go:222-262 | One pass reclaims, takes the first ready entries, and leases each under its own token |
| DeliveryQueue.MemoryDeliveryQueue.ExtendLease | backend/internal/controlplane/ai_job_delivery_queue.go:283-298 | Extension succeeds exactly for the live holder and changes only the lease end |
| DeliveryQueue.MemoryDeliveryQueue.Settle | backend/internal/controlplane/ai_job_delivery_queue.go:300-359 | Ack, nack and dead letter succeed exactly for the live holder and change only that entry |
| DeliveryQueue.MemoryDeliveryQueue.NextWake | backend/internal/controlplane/ai_job_delivery_queue.go:412-430 | The earliest later moment at which an entry can change, or none |
| DeliveryWorker.EnvelopeNamesItsJob | backend/internal/controlplane/ai_job_delivery_queue.go:43-92 | A valid envelope carries its job's own ids |
| DeliveryWorker.StaleEnvelopesStayOut | backend/internal/controlplane/ai_job_delivery_worker.go:245-252 | An envelope that does not match its job never matches it again under a monotone clock |
| DeliveryWorker.SameIDSameEnvelope | backend/internal/controlplane/ai_job_delivery_queue.go:80-92 | Two envelopes of one delivery id made from job values that the store held at any moments are equal |
| DeliveryWorker.RebuildIsSafe | backend/internal/controlplane/ai_job_delivery_worker.go:66-127 | Publishing the envelope of a job value that was read at any earlier moment never conflicts, also when the job has moved on, and changes nothing when the queue has it in any state |
| DeliveryWorker.SeenMeansStored | backend/internal/controlplane/ai_job_delivery_worker.go:41-87 | The job values that a publication may use are exactly those that the store held after some part of the run |
| DeliveryWorker.PublishingNeverConflicts | backend/internal/controlplane/ai_job_delivery_worker.go:41-127 | After every run of store and queue, publishing a job that the store held at any moment of the run is accepted or a duplicate, and changes nothing when its envelope is queued already |
| DeliveryWorker.NoPublicationConflicts | backend/internal/controlplane/ai_job_delivery_worker.go:41-127 | No publication in any run conflicts, neither one right after a claim nor a late one |
| DeliveryWorker.PublishJobs | backend/internal/controlplane/ai_job_delivery_worker.go:41-80 | For jobs claimed or listed at any earlier moments the loop counts as errors exactly those that give no envelope, queues all others and leaves every earlier entry as it was, starting from a queue in any state |
| DeliveryWorker.DispatchesHaveEnvelopes | backend/internal/controlplane/ai_job_delivery_queue.go:43-57 | Every dispatched job with usable ids gives a valid envelope |
| DeliveryAnswers.EnvelopesAreAnswered | backend/internal/controlplane/ai_job_delivery_queue.go:43-92 | A job gives an envelope exactly when its ids are trimmed and not empty, version and fence are positive and it has a lease token |
| DeliveryAnswers.CurrentEnvelopesMatch | backend/internal/controlplane/ai_job_delivery_worker.go:245-252 | A worker takes an envelope for current exactly when the dispatched job would give it now and the lease is in force |
| DeliveryWorker.QueueAgreesOverRuns | backend/internal/controlplane/ai_job_delivery_worker.go:41-127 | Over all interleavings of store and queue each queued envelope is behind its job or equal to what the job gives |
| DeliveryProcessing.AcknowledgedMeansDone | backend/internal/controlplane/ai_job_delivery_worker.go:188-252 | Whenever a worker acknowledges a delivery, its envelope is its job's current claim neither then nor in any store that evolves from there, at any later moment |
| DeliveryProcessing.FailedRunsComeBack | backend/internal/controlplane/ai_job_delivery_worker.go:188-243 | A delivery is nacked when a look at the job or its preparation failed, and when the dispatch was given up while the job is still being dispatched |
| DeliveryProcessing.CleanRunsAreAcknowledged | backend/internal/controlplane/ai_job_delivery_worker.go:188-243 | A dispatch whose claim stands when it ends as accepted or as a requeue is acknowledged, unless something else went wrong |
| DeliveryProcessing.FinishedDispatchesAreAcknowledged | backend/internal/controlplane/ai_job_delivery_worker.go:222-235 | However the dispatch went, the delivery is done when the job is gone or not being dispatched any more |
| DeliveryProcessing.UselessEnvelopesAreAcknowledged | backend/internal/controlplane/ai_job_delivery_worker.go:188-252 | An invalid envelope, and one that is stale when the job is looked up, is acknowledged |
| RedisAnswers.PublicationsAreAnswered | backend/internal/controlplane/ai_job_delivery_redis.go:544-571 | A publication conflicts exactly when one of its keys holds another envelope, repeats when one holds it, and otherwise its message is in the stream at once or promotable exactly when the delay is over; a failed write leaves nothing |
| RedisAnswers.PromotionsAreAnswered | backend/internal/controlplane/ai_job_delivery_redis.go:573-587 | A promotion moves a delayed message to the end of the stream and changes nothing else |
| RedisAnswers.ReadsAreAnswered | backend/internal/controlplane/ai_job_delivery_redis.go:589-640 | A read makes new messages pending; one that gets no lease may be reclaimed exactly after the idle time |
| RedisAnswers.LeasesAreAnswered | backend/internal/controlplane/ai_job_delivery_redis.go:589-660 | Establishing and reclaiming put a lease on a pending message only; its token works until its end, and from then on the message may be reclaimed |
| RedisAnswers.TokensAreAnswered | backend/internal/controlplane/ai_job_delivery_redis.go:662-679 | After every run a token is told to be good, another's, lapsed or gone, exactly by the lease and the token of its message |
| RedisAnswers.ExtensionsAreAnswered | backend/internal/controlplane/ai_job_delivery_redis.go:662-679 | An extension by the holder keeps the message until the later of the old and the new end; any other changes nothing |
| RedisAnswers.AcksAreAnswered | backend/internal/controlplane/ai_job_delivery_redis.go:681-696 | An acknowledgement by the holder takes the message out; any other changes nothing and says why |
| RedisAnswers.NacksAreAnswered | backend/internal/controlplane/ai_job_delivery_redis.go:698-719 | A nack by the holder puts the given message back at once or exactly when the delay is over |
| RedisAnswers.BurialsAreAnswered | backend/internal/controlplane/ai_job_delivery_redis.go:721-737 | A burial by the holder adds the payload to the dead letters and takes the message out |
| RedisAnswers.DelayedMessagesWait | backend/internal/controlplane/ai_job_delivery_redis.go:544-587 | Over every run a delayed message stays out of the stream until it is due |
| RedisAnswers.IdleMessagesGoByID | backend/internal/controlplane/ai_job_delivery_redis.go:630-637 | Idle messages without a lease are taken in the order of their ids |
| RedisDelivery.StepsKeepFormed | backend/internal/controlplane/ai_job_delivery_redis.go:544-737 | Leased messages are pending, pending ones are in the stream, and stream ids are never reused |
| RedisDelivery.SettledIDsStayOut | backend/internal/controlplane/ai_job_delivery_redis.go:681-737 | A stream id that is gone stays gone and every token for it is refused |
| RedisDelivery.StepMoves | backend/internal/controlplane/ai_job_delivery_redis.go:544-737 | Each script moves an envelope from unpublished to live to settled as it should, or leaves it in place |
| RedisDelivery.SingleLiveCopy | backend/internal/controlplane/ai_job_delivery_redis.go:544-737 | Over every interleaving of the scripts a published envelope is in exactly one of stream and delayed set until it is settled, and in neither before and after |
| RedisDelivery.ExpiredKeysDuplicate | backend/internal/controlplane/ai_job_delivery_redis.go:544-571 | Why the dedupe keys must live: after both ran out, publishing again makes a second copy |
| RedisDelivery.LeaseIsKept | backend/internal/controlplane/ai_job_delivery_redis.go:589-737 | A lease is lost before its end if and only if its holder settles the message or another reader establishes its own lease of it |
| RedisDelivery.LeasesExcludeOthers | backend/internal/controlplane/ai_job_delivery_redis.go:589-737 | Over every run a lease excludes all others to its end, while its holder does not settle and nobody establishes a lease of the message |
| RedisDelivery.LateLeaseTakesOver | backend/internal/controlplane/ai_job_delivery_redis.go:642-660 | A concrete run of four steps in which a reader that is slow to establish its lease takes the message from the consumer that reclaimed it |
| RedisDelivery.RedisTokensDieOnce | backend/internal/controlplane/ai_job_delivery_redis.go:589-737 | Over every run a token that stopped holding its message never holds it again |
| RedisDelivery.PromotionMovesDue | backend/internal/controlplane/ai_job_delivery_redis.go:573-587 | Promotion appends the due members in their order under new ids, takes exactly them out of the delayed set and changes nothing else |
| RedisDelivery.ReclaimIsProper | backend/internal/controlplane/ai_job_delivery_redis.go:589-640 | A reclaim stays within its limit and takes only messages whose lease ran out or that were delivered long ago and never leased, no lease in force |
| RedisDelivery.ReclaimMissesNothing | backend/internal/controlplane/ai_job_delivery_redis.go:589-640 | While there is room a reclaim leaves no message behind that it may take |
| RedisDelivery.RedisDeliveryQueue.Publish | backend/internal/controlplane/ai_job_delivery_redis.go:544-571 | The script equals its function: conflicts, duplicates that restore keys, roll-back of keys on a failed write |
| RedisDelivery.RedisDeliveryQueue.Promote | backend/internal/controlplane/ai_job_delivery_redis.go:573-587 | Lists the due members earliest first up to the batch and moves them to the stream |
| RedisDelivery.RedisDeliveryQueue.Reclaim | backend/internal/controlplane/ai_job_delivery_redis.go:589-640 | Lists lapsed leases earliest first, claims those still pending, then claims idle messages without a lease by id while there is room, up to the limit |
| RedisDelivery.RedisDeliveryQueue.Ack | backend/internal/controlplane/ai_job_delivery_redis.go:681-696 | Only the live holder removes a message |
| RedisDelivery.RedisDeliveryQueue.Nack | backend/internal/controlplane/ai_job_delivery_redis.go:698-719 | Only the live holder gives a message back, at once or delayed |
| RedisDelivery.RedisDeliveryQueue.DeadLetter | backend/internal/controlplane/ai_job_delivery_redis.go:721-737 | Only the live holder buries a message |
| DispatchLoop.Candidates | backend/internal/controlplane/ai_job_worker.go:421-433 | The filter keeps exactly the candidates whose key is not excluded, in order |
| DispatchLoop.TryUnderPermit | backend/internal/controlplane/ai_job_worker.go:92-153 | One attempt under a permit: begun or not, submitted, and the permit retained or released by the dispatch state |
| DispatchLoop.Dispatch | backend/internal/controlplane/ai_job_worker.go:67-155 | The loop terminates with an end and a log that the answers of the world explain: each attempt meets the first provider not met before, and the loop ends exactly when an answer says so |
| DispatchLoop.DispatchIsExplained | backend/internal/controlplane/ai_job_worker.go:67-155 | Told from the answers of the world alone: which provider each attempt met, which effects it had and in which order, that the loop gave up exactly on a failed lookup, selection, capacity or begin or an unexpected state, requeued exactly when every provider of the last lookup was met as unsupported, denied or proven not created, and for which of the two reasons |
| DispatchLoop.DispatchIsDetermined | backend/internal/controlplane/ai_job_worker.go:67-155 | The answers of the world leave one such explanation, one end and one log |
| DispatchLoop.FinishMayLeaveAlone | backend/internal/controlplane/ai_job_worker.go:73-150 | The job is left alone exactly when the dispatch was given up, or was accepted after a cancellation |
| DispatchLoop.LogCounts | backend/internal/controlplane/ai_job_worker.go:67-155 | Every effect is in the log once if its round causes it and otherwise not at all |
| DispatchLoop.PermitsAreSettledOnce | backend/internal/controlplane/ai_job_worker.go:88-153 | Every acquired permit is released or retained, exactly once |
| DispatchLoop.RetainedWhenNeeded | backend/internal/controlplane/ai_job_worker.go:101-153 | A permit is retained if and only if its attempt was submitted and accepted, unknown or still submitted |
| DispatchLoop.SubmitsSafely | backend/internal/controlplane/ai_job_worker.go:67-155 | A later submission goes to another provider and only after every earlier one was proven not created |
| DispatchLoop.FinishReportsTheTask | backend/internal/controlplane/ai_job_worker.go:101-153 | The loop ends as accepted, or as unknown, if and only if some submission says so |
| DispatchLoop.FinishIsAllowed | backend/internal/controlplane/ai_job_worker.go:73-150 | A worker whose claim stands can always take the closing store step: back to the queue until the retry time with the reason recorded, on to running, or to unknown |
| DispatchLoop.AcceptanceFollowsTheCurrentJob | backend/internal/controlplane/ai_job_worker.go:104-122 | Acceptance re-reads the job: it takes effect under whatever claim there is by then, and only the table can refuse it |
| DispatchLoop.SupersededFinishDoesNothing | backend/internal/controlplane/ai_job_worker.go:73-150 | After another claim, giving the job back or marking it unknown does nothing |
| BillingHolds.BudgetVerdictIsExact | backend/internal/controlplane/billing_hold_repository.go:179-218 | In an account within its budget the wrapping comparison says whether exposure and reservation exceed the budget if and only if their sum fits 64 bits or exceeds 2^64 plus the budget; it never refuses wrongly |
| BillingHolds.IncomparableIsLetThrough | backend/internal/controlplane/billing_hold_repository.go:179-218 | Every other reservation is let through and committed; one above the budget breaks it |
| BillingHolds.WrapBreaksBudget | backend/internal/controlplane/billing_hold_repository.go:179-218 | A concrete run of two admissions after which more than the budget is committed |
| BillingAnswers.EntriesAreCounted | backend/internal/controlplane/billing_hold_repository.go:179-218 | Of two ledgers that differ by one entry: the verdict of an admission differs only when the entry is an applied usage cost of the credential inside the month, and then exactly as asking for that much more would, wherever the sum wraps |
| BillingAnswers.HoldsAreCounted | backend/internal/controlplane/billing_hold_repository.go:179-218 | The same for the hold of another operation: it counts exactly while it is neither settled nor released, in its credential and month |
| BillingAnswers.EmptyLedgerAdmits | backend/internal/controlplane/billing_hold_repository.go:179-218 | With nothing on record a well-formed request is admitted exactly when there is no budget or it fits |
| BillingAnswers.ChargesLowerTheBudget | backend/internal/controlplane/billing_hold_repository.go:179-218 | While sums fit 64 bits a charge of the account is the same as a budget lowered by its amount |
| BillingAnswers.ReservationsLowerTheBudget | backend/internal/controlplane/billing_hold_repository.go:179-218 | The same for a live reservation |
| BillingAnswers.MovesAreAnswered | backend/internal/controlplane/billing_hold.go:302-335 | For every status of a hold which moves the caller with its version gets, and the whole hold after each; no other hold changes |
| BillingAnswers.NoHoldNoMove | backend/internal/controlplane/billing_hold.go:341-370 | Without a hold nothing moves and nothing is refused |
| BillingAnswers.AdmissionsAreStored | backend/internal/controlplane/billing_hold_repository.go:51-100 | An admission stores the hold as it was brought and its operation, a refusal nothing; a known operation or hold is refused |
| BillingAnswers.RequestsAreAnswered | backend/internal/controlplane/billing_hold.go:341-370 | What commit, dispute and release do for every status, and that only releasing a committed hold and going back to reserved are refused |
| BillingAnswers.ReleasesAreAnswered | backend/internal/controlplane/billing_hold_repository.go:471-482 | Cancelling releases a reserved or disputed hold and leaves every other as it is |
| BillingAnswers.ChargesAddUp | backend/internal/controlplane/billing_hold_repository.go:504-518 | The cumulative amount grows by exactly the applied usage costs of its operation |
| BillingAnswers.UsagesAreTaken | backend/internal/controlplane/operation_repository.go:436-485 | Exactly which usage settlements are taken |
| BillingAnswers.UsagesAreAnswered | backend/internal/controlplane/operation_repository.go:436-485 | What a settlement leaves behind: its entry, and a live hold settled with all that was charged, disputed, or settled with nothing, as pricing said; closed holds and other operations stay |
| BillingHolds.ExposureBounds | backend/internal/controlplane/billing_hold_repository.go:179-218 | The exposure the admission compares is at least the committed amount and at most twice it |
| BillingHolds.CheckIsSound | backend/internal/controlplane/billing_hold_repository.go:179-218 | A reservation that passes the comparison fits the budget beside everything committed, when the exact condition holds |
| BillingHolds.AdvanceKeepsBudget | backend/internal/controlplane/billing_hold.go:302-335 | Moving holds along their table never raises what is committed |
| BillingHolds.AdmittedKeepsBudget | backend/internal/controlplane/billing_hold_repository.go:51-100 | Under that condition admission keeps the account within its budget |
| BillingHolds.EntryKeepsBudget | backend/internal/controlplane/operation_repository.go:436-485 | Applying an entry while its hold is live and within its reservation keeps the account within its budget |
| BillingHolds.BudgetIsConserved | backend/internal/controlplane/billing_hold_repository.go:51-527 | Over every run whose admissions meet that condition and whose entries are charged against live reservations, live reservations plus charges of closed operations never exceed the budget |
| BillingHolds.ClosedHoldsStay | backend/internal/controlplane/billing_hold.go:302-335 | Settled and released holds never change again, under any operation |
| BillingHolds.ReleaseClears | backend/internal/controlplane/billing_hold_repository.go:471-482 | Releasing for an operation leaves it no reserved and no disputed hold, and leaves other statuses alone |
| BillingHolds.ExceedsBudget | backend/internal/controlplane/billing_hold_repository.go:179-218 | Summing entries and holds in any order with 64-bit wrap-around decides exactly the budget comparison |
| BillingHolds.MemoryBilling.FindHold | backend/internal/controlplane/billing_hold_repository.go:328-335 | Finds the hold of an operation if there is one |
| BillingHolds.MemoryBilling.Admit | backend/internal/controlplane/billing_hold_repository.go:51-100 | Admission is all or nothing: operation and hold, or neither |
| BillingHolds.MemoryBilling.TransitionHold | backend/internal/controlplane/billing_hold_repository.go:382-401 | Trims the operation id, and moves a hold only at the expected version and along the table, and says so exactly when the ledger changed |
| BillingHolds.MemoryBilling.ServiceTransition | backend/internal/controlplane/billing_hold.go:341-370 | Commit, dispute and release leave missing, closed and already moved holds alone, and succeed exactly when there was nothing to move or the hold moved |
| BillingHolds.MemoryBilling.ReleaseForOperation | backend/internal/controlplane/billing_hold_repository.go:471-482 | Release for a cancelled job spares committed and closed holds |
| BillingHolds.MemoryBilling.CumulativeAmount | backend/internal/controlplane/billing_hold_repository.go:504-518 | The cumulative amount of an operation, or a refusal exactly when it exceeds 64 bits |
| BillingHolds.MemoryBilling.SettleForUsage | backend/internal/controlplane/billing_hold_repository.go:484-502 | A final usage settles the live hold with the cumulative amount |
| BillingHolds.MemoryBilling.ApplyUsage | backend/internal/controlplane/operation_repository.go:436-485 | A usage settlement is all or nothing over ledger entry and hold |
| Departments.ValidateParent | backend/internal/controlplane/department_service.go:120-147 | The upward walk terminates on acyclic links and returns exactly whether the parent is missing, the department itself, or below it |
| Departments.AcceptedStaysAcyclic | backend/internal/controlplane/department_service.go:120-147 | An accepted parent leaves the links acyclic, with an explicit new ranking |
| Departments.UpdateAcceptedIffForest | backend/internal/controlplane/department_service.go:37-62 | An update's parent is accepted if and only if the directory stays a forest |
| Departments.CreateAcceptedIffForest | backend/internal/controlplane/department_service.go:15-35 | A creation's parent is accepted if and only if the directory stays a forest |
| Departments.RefusalsTellWhy | backend/internal/controlplane/department_service.go:120-147 | An update is refused as its own parent, as missing exactly when the parent would dangle, and as a circle exactly when the links would have one |
| Departments.DepartmentService.CodeTaken | backend/internal/controlplane/department_service.go:149-160 | Whether another department has the code |
| Departments.DepartmentService.Create | backend/internal/controlplane/department_service.go:15-35 | Accepts exactly the departments that keep a forest with unique codes |
| Departments.DepartmentService.Update | backend/internal/controlplane/department_service.go:37-62 | Accepts exactly the changes of known departments that keep a forest with unique codes |

## Left out

- SQL transport, row locks, row scanning, JSON, the Redis client and key prefixes: queries and scripts are modelled by what they mean.
- Goroutines, tickers, contexts, heartbeats and the waiting loop of Receive: extension, expiry and receiving are steps at any time.
- PostgreSQL's own create, cancel, extend, transition and requeue: they run the same preparation functions in a transaction.
- The PostgreSQL budget query: it adds all applied entries where memory adds the positive ones; the ledger refuses negative amounts.
- Pricing versions and evaluations, reservations of images, seconds and other usage dimensions, idempotent replay of billed operations, audit logs.
- BillingHolds.BudgetIsConserved: assumes the exact condition of BudgetVerdictIsExact of every admission, one fixed positive budget, and that entries come in the account's period while their hold is live and within its reservation; without that the ledger promises nothing.
- BillingHolds.MemoryBilling.Admit: the limits of the usage dimensions that the same check enforces are not modelled, the cost limit is.
- BillingHolds.MemoryBilling.ApplyUsage: a settlement carries at most one counted usage-cost entry; entries of other kinds and more than one of them are not modelled.
- FairQueue.ProfilesShareFairly: compares candidates of one kind only, reclaims or queued jobs, because reclaims come first; the same holds of the tenant and principal bounds.
- RedisReadyIndex.RedisReadyIndex.Candidates: requires that no column holds the separator, without which principals may be scored by jobs of another level; the payload size limit and undecodable payloads are not modelled.
- ServiceRuns.CacheIsComplete: a service call is one step; the interleaved form is QuietIndexIsComplete, which is weaker by the end of a concurrently renewed lease.
- Redis delivery: the attempt number of a message that was read but never leased, trimming of dead letters, malformed messages, and the blocking read.
- RedisDelivery.SingleLiveCopy: assumes that workers return the envelope they were given and that the envelope's own dedupe key lives.
- DeliveryProcessing.AcknowledgedMeansDone: acceptance's second look at the job and its transition are one step; envelope validity is decided by the digest alone.
- The listing functions for index and queue rebuild: PublishJobs takes any list of jobs that the store holds or held.
- DispatchLoop.Dispatch: billing, progress, capacity synchronisation and reconciliation after the loop are not modelled; the store step it ends with is FinishStep.
- Provider adapters, artifacts and their life cycle, request encryption, authentication, configuration, notifications, alerts and reporting.
- Departments: normalisation of a request other than its parent id, and the listing of departments.
