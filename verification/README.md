# Scheduled smart-account executions: a verified model

The backend registers jobs (an ERC-4337 user operation with a placeholder signature, its chain and its on-chain
schedule) and executes them when they fall due. One poller goroutine and one worker goroutine share
a Redis status cache, a Redis queue and a SQL table of jobs, without a transaction across the three.
This project models that system and proves what it guarantees.

| File | Models |
|---|---|
| `SchedulerProtocol.dfy`, `SchedulerInvariant.dfy`, `SchedulerTheorems.dfy` | poller and worker as a step relation with faults and crashes, its inductive invariant, and what holds of every run |
| `SchedulerAttempts.dfy` | when a job is sent again: never after a fruitless or reverted attempt, otherwise only after a success |
| `SchedulerPaths.dfy`, `SchedulerSends.dfy` | continuations of runs, and exactly when a job with an outcome can still be sent |
| `PollPass.dfy`, `Scheduler.dfy` | the same code in imperative form over the repository objects, and one quiet poll pass against a specification on whole stores |
| `SchedulerRefinement.dfy` | the specified pass and a turn of the worker are runs of the step relation, which changes the cache only through the repository's operations |
| `JobCacheEntries.dfy`, `JobCache.dfy`, `JobCacheLocking.dfy` | the cache repository: values, object, and its RWMutex discipline for concurrent callers |
| `Job.dfy`, `JobTable.dfy` | jobs, rows, queue payloads, the on-chain schedule, and the jobs table |
| `ExecutionConfigs.dfy`, `ClientPool.dfy` | batch and single reading of the on-chain record; double-checked locking of the client pools |
| `UserOperation.dfy`, `UserOperationHash.dfy`, `UserOperationJson.dfy`, `UserOperationText.dfy`, `HexText.dfy`, `Hex.dfy`, `Bytes.dfy` | packing, hashing and both JSON forms of an operation, the texts written said of their characters, and exactly which documents decode |
| `Execution.dfy` | nonce key, call data, fees, the in-place signature splice, `ExecuteJob` |

`SchedulerProtocol` has every Redis, database, bundler and chain call as one step, lets each of them
fail, and has a crash step that forgets both goroutines and keeps the three stores. The imperative
`Scheduler` runs one goroutine at a time, with the stores online or offline for the whole call. The
two meet in `SchedulerRefinement`: `PollJobLogic` does what `Pass` says, `ExecuteJobLogic` what
`AfterExecution` says, and both are runs of the protocol.

The specification functions are tied to independent statements, so that a theorem about a function is
not only a theorem about its name: `DueSpelled`, `MarkedSpelled` (what is due, from the record and the
clock), `ConfigReadsAs` (which contract is read), `ExecutedSpelled` (what is asked, signed and sent),
`Recorded` (what the cache keeps of it), `HashSpelled` (the bytes that are hashed), `PackedFields` (the
packed layout), and `CustomTexts`, `DefaultTexts`, `PackedTexts` (the characters that are written).

## Assumptions of the protocol model

- A Redis or database call that returns an error had no effect.
- No 24-hour expiry fires on a live entry (`src/repository/job_cache.go:118`, `:151`, `:232`).
- `isJobInCache` does not fail spuriously: any error is read as "absent" (`src/service/scheduler.go:308-314`).
- One poller and one worker run.
- A job's total is fixed; its completed counter on the chain never decreases, has been incremented
  before a success receipt is visible, and later config reads see the increment.
- A bundler answers each accepted operation with a hash it has not given before. Such a hash stands for
  one operation on one chain (`HashIdentifiesOperation`), and an account takes a nonce only once. Without
  this, an old success receipt could stand for a new send.

`BoundedSends` uses all of them.

## Where the code and its documentation or intent differ

- A job that a pass enqueues and the worker does not take before the next pass is recorded as failed
  by the zero-hash branch (`src/service/scheduler.go:472-483`), and is executed all the same. So
  "a job recorded as failed was not sent, nor will be" does not hold: `FailedYetSent` gives, for every
  job that falls due, a run without faults that records it as failed and then sends it. When the
  branch strikes is in `UnservedJobIsFailed`, and `NeverSentAgainIff` gives the exact condition under
  which a job with an outcome is not sent again.
- `docs/scheduling.md:66` lists retries of failed submissions; the code makes none. A refused
  submission is final even when recording it fails (`RefusedIsFinal`), and so is a reverted operation
  (`RevertedIsFinal`). A further send waits for the success of the last one (`NextAttemptNeedsSuccess`).
- The example operation of `docs/scheduling.md:118-136` does not decode, for two reasons: its
  `paymaster` is `0x`, which is no address, and its `paymasterData` is null. Mending one is not enough
  (`DocumentedExampleRefused`); `DecodesExactly` says which documents decode.
- The two JSON encoders differ on negative numbers: the custom one keeps a sign (and drops that of the
  nonce), the default one writes text that the decoder refuses. The round-trip lemmas say exactly when
  an operation survives.

## Model

| member | source | states |
|---|---|---|
| SchedulerTheorems.BoundedSends | src/service/scheduler.go:126-305 | in every interleaving, with any faults and crashes, SendUserOperation is attempted for a job at most as often as it had executions left at registration, and never more than one attempt ahead of the chain |
| SchedulerTheorems.CompletedIsTrue | src/service/scheduler.go:276-291 | a job is completed, in cache or table, only when the chain has counted all its executions |
| SchedulerTheorems.OneOutstandingCopy | src/service/scheduler.go:173-195 | in every reachable state a job is queued or with the worker at most once, and is then cached as not completed, or failed in the table |
| SchedulerTheorems.PendingEntryWellFormed | src/repository/job_cache.go:136-152 | a reachable pending entry names its own job and that job's chain, its row is queuing, and a non-zero hash is the answer to the latest send and means that no copy is out |
| SchedulerTheorems.ReceiptAskedAboutLatestSend | src/service/scheduler.go:458-493 | from a stale list too, the poller asks the job's own chain about the operation of that job's latest send |
| SchedulerTheorems.OutcomeIsFinal | src/service/scheduler.go:326-400 | a failed or completed outcome, in cache or table, is the same ever after; a terminal row never changes; at most the copy that is already out is still sent |
| SchedulerTheorems.QueueIsFifo | src/repository/job_cache.go:53-75 | through faults and crashes, everything enqueued is what was dequeued, in order, followed by the queue read oldest first |
| SchedulerTheorems.LedgerOnlyGrows | src/service/scheduler.go:204-243 | along every run a job's bound is fixed and its send and completion counters only grow |
| SchedulerInvariant.NextKeepsInv | src/service/scheduler.go:92-305 | every poller, worker and environment step, with or without a fault, keeps the joint invariant of table, cache, queue, worker and the poller's stale lists |
| SchedulerInvariant.FilterTakes | src/service/scheduler.go:260-296 | a job found due is held by nothing else and has an execution left that no send has used |
| SchedulerAttempts.RefusedIsFinal | src/service/scheduler.go:204-219 | after an execution that fails before the send, is refused, or gets the zero hash, the job is not sent again, whatever follows, its failure being recorded or not |
| SchedulerAttempts.RevertedIsFinal | src/service/scheduler.go:525-536 | once the last operation of a job has reverted on the chain, the job is not sent again |
| SchedulerAttempts.NextAttemptNeedsSuccess | src/service/scheduler.go:126-305 | a job is sent again only after the operation of its last attempt has succeeded on the chain |
| SchedulerAttempts.AnsweredRun | src/service/scheduler.go:458-537 | in every reachable state a job once sent has its last operation succeeded, or no copy is out and its entry waits for a receipt or holds an outcome |
| SchedulerSends.NeverSentAgainIff | src/service/scheduler.go:204-243 | a job with an outcome is never sent again, whatever follows, with or without faults, if and only if no copy of it is queued or in execution |
| SchedulerSends.UnsentCanBeSent | src/service/scheduler.go:92-121 | from any state a queued or executing copy can, without faults, be sent and accepted, however many jobs are ahead of it |
| SchedulerSends.FailedWhileQueued | src/service/scheduler.go:472-483 | for every job that falls due there is a run from the empty system, without any fault, that records it as failed while its copy is still queued |
| SchedulerSends.FailedYetSent | src/service/scheduler.go:472-483 | and the run goes on, without faults, to send it: the bundler accepts the operation while the row is failed |
| PollPass.PassSettlesRows | src/service/scheduler.go:326-400 | a quiet pass in the table: exactly the jobs whose entry gives an outcome (failed, completed, zero hash, reverted) take it over, with its message |
| PollPass.PassSettlesEntries | src/service/scheduler.go:126-305 | a quiet pass in the cache: waiting entries stay; of the other queuing jobs exactly those whose record has no execution left get a completed entry, and exactly those with an execution left, enabled, and whose time has come by the clock get a new one |
| PollPass.PassPushesDueJobs | src/service/scheduler.go:172-200 | a quiet pass in the queue: exactly those due jobs are pushed, each once, in database order, so that the first is the next of them to leave and what was queued leaves before them |
| PollPass.DueSpelled | src/service/scheduler.go:256-305 | the list of due jobs: the jobs that are not cached and whose record says, by count, flag, start, interval and clock, that they are due, in the order of the active jobs |
| PollPass.DecisionSpelled | src/service/scheduler.go:276-296 | an uncached job is executed exactly when its record says that it is due, and marked completed exactly when the record says that no execution is left |
| PollPass.MarkedSpelled | src/service/scheduler.go:276-291 | the entries after filtering: those there were, and a completed one for exactly the uncached jobs without executions left |
| PollPass.UnreadableConfigEndsPass | src/service/scheduler.go:160-165 | one config that cannot be read leaves only receipts and sync done |
| PollPass.UnservedJobIsFailed | src/service/scheduler.go:472-483 | a due job not taken before the next pass is recorded as failed, with the zero-hash message, exactly when its chain's bundler client is available, and its payload is still in the queue |
| PollPass.DueIsQueued | src/service/scheduler.go:173-195 | a due job ends a pass queuing, cached with the zero hash, and with its payload in the queue |
| PollPass.NewEntryIsFailed | src/service/scheduler.go:472-483 | a pass that finds a new entry fails its job through table and message, if the bundler client is there |
| PollPass.RowByJob | src/service/scheduler.go:360-400 | receipts and sync together write to each row exactly the outcome of its entry |
| PollPass.EntriesByJob | src/service/scheduler.go:403-537 | receipts and sync together leave exactly the entries that cannot be judged yet |
| PollPass.BothSynced | src/service/scheduler.go:326-345 | syncing the failed and then the completed list writes every outcome once and leaves the pending entries |
| PollPass.EnqueuedKeysMatch | src/repository/job_cache.go:136-152 | marking and enqueuing keep that every entry names the job of its key |
| SchedulerRefinement.PassIsRun | src/service/scheduler.go:126-201 | from any state with a resting poller, the specified pass is a run of the protocol, so all theorems on runs hold of it |
| SchedulerRefinement.TurnIsRun | src/service/scheduler.go:92-121 | a turn of the worker is a run of the protocol, a send attempt exactly when SendUserOperation was called, and then one recording step without a fault: the hash in the job's entry, or the failure with its text, and no other entry changed |
| SchedulerRefinement.ExecutionIsRun | src/service/scheduler.go:99-121 | up to the recording, too, a turn is a run, without faults when the bundler accepts |
| SchedulerRefinement.StepsAreOperations | src/repository/job_cache.go:97-152 | a step changes the cache exactly as the repository operation it makes at that point, and not at all if it makes none |
| SchedulerRefinement.ReadsAreAnswers | src/repository/job_cache.go:170-201 | a step that lists or looks up entries goes on with the answer of that operation |
| SchedulerRefinement.ReceiptsRun | src/service/scheduler.go:403-455 | chain after chain and entry after entry, the receipt steps carry out exactly the verdicts |
| SchedulerRefinement.SyncPhase | src/service/scheduler.go:326-400 | the sync steps of both lists reach exactly the specified rows and entries |
| SchedulerRefinement.FetchAndFilter | src/service/scheduler.go:246-305 | the fetch and filter steps reach exactly the specified entries and list of due jobs |
| SchedulerRefinement.EnqueuePhase | src/service/scheduler.go:172-200 | the enqueue steps cache and push exactly the listed jobs in order |
| PollPass.DueUnmarked | src/service/scheduler.go:188-195 | taking back the entry of a job that could not be pushed leaves the cache as it was |
| Scheduler.JobScheduler.PollJobLogic | src/service/scheduler.go:126-201 | the imperative pass is the specified pass when all stores are online; each outage leaves exactly the part it says |
| Scheduler.JobScheduler.CheckReceiptsForPendingJobs | src/service/scheduler.go:403-428 | grouped by chain, in any order of the chains, it carries out exactly the verdict on each pending entry |
| Scheduler.JobScheduler.CheckReceiptsForChain | src/service/scheduler.go:431-455 | one chain group: the verdicts of its jobs, or nothing without a bundler client |
| Scheduler.JobScheduler.CheckSingleJobReceipt | src/service/scheduler.go:458-537 | zero hash and reverted entries become failed ones with their messages, a successful one is removed, and without a receipt nothing changes |
| Scheduler.JobScheduler.GroupJobsByChainID | src/service/scheduler.go:317-323 | the groups are the chains that occur, each with its jobs in list order |
| Scheduler.JobScheduler.SyncJobsToDatabase | src/service/scheduler.go:360-400 | every listed outcome is written and its entry removed; a failed write leaves both |
| Scheduler.JobScheduler.SyncCacheToDatabase | src/service/scheduler.go:326-345 | all outcomes reach the table and only pending entries remain |
| Scheduler.JobScheduler.FetchExecutionConfigsAndFilterJobs | src/service/scheduler.go:246-305 | the list is exactly the uncached jobs that are due by record and clock, in order; the new entries are exactly completed ones for uncached jobs without executions left; neither when a config cannot be read |
| Scheduler.JobScheduler.EnqueueOne | src/service/scheduler.go:173-200 | the job is cached and pushed; when the push fails its entry is gone again |
| Scheduler.JobScheduler.EnqueueJobs | src/service/scheduler.go:172-200 | so for each job in order |
| Scheduler.JobScheduler.EnqueueActiveJobs | src/service/scheduler.go:148-200 | steps 3 to 5 of the pass on whole stores |
| Scheduler.JobScheduler.ExecuteJobLogic | src/service/scheduler.go:204-243 | what is sent is spelled out field by field; an accepted hash is put into the job's entry, if there is one, an error becomes a failed entry with its text, and nothing else in the cache changes |
| Scheduler.JobScheduler.ProcessNextJob | src/service/scheduler.go:92-121 | the oldest payload leaves the queue and, if it decodes, that job is executed and recorded so |
| JobCacheLocking.RunsAreAtomic | src/repository/job_cache.go:78-133 | for any number of callers and any interleaving of their Redis commands, the operations are atomic in some order that explains every answer and the entries, and each returned call is an operation of its own |
| JobCacheLocking.LaterCallsTakeEffectLater | src/repository/job_cache.go:204-233 | that order respects real time: the event of a call made after others returned comes after their events |
| JobCacheLocking.ScanIsSnapshot | src/repository/job_cache.go:170-201 | a scan of many GETs returns what one atomic look at the entries returns |
| JobCacheLocking.NextKeepsInv | src/repository/job_cache.go:204-233 | between GET and SET of an update the entry cannot change, and no update is lost |
| JobCacheEntries.ListsPartitionEntries | src/repository/job_cache.go:244-280 | the three lists partition the entries and the statistics' total is the cache size |
| JobCacheEntries.StatisticsCount | src/repository/job_cache.go:244-280 | the statistics count the entries of each status and all of them |
| JobCacheEntries.UpdateHashOnlyMovesHash | src/repository/job_cache.go:204-233 | updating a hash creates no entry, changes no status and touches no other entry |
| JobCacheRepositories.JobCacheRepository.EnqueueJob | src/repository/job_cache.go:53-60 | the payload, with the job's fields under their names, is added at the LPush end, or nothing changes |
| JobCacheRepositories.JobCacheRepository.DequeueJob | src/repository/job_cache.go:63-75 | the oldest payload is removed and decoded; one that does not decode is gone |
| JobCacheRepositories.JobCacheRepository.GetJobCache | src/repository/job_cache.go:78-94 | the entry, or an error when there is none |
| JobCacheRepositories.JobCacheRepository.SetJobStatus | src/repository/job_cache.go:97-119 | a fresh entry without chain and hash replaces whatever was there |
| JobCacheRepositories.JobCacheRepository.DeleteJobCache | src/repository/job_cache.go:127-133 | the entry is gone and no other changes |
| JobCacheRepositories.JobCacheRepository.AddJobCache | src/repository/job_cache.go:136-152 | the entry is stored under its own job id |
| JobCacheRepositories.JobCacheRepository.UpdateJobCacheUserOpHash | src/repository/job_cache.go:204-233 | one existing entry gets the hash; without an entry it fails and changes nothing |
| JobCacheRepositories.JobCacheRepository.GetJobCachesByStatus | src/repository/job_cache.go:170-201 | exactly the entries of the status, each once |
| JobCacheRepositories.JobCacheRepository.GetCacheStatistics | src/repository/job_cache.go:244-280 | the lengths of the three lists and their sum |
| JobTable.JobRepository.CreateJob | src/repository/job_repo.go:20-41 | the one new row, column by column, and what it reads back as; a duplicate is exactly a row with the same account, chain, on-chain id and job type; the conditions of the other errors; errors change nothing |
| JobTable.JobRepository.FindActiveJobs | src/repository/job_repo.go:71-86 | exactly the queuing jobs, each once; online it fails if and only if a queuing row does not decode |
| JobTable.JobRepository.UpdateJobStatus | src/repository/job_repo.go:90-105 | one row changes in its status and, when failed, its message; an unknown id changes nothing |
| JobTable.UpdatedTable | src/repository/job_repo.go:90-105 | an update of a row is the same update of the job it decodes to |
| Jobs.ToDBJobRoundTrip | src/domain/job.go:51-108 | a job survives ToDBJob and ToEntityJob exactly when no number of its operation is negative |
| Jobs.CreatedRowReadsBack | src/repository/job_repo.go:20-41 | a row in the custom encoding reads back with a nil nonce as 0 |
| Jobs.AddressTextReadsBack | src/domain/job.go:51-70 | a stored address reads back for every choice of capital letters |
| Jobs.AddressIsWritten | src/domain/job.go:87-106 | a stored address is 0x and its 40 digits in whatever case |
| Jobs.PayloadRoundTrip | src/repository/job_cache.go:53-75 | a queued job is dequeued unchanged, or not at all when a number is negative |
| Jobs.DueExactlyFromThreshold | src/domain/job.go:120-140 | an enabled job is due from one instant on, and stays due |
| ExecutionConfigs.BlockchainService.GetExecutionConfigsBatch | src/service/blockchain.go:255-379 | succeeds exactly when every job can be read alone, with exactly those ids, each with the record of its chain, contract, account and on-chain id, for any order of the groups |
| ExecutionConfigs.ConfigReadsAs | src/service/blockchain.go:154-251 | a job's record is read on its chain, if pooled or one of the seven listed, at the transfers or orders contract by its type, under its account and on-chain id; any other type has none |
| ExecutionConfigs.BlockchainService.GetExecutionConfig | src/service/blockchain.go:165-251 | reads one job's record at the contract of its type on its chain; the error cases |
| ExecutionConfigs.BatchDetermined | src/service/blockchain.go:255-379 | success and result depend only on which jobs are in the batch, not on any order |
| ExecutionConfigs.BlockchainService.ReadGroup | src/service/blockchain.go:282-371 | the first job of a group that cannot be read fails the group, otherwise the results gain exactly its configs |
| ExecutionConfigs.BlockchainService.GroupJobs | src/service/blockchain.go:268-272 | every job is in the group of its chain and type and in no other |
| ExecutionConfigs.BlockchainService.GetClient | src/service/blockchain.go:77-125 | a pooled client is returned as it is; only reachable chains join the pool |
| ClientPool.DialledOncePerSlot | src/service/blockchain.go:77-125 | for any number of threads, between two Closes a chain is successfully dialled at most once per pool |
| ClientPool.SameClientForAll | src/service/blockchain.go:404-455 | between two Closes every caller for a chain gets the same client, and it was dialled for that chain |
| ClientPool.NoClientLeaks | src/service/blockchain.go:137-151 | with the lock free, the clients ever dialled are the disjoint union of the pooled and the closed ones |
| ClientPool.NextKeepsInv | src/service/blockchain.go:77-125 | every step of every thread keeps the lock and pool invariant |
| UserOperations.PackUserOp | erc4337/user_operation.go:302-390 | the buffer code writes the specified packed operation and panics exactly for numbers that are too wide; in range the fields are as the v0.7 layout has them |
| UserOperations.PackedFields | erc4337/user_operation.go:302-390 | the packed fields one by one: each word as one integer, the paymaster data by position |
| UserOperations.PackedExactly | erc4337/user_operation.go:326-387 | packing panics exactly when a left number or a paymaster limit needs more than 16 bytes, or a right number more than 32 |
| UserOperations.PackInvertible | erc4337/user_operation.go:302-390 | a reader of the v0.7 layout recovers every field, up to what packing drops, if and only if the packed gas and fee fields fit 128 bits |
| UserOperations.PackInjective | erc4337/user_operation.go:302-390 | two in-range operations pack alike exactly when they are the same up to what packing drops |
| UserOperations.WordReads | erc4337/user_operation.go:326-356 | as one integer a packed word is left * 2^128 + right |
| UserOperations.WordExact | erc4337/user_operation.go:326-356 | a word reads back as its two numbers if and only if both are in [0, 2^128) |
| UserOperations.RightWritesOverLeft | erc4337/user_operation.go:327-335 | for any widths, the word is left * 2^128 with its last n bytes replaced by the right number of n bytes |
| UserOperations.OversizedRightIsLost | erc4337/user_operation.go:327-335 | a right number of 2^128 or more writes over the end of the left half and is not read back |
| UserOperations.PaymasterExact | erc4337/user_operation.go:358-387 | the paymaster limits read back if and only if they fit; address and data always do |
| UserOperations.CopyEndingAt | erc4337/user_operation.go:326-336 | bytes are placed so that they end at a position and nothing else changes |
| UserOperationHash.HashBinding | erc4337/user_operation.go:393-471 | for any hash function, equal hashes mean equal covered fields or a collision among the five pairs of hash calls, and equal fields mean equal hashes |
| UserOperationHash.HashIdentifiesOperation | erc4337/user_operation.go:393-471 | in range and without a collision, hashes are equal exactly for the same operation, up to signature and dropped fields, on the same chain |
| UserOperationHash.HashSpelled | erc4337/user_operation.go:393-471 | the hash is k of 96 bytes: k of the 256 bytes of the inner words, the v0.7 entry point in a word, and the chain id |
| UserOperationHash.SignatureNotHashed | src/service/execution.go:284-337 | replacing the signature leaves the hash |
| UserOperationHash.InnerWords | erc4337/user_operation.go:412-445 | the eight words of the inner encoding, by position |
| UserOperationHash.OuterWords | erc4337/user_operation.go:454-464 | the three words of the outer encoding, by position |
| UserOperationJson.CustomRoundTrip | erc4337/user_operation.go:37-200 | MarshalJSON panics exactly for a nonce of 2^256 or more; otherwise UnmarshalJSON gives the operation back with the nonce's magnitude |
| UserOperationJson.DefaultRoundTrip | src/repository/job_cache.go:53-75 | the default encoding decodes to the operation exactly when no number is negative, else not at all |
| UserOperationJson.StorageRoundTrip | src/domain/job.go:51-70 | through table and queue an operation is unchanged, a nil nonce as 0, if and only if no number is negative and the nonce is below 2^256 |
| UserOperationJson.StorageKeepsWhatIsSigned | erc4337/user_operation.go:302-314 | so storage changes neither the packed operation nor its hash |
| UserOperationJson.CustomNonceWidth | erc4337/user_operation.go:54-63 | the stored nonce text has 66 characters |
| UserOperationJson.MarshalJSON | erc4337/user_operation.go:37-89 | the document by the characters of its texts: numbers as 0x and minimal lower-case digits, nil ones empty or absent, the nonce padded to 64 digits; it panics exactly for a nonce of 2^256 or more |
| UserOperationJson.CustomTexts | erc4337/user_operation.go:37-89 | the same of the encoded value, field by field |
| UserOperationJson.DefaultTexts | src/repository/job_cache.go:53-60 | the texts of the default encoding: nil numbers null, a sign before the 0x |
| UserOperationJson.PackedTexts | erc4337/user_operation.go:216-247 | the texts of a packed operation, nil numbers as 0x0 |
| UserOperationJson.UnmarshalJSON | erc4337/user_operation.go:92-200 | the field-by-field decoder computes the specified operation or error |
| UserOperationJson.PadNonce | erc4337/user_operation.go:54-59 | the padded buffer gives the padded text of the magnitude, and panics beyond 32 bytes |
| UserOperationJson.PackedRoundTrip | erc4337/user_operation.go:216-299 | a packed operation survives its JSON form, nil numbers as zero |
| UserOperationText.DecodesExactly | erc4337/user_operation.go:92-200 | which documents decode, said of the characters of their texts: an if-and-only-if |
| UserOperationText.NumberTextExactly | erc4337/user_operation.go:113-132 | parseHexBig accepts exactly an optional 0x and sign with digits after them, 0x alone, and the empty text, and gives the number the digits denote |
| UserOperationText.DocumentedExampleRefused | docs/scheduling.md:118-137 | the example has two refused fields, paymaster and paymasterData; mending one is not enough, and without both it decodes |
| HexText.PrefixedIsText | erc4337/user_operation.go:66-86 | the written number is 0x and the minimal lower-case digits that denote it |
| HexText.PaddedIsText | erc4337/user_operation.go:54-63 | the written nonce is 0x and 64 lower-case digits that denote it |
| HexText.EncodedIsText | erc4337/user_operation.go:37-89 | written bytes are 0x and two lower-case digits for each byte |
| Hex.PrefixedRoundTrip | erc4337/user_operation.go:113-132 | parseHexBig of the minimal form of any integer is that integer |
| Hex.PaddedRoundTrip | erc4337/user_operation.go:54-63 | parseHexBig of the 64-digit form of any natural is that natural |
| Hex.PaddedLength | erc4337/user_operation.go:54-63 | the padded form has 66 characters if and only if the number is below 2^256 |
| Execution.ExtractNonceKey | src/service/execution.go:55-74 | succeeds exactly from 2^56 to below 2^256, and then key * 2^64 <= nonce < (key + 1) * 2^64 |
| Execution.NonceKeyWidth | src/service/execution.go:55-74 | the key has at most 192 bits |
| Execution.GetNonceCallData | src/service/execution.go:77-90 | the text built from the two buffers |
| Execution.CallDataDecodes | src/service/execution.go:77-90 | the call data is 68 bytes: the selector, a word with the sender, a word with the 192-bit key |
| Execution.NonceCallSpelled | src/service/execution.go:77-90 | for an operation whose nonce has a key, the call data is the text of the selector, its sender and that key |
| Execution.MaxFeePerGas | src/service/execution.go:153-158 | three steps on one big.Int give one and a half base fees, rounded down, plus the priority fee |
| Execution.FindLeadingSignature | src/service/execution.go:227-249 | the test on the hex text holds exactly when the bytes end with the dummy signature |
| Execution.DummyText | src/service/execution.go:227 | the 130 characters of the placeholder signature |
| Execution.AppendInPlace | src/service/execution.go:336-337 | the append through the shared array replaces exactly the bytes after the prefix |
| Execution.PersonalMessage | src/service/execution.go:44-47 | the hash that is signed is that of the text prefix and the 32 bytes |
| Execution.Prepare | src/service/execution.go:164-296 | the first obstacle in call order, or the operation field by field: the nonce answered for its sender and key, the estimates by name, the fees, and the job's own values elsewhere |
| Execution.ExecuteJob | src/service/execution.go:164-360 | what is asked, sent and returned, for every answer of the calls it makes, null ones and panics included, field by field and signature byte by byte; the caller's array changes in the spliced signature only |
| Execution.ExecutedSpelled | src/service/execution.go:164-360 | each failure has its exact condition; the execution gets to the signature exactly when the answers make up an operation that can be packed, and panics otherwise; what is sent is that operation |
| Execution.SignableIsToHash | src/service/execution.go:258-297 | the answers determine the operation that is hashed, up to its signature |
| Execution.ExecutedSignature | src/service/execution.go:297-337 | the sent signature: the leading bytes of the job's, then the signature of the personal message with 27 added to its last byte |
| Execution.SignedIsSent | src/service/execution.go:296-345 | the signature sent is one over the hash of exactly the operation that is sent |

## Left out

- Real Redis, SQL, JSON-RPC and bundler calls: they are operations on a map, a list and a table that may fail without effect; what is answered is a parameter, for receipts, nonces, gas estimates, configs and sends as a function of what is asked.
- JSON syntax: a document is a record of optional fields, with the hex texts concrete.
- Keccak and ECDSA: the hash is an arbitrary function with 32-byte results and signing an arbitrary function with 65-byte results.
- The ABI library beyond static words, and the decoding of `executionLog` (an answer or an error); its 16-bit and 48-bit widths bound the numbers and no arithmetic on them wraps.
- The bundler client of `erc4337/bundler.go` apart from its JSON encoding of the operation.
- Tickers, contexts, logging, shutdown; timestamps of jobs and entries.
- SQL column widths, the CHECK on job types and gorm's default for an empty one.
- HTTP handlers, configuration, migrations, passkeys, the demo commands.
- `FindJobs` and `FindJobById`: plain reads that the scheduler does not use.
- The byte layer of signatures is an array only in `ExecuteJob`; jobs held in lists, queue and table are values, so aliasing between copies of a job is not modelled elsewhere.
- Expiry of cache entries after 24 hours, and a second poller or worker: the bound on sends needs their absence.
- PassIsRun: the worker does not move during the pass; passes interleaved with the worker are what the invariant and the theorems on all runs are about.
- PollJobLogic: outages last for the whole call here; faults between any two calls are in the step relation.
- FailedYetSent: gives one run for each job; it does not say how likely the interleaving is.
