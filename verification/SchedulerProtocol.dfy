/**
 * src/service/scheduler.go as a step relation: one poller and one worker over a shared status
 * cache, queue and job table, with the chain and the bundler as environment. Every Redis,
 * database, bundler and chain call is one step, so the two goroutines interleave between any two
 * of them. Calls may fail; a crash forgets both goroutines and keeps the three stores.
 */
module SchedulerProtocol {
  import opened Wrappers
  import opened Jobs
  import opened JobCacheEntries

  /** Where processJobs stands. */
  datatype Worker =
    | Waiting
    | Running(job: EntityJob)                // in ExecuteJob, SendUserOperation not yet called
    | Errored(job: EntityJob, msg: string)   // ExecuteJob returned an error
    | Sent(job: EntityJob, hash: Hash)       // ExecuteJob returned a hash

  /** Cache snapshots; Redis returns each key once, in no particular order. */
  type Snapshot = Entries
  type Configs = map<JobId, ExecutionConfig>

  /** Where pollJobLogic stands, with the local lists it carries. */
  datatype Poller =
    | Resting
    | Receipts(todo: Snapshot, chain: Option<int>)
    | DroppingEntry(todo: Snapshot, chain: Option<int>, id: JobId)
    | FailingEntry(todo: Snapshot, chain: Option<int>, id: JobId, msg: string)
    | ListingForSync(status: CacheJobStatus)
    | Syncing(status: CacheJobStatus, todo: Snapshot)
    | DroppingSynced(status: CacheJobStatus, todo: Snapshot, id: JobId)
    | Loading
    | Fetching(jobs: map<JobId, EntityJob>, unread: set<JobId>, configs: Configs)
    | Filtering(jobs: map<JobId, EntityJob>, configs: Configs, ready: seq<EntityJob>)
    | MarkingCompleted(jobs: map<JobId, EntityJob>, configs: Configs, ready: seq<EntityJob>, id: JobId)
    | Enqueuing(ready: seq<EntityJob>)
    | Pushing(job: EntityJob, ready: seq<EntityJob>)
    | Undoing(job: EntityJob, ready: seq<EntityJob>)

  /** What the bundler was asked to run: a job's operation, on one chain. */
  datatype SentOperation = SentOperation(id: JobId, chainID: int)

  /**
   * Per registered job: the chain's total and completed counters, the completed counter at
   * registration, the SendUserOperation attempts so far, and the hash the latest attempt
   * returned (zero when it returned none).
   */
  datatype Ledger = Ledger(total: nat, start: nat, completed: nat, sends: nat, lastHash: Hash)

  datatype State = State(
    db: map<JobId, EntityJob>,
    cache: Entries,
    queue: seq<EntityJob>,              // as Redis holds it: index 0 is the LPush end
    worker: Worker,
    poller: Poller,
    ledger: map<JobId, Ledger>,
    issued: map<Hash, SentOperation>,   // hashes the bundler has answered with
    mined: map<Hash, bool>,             // executed operations and whether they succeeded
    enqueued: seq<EntityJob>,           // everything ever pushed, oldest first
    dequeued: seq<EntityJob>)           // everything ever popped, oldest first

  datatype ReceiptAnswer = Unavailable | Missing | Found(success: bool)

  datatype Action =
    // environment
    | ARegister(job: EntityJob, total: nat, completed: nat)
    | AMine(hash: Hash, success: bool)
    | AChainProgress(id: JobId)
    | ACrash
    // worker
    | ADequeue(decodes: bool)
    | AFailBeforeSend(msg: string)
    | ASendRefused(msg: string)
    | ASendAccepted(hash: Hash)
    | ARecordError(ok: bool)
    | ARecordHash(ok: bool)
    // poller: receipts
    | AListPending(ok: bool)
    | AOpenChain(next: int, ok: bool)
    | ACheckReceipt(id: JobId, answer: ReceiptAnswer)
    | ADropEntry(ok: bool)
    | AFailEntry(ok: bool)
    | AEndReceipts
    // poller: sync
    | AListForSync(ok: bool)
    | AUpdateRow(id: JobId, ok: bool)
    | ADropSynced(ok: bool)
    | AEndSync
    // poller: fetch, filter, enqueue
    | ALoadActive(ok: bool)
    | AReadConfig(id: JobId, config: ExecutionConfig)
    | AAbortPass
    | AStartFilter
    | AFilterJob(id: JobId, now: int)
    | AMarkCompleted(ok: bool)
    | AStartEnqueue
    | AAddEntry(ok: bool)
    | APush(ok: bool)
    | AUndo(ok: bool)
    | AEndPass

  const EMPTY_HASH_MSG := "Job has empty user operation hash"
  const REVERTED_MSG := "User operation failed on-chain"

  function DBStatusOf(status: CacheJobStatus): DBJobStatus {
    match status
    case CacheFailed => DBFailed
    case CacheCompleted => DBCompleted
    case CachePending => DBQueuing
  }

  /** The snapshot entries of one chain: one group of groupJobsByChainID. */
  function OnChain(todo: Snapshot, chain: int): set<JobId> {
    set id | id in todo && todo[id].chainID == chain
  }

  /** syncJobsToDatabase passes the cached error along with status failed only. */
  function UpdatedRow(row: EntityJob, entry: JobCache, status: CacheJobStatus): EntityJob {
    WithOutcome(row, DBStatusOf(status), if status == CacheFailed then Some(entry.error) else None)
  }

  ghost predicate Initial(s: State) {
    && s.db == map[] && s.cache == map[] && s.queue == [] && s.worker == Waiting && s.poller == Resting
    && s.ledger == map[] && s.issued == map[] && s.mined == map[] && s.enqueued == [] && s.dequeued == []
  }

  // ---- environment ----

  /** RegisterJob: a new primary key, status queuing. */
  ghost predicate Register(s: State, job: EntityJob, total: nat, completed: nat, t: State) {
    && job.id !in s.db && job.status == DBQueuing && job.errMsg.None?
    && t == s.(db := s.db[job.id := job],
               ledger := s.ledger[job.id := Ledger(total, completed, completed, 0, ZERO_HASH)])
  }

  /** The chain runs an issued operation, once; the counter moves with a success. */
  ghost predicate Mine(s: State, hash: Hash, success: bool, t: State) {
    && hash in s.issued && hash !in s.mined && s.issued[hash].id in s.ledger
    && var id := s.issued[hash].id;
       var l := s.ledger[id];
       t == s.(mined := s.mined[hash := success],
               ledger := if success then s.ledger[id := l.(completed := l.completed + 1)] else s.ledger)
  }

  /** The counter moves for a reason this system does not know. */
  ghost predicate ChainProgress(s: State, id: JobId, t: State) {
    && id in s.ledger
    && t == s.(ledger := s.ledger[id := s.ledger[id].(completed := s.ledger[id].completed + 1)])
  }

  ghost predicate Crash(s: State, t: State) {
    t == s.(worker := Waiting, poller := Resting)
  }

  // ---- worker: processJobs and executeJobLogic ----

  /** BRPop; a payload that does not decode is popped all the same. */
  ghost predicate Dequeue(s: State, decodes: bool, t: State) {
    && s.worker.Waiting? && s.queue != []
    && var n := |s.queue| - 1;
       t == s.(queue := s.queue[..n],
               worker := if decodes then Running(s.queue[n]) else Waiting,
               dequeued := s.dequeued + [s.queue[n]])
  }

  /** Any error of ExecuteJob before SendUserOperation. */
  ghost predicate FailBeforeSend(s: State, msg: string, t: State) {
    s.worker.Running? && t == s.(worker := Errored(s.worker.job, msg))
  }

  ghost predicate SendRefused(s: State, msg: string, t: State) {
    && s.worker.Running? && s.worker.job.id in s.ledger
    && var id := s.worker.job.id;
       var l := s.ledger[id];
       t == s.(worker := Errored(s.worker.job, msg),
               ledger := s.ledger[id := l.(sends := l.sends + 1, lastHash := ZERO_HASH)])
  }

  /**
   * An accepted operation's hash is new (or zero): UserOperationHash.HashIdentifiesOperation shows
   * that a hash stands for one operation on one chain, and an account takes a nonce only once.
   */
  ghost predicate SendAccepted(s: State, hash: Hash, t: State) {
    && s.worker.Running? && s.worker.job.id in s.ledger && (hash == ZERO_HASH || hash !in s.issued)
    && var job := s.worker.job;
       var l := s.ledger[job.id];
       t == s.(worker := Sent(job, hash),
               ledger := s.ledger[job.id := l.(sends := l.sends + 1, lastHash := hash)],
               issued := if hash == ZERO_HASH then s.issued
                         else s.issued[hash := SentOperation(job.id, job.chainID)])
  }

  ghost predicate RecordError(s: State, ok: bool, t: State) {
    && s.worker.Errored?
    && var id := s.worker.job.id;
       t == s.(worker := Waiting,
               cache := if ok then s.cache[id := StatusEntry(id, CacheFailed, Some(s.worker.msg))] else s.cache)
  }

  ghost predicate RecordHash(s: State, ok: bool, t: State) {
    && s.worker.Sent?
    && t == s.(worker := Waiting,
               cache := if ok then WithHash(s.cache, s.worker.job.id, s.worker.hash) else s.cache)
  }

  // ---- poller: checkReceiptsForPendingJobs ----

  ghost predicate ListPending(s: State, ok: bool, t: State) {
    && s.poller.Resting?
    && t == s.(poller := if ok then Receipts(WithStatus(s.cache, CachePending), None)
                         else ListingForSync(CacheFailed))
  }

  /** The next chain group; without a bundler client the whole group is skipped. */
  ghost predicate OpenChain(s: State, next: int, ok: bool, t: State) {
    && s.poller.Receipts?
    && (s.poller.chain.Some? ==> OnChain(s.poller.todo, s.poller.chain.value) == {})
    && OnChain(s.poller.todo, next) != {}
    && t == s.(poller := if ok then Receipts(s.poller.todo, Some(next))
                         else Receipts(s.poller.todo - OnChain(s.poller.todo, next), None))
  }

  /** The answer may lag behind the chain, but a found receipt tells the outcome. */
  ghost predicate CheckReceipt(s: State, id: JobId, answer: ReceiptAnswer, t: State) {
    && s.poller.Receipts? && id in s.poller.todo && s.poller.chain == Some(s.poller.todo[id].chainID)
    && var entry, rest, chain := s.poller.todo[id], s.poller.todo - {id}, s.poller.chain;
       if entry.userOpHash == ZERO_HASH then
         t == s.(poller := FailingEntry(rest, chain, entry.jobID, EMPTY_HASH_MSG))
       else if !answer.Found? then t == s.(poller := Receipts(rest, chain))
       else
         && entry.userOpHash in s.mined && s.mined[entry.userOpHash] == answer.success
         && t == s.(poller := if answer.success then DroppingEntry(rest, chain, entry.jobID)
                              else FailingEntry(rest, chain, entry.jobID, REVERTED_MSG))
  }

  ghost predicate DropEntry(s: State, ok: bool, t: State) {
    && s.poller.DroppingEntry?
    && t == s.(poller := Receipts(s.poller.todo, s.poller.chain),
               cache := if ok then s.cache - {s.poller.id} else s.cache)
  }

  ghost predicate FailEntry(s: State, ok: bool, t: State) {
    && s.poller.FailingEntry?
    && var id := s.poller.id;
       t == s.(poller := Receipts(s.poller.todo, s.poller.chain),
               cache := if ok then s.cache[id := StatusEntry(id, CacheFailed, Some(s.poller.msg))] else s.cache)
  }

  ghost predicate EndReceipts(s: State, t: State) {
    s.poller.Receipts? && s.poller.todo == map[] && t == s.(poller := ListingForSync(CacheFailed))
  }

  // ---- poller: syncCacheToDatabase ----

  ghost predicate ListForSync(s: State, ok: bool, t: State) {
    && s.poller.ListingForSync?
    && var status := s.poller.status;
       t == s.(poller := Syncing(status, if ok then WithStatus(s.cache, status) else map[]))
  }

  ghost predicate UpdateRow(s: State, id: JobId, ok: bool, t: State) {
    && s.poller.Syncing? && id in s.poller.todo
    && var status, entry, rest := s.poller.status, s.poller.todo[id], s.poller.todo - {id};
       t == if !ok then s.(poller := Syncing(status, rest))
            else s.(poller := DroppingSynced(status, rest, entry.jobID),
                    db := if entry.jobID in s.db
                          then s.db[entry.jobID := UpdatedRow(s.db[entry.jobID], entry, status)] else s.db)
  }

  ghost predicate DropSynced(s: State, ok: bool, t: State) {
    && s.poller.DroppingSynced?
    && t == s.(poller := Syncing(s.poller.status, s.poller.todo),
               cache := if ok then s.cache - {s.poller.id} else s.cache)
  }

  ghost predicate EndSync(s: State, t: State) {
    && s.poller.Syncing? && s.poller.todo == map[]
    && t == s.(poller := if s.poller.status == CacheFailed then ListingForSync(CacheCompleted) else Loading)
  }

  // ---- poller: GetActiveJobs, fetchExecutionConfigsAndFilterJobs, enqueue ----

  ghost predicate LoadActive(s: State, ok: bool, t: State) {
    && s.poller.Loading?
    && t == s.(poller := if ok then Fetching(ActiveJobs(s.db), ActiveJobs(s.db).Keys, map[]) else Resting)
  }

  /** A config is what the chain holds when it is read. */
  ghost predicate ReadConfig(s: State, id: JobId, config: ExecutionConfig, t: State) {
    && s.poller.Fetching? && id in s.poller.unread && id in s.ledger
    && config.numberOfExecutions == s.ledger[id].total
    && config.numberOfExecutionsCompleted == s.ledger[id].completed
    && t == s.(poller := Fetching(s.poller.jobs, s.poller.unread - {id}, s.poller.configs[id := config]))
  }

  ghost predicate AbortPass(s: State, t: State) {
    s.poller.Fetching? && t == s.(poller := Resting)
  }

  ghost predicate StartFilter(s: State, t: State) {
    && s.poller.Fetching? && s.poller.unread == {}
    && t == s.(poller := Filtering(s.poller.jobs, s.poller.configs, []))
  }

  ghost predicate FilterJob(s: State, id: JobId, now: int, t: State) {
    && s.poller.Filtering? && id in s.poller.jobs
    && var rest, configs, ready := s.poller.jobs - {id}, s.poller.configs, s.poller.ready;
       t == if id in s.cache || id !in configs then s.(poller := Filtering(rest, configs, ready))
            else if configs[id].Exhausted() then s.(poller := MarkingCompleted(rest, configs, ready, id))
            else if configs[id].IsTimeToExecute(now) then
              s.(poller := Filtering(rest, configs, ready + [s.poller.jobs[id]]))
            else s.(poller := Filtering(rest, configs, ready))
  }

  ghost predicate MarkCompleted(s: State, ok: bool, t: State) {
    && s.poller.MarkingCompleted?
    && var id := s.poller.id;
       t == s.(poller := Filtering(s.poller.jobs, s.poller.configs, s.poller.ready),
               cache := if ok then s.cache[id := StatusEntry(id, CacheCompleted, None)] else s.cache)
  }

  ghost predicate StartEnqueue(s: State, t: State) {
    s.poller.Filtering? && s.poller.jobs == map[] && t == s.(poller := Enqueuing(s.poller.ready))
  }

  ghost predicate AddEntry(s: State, ok: bool, t: State) {
    && s.poller.Enqueuing? && s.poller.ready != []
    && var job, rest := s.poller.ready[0], s.poller.ready[1..];
       t == if ok then s.(poller := Pushing(job, rest), cache := s.cache[job.id := NewEntry(job)])
            else s.(poller := Enqueuing(rest))
  }

  ghost predicate Push(s: State, ok: bool, t: State) {
    && s.poller.Pushing?
    && var job := s.poller.job;
       t == if ok then s.(poller := Enqueuing(s.poller.ready), queue := [job] + s.queue, enqueued := s.enqueued + [job])
            else s.(poller := Undoing(job, s.poller.ready))
  }

  ghost predicate Undo(s: State, ok: bool, t: State) {
    && s.poller.Undoing?
    && t == s.(poller := Enqueuing(s.poller.ready), cache := if ok then s.cache - {s.poller.job.id} else s.cache)
  }

  ghost predicate EndPass(s: State, t: State) {
    s.poller.Enqueuing? && s.poller.ready == [] && t == s.(poller := Resting)
  }

  // ---- the whole system ----

  ghost predicate EnvironmentStep(s: State, a: Action, t: State) {
    match a
    case ARegister(job, total, completed) => Register(s, job, total, completed, t)
    case AMine(hash, success) => Mine(s, hash, success, t)
    case AChainProgress(id) => ChainProgress(s, id, t)
    case ACrash => Crash(s, t)
    case _ => false
  }

  ghost predicate WorkerStep(s: State, a: Action, t: State) {
    match a
    case ADequeue(decodes) => Dequeue(s, decodes, t)
    case AFailBeforeSend(msg) => FailBeforeSend(s, msg, t)
    case ASendRefused(msg) => SendRefused(s, msg, t)
    case ASendAccepted(hash) => SendAccepted(s, hash, t)
    case ARecordError(ok) => RecordError(s, ok, t)
    case ARecordHash(ok) => RecordHash(s, ok, t)
    case _ => false
  }

  ghost predicate ReceiptStep(s: State, a: Action, t: State) {
    match a
    case AListPending(ok) => ListPending(s, ok, t)
    case AOpenChain(next, ok) => OpenChain(s, next, ok, t)
    case ACheckReceipt(id, answer) => CheckReceipt(s, id, answer, t)
    case ADropEntry(ok) => DropEntry(s, ok, t)
    case AFailEntry(ok) => FailEntry(s, ok, t)
    case AEndReceipts => EndReceipts(s, t)
    case _ => false
  }

  ghost predicate SyncStep(s: State, a: Action, t: State) {
    match a
    case AListForSync(ok) => ListForSync(s, ok, t)
    case AUpdateRow(id, ok) => UpdateRow(s, id, ok, t)
    case ADropSynced(ok) => DropSynced(s, ok, t)
    case AEndSync => EndSync(s, t)
    case _ => false
  }

  ghost predicate FilterStep(s: State, a: Action, t: State) {
    match a
    case ALoadActive(ok) => LoadActive(s, ok, t)
    case AReadConfig(id, config) => ReadConfig(s, id, config, t)
    case AAbortPass => AbortPass(s, t)
    case AStartFilter => StartFilter(s, t)
    case AFilterJob(id, now) => FilterJob(s, id, now, t)
    case AMarkCompleted(ok) => MarkCompleted(s, ok, t)
    case _ => false
  }

  ghost predicate EnqueueStep(s: State, a: Action, t: State) {
    match a
    case AStartEnqueue => StartEnqueue(s, t)
    case AAddEntry(ok) => AddEntry(s, ok, t)
    case APush(ok) => Push(s, ok, t)
    case AUndo(ok) => Undo(s, ok, t)
    case AEndPass => EndPass(s, t)
    case _ => false
  }

  ghost predicate Step(s: State, a: Action, t: State) {
    || EnvironmentStep(s, a, t) || WorkerStep(s, a, t)
    || ReceiptStep(s, a, t) || SyncStep(s, a, t) || FilterStep(s, a, t) || EnqueueStep(s, a, t)
  }

  ghost predicate Next(s: State, t: State) {
    exists a :: Step(s, a, t)
  }

  /** A run from the empty system. */
  ghost predicate IsRun(run: seq<State>) {
    && run != [] && Initial(run[0])
    && forall i :: 0 <= i < |run| - 1 ==> Next(run[i], run[i + 1])
  }
}
