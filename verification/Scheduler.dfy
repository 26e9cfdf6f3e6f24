/**
 * src/service/scheduler.go run one goroutine at a time: the poll pass and the execution of a
 * dequeued job, over the repositories. SchedulerProtocol interleaves the two.
 */
module Scheduler {
  import opened Wrappers
  import opened Bytes
  import opened Jobs
  import opened JobCacheEntries
  import opened JobCacheRepositories
  import opened JobTable
  import opened ExecutionConfigs
  import opened PollPass
  import opened UserOperations
  import opened UserOperationHash
  import opened Execution
  import P = SchedulerProtocol

  /** The entries on one chain, in list order. */
  function ChainJobs(jobs: seq<JobCache>, chainID: int): seq<JobCache> {
    if jobs == [] then [] else
      var last := jobs[|jobs| - 1];
      ChainJobs(jobs[..|jobs| - 1], chainID) + if last.chainID == chainID then [last] else []
  }

  lemma {:induction false} ChainJobsMembers(jobs: seq<JobCache>, chainID: int)
    ensures forall job :: job in ChainJobs(jobs, chainID) <==> job in jobs && job.chainID == chainID
  {
    if jobs != [] {
      ChainJobsMembers(jobs[..|jobs| - 1], chainID);
      assert jobs == jobs[..|jobs| - 1] + [jobs[|jobs| - 1]];
    }
  }

  lemma {:induction false} NoneOnChain(jobs: seq<JobCache>, chainID: int)
    requires forall job :: job in jobs ==> job.chainID != chainID
    ensures ChainJobs(jobs, chainID) == []
  {
    if jobs != [] {
      NoneOnChain(jobs[..|jobs| - 1], chainID);
    }
  }

  /** Entries of different jobs. */
  predicate Distinct(jobs: seq<JobCache>) {
    forall i, j :: 0 <= i < j < |jobs| ==> jobs[i].jobID != jobs[j].jobID
  }

  lemma {:induction false} ChainJobsDistinct(jobs: seq<JobCache>, chainID: int)
    requires Distinct(jobs)
    ensures Distinct(ChainJobs(jobs, chainID))
  {
    if jobs != [] {
      var front := jobs[..|jobs| - 1];
      ChainJobsDistinct(front, chainID);
      ChainJobsMembers(front, chainID);
      forall job | job in ChainJobs(front, chainID) ensures job.jobID != jobs[|jobs| - 1].jobID {
        assert job in front;
      }
    }
  }

  function IdsOf(jobs: seq<JobCache>): set<JobId> {
    set job | job in jobs :: job.jobID
  }

  /** A list from GetJobCachesByStatus names the entries it was made from. */
  lemma ListedEntries(m: Entries, status: CacheJobStatus, list: seq<JobCache>, keys: seq<JobId>)
    requires KeysMatch(m) && Enumerates(list, keys, WithStatus(m, status))
    ensures Distinct(list) && IdsOf(list) == WithStatus(m, status).Keys
    ensures forall job :: job in list ==> job.jobID in m && m[job.jobID] == job && job.status == status
  {
    forall i | 0 <= i < |list| ensures list[i].jobID == keys[i] {
    }
    forall id | id in WithStatus(m, status) ensures id in IdsOf(list) {
      var i :| 0 <= i < |keys| && keys[i] == id;
      assert list[i] in list;
    }
  }

  /** The jobs of the list on none of these chains. */
  ghost function OffChains(list: seq<JobCache>, chains: set<int>): set<JobId> {
    set job | job in list && job.chainID !in chains :: job.jobID
  }

  lemma OffNoChain(list: seq<JobCache>, chains: set<int>)
    requires forall job :: job in list ==> job.chainID in chains
    ensures OffChains(list, chains) == {}
  {
  }

  lemma OneMoreChain(list: seq<JobCache>, left: set<int>, chainID: int)
    requires Distinct(list) && chainID in left
    ensures OffChains(list, left - {chainID}) == OffChains(list, left) + IdsOf(ChainJobs(list, chainID))
    ensures forall job :: job in ChainJobs(list, chainID) ==> job.jobID !in OffChains(list, left)
  {
    ChainJobsMembers(list, chainID);
  }

  lemma AllChainsDone(env: Environment, m: Entries, list: seq<JobCache>)
    requires IdsOf(list) == WithStatus(m, CachePending).Keys
    ensures Settled(env, m, OffChains(list, {})) == AfterReceipts(env, m)
  {
    var done := OffChains(list, {});
    assert done == IdsOf(list);
    SettleNothing(env, m, done, m.Keys - done);
    assert done + (m.Keys - done) == m.Keys;
  }

  lemma NoneListed()
    ensures IdsOf([]) == {}
  {
  }

  lemma ListOneMore(list: seq<JobCache>, i: nat)
    requires i < |list| && Distinct(list)
    ensures IdsOf(list[..i + 1]) == IdsOf(list[..i]) + {list[i].jobID}
    ensures list[i].jobID !in IdsOf(list[..i])
  {
    assert list[..i + 1] == list[..i] + [list[i]];
  }

  lemma TableRowsMatch(rows: Rows)
    requires AllDecode(rows)
    ensures RowsMatch(JobsOf(rows))
  {
  }

  /** Jobs listed by id are different jobs. */
  lemma ActiveOrder(jobs: map<JobId, EntityJob>, order: seq<EntityJob>, keys: seq<JobId>)
    requires RowsMatch(jobs) && Enumerates(order, keys, ActiveJobs(jobs))
    ensures DistinctJobs(order)
  {
    forall i | 0 <= i < |order| ensures order[i].id == keys[i] {
    }
  }

  /** What executing one job does to the status entries. */
  function AfterExecution(result: Execution, id: JobId, text: Execution -> string, m: Entries): Entries {
    match result
    case Accepted(hash) => WithHash(m, id, hash)
    case Panicked => m
    case _ => m[id := StatusEntry(id, CacheFailed, Some(text(result)))]
  }

  /**
   * The status entries after an execution, spelled out: an accepted hash is put into the job's
   * entry, if there is one; an error makes the entry a failed one with the error's text; a panic
   * changes nothing. No other entry changes.
   */
  ghost predicate Recorded(result: Execution, id: JobId, text: Execution -> string, before: Entries, after: Entries) {
    && (forall k :: k != id ==> (k in after <==> k in before) && (k in before ==> after[k] == before[k]))
    && (result.Accepted? ==>
          && (id in after <==> id in before)
          && (id in before ==>
                && after[id].userOpHash == result.hash && after[id].jobID == before[id].jobID
                && after[id].chainID == before[id].chainID && after[id].status == before[id].status
                && after[id].error == before[id].error))
    && (result.Refused? || result.NotSent? ==>
          id in after && after[id] == JobCache(id, 0, 0, CacheFailed, text(result)))
    && (result.Panicked? ==> after == before)
  }

  class JobScheduler {
    const jobCache: JobCacheRepository
    const jobService: JobRepository
    const blockchain: BlockchainService

    constructor (jobCache: JobCacheRepository, jobService: JobRepository, blockchain: BlockchainService)
      ensures this.jobCache == jobCache && this.jobService == jobService && this.blockchain == blockchain
    {
      this.jobCache, this.jobService, this.blockchain := jobCache, jobService, blockchain;
    }

    ghost predicate Valid()
      reads this, jobCache, jobService, blockchain
    {
      jobService.Valid() && blockchain.Valid() && KeysMatch(jobCache.entries)
    }

    ghost function Contents(): Stores
      requires jobService.Valid()
      reads this, jobCache, jobService
    {
      Stores(jobService.Jobs(), jobCache.entries, jobCache.queue)
    }

    // ---- receipts ----

    static method GroupJobsByChainID(jobs: seq<JobCache>) returns (groups: map<int, seq<JobCache>>)
      ensures forall c :: c in groups <==> exists job :: job in jobs && job.chainID == c
      ensures forall c :: c in groups ==> groups[c] == ChainJobs(jobs, c)
      ensures forall c :: c in groups ==> forall job :: job in groups[c] <==> job in jobs && job.chainID == c
    {
      groups := map[];
      for i := 0 to |jobs|
        invariant forall c :: c in groups <==> exists job :: job in jobs[..i] && job.chainID == c
        invariant forall c :: c in groups ==> groups[c] == ChainJobs(jobs[..i], c)
      {
        var job := jobs[i];
        assert jobs[..i + 1][..i] == jobs[..i] && jobs[..i + 1] == jobs[..i] + [job];
        if job.chainID !in groups {
          NoneOnChain(jobs[..i], job.chainID);
        }
        groups := groups[job.chainID := (if job.chainID in groups then groups[job.chainID] else []) + [job]];
      }
      assert jobs[..|jobs|] == jobs;
      forall c | c in groups ensures forall job :: job in groups[c] <==> job in jobs && job.chainID == c {
        ChainJobsMembers(jobs, c);
      }
    }

    method CheckSingleJobReceipt(env: Environment, chainID: int, job: JobCache)
      requires jobCache.online && env.bundler(chainID) && job.chainID == chainID && job.status == CachePending
      modifies jobCache`entries
      ensures jobCache.entries == Apply(VerdictOf(env, job), old(jobCache.entries), job.jobID)
      ensures var m, id, answer := old(jobCache.entries), job.jobID, env.receipt(chainID, job.userOpHash);
              jobCache.entries ==
              if job.userOpHash == 0
                then m[id := JobCache(id, 0, 0, CacheFailed, "Job has empty user operation hash")]
              else if answer == P.Found(true) then m - {id}
              else if answer == P.Found(false)
                then m[id := JobCache(id, 0, 0, CacheFailed, "User operation failed on-chain")]
              else m
    {
      if job.userOpHash == ZERO_HASH {
        var _ := jobCache.SetJobStatus(job.jobID, CacheFailed, Some(P.EMPTY_HASH_MSG));
        return;
      }
      var receipt := env.receipt(chainID, job.userOpHash);
      if receipt.Unavailable? { return; }
      if receipt.Missing? { return; }
      if receipt.success {
        var _ := jobCache.DeleteJobCache(job.jobID);
      } else {
        var _ := jobCache.SetJobStatus(job.jobID, CacheFailed, Some(P.REVERTED_MSG));
      }
    }

    method CheckReceiptsForChain(env: Environment, chainID: int, jobs: seq<JobCache>, ghost m: Entries,
                                 ghost done: set<JobId>)
      requires jobCache.online && Distinct(jobs) && jobCache.entries == Settled(env, m, done)
      requires forall job :: job in jobs ==>
                 job.chainID == chainID && job.status == CachePending && job.jobID in m && m[job.jobID] == job
                   && job.jobID !in done
      modifies jobCache`entries
      ensures jobCache.entries == Settled(env, m, done + IdsOf(jobs))
    {
      if !env.bundler(chainID) {
        SettleNothing(env, m, done, IdsOf(jobs));
        return;
      }
      assert done + IdsOf([]) == done;
      for i := 0 to |jobs|
        invariant jobCache.entries == Settled(env, m, done + IdsOf(jobs[..i]))
      {
        var job := jobs[i];
        assert IdsOf(jobs[..i + 1]) == IdsOf(jobs[..i]) + {job.jobID} by {
          assert jobs[..i + 1] == jobs[..i] + [job];
        }
        SettleOne(env, m, done + IdsOf(jobs[..i]), job.jobID);
        assert done + IdsOf(jobs[..i + 1]) == done + IdsOf(jobs[..i]) + {job.jobID};
        CheckSingleJobReceipt(env, chainID, job);
      }
      assert jobs[..|jobs|] == jobs;
    }

    /** The chains are visited in any order. */
    method CheckReceiptsForPendingJobs(env: Environment)
      requires KeysMatch(jobCache.entries)
      modifies jobCache`entries
      ensures jobCache.entries ==
              if jobCache.online then AfterReceipts(env, old(jobCache.entries)) else old(jobCache.entries)
    {
      hide Settled, ChainJobs, Enumerates, Distinct, IdsOf, OffChains;
      ghost var m := jobCache.entries;
      var pending, keys := jobCache.GetJobCachesByStatus(CachePending);
      if pending.None? { return; }
      var list := pending.value;
      ListedEntries(m, CachePending, list, keys);
      var jobsByChain := GroupJobsByChainID(list);
      var left := jobsByChain.Keys;
      OffNoChain(list, left);
      SettledNone(env, m);
      while left != {}
        invariant left <= jobsByChain.Keys
        invariant jobCache.entries == Settled(env, m, OffChains(list, left))
      {
        assert (forall c :: c !in left) ==> left == {};
        var chainID :| chainID in left;
        ChainJobsMembers(list, chainID);
        ChainJobsDistinct(list, chainID);
        OneMoreChain(list, left, chainID);
        CheckReceiptsForChain(env, chainID, jobsByChain[chainID], m, OffChains(list, left));
        left := left - {chainID};
      }
      AllChainsDone(env, m, list);
    }

    // ---- sync ----

    /** Each job's outcome is written, and then its entry removed; a failed write leaves the entry. */
    method SyncJobsToDatabase(list: seq<JobCache>, status: CacheJobStatus, ghost m: Entries)
      requires jobService.Valid() && Distinct(list)
      requires forall job :: job in list ==> job.jobID in m && m[job.jobID] == job && job.status == status
      requires status != CachePending && jobCache.online
      modifies jobCache`entries, jobService`rows
      ensures jobService.Valid()
      ensures !jobService.online ==>
                jobCache.entries == old(jobCache.entries) && jobService.Jobs() == old(jobService.Jobs())
      ensures jobService.online ==>
                && jobCache.entries == old(jobCache.entries) - IdsOf(list)
                && jobService.Jobs() == Synced(old(jobService.Jobs()), m, IdsOf(list))
    {
      hide IdsOf, Distinct;
      var dbStatus := P.DBStatusOf(status);
      ghost var before, entries := jobService.Jobs(), jobCache.entries;
      NoneListed();
      SyncedNone(before, m);
      for i := 0 to |list|
        invariant jobService.Valid()
        invariant !jobService.online ==> jobCache.entries == entries && jobService.Jobs() == before
        invariant jobService.online ==>
                    && jobCache.entries == entries - IdsOf(list[..i])
                    && jobService.Jobs() == Synced(before, m, IdsOf(list[..i]))
      {
        var job := list[i];
        ListOneMore(list, i);
        SyncOne(before, m, IdsOf(list[..i]), job.jobID);
        RemoveOne(entries, IdsOf(list[..i]), job.jobID);
        var errMsg := if status == CacheFailed then Some(job.error) else None;
        var ok := jobService.UpdateJobStatus(job.jobID, dbStatus, errMsg);
        if !ok { continue; }
        var _ := jobCache.DeleteJobCache(job.jobID);
      }
      assert list[..|list|] == list;
    }

    /** Failed jobs first, then completed ones. */
    method SyncCacheToDatabase()
      requires Valid()
      modifies jobCache`entries, jobService`rows
      ensures Valid()
      ensures !jobCache.online || !jobService.online ==>
                jobCache.entries == old(jobCache.entries) && jobService.Jobs() == old(jobService.Jobs())
      ensures jobCache.online && jobService.online ==>
                && jobCache.entries == WithStatus(old(jobCache.entries), CachePending)
                && jobService.Jobs() == Synced(old(jobService.Jobs()), old(jobCache.entries),
                                               Decided(old(jobCache.entries)))
    {
      hide IdsOf, Distinct, Synced, Enumerates, WithStatus;
      ghost var m, before := jobCache.entries, jobService.Jobs();
      var failedJobs, failedKeys := jobCache.GetJobCachesByStatus(CacheFailed);
      if failedJobs.Some? {
        ListedEntries(m, CacheFailed, failedJobs.value, failedKeys);
        SyncJobsToDatabase(failedJobs.value, CacheFailed, m);
        FailedRemoved(m, IdsOf(failedJobs.value));
      }
      var completedJobs, completedKeys := jobCache.GetJobCachesByStatus(CacheCompleted);
      if completedJobs.Some? {
        ListedEntries(m, CacheCompleted, completedJobs.value, completedKeys);
        SyncJobsToDatabase(completedJobs.value, CacheCompleted, m);
        BothSynced(before, m, IdsOf(failedJobs.value), IdsOf(completedJobs.value));
      }
    }

    // ---- fetch and filter ----

    /**
     * fetchExecutionConfigsAndFilterJobs: the due jobs in list order; the exhausted ones get a
     * completed entry. While the cache is offline every job counts as not cached.
     */
    method FetchExecutionConfigsAndFilterJobs(env: Environment, jobs: seq<EntityJob>)
      returns (ready: Option<seq<EntityJob>>)
      requires blockchain.Valid() && DistinctJobs(jobs)
      modifies jobCache`entries, blockchain
      ensures blockchain.Valid()
      ensures ready.Some? <==> AllReadable(env.chains, old(blockchain.clientPool).Keys, jobs)
      ensures ready.Some? ==>
                var m := if jobCache.online then old(jobCache.entries) else map[];
                ready.value == DueJobs(env, old(blockchain.clientPool).Keys, m, jobs)
      ensures jobCache.entries ==
              if jobCache.online && ready.Some?
                then Marked(env, old(blockchain.clientPool).Keys, old(jobCache.entries), jobs)
              else old(jobCache.entries)
      ensures ready.Some? ==>
                && InOrder(ready.value, jobs) && DistinctJobs(ready.value)
                && forall job :: job in ready.value <==>
                     && job in jobs && !(jobCache.online && job.id in old(jobCache.entries))
                     && IsDue(env, old(blockchain.clientPool).Keys, job)
      ensures ready.Some? && jobCache.online ==>
                forall id ::
                  var found := id !in old(jobCache.entries) && exists job ::
                                 job in jobs && job.id == id && IsExhausted(env, old(blockchain.clientPool).Keys, job);
                  && (id in jobCache.entries <==> id in old(jobCache.entries) || found)
                  && (id in old(jobCache.entries) ==> jobCache.entries[id] == old(jobCache.entries)[id])
                  && (found ==> jobCache.entries[id] == JobCache(id, 0, 0, CacheCompleted, ""))
    {
      hide DueJobs, Marked, ConfigOf, AllReadable, DistinctJobs, ReadsAs, IsDue, IsExhausted, InOrder;
      ghost var pooled, before := blockchain.clientPool.Keys, jobCache.entries;
      ghost var m := if jobCache.online then before else map[];
      NoDecisions(env, pooled, m);
      DueSpelled(env, pooled, m, jobs);
      AllMarkedSpelled(env, pooled, m, jobs);
      var configs := blockchain.GetExecutionConfigsBatch(env.chains, jobs);
      if configs.None? { return None; }
      var jobsToExecute: seq<EntityJob> := [];
      for i := 0 to |jobs|
        invariant blockchain.Valid()
        invariant jobsToExecute == DueJobs(env, pooled, m, jobs[..i])
        invariant jobCache.entries == if jobCache.online then Marked(env, pooled, m, jobs[..i]) else before
      {
        var job := jobs[i];
        NextDecision(env, pooled, m, jobs, i);
        assert ConfigOf(env.chains, pooled, job) == Some(configs.value[job.id]) by {
          assert job in jobs;
        }
        var cached := jobCache.GetJobCache(job.id);
        if cached.OneEntry? { continue; }
        if job.id !in configs.value { continue; }
        var config := configs.value[job.id];
        if config.numberOfExecutionsCompleted >= config.numberOfExecutions {
          var _ := jobCache.SetJobStatus(job.id, CacheCompleted, None);
          continue;
        }
        if config.IsTimeToExecute(env.clock(job.id)) {
          jobsToExecute := jobsToExecute + [job];
        }
      }
      assert jobs[..|jobs|] == jobs;
      return Some(jobsToExecute);
    }

    // ---- the pass ----

    /** One round of step 5: the job is cached and then pushed; when the push fails its entry is removed again. */
    method EnqueueOne(job: EntityJob)
      modifies jobCache`entries, jobCache`queue
      ensures !jobCache.online ==> jobCache.entries == old(jobCache.entries) && jobCache.queue == old(jobCache.queue)
      ensures jobCache.online && jobCache.queueOnline ==>
                && jobCache.entries == old(jobCache.entries)[job.id := NewEntry(job)]
                && jobCache.queue == [EncodeJob(job)] + old(jobCache.queue)
      ensures jobCache.online && !jobCache.queueOnline ==>
                && jobCache.entries == old(jobCache.entries)[job.id := NewEntry(job)] - {job.id}
                && jobCache.queue == old(jobCache.queue)
    {
      hide EncodeJob;
      var entry := JobCache(job.id, job.chainID, ZERO_HASH, CachePending, "");
      var added := jobCache.AddJobCache(entry);
      if added.Error? { return; }
      var pushed := jobCache.EnqueueJob(job);
      if !pushed {
        var _ := jobCache.DeleteJobCache(job.id);
      }
    }

    /** Step 5 for each job in turn. */
    method EnqueueJobs(jobsToExecute: seq<EntityJob>)
      modifies jobCache`entries, jobCache`queue
      ensures jobCache.online && jobCache.queueOnline ==>
                && jobCache.entries == Added(old(jobCache.entries), jobsToExecute)
                && jobCache.queue == Pushed(jobsToExecute) + old(jobCache.queue)
      ensures jobCache.online && !jobCache.queueOnline ==>
                && jobCache.entries == old(jobCache.entries) - JobIds(jobsToExecute)
                && jobCache.queue == old(jobCache.queue)
      ensures !jobCache.online ==> jobCache.entries == old(jobCache.entries) && jobCache.queue == old(jobCache.queue)
    {
      hide Added, Pushed, JobIds, NewEntry, EncodeJob;
      ghost var before, queue := jobCache.entries, jobCache.queue;
      NothingDue(before, queue);
      for i := 0 to |jobsToExecute|
        invariant jobCache.online && jobCache.queueOnline ==>
                    && jobCache.entries == Added(before, jobsToExecute[..i])
                    && jobCache.queue == Pushed(jobsToExecute[..i]) + queue
        invariant jobCache.online && !jobCache.queueOnline ==>
                    jobCache.entries == before - JobIds(jobsToExecute[..i]) && jobCache.queue == queue
        invariant !jobCache.online ==> jobCache.entries == before && jobCache.queue == queue
      {
        EnqueueNext(before, queue, jobsToExecute, i);
        UndoNext(before, jobsToExecute, i);
        EnqueueOne(jobsToExecute[i]);
      }
      assert jobsToExecute[..|jobsToExecute|] == jobsToExecute;
    }

    /** Steps 3 to 5 of pollJobLogic. */
    method EnqueueActiveJobs(env: Environment) returns (ghost order: seq<EntityJob>, ghost keys: seq<JobId>)
      requires jobService.Valid() && blockchain.Valid()
      modifies jobCache`entries, jobCache`queue, blockchain
      ensures jobService.Valid() && blockchain.Valid()
      ensures jobCache.online && jobService.online ==>
                && Enumerates(order, keys, ActiveJobs(old(jobService.Jobs())))
                && Contents() == if jobCache.queueOnline
                                 then EnqueuedStores(env, old(blockchain.clientPool).Keys, old(Contents()), order)
                                 else MarkedStores(env, old(blockchain.clientPool).Keys, old(Contents()), order)
      ensures !jobCache.online || !jobService.online ==> Contents() == old(Contents())
    {
      hide DueJobs, Marked, Added, Pushed, ActiveJobs, Enumerates, AllReadable, JobsOf, DistinctJobs, JobIds;
      ghost var pooled, before := blockchain.clientPool.Keys, jobCache.entries;
      order, keys := [], [];
      var jobs, ids := jobService.FindActiveJobs();
      if jobs.Failure? { return; }
      order, keys := jobs.value, ids;
      TableRowsMatch(jobService.rows);
      ActiveOrder(jobService.Jobs(), order, keys);
      if |jobs.value| == 0 {
        NoActiveJobs(env, pooled, Contents());
        return;
      }
      var ready := FetchExecutionConfigsAndFilterJobs(env, jobs.value);
      if ready.None? { return; }
      NothingDue(jobCache.entries, jobCache.queue);
      if |ready.value| == 0 { return; }
      DueUnmarked(env, pooled, before, jobs.value);
      EnqueueJobs(ready.value);
    }

    /**
     * pollJobLogic. With every store online it is the pass of PollPass, for the order in which
     * the database returns the rows; while nothing can be pushed, it is that pass without step 5;
     * with the database offline it settles receipts and no more; with the entries offline it
     * changes nothing.
     */
    method PollJobLogic(env: Environment) returns (ghost order: seq<EntityJob>, ghost keys: seq<JobId>)
      requires Valid()
      modifies jobCache`entries, jobCache`queue, jobService`rows, blockchain
      ensures Valid()
      ensures jobCache.online && jobService.online && jobCache.queueOnline ==>
                Pass(env, old(blockchain.clientPool).Keys, old(Contents()), order, keys, Contents())
      ensures jobCache.online && jobService.online && !jobCache.queueOnline ==>
                var mid := SyncedStores(env, old(Contents()));
                && Enumerates(order, keys, ActiveJobs(mid.jobs))
                && Contents() == MarkedStores(env, old(blockchain.clientPool).Keys, mid, order)
      ensures jobCache.online && !jobService.online ==>
                Contents() == old(Contents()).(entries := AfterReceipts(env, old(jobCache.entries)))
      ensures !jobCache.online ==> Contents() == old(Contents())
    {
      hide Settled, AfterReceipts, WithStatus, Synced, Decided, EnqueuedStores, MarkedStores, Enumerates;
      ghost var pooled, before := blockchain.clientPool.Keys, Contents();
      CheckReceiptsForPendingJobs(env);
      AfterReceiptsKeysMatch(env, before.entries);
      SyncCacheToDatabase();
      var _ := jobCache.GetCacheStatistics();
      ghost var mid := Contents();
      order, keys := EnqueueActiveJobs(env);
      EnqueuedKeysMatch(env, pooled, mid, order);
    }

    // ---- the worker ----

    /** executeJobLogic: an error fails the entry, a hash is recorded in it; a panic ends the process. */
    method ExecuteJobLogic(job: EntityJob, w: World, k: HashFunction, text: Execution -> string)
      returns (result: Execution, sent: Option<UserOperation>)
      modifies jobCache`entries
      ensures Executed(job, w, k, result, sent) && ExecutionSpelled(job, w, k, result, sent)
      ensures jobCache.entries ==
              if jobCache.online then AfterExecution(result, job.id, text, old(jobCache.entries))
                else old(jobCache.entries)
      ensures jobCache.online ==> Recorded(result, job.id, text, old(jobCache.entries), jobCache.entries)
    {
      hide Executed, ExecutionSpelled;
      var signature := job.userOperation.signature;
      var buf := new Byte[|signature|](i requires 0 <= i < |signature| => signature[i]);
      assert buf[..|signature|] == signature;
      result, sent := ExecuteJob(job, buf, w, k);
      match result {
        case Accepted(hash) =>
          var _ := jobCache.UpdateJobCacheUserOpHash(job.id, hash);
        case Panicked =>
        case _ =>
          var _ := jobCache.SetJobStatus(job.id, CacheFailed, Some(text(result)));
      }
    }

    /** One turn of processJobs: the oldest payload leaves the queue and, if it decodes, is executed. */
    method ProcessNextJob(w: World, k: HashFunction, text: Execution -> string)
      returns (result: Option<Execution>, sent: Option<UserOperation>)
      modifies jobCache`entries, jobCache`queue
      ensures !jobCache.queueOnline || old(jobCache.queue) == [] ==>
                result.None? && sent.None? && jobCache.queue == old(jobCache.queue)
                  && jobCache.entries == old(jobCache.entries)
      ensures jobCache.queueOnline && old(jobCache.queue) != [] ==>
                var last := |old(jobCache.queue)| - 1;
                var job := DecodeJob(old(jobCache.queue)[last]);
                && jobCache.queue == old(jobCache.queue)[..last]
                && if job.None? then result.None? && sent.None? && jobCache.entries == old(jobCache.entries)
                   else && result.Some? && Executed(job.value, w, k, result.value, sent)
                        && ExecutionSpelled(job.value, w, k, result.value, sent)
                        && (jobCache.online ==> Recorded(result.value, job.value.id, text,
                                                         old(jobCache.entries), jobCache.entries))
                        && jobCache.entries ==
                           if jobCache.online then AfterExecution(result.value, job.value.id, text,
                                                                  old(jobCache.entries))
                           else old(jobCache.entries)
    {
      hide Executed, ExecutionSpelled, AfterExecution, Recorded, DecodeJob;
      var r := jobCache.DequeueJob();
      if !r.Dequeued? { return None, None; }
      var e, s := ExecuteJobLogic(r.job, w, k, text);
      return Some(e), s;
    }
  }
}
