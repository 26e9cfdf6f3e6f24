/**
 * What one pass of pollJobLogic does when no call fails and the worker is quiet, as functions
 * on whole stores, and what that means job by job.
 */
module PollPass {
  import opened Wrappers
  import opened Jobs
  import opened JobCacheEntries
  import opened ExecutionConfigs
  import P = SchedulerProtocol

  /** What the outside answers during one pass; the clock may be read once per job. */
  datatype Environment = Environment(
    bundler: int -> bool,
    receipt: (int, Hash) -> P.ReceiptAnswer,
    chains: Chains,
    clock: JobId -> int)

  datatype Stores = Stores(jobs: map<JobId, EntityJob>, entries: Entries, queue: seq<Payload>)

  /** An entry names the job of its key; SchedulerTheorems.PendingEntryWellFormed proves this of reachable states. */
  predicate KeysMatch(m: Entries) {
    forall id :: id in m ==> m[id].jobID == id
  }

  predicate RowsMatch(jobs: map<JobId, EntityJob>) {
    forall id :: id in jobs ==> jobs[id].id == id
  }

  // ---- receipts ----

  datatype Verdict = Keep | Drop | Fail(msg: string)

  function VerdictOf(env: Environment, e: JobCache): Verdict {
    if e.status != CachePending || !env.bundler(e.chainID) then Keep
    else if e.userOpHash == ZERO_HASH then Fail(P.EMPTY_HASH_MSG)
    else
      match env.receipt(e.chainID, e.userOpHash)
      case Found(success) => if success then Drop else Fail(P.REVERTED_MSG)
      case _ => Keep
  }

  function Apply(v: Verdict, m: Entries, id: JobId): Entries {
    match v
    case Keep => m
    case Drop => m - {id}
    case Fail(msg) => m[id := StatusEntry(id, CacheFailed, Some(msg))]
  }

  /** The entries once the verdicts on the jobs in done are carried out. */
  function Settled(env: Environment, m: Entries, done: set<JobId>): Entries {
    map id | id in m && !(id in done && VerdictOf(env, m[id]).Drop?) ::
      if id in done && VerdictOf(env, m[id]).Fail?
      then StatusEntry(id, CacheFailed, Some(VerdictOf(env, m[id]).msg)) else m[id]
  }

  function AfterReceipts(env: Environment, m: Entries): Entries {
    Settled(env, m, m.Keys)
  }

  lemma SettledNone(env: Environment, m: Entries)
    ensures Settled(env, m, {}) == m
  {
  }

  lemma SettleOne(env: Environment, m: Entries, done: set<JobId>, id: JobId)
    requires id in m && id !in done
    ensures Settled(env, m, done + {id}) == Apply(VerdictOf(env, m[id]), Settled(env, m, done), id)
  {
  }

  lemma SettleNothing(env: Environment, m: Entries, done: set<JobId>, more: set<JobId>)
    requires forall id :: id in more && id in m ==> VerdictOf(env, m[id]).Keep?
    ensures Settled(env, m, done + more) == Settled(env, m, done)
  {
  }

  lemma AfterReceiptsKeysMatch(env: Environment, m: Entries)
    requires KeysMatch(m)
    ensures KeysMatch(AfterReceipts(env, m))
  {
  }

  // ---- sync ----

  /** The rows once the cached outcomes of the jobs in done are written. */
  function Synced(jobs: map<JobId, EntityJob>, m: Entries, done: set<JobId>): map<JobId, EntityJob> {
    map id | id in jobs :: if id in m && id in done then P.UpdatedRow(jobs[id], m[id], m[id].status) else jobs[id]
  }

  /** The jobs whose cached status is an outcome. */
  function Decided(m: Entries): set<JobId> {
    set id | id in m && m[id].status != CachePending
  }

  lemma SyncOne(jobs: map<JobId, EntityJob>, m: Entries, done: set<JobId>, id: JobId)
    requires id in m && id !in done
    ensures Synced(jobs, m, done + {id}) ==
            if id in jobs then Synced(jobs, m, done)[id := P.UpdatedRow(jobs[id], m[id], m[id].status)]
            else Synced(jobs, m, done)
  {
  }

  lemma RemoveOne(m: Entries, done: set<JobId>, id: JobId)
    ensures m - (done + {id}) == m - done - {id}
  {
  }

  lemma SyncedNone(jobs: map<JobId, EntityJob>, m: Entries)
    ensures Synced(jobs, m, {}) == jobs && m - {} == m
  {
  }

  /** Syncing the failed entries leaves the lists of the others. */
  lemma FailedRemoved(m: Entries, failed: set<JobId>)
    requires failed == WithStatus(m, CacheFailed).Keys
    ensures WithStatus(m - failed, CacheCompleted) == WithStatus(m, CacheCompleted)
  {
  }

  lemma BothSynced(jobs: map<JobId, EntityJob>, m: Entries, failed: set<JobId>, completed: set<JobId>)
    requires failed == WithStatus(m, CacheFailed).Keys && completed == WithStatus(m, CacheCompleted).Keys
    ensures m - failed - completed == WithStatus(m, CachePending)
    ensures Synced(Synced(jobs, m, failed), m, completed) == Synced(jobs, m, Decided(m))
  {
  }

  // ---- filter and enqueue ----

  /** What the config read says about an active job that is not cached. */
  datatype Decision = Skip | Complete | Execute

  function DecisionOf(env: Environment, pooled: set<int>, m: Entries, job: EntityJob): Decision {
    var config := ConfigOf(env.chains, pooled, job);
    if job.id in m || config.None? then Skip
    else if config.value.Exhausted() then Complete
    else if config.value.IsTimeToExecute(env.clock(job.id)) then Execute
    else Skip
  }

  function DueJobs(env: Environment, pooled: set<int>, m: Entries, jobs: seq<EntityJob>): seq<EntityJob> {
    if jobs == [] then [] else
      var job := jobs[|jobs| - 1];
      DueJobs(env, pooled, m, jobs[..|jobs| - 1]) + if DecisionOf(env, pooled, m, job).Execute? then [job] else []
  }

  /** The entries with a completed one for each exhausted job. */
  function Marked(env: Environment, pooled: set<int>, m: Entries, jobs: seq<EntityJob>): Entries {
    if jobs == [] then m else
      var job, before := jobs[|jobs| - 1], Marked(env, pooled, m, jobs[..|jobs| - 1]);
      if DecisionOf(env, pooled, m, job).Complete?
      then before[job.id := StatusEntry(job.id, CacheCompleted, None)] else before
  }

  function Added(m: Entries, jobs: seq<EntityJob>): Entries {
    if jobs == [] then m else
      Added(m, jobs[..|jobs| - 1])[jobs[|jobs| - 1].id := NewEntry(jobs[|jobs| - 1])]
  }

  lemma {:induction false} MarkedElsewhere(env: Environment, pooled: set<int>, m: Entries, jobs: seq<EntityJob>,
                                           id: JobId)
    requires forall job :: job in jobs ==> job.id != id
    ensures var marked := Marked(env, pooled, m, jobs);
            (id in marked <==> id in m) && (id in m ==> marked[id] == m[id])
  {
    if jobs != [] {
      MarkedElsewhere(env, pooled, m, jobs[..|jobs| - 1], id);
    }
  }

  /** One more job decided; marking the earlier ones neither cached it nor changed its entry. */
  lemma NextDecision(env: Environment, pooled: set<int>, m: Entries, jobs: seq<EntityJob>, i: nat)
    requires DistinctJobs(jobs) && i < |jobs|
    ensures var marked, d := Marked(env, pooled, m, jobs[..i]), DecisionOf(env, pooled, m, jobs[i]);
            && (jobs[i].id in marked <==> jobs[i].id in m)
            && Marked(env, pooled, m, jobs[..i + 1]) ==
               (if d.Complete? then marked[jobs[i].id := StatusEntry(jobs[i].id, CacheCompleted, None)] else marked)
            && DueJobs(env, pooled, m, jobs[..i + 1]) ==
               DueJobs(env, pooled, m, jobs[..i]) + (if d.Execute? then [jobs[i]] else [])
  {
    MarkedElsewhere(env, pooled, m, jobs[..i], jobs[i].id);
    assert jobs[..i + 1][..i] == jobs[..i];
  }

  /** The payloads of jobs pushed in order: the last is at the LPush end. */
  function Pushed(jobs: seq<EntityJob>): seq<Payload> {
    if jobs == [] then [] else [EncodeJob(jobs[|jobs| - 1])] + Pushed(jobs[..|jobs| - 1])
  }

  lemma NoDecisions(env: Environment, pooled: set<int>, m: Entries)
    ensures DueJobs(env, pooled, m, []) == [] && Marked(env, pooled, m, []) == m
  {
  }

  function JobIds(jobs: seq<EntityJob>): set<JobId> {
    set job | job in jobs :: job.id
  }

  lemma NothingDue(m: Entries, queue: seq<Payload>)
    ensures Added(m, []) == m && Pushed([]) + queue == queue && m - JobIds([]) == m
  {
    assert JobIds([]) == {};
  }

  lemma EnqueueNext(m: Entries, queue: seq<Payload>, jobs: seq<EntityJob>, i: nat)
    requires i < |jobs|
    ensures Added(m, jobs[..i + 1]) == Added(m, jobs[..i])[jobs[i].id := NewEntry(jobs[i])]
    ensures Pushed(jobs[..i + 1]) + queue == [EncodeJob(jobs[i])] + (Pushed(jobs[..i]) + queue)
  {
    hide EncodeJob, NewEntry;
    assert jobs[..i + 1][..i] == jobs[..i];
  }

  /** An entry added and removed again leaves the map without it. */
  lemma UndoNext(m: Entries, jobs: seq<EntityJob>, i: nat)
    requires i < |jobs|
    ensures m - JobIds(jobs[..i + 1]) == (m - JobIds(jobs[..i]))[jobs[i].id := NewEntry(jobs[i])] - {jobs[i].id}
  {
    assert jobs[..i + 1] == jobs[..i] + [jobs[i]];
    assert JobIds(jobs[..i + 1]) == JobIds(jobs[..i]) + {jobs[i].id};
  }

  lemma {:induction false} MarkedKeysMatch(env: Environment, pooled: set<int>, m: Entries, jobs: seq<EntityJob>)
    requires KeysMatch(m)
    ensures KeysMatch(Marked(env, pooled, m, jobs))
  {
    if jobs != [] { MarkedKeysMatch(env, pooled, m, jobs[..|jobs| - 1]); }
  }

  lemma {:induction false} AddedKeysMatch(m: Entries, jobs: seq<EntityJob>)
    requires KeysMatch(m)
    ensures KeysMatch(Added(m, jobs))
  {
    if jobs != [] { AddedKeysMatch(m, jobs[..|jobs| - 1]); }
  }

  /** Steps 1 and 2 of a pass. */
  function SyncedStores(env: Environment, s: Stores): Stores {
    var m := AfterReceipts(env, s.entries);
    Stores(Synced(s.jobs, m, Decided(m)), WithStatus(m, CachePending), s.queue)
  }

  /** Steps 3 to 5, for the active jobs in this order; one unreadable config ends the pass. */
  function EnqueuedStores(env: Environment, pooled: set<int>, mid: Stores, order: seq<EntityJob>): Stores {
    if AllReadable(env.chains, pooled, order) then
      var due := DueJobs(env, pooled, mid.entries, order);
      Stores(mid.jobs, Added(Marked(env, pooled, mid.entries, order), due), Pushed(due) + mid.queue)
    else mid
  }

  /** Steps 3 to 5 when nothing can be pushed: the entries of due jobs are taken back. */
  function MarkedStores(env: Environment, pooled: set<int>, mid: Stores, order: seq<EntityJob>): Stores {
    if AllReadable(env.chains, pooled, order) then mid.(entries := Marked(env, pooled, mid.entries, order)) else mid
  }

  lemma NoActiveJobs(env: Environment, pooled: set<int>, mid: Stores)
    ensures EnqueuedStores(env, pooled, mid, []) == mid && MarkedStores(env, pooled, mid, []) == mid
  {
  }

  lemma EnqueuedKeysMatch(env: Environment, pooled: set<int>, mid: Stores, order: seq<EntityJob>)
    requires KeysMatch(mid.entries)
    ensures KeysMatch(EnqueuedStores(env, pooled, mid, order).entries)
    ensures KeysMatch(MarkedStores(env, pooled, mid, order).entries)
  {
    MarkedKeysMatch(env, pooled, mid.entries, order);
    AddedKeysMatch(Marked(env, pooled, mid.entries, order), DueJobs(env, pooled, mid.entries, order));
  }

  /** A whole pass from before to after; order is the order in which the database returned the active jobs. */
  ghost predicate Pass(env: Environment, pooled: set<int>, before: Stores, order: seq<EntityJob>, keys: seq<JobId>,
                       after: Stores) {
    var mid := SyncedStores(env, before);
    Enumerates(order, keys, ActiveJobs(mid.jobs)) && after == EnqueuedStores(env, pooled, mid, order)
  }

  // ---- what the schedule says, spelled out ----

  /** The record has an execution left, and its time has come. */
  ghost predicate NowDue(c: ExecutionConfig, now: int) {
    && c.numberOfExecutionsCompleted < c.numberOfExecutions && c.isEnabled
    && if c.lastExecutionTime.Some? && c.lastExecutionTime.value != 0
       then now >= c.lastExecutionTime.value + c.executeInterval
       else c.startDate.Some? ==> now >= c.startDate.value
  }

  ghost predicate IsDue(env: Environment, pooled: set<int>, job: EntityJob) {
    exists c :: ReadsAs(env.chains, pooled, job, Some(c)) && NowDue(c, env.clock(job.id))
  }

  ghost predicate IsExhausted(env: Environment, pooled: set<int>, job: EntityJob) {
    exists c :: ReadsAs(env.chains, pooled, job, Some(c)) && c.numberOfExecutionsCompleted >= c.numberOfExecutions
  }

  lemma DecisionSpelled(env: Environment, pooled: set<int>, m: Entries, job: EntityJob)
    ensures DecisionOf(env, pooled, m, job).Execute? <==> job.id !in m && IsDue(env, pooled, job)
    ensures DecisionOf(env, pooled, m, job).Complete? <==> job.id !in m && IsExhausted(env, pooled, job)
  {
    ConfigReadsAs(env.chains, pooled, job);
    hide ReadsAs, ConfigOf;
    var config := ConfigOf(env.chains, pooled, job);
    if config.Some? {
      assert ReadsAs(env.chains, pooled, job, Some(config.value));
    }
  }

  /** A job is read as one record, so it is not due and exhausted at once. */
  lemma NotBoth(env: Environment, pooled: set<int>, job: EntityJob)
    ensures !(IsDue(env, pooled, job) && IsExhausted(env, pooled, job))
  {
    ConfigReadsAs(env.chains, pooled, job);
    hide ReadsAs, ConfigOf;
  }

  ghost predicate Before<T>(whole: seq<T>, x: T, y: T) {
    exists a, b :: 0 <= a < b < |whole| && whole[a] == x && whole[b] == y
  }

  /** Elements of one list as they follow each other in another. */
  ghost predicate InOrder<T>(part: seq<T>, whole: seq<T>) {
    forall i, j :: 0 <= i < j < |part| ==> Before(whole, part[i], part[j])
  }

  lemma InOrderOfNone<T>(whole: seq<T>)
    ensures InOrder([], whole)
  {
  }

  lemma InOrderGrows<T>(part: seq<T>, whole: seq<T>, x: T, taken: bool)
    requires InOrder(part, whole) && forall y :: y in part ==> y in whole
    ensures InOrder(part + if taken then [x] else [], whole + [x])
  {
    var more, all := part + (if taken then [x] else []), whole + [x];
    forall i, j | 0 <= i < j < |more| ensures Before(all, more[i], more[j]) {
      if j < |part| {
        assert Before(whole, part[i], part[j]);
        var a, b :| 0 <= a < b < |whole| && whole[a] == part[i] && whole[b] == part[j];
        assert all[a] == more[i] && all[b] == more[j];
      } else {
        assert part[i] in whole;
        var a :| 0 <= a < |whole| && whole[a] == part[i];
        assert all[a] == more[i] && all[|whole|] == more[j];
      }
    }
  }

  /** The list of due jobs: exactly those that are not cached and due, in the order of the jobs. */
  lemma {:induction false} DueSpelled(env: Environment, pooled: set<int>, m: Entries, jobs: seq<EntityJob>)
    ensures var due := DueJobs(env, pooled, m, jobs);
            && (forall job :: job in due <==> job in jobs && job.id !in m && IsDue(env, pooled, job))
            && InOrder(due, jobs) && (DistinctJobs(jobs) ==> DistinctJobs(due))
  {
    hide IsDue, InOrder, DecisionOf;
    if jobs == [] {
      InOrderOfNone(jobs);
    } else {
      var front, last := jobs[..|jobs| - 1], jobs[|jobs| - 1];
      assert jobs == front + [last];
      DueSpelled(env, pooled, m, front);
      DecisionSpelled(env, pooled, m, last);
      InOrderGrows(DueJobs(env, pooled, m, front), front, last, DecisionOf(env, pooled, m, last).Execute?);
      if DistinctJobs(jobs) {
        forall job | job in DueJobs(env, pooled, m, front) ensures job.id != last.id {
          assert job in front;
        }
      }
    }
  }

  /** The marked entries: those there were, and a completed one for each exhausted job that is not cached. */
  lemma {:induction false} MarkedSpelled(env: Environment, pooled: set<int>, m: Entries, jobs: seq<EntityJob>,
                                         id: JobId)
    ensures var marked := Marked(env, pooled, m, jobs);
            var completed := id !in m && exists job :: job in jobs && job.id == id && IsExhausted(env, pooled, job);
            && (id in marked <==> id in m || completed)
            && (id in m ==> marked[id] == m[id])
            && (completed ==> marked[id] == JobCache(id, 0, 0, CacheCompleted, ""))
  {
    hide IsExhausted, DecisionOf;
    if jobs != [] {
      var front, last := jobs[..|jobs| - 1], jobs[|jobs| - 1];
      assert jobs == front + [last];
      MarkedSpelled(env, pooled, m, front, id);
      DecisionSpelled(env, pooled, m, last);
    }
  }

  lemma AllMarkedSpelled(env: Environment, pooled: set<int>, m: Entries, jobs: seq<EntityJob>)
    ensures var marked := Marked(env, pooled, m, jobs);
            forall id ::
              var completed := id !in m && exists job :: job in jobs && job.id == id && IsExhausted(env, pooled, job);
              && (id in marked <==> id in m || completed)
              && (id in m ==> marked[id] == m[id])
              && (completed ==> marked[id] == JobCache(id, 0, 0, CacheCompleted, ""))
  {
    hide IsExhausted, Marked;
    var marked := Marked(env, pooled, m, jobs);
    forall id: JobId
      ensures var completed := id !in m && exists job :: job in jobs && job.id == id && IsExhausted(env, pooled, job);
              && (id in marked <==> id in m || completed)
              && (id in m ==> marked[id] == m[id])
              && (completed ==> marked[id] == JobCache(id, 0, 0, CacheCompleted, ""))
    {
      MarkedSpelled(env, pooled, m, jobs, id);
    }
  }

  // ---- the pass job by job ----

  /** The entry outlives receipts and sync: a pending one that cannot be judged yet. */
  predicate Waiting(env: Environment, e: JobCache) {
    e.status == CachePending
    && (!env.bundler(e.chainID) || (e.userOpHash != ZERO_HASH && !env.receipt(e.chainID, e.userOpHash).Found?))
  }

  function WaitingEntries(env: Environment, m: Entries): Entries {
    map id | id in m && Waiting(env, m[id]) :: m[id]
  }

  datatype Outcome = Outcome(status: DBJobStatus, errMsg: Option<string>)

  /** What receipts and sync find out about a job with this entry. */
  function OutcomeOf(env: Environment, e: JobCache): Option<Outcome> {
    match e.status
    case CacheFailed => Some(Outcome(DBFailed, Some(e.error)))
    case CacheCompleted => Some(Outcome(DBCompleted, None))
    case CachePending =>
      if !env.bundler(e.chainID) then None
      else if e.userOpHash == 0 then Some(Outcome(DBFailed, Some("Job has empty user operation hash")))
      else if env.receipt(e.chainID, e.userOpHash) == P.Found(false)
      then Some(Outcome(DBFailed, Some("User operation failed on-chain")))
      else None
  }

  /** The row with the outcome; without a message it keeps the one it has. */
  function TakenOver(row: EntityJob, o: Outcome): EntityJob {
    row.(status := o.status, errMsg := if o.errMsg.Some? then o.errMsg else row.errMsg)
  }

  lemma EntriesByJob(env: Environment, m: Entries)
    ensures WithStatus(AfterReceipts(env, m), CachePending) == WaitingEntries(env, m)
  {
  }

  lemma RowByJob(env: Environment, s: Stores, id: JobId)
    requires id in s.jobs
    ensures SyncedStores(env, s).jobs[id] ==
            if id in s.entries && OutcomeOf(env, s.entries[id]).Some?
            then TakenOver(s.jobs[id], OutcomeOf(env, s.entries[id]).value) else s.jobs[id]
  {
    if id in s.entries {
      var e, v := s.entries[id], VerdictOf(env, s.entries[id]);
      assert id in AfterReceipts(env, s.entries) <==> !v.Drop?;
      assert id in AfterReceipts(env, s.entries) ==>
               AfterReceipts(env, s.entries)[id] == if v.Fail? then StatusEntry(id, CacheFailed, Some(v.msg)) else e;
    }
  }

  /** A due job has no entry, so taking its new one back leaves the others as they were. */
  lemma DueUnmarked(env: Environment, pooled: set<int>, m: Entries, jobs: seq<EntityJob>)
    requires DistinctJobs(jobs)
    ensures var marked := Marked(env, pooled, m, jobs);
            marked - JobIds(DueJobs(env, pooled, m, jobs)) == marked
  {
    DueSpelled(env, pooled, m, jobs);
    forall job | job in DueJobs(env, pooled, m, jobs) ensures job.id !in Marked(env, pooled, m, jobs) {
      MarkedSpelled(env, pooled, m, jobs, job.id);
      NotBoth(env, pooled, job);
    }
    hide IsDue, IsExhausted;
  }

  lemma {:induction false} AddedByJob(m: Entries, jobs: seq<EntityJob>, id: JobId)
    requires DistinctJobs(jobs)
    ensures var added := Added(m, jobs);
            && (id in added <==> id in m || exists job :: job in jobs && job.id == id)
            && (forall job :: job in jobs && job.id == id ==> added[id] == NewEntry(job))
            && (id in m && (forall job :: job in jobs ==> job.id != id) ==> added[id] == m[id])
  {
    if jobs != [] {
      var front := jobs[..|jobs| - 1];
      assert jobs == front + [jobs[|jobs| - 1]];
      AddedByJob(m, front, id);
    }
  }

  /** A listed job is the row of its id. */
  lemma ListedRow(jobs: map<JobId, EntityJob>, order: seq<EntityJob>, keys: seq<JobId>)
    requires RowsMatch(jobs) && Enumerates(order, keys, ActiveJobs(jobs))
    ensures DistinctJobs(order)
    ensures forall job :: job in order <==> job.id in jobs && jobs[job.id] == job && job.status == DBQueuing
  {
    forall i | 0 <= i < |order| ensures order[i].id == keys[i] && order[i] == jobs[keys[i]] {
    }
    forall job: EntityJob | job.id in jobs && jobs[job.id] == job && job.status == DBQueuing ensures job in order {
      assert job.id in ActiveJobs(jobs);
      var i :| 0 <= i < |keys| && keys[i] == job.id;
      assert order[i] == job;
    }
  }

  /** A queuing job that has no waiting entry and is due. */
  ghost predicate DueIn(env: Environment, pooled: set<int>, waiting: Entries, jobs: map<JobId, EntityJob>, id: JobId) {
    id in jobs && jobs[id].status == DBQueuing && id !in waiting && IsDue(env, pooled, jobs[id])
  }

  /** A queuing job that has no waiting entry and no executions left. */
  ghost predicate ExhaustedIn(env: Environment, pooled: set<int>, waiting: Entries, jobs: map<JobId, EntityJob>,
                              id: JobId) {
    id in jobs && jobs[id].status == DBQueuing && id !in waiting && IsExhausted(env, pooled, jobs[id])
  }

  lemma EntryByJob(env: Environment, pooled: set<int>, m: Entries, jobs: map<JobId, EntityJob>,
                   order: seq<EntityJob>, keys: seq<JobId>, id: JobId)
    requires RowsMatch(jobs) && Enumerates(order, keys, ActiveJobs(jobs))
    ensures var after := Added(Marked(env, pooled, m, order), DueJobs(env, pooled, m, order));
            var due, exhausted := DueIn(env, pooled, m, jobs, id), ExhaustedIn(env, pooled, m, jobs, id);
            && (id in m ==> id in after && after[id] == m[id])
            && (id !in m ==> (id in after <==> due || exhausted))
            && (exhausted ==> after[id] == JobCache(id, 0, 0, CacheCompleted, ""))
            && (due ==> after[id] == JobCache(id, jobs[id].chainID, 0, CachePending, ""))
  {
    hide IsDue, IsExhausted;
    ListedRow(jobs, order, keys);
    DueSpelled(env, pooled, m, order);
    MarkedSpelled(env, pooled, m, order, id);
    AddedByJob(Marked(env, pooled, m, order), DueJobs(env, pooled, m, order), id);
    if id in jobs && jobs[id].status == DBQueuing {
      assert jobs[id] in order;
      NotBoth(env, pooled, jobs[id]);
    }
    hide DueJobs, Marked, Added;
  }

  lemma SyncedRowsMatch(env: Environment, s: Stores)
    requires RowsMatch(s.jobs)
    ensures RowsMatch(SyncedStores(env, s).jobs)
  {
    hide AfterReceipts;
  }

  /** A quiet pass in the table: exactly the jobs whose entry gives an outcome take it over. */
  lemma PassSettlesRows(env: Environment, pooled: set<int>, before: Stores, order: seq<EntityJob>, keys: seq<JobId>,
                        after: Stores)
    requires Pass(env, pooled, before, order, keys, after)
    ensures after.jobs.Keys == before.jobs.Keys
    ensures forall id :: id in before.jobs ==>
              after.jobs[id] ==
              if id in before.entries && OutcomeOf(env, before.entries[id]).Some?
              then TakenOver(before.jobs[id], OutcomeOf(env, before.entries[id]).value) else before.jobs[id]
  {
    hide OutcomeOf, TakenOver;
    forall id | id in before.jobs
      ensures after.jobs[id] ==
              if id in before.entries && OutcomeOf(env, before.entries[id]).Some?
              then TakenOver(before.jobs[id], OutcomeOf(env, before.entries[id]).value) else before.jobs[id]
    {
      RowByJob(env, before, id);
    }
  }

  /**
   * A quiet pass in the cache: the waiting entries stay as they are; of the other queuing jobs,
   * exactly the exhausted ones get a completed entry and exactly the due ones a new one.
   */
  lemma PassSettlesEntries(env: Environment, pooled: set<int>, before: Stores, order: seq<EntityJob>, keys: seq<JobId>,
                           after: Stores, id: JobId)
    requires Pass(env, pooled, before, order, keys, after) && AllReadable(env.chains, pooled, order)
    requires RowsMatch(before.jobs)
    ensures var waiting := WaitingEntries(env, before.entries);
            var due := DueIn(env, pooled, waiting, after.jobs, id);
            var exhausted := ExhaustedIn(env, pooled, waiting, after.jobs, id);
            && (id in waiting ==> id in after.entries && after.entries[id] == before.entries[id])
            && (id !in waiting ==> (id in after.entries <==> due || exhausted))
            && (exhausted ==> after.entries[id] == JobCache(id, 0, 0, CacheCompleted, ""))
            && (due ==> after.entries[id] == JobCache(id, after.jobs[id].chainID, 0, CachePending, ""))
  {
    var mid := SyncedStores(env, before);
    EntriesByJob(env, before.entries);
    SyncedRowsMatch(env, before);
    EntryByJob(env, pooled, mid.entries, mid.jobs, order, keys, id);
    hide DueIn, ExhaustedIn;
  }

  /** The queue after pushing these jobs one by one, so that the first is the next to leave. */
  ghost predicate QueuedBehind(before: seq<Payload>, due: seq<EntityJob>, after: seq<Payload>) {
    && |after| == |due| + |before| && after[|due|..] == before
    && forall i :: 0 <= i < |due| ==> after[|due| - 1 - i] == EncodeJob(due[i])
  }

  lemma {:induction false} PushedLength(due: seq<EntityJob>)
    ensures |Pushed(due)| == |due|
  {
    if due != [] { PushedLength(due[..|due| - 1]); }
  }

  lemma {:induction false} PushedAt(due: seq<EntityJob>, i: nat)
    requires i < |due|
    ensures |Pushed(due)| == |due| && Pushed(due)[|due| - 1 - i] == EncodeJob(due[i])
  {
    hide EncodeJob;
    var front, last := due[..|due| - 1], due[|due| - 1];
    PushedLength(front);
    assert Pushed(due) == [EncodeJob(last)] + Pushed(front);
    if i < |front| {
      PushedAt(front, i);
      assert Pushed(due)[|due| - 1 - i] == Pushed(front)[|front| - 1 - i];
    }
  }

  lemma PushedBehind(before: seq<Payload>, due: seq<EntityJob>)
    ensures QueuedBehind(before, due, Pushed(due) + before)
  {
    hide EncodeJob, Pushed;
    PushedLength(due);
    var all := Pushed(due) + before;
    assert all[|due|..] == before;
    forall i | 0 <= i < |due| ensures all[|due| - 1 - i] == EncodeJob(due[i]) {
      PushedAt(due, i);
    }
  }

  /**
   * A quiet pass in the queue: exactly the due jobs are pushed, each once, in the order in which
   * the database gave them.
   */
  lemma PassPushesDueJobs(env: Environment, pooled: set<int>, before: Stores, order: seq<EntityJob>, keys: seq<JobId>,
                          after: Stores)
    requires Pass(env, pooled, before, order, keys, after) && AllReadable(env.chains, pooled, order)
    requires RowsMatch(before.jobs)
    ensures exists due: seq<EntityJob> ::
              && QueuedBehind(before.queue, due, after.queue) && DistinctJobs(due) && InOrder(due, order)
              && forall job :: job in due <==>
                   && job.id in after.jobs && after.jobs[job.id] == job
                   && DueIn(env, pooled, WaitingEntries(env, before.entries), after.jobs, job.id)
  {
    hide IsDue, QueuedBehind;
    var mid := SyncedStores(env, before);
    EntriesByJob(env, before.entries);
    SyncedRowsMatch(env, before);
    ListedRow(mid.jobs, order, keys);
    DueSpelled(env, pooled, mid.entries, order);
    hide AllReadable, DecisionOf;
    var due := DueJobs(env, pooled, mid.entries, order);
    PushedBehind(before.queue, due);
    assert QueuedBehind(before.queue, due, after.queue) && DistinctJobs(due) && InOrder(due, order);
  }

  /** One config that cannot be read ends the pass after the sync. */
  lemma UnreadableConfigEndsPass(env: Environment, pooled: set<int>, before: Stores, order: seq<EntityJob>,
                                 keys: seq<JobId>, after: Stores)
    requires Pass(env, pooled, before, order, keys, after) && !AllReadable(env.chains, pooled, order)
    ensures after.entries == WaitingEntries(env, before.entries) && after.queue == before.queue
  {
    EntriesByJob(env, before.entries);
  }

  lemma {:induction false} PushedMember(jobs: seq<EntityJob>, job: EntityJob)
    requires job in jobs
    ensures EncodeJob(job) in Pushed(jobs)
  {
    if jobs[|jobs| - 1] != job {
      PushedMember(jobs[..|jobs| - 1], job);
    }
  }

  /** A due job is cached as new and its payload is in the queue. */
  lemma DueIsQueued(env: Environment, pooled: set<int>, before: Stores, order: seq<EntityJob>, keys: seq<JobId>,
                    after: Stores, id: JobId)
    requires RowsMatch(before.jobs) && AllReadable(env.chains, pooled, order)
    requires Pass(env, pooled, before, order, keys, after)
    requires DueIn(env, pooled, WaitingEntries(env, before.entries), after.jobs, id)
    ensures id in after.jobs && after.jobs[id].status == DBQueuing
    ensures id in after.entries && after.entries[id] == JobCache(id, after.jobs[id].chainID, 0, CachePending, "")
    ensures EncodeJob(after.jobs[id]) in after.queue
  {
    PassSettlesEntries(env, pooled, before, order, keys, after, id);
    SyncedRowsMatch(env, before);
    ListedRow(SyncedStores(env, before).jobs, order, keys);
    EntriesByJob(env, before.entries);
    DueSpelled(env, pooled, SyncedStores(env, before).entries, order);
    PushedMember(DueJobs(env, pooled, SyncedStores(env, before).entries, order), after.jobs[id]);
  }

  /** The next pass settles an entry that is still new: the zero-hash branch fails its job. */
  lemma NewEntryIsFailed(env: Environment, pooled: set<int>, before: Stores, order: seq<EntityJob>, keys: seq<JobId>,
                         after: Stores, id: JobId)
    requires Pass(env, pooled, before, order, keys, after)
    requires id in before.jobs && before.jobs[id].status == DBQueuing
    requires id in before.entries && before.entries[id] == JobCache(id, before.jobs[id].chainID, 0, CachePending, "")
    ensures id in after.jobs
    ensures after.jobs[id] ==
            if env.bundler(before.jobs[id].chainID)
            then before.jobs[id].(status := DBFailed, errMsg := Some("Job has empty user operation hash"))
            else before.jobs[id]
    ensures forall p :: p in before.queue ==> p in after.queue
  {
    PassSettlesRows(env, pooled, before, order, keys, after);
  }

  /**
   * A job that the worker does not take before the next pass is recorded as failed exactly when
   * its chain's bundler client is available; its payload is in the queue all the same, so it
   * will still be executed.
   */
  lemma UnservedJobIsFailed(env: Environment, pooled: set<int>, start: Stores, order: seq<EntityJob>,
                            keys: seq<JobId>, mid: Stores,
                            env': Environment, pooled': set<int>, order': seq<EntityJob>, keys': seq<JobId>,
                            end: Stores, id: JobId)
    requires RowsMatch(start.jobs) && AllReadable(env.chains, pooled, order)
    requires Pass(env, pooled, start, order, keys, mid) && Pass(env', pooled', mid, order', keys', end)
    requires DueIn(env, pooled, WaitingEntries(env, start.entries), mid.jobs, id)
    ensures id in mid.jobs && id in end.jobs && EncodeJob(mid.jobs[id]) in end.queue
    ensures end.jobs[id].status == DBFailed <==> env'.bundler(mid.jobs[id].chainID)
    ensures end.jobs[id].status == DBFailed ==> end.jobs[id].errMsg == Some("Job has empty user operation hash")
  {
    DueIsQueued(env, pooled, start, order, keys, mid, id);
    hide Pass, DueIn;
    NewEntryIsFailed(env', pooled', mid, order', keys', end, id);
  }
}
