/**
 * When a job recorded as failed can still be sent: exactly while a copy of it is queued or in
 * execution, and such states are reached.
 */
module SchedulerSends {
  import opened Wrappers
  import opened Jobs
  import opened JobCacheEntries
  import opened SchedulerPaths
  import opened SchedulerProtocol
  import opened SchedulerInvariant
  import opened SchedulerTheorems

  // ---- a queued copy can always be sent ----

  /** The queued jobs and the worker's are registered. */
  ghost predicate Drainable(s: State) {
    && (forall x :: x in s.queue ==> x.id in s.ledger)
    && (!s.worker.Waiting? ==> s.worker.job.id in s.ledger)
  }

  /** A continuation without faults has the copy sent and accepted. */
  ghost predicate CanBeSent(s: State, id: JobId)
    requires id in s.ledger
  {
    exists t :: Leads(s, t, false) && id in t.ledger && t.ledger[id].sends > s.ledger[id].sends
  }

  ghost function UpperBound(keys: set<Hash>): (top: Hash)
    ensures forall h :: h in keys ==> h <= top
  {
    if keys == {} then 0 else
      var k :| k in keys;
      var top := UpperBound(keys - {k});
      assert forall h :: h in keys ==> h == k || h in keys - {k};
      if k > top then k else top
  }

  /** A hash the bundler has not answered with. */
  ghost function FreshHash(issued: map<Hash, SentOperation>): (hash: Hash)
    ensures hash != ZERO_HASH && hash !in issued
  {
    UpperBound(issued.Keys) + 1
  }

  function Rank(w: Worker): nat {
    match w
    case Waiting => 0
    case Running(_) => 2
    case _ => 1
  }

  /** The step with which the worker gets on: it sends its job, records the result, or takes the next job. */
  ghost function Onward(s: State): Action {
    match s.worker
    case Waiting => ADequeue(true)
    case Running(_) => ASendAccepted(FreshHash(s.issued))
    case Errored(_, _) => ARecordError(true)
    case Sent(_, _) => ARecordHash(true)
  }

  ghost function OnwardState(s: State): State
    requires Drainable(s) && (s.worker.Waiting? ==> s.queue != [])
  {
    match s.worker
    case Waiting =>
      var n := |s.queue| - 1;
      s.(queue := s.queue[..n], worker := Running(s.queue[n]), dequeued := s.dequeued + [s.queue[n]])
    case Running(job) =>
      var l, hash := s.ledger[job.id], FreshHash(s.issued);
      s.(worker := Sent(job, hash),
         ledger := s.ledger[job.id := l.(sends := l.sends + 1, lastHash := hash)],
         issued := s.issued[hash := SentOperation(job.id, job.chainID)])
    case Errored(job, msg) =>
      s.(worker := Waiting, cache := s.cache[job.id := StatusEntry(job.id, CacheFailed, Some(msg))])
    case Sent(job, hash) => s.(worker := Waiting, cache := WithHash(s.cache, job.id, hash))
  }

  lemma OnwardIsStep(s: State)
    requires Drainable(s) && (s.worker.Waiting? ==> s.queue != [])
    ensures Step(s, Onward(s), OnwardState(s)) && !Fails(Onward(s)) && Drainable(OnwardState(s))
  {
    hide FreshHash, StatusEntry, WithHash;
    assert WorkerStep(s, Onward(s), OnwardState(s));
  }

  lemma {:induction false} UnsentCanBeSent(s: State, id: JobId)
    requires Drainable(s) && id in s.ledger && Unsent(s, id)
    ensures CanBeSent(s, id)
    decreases |s.queue|, Rank(s.worker)
  {
    hide Step, Leads, Fails, FreshHash;
    var t := OnwardState(s);
    OnwardIsStep(s);
    OneStep(s, Onward(s), t, false);
    if !(s.worker.Running? && s.worker.job.id == id) {
      if s.worker.Waiting? { CopiesLast(s.queue, id); }
      UnsentCanBeSent(t, id);
      var u :| Leads(t, u, false) && id in u.ledger && u.ledger[id].sends > t.ledger[id].sends;
      Joined(s, t, u, false);
    }
  }

  // ---- nothing else can be ----

  lemma ReachedIsDrainable(run: seq<State>, i: nat)
    requires IsRun(run) && i < |run|
    ensures Drainable(run[i]) && run[i].ledger.Keys == run[i].db.Keys
  {
    RunKeepsInv(run, i);
  }

  lemma NoCopyNoSend(run: seq<State>, i: nat, id: JobId, t: State)
    requires IsRun(run) && i < |run| && id in run[i].db && id in run[i].ledger && Outcome(run[i], id).Some?
    requires !Unsent(run[i], id) && Leads(run[i], t, true)
    ensures id in t.ledger && t.ledger[id].sends == run[i].ledger[id].sends
  {
    hide Leads, IsRun, Outcome, Unsent;
    var longer := RunGoesOn(run, i, t);
    OutcomeIsFinal(longer, i, |longer| - 1, id);
    LedgerOnlyGrows(longer, i, |longer| - 1);
  }

  /**
   * A job with an outcome (failed or completed, in the cache or in the table) is never sent
   * again, whatever happens, if and only if no copy of it is queued or in execution; and this
   * does not depend on faults.
   */
  lemma NeverSentAgainIff(run: seq<State>, i: nat, id: JobId, faults: bool)
    requires IsRun(run) && i < |run| && id in run[i].db && Outcome(run[i], id).Some?
    ensures id in run[i].ledger
    ensures !Unsent(run[i], id) <==>
            forall t :: Leads(run[i], t, faults) ==> id in t.ledger && t.ledger[id].sends == run[i].ledger[id].sends
  {
    hide Leads, IsRun, Outcome, Unsent, Drainable;
    ReachedIsDrainable(run, i);
    if Unsent(run[i], id) {
      UnsentCanBeSent(run[i], id);
      var t :| Leads(run[i], t, false) && id in t.ledger && t.ledger[id].sends > run[i].ledger[id].sends;
      FaultsMayStayAway(run[i], t);
    } else {
      forall t | Leads(run[i], t, faults) ensures id in t.ledger && t.ledger[id].sends == run[i].ledger[id].sends {
        if !faults { FaultsMayStayAway(run[i], t); }
        NoCopyNoSend(run, i, id, t);
      }
    }
  }

  // ---- such a state is reached ----

  const EMPTY: State := State(map[], map[], [], Waiting, Resting, map[], map[], map[], [], [])

  /** t is reached without faults from the empty system. */
  ghost predicate Reached(t: State) {
    Leads(EMPTY, t, false)
  }

  lemma NothingReached()
    ensures Reached(EMPTY)
  {
    StaysPut(EMPTY, false);
  }

  /** One job, registered with executions left. */
  ghost function OneJob(job: EntityJob, total: nat): State {
    EMPTY.(db := map[job.id := job], ledger := map[job.id := Ledger(total, 0, 0, 0, ZERO_HASH)])
  }

  /** The same job cached and queued by a pass. */
  ghost function Queued(job: EntityJob, total: nat): State {
    OneJob(job, total).(cache := map[job.id := NewEntry(job)], queue := [job], enqueued := [job])
  }

  /** What the zero-hash branch leaves of the entry. */
  ghost function FailedEntry(job: EntityJob): JobCache {
    StatusEntry(job.id, CacheFailed, Some(EMPTY_HASH_MSG))
  }

  lemma RegisteredAndIdle(job: EntityJob, total: nat)
    requires job.status == DBQueuing && job.errMsg.None?
    ensures Reached(OneJob(job, total).(poller := ListingForSync(CacheFailed)))
  {
    hide Leads;
    var s := OneJob(job, total);
    NothingReached();
    assert EnvironmentStep(EMPTY, ARegister(job, total, 0), s);
    Then(EMPTY, EMPTY, ARegister(job, total, 0), s, false);
    var t := s.(poller := Receipts(map[], None));
    ThenReceipt(EMPTY, s, AListPending(true), t, false);
    ThenReceipt(EMPTY, t, AEndReceipts, s.(poller := ListingForSync(CacheFailed)), false);
  }

  /** Maps with one key. */
  lemma OneKey<V>(id: JobId, v: V, w: V)
    ensures map[id := v] - {id} == map[]
    ensures map[id := v].Keys == {id}
    ensures map[][id := v] == map[id := v]
    ensures map[id := v][id := w] == map[id := w]
  {
  }

  /** Lists with one element. */
  lemma OneItem<V>(x: V)
    ensures [] + [x] == [x] && [x] + [] == [x] && [x][1..] == []
  {
  }

  /** A sync with nothing to sync. */
  lemma SyncsNothing(s: State)
    requires Reached(s.(poller := ListingForSync(CacheFailed))) && s.cache == map[]
    ensures Reached(s.(poller := Loading))
  {
    hide Leads;
    var a, b := s.(poller := ListingForSync(CacheFailed)), s.(poller := Syncing(CacheFailed, map[]));
    ThenSync(EMPTY, a, AListForSync(true), b, false);
    var c, d := s.(poller := ListingForSync(CacheCompleted)), s.(poller := Syncing(CacheCompleted, map[]));
    ThenSync(EMPTY, b, AEndSync, c, false);
    ThenSync(EMPTY, c, AListForSync(true), d, false);
    ThenSync(EMPTY, d, AEndSync, s.(poller := Loading), false);
  }

  lemma Fetched(job: EntityJob, total: nat, config: ExecutionConfig)
    requires job.status == DBQueuing && config.numberOfExecutions == total && config.numberOfExecutionsCompleted == 0
    requires Reached(OneJob(job, total).(poller := Loading))
    ensures Reached(OneJob(job, total).(poller := Filtering(map[job.id := job], map[job.id := config], [])))
  {
    hide Leads;
    var s, jobs := OneJob(job, total), map[job.id := job];
    var a, b := s.(poller := Loading), s.(poller := Fetching(jobs, {job.id}, map[]));
    assert ActiveJobs(jobs) == jobs;
    OneKey(job.id, job, job);
    OneKey(job.id, config, config);
    assert {job.id} - {job.id} == {};
    ThenFilter(EMPTY, a, ALoadActive(true), b, false);
    var c := s.(poller := Fetching(jobs, {}, map[job.id := config]));
    ThenFilter(EMPTY, b, AReadConfig(job.id, config), c, false);
    var d := s.(poller := Filtering(jobs, map[job.id := config], []));
    ThenFilter(EMPTY, c, AStartFilter, d, false);
  }

  lemma Filtered(job: EntityJob, total: nat, config: ExecutionConfig, now: int)
    requires Reached(OneJob(job, total).(poller := Filtering(map[job.id := job], map[job.id := config], [])))
    requires !config.Exhausted() && config.IsTimeToExecute(now)
    ensures Reached(OneJob(job, total).(poller := Enqueuing([job])))
  {
    hide Leads;
    var s, configs := OneJob(job, total), map[job.id := config];
    var a, b := s.(poller := Filtering(map[job.id := job], configs, [])),
      s.(poller := Filtering(map[], configs, [job]));
    OneKey(job.id, job, job);
    OneItem(job);
    ThenFilter(EMPTY, a, AFilterJob(job.id, now), b, false);
    var c := s.(poller := Enqueuing([job]));
    ThenEnqueue(EMPTY, b, AStartEnqueue, c, false);
  }

  lemma Cached(job: EntityJob, total: nat)
    requires Reached(OneJob(job, total).(poller := Enqueuing([job])))
    ensures Reached(OneJob(job, total).(poller := Pushing(job, []), cache := map[job.id := NewEntry(job)]))
  {
    hide Leads, NewEntry;
    var s := OneJob(job, total);
    var c, d := s.(poller := Enqueuing([job])), s.(poller := Pushing(job, []), cache := map[job.id := NewEntry(job)]);
    OneKey(job.id, NewEntry(job), NewEntry(job));
    OneItem(job);
    ThenEnqueue(EMPTY, c, AAddEntry(true), d, false);
  }

  lemma Enqueued(job: EntityJob, total: nat)
    requires Reached(OneJob(job, total).(poller := Enqueuing([job])))
    ensures Reached(Queued(job, total))
  {
    hide Leads, NewEntry;
    Cached(job, total);
    var d := OneJob(job, total).(poller := Pushing(job, []), cache := map[job.id := NewEntry(job)]);
    OneItem(job);
    var e := Queued(job, total).(poller := Enqueuing([]));
    ThenEnqueue(EMPTY, d, APush(true), e, false);
    ThenEnqueue(EMPTY, e, AEndPass, Queued(job, total), false);
  }

  /** The next pass asks about the new entry and finds the zero hash. */
  lemma Judged(job: EntityJob, total: nat)
    requires Reached(Queued(job, total))
    ensures Reached(Queued(job, total).(poller := FailingEntry(map[], Some(job.chainID), job.id, EMPTY_HASH_MSG)))
  {
    hide Leads;
    var s, todo := Queued(job, total), map[job.id := NewEntry(job)];
    OneKey(job.id, NewEntry(job), NewEntry(job));
    assert WithStatus(todo, CachePending) == todo && OnChain(todo, job.chainID) == {job.id};
    var a := s.(poller := Receipts(todo, None));
    ThenReceipt(EMPTY, s, AListPending(true), a, false);
    var b := s.(poller := Receipts(todo, Some(job.chainID)));
    ThenReceipt(EMPTY, a, AOpenChain(job.chainID, true), b, false);
    var c := s.(poller := FailingEntry(map[], Some(job.chainID), job.id, EMPTY_HASH_MSG));
    ThenReceipt(EMPTY, b, ACheckReceipt(job.id, Missing), c, false);
  }

  lemma Condemned(job: EntityJob, total: nat)
    requires Reached(Queued(job, total).(poller := FailingEntry(map[], Some(job.chainID), job.id, EMPTY_HASH_MSG)))
    ensures Reached(Queued(job, total).(poller := ListingForSync(CacheFailed),
                                        cache := map[job.id := FailedEntry(job)]))
  {
    hide Leads;
    var s := Queued(job, total);
    var c := s.(poller := FailingEntry(map[], Some(job.chainID), job.id, EMPTY_HASH_MSG));
    var failed := map[job.id := FailedEntry(job)];
    OneKey(job.id, NewEntry(job), failed[job.id]);
    var d := s.(poller := Receipts(map[], Some(job.chainID)), cache := failed);
    ThenReceipt(EMPTY, c, AFailEntry(true), d, false);
    ThenReceipt(EMPTY, d, AEndReceipts, s.(poller := ListingForSync(CacheFailed), cache := failed), false);
  }

  /** The job is recorded as failed, and its copy is still queued. */
  ghost function RecordedFailed(job: EntityJob, total: nat): State {
    var entry := FailedEntry(job);
    Queued(job, total).(cache := map[job.id := entry],
                        poller := DroppingSynced(CacheFailed, map[], job.id),
                        db := map[job.id := UpdatedRow(job, entry, CacheFailed)])
  }

  lemma SyncedAsFailed(job: EntityJob, total: nat)
    requires Reached(Queued(job, total).(poller := ListingForSync(CacheFailed),
                                         cache := map[job.id := FailedEntry(job)]))
    ensures Reached(RecordedFailed(job, total))
  {
    hide Leads;
    var entry := FailedEntry(job);
    var s := Queued(job, total).(cache := map[job.id := entry]);
    var a, b := s.(poller := ListingForSync(CacheFailed)), s.(poller := Syncing(CacheFailed, map[job.id := entry]));
    assert WithStatus(s.cache, CacheFailed) == s.cache;
    OneKey(job.id, entry, entry);
    OneKey(job.id, job, UpdatedRow(job, entry, CacheFailed));
    ThenSync(EMPTY, a, AListForSync(true), b, false);
    ThenSync(EMPTY, b, AUpdateRow(job.id, true), RecordedFailed(job, total), false);
  }

  lemma FailedIsUnsent(job: EntityJob, total: nat)
    ensures var t := RecordedFailed(job, total); t.queue == [job] && Unsent(t, job.id)
  {
    assert RecordedFailed(job, total).queue[0].id == job.id;
  }

  /**
   * For any job that falls due, a run without any fault records it as failed while its copy is
   * still queued: the worker only has to be slower than the next poll.
   */
  lemma FailedWhileQueued(job: EntityJob, config: ExecutionConfig, now: int)
    requires job.status == DBQueuing && job.errMsg.None?
    requires config.numberOfExecutionsCompleted == 0 && !config.Exhausted() && config.IsTimeToExecute(now)
    ensures var t := RecordedFailed(job, config.numberOfExecutions);
            Reached(t) && t.db.Keys == {job.id} && t.db[job.id].status == DBFailed && Unsent(t, job.id)
  {
    hide Reached, Queued;
    var total := config.numberOfExecutions;
    RegisteredAndIdle(job, total);
    SyncsNothing(OneJob(job, total));
    Fetched(job, total, config);
    Filtered(job, total, config, now);
    Enqueued(job, total);
    Judged(job, total);
    Condemned(job, total);
    SyncedAsFailed(job, total);
    FailedIsUnsent(job, total);
  }

  /** The worker has taken the copy of the failed job and sent it. */
  ghost function SentAnyway(job: EntityJob, total: nat, hash: Hash): State {
    RecordedFailed(job, total).(
      queue := [], dequeued := [job], worker := Sent(job, hash),
      ledger := map[job.id := Ledger(total, 0, 0, 1, hash)], issued := map[hash := SentOperation(job.id, job.chainID)])
  }

  lemma CopyIsSent(job: EntityJob, total: nat, hash: Hash)
    requires hash != ZERO_HASH
    ensures Leads(RecordedFailed(job, total), SentAnyway(job, total, hash), false)
  {
    hide Leads, UpdatedRow, FailedEntry;
    var s, t := RecordedFailed(job, total), SentAnyway(job, total, hash);
    var a := s.(queue := [], worker := Running(job), dequeued := [job]);
    OneItem(job);
    OneKey(hash, SentOperation(job.id, job.chainID), SentOperation(job.id, job.chainID));
    OneKey(job.id, s.ledger[job.id], t.ledger[job.id]);
    StaysPut(s, false);
    ThenWorker(s, s, ADequeue(true), a, false);
    ThenWorker(s, a, ASendAccepted(hash), t, false);
  }

  /** A reached state ends a run, so the theorems on runs speak of it. */
  lemma ReachedEndsRun(t: State) returns (run: seq<State>)
    requires Reached(t)
    ensures IsRun(run) && run[|run| - 1] == t
  {
    FaultsMayStayAway(EMPTY, t);
    run := RunGoesOn([EMPTY], 0, t);
  }

  /**
   * "A job recorded as failed was not sent and will not be" fails for every job that falls due:
   * a run without faults records it as failed before any attempt, then sends it, and the
   * bundler accepts it, with the row still failed.
   */
  lemma FailedYetSent(job: EntityJob, config: ExecutionConfig, now: int, hash: Hash) returns (run: seq<State>, i: nat)
    requires job.status == DBQueuing && job.errMsg.None? && hash != ZERO_HASH
    requires config.numberOfExecutionsCompleted == 0 && !config.Exhausted() && config.IsTimeToExecute(now)
    ensures IsRun(run) && i < |run| && Reached(run[i]) && Leads(run[i], run[|run| - 1], false)
    ensures job.id in run[i].db && run[i].db[job.id].status == DBFailed
    ensures job.id in run[i].ledger && run[i].ledger[job.id].sends == 0
    ensures var t := run[|run| - 1];
            && job.id in t.db && t.db[job.id].status == DBFailed && job.id in t.ledger && t.ledger[job.id].sends == 1
            && hash in t.issued && t.issued[hash] == SentOperation(job.id, job.chainID)
  {
    var total := config.numberOfExecutions;
    var s, t := RecordedFailed(job, total), SentAnyway(job, total, hash);
    hide Leads, IsRun;
    FailedWhileQueued(job, config, now);
    CopyIsSent(job, total, hash);
    FaultsMayStayAway(s, t);
    var before := ReachedEndsRun(s);
    i := |before| - 1;
    run := RunGoesOn(before, i, t);
  }
}
