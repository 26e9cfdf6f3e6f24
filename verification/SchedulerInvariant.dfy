/** The inductive invariant of the scheduler protocol, stated job by job. */
module SchedulerInvariant {
  import opened Wrappers
  import opened Jobs
  import opened JobCacheEntries
  import opened SchedulerProtocol

  /** How many elements of a queue or list are about this job. */
  function Copies(q: seq<EntityJob>, id: JobId): nat {
    if q == [] then 0 else (if q[0].id == id then 1 else 0) + Copies(q[1..], id)
  }

  lemma {:induction false} CopiesAppend(q: seq<EntityJob>, job: EntityJob, id: JobId)
    ensures Copies(q + [job], id) == Copies(q, id) + if job.id == id then 1 else 0
  {
    if q == [] {
      assert [] + [job] == [job];
    } else {
      assert (q + [job])[1..] == q[1..] + [job];
      CopiesAppend(q[1..], job, id);
    }
  }

  lemma CopiesLast(q: seq<EntityJob>, id: JobId)
    requires q != []
    ensures Copies(q, id) == Copies(q[..|q| - 1], id) + if q[|q| - 1].id == id then 1 else 0
  {
    assert q == q[..|q| - 1] + [q[|q| - 1]];
    CopiesAppend(q[..|q| - 1], q[|q| - 1], id);
  }

  lemma {:induction false} CopiesMember(q: seq<EntityJob>, x: EntityJob)
    requires x in q
    ensures Copies(q, x.id) > 0
  {
    if q[0] != x {
      CopiesMember(q[1..], x);
    }
  }

  ghost predicate WithWorker(s: State, id: JobId) {
    !s.worker.Waiting? && s.worker.job.id == id
  }

  /** Copies of the job that can still be sent or still write to the cache. */
  ghost function Outstanding(s: State, id: JobId): nat {
    Copies(s.queue, id) + if WithWorker(s, id) then 1 else 0
  }

  ghost predicate Unsent(s: State, id: JobId) {
    Copies(s.queue, id) > 0 || (s.worker.Running? && s.worker.job.id == id)
  }

  /** Executions the chain has added since registration. */
  ghost function Credit(s: State, id: JobId): int
    requires id in s.ledger
  {
    s.ledger[id].completed - s.ledger[id].start
  }

  /** Executions that were still to be done at registration. */
  ghost function Room(s: State, id: JobId): int
    requires id in s.ledger
  {
    s.ledger[id].total - s.ledger[id].start
  }

  ghost predicate Succeeded(s: State, hash: Hash) {
    hash in s.mined && s.mined[hash]
  }

  /** hash is the answer to the latest send of the job, made on the job's chain. */
  ghost predicate LatestHash(s: State, id: JobId, hash: Hash)
    requires id in s.db && id in s.ledger
  {
    && s.ledger[id].lastHash == hash
    && hash in s.issued && s.issued[hash] == SentOperation(id, s.db[id].chainID)
    && s.ledger[id].sends <= Credit(s, id) + if Succeeded(s, hash) then 0 else 1
  }

  /** The chain has counted all executions. */
  ghost predicate Finished(s: State, id: JobId)
    requires id in s.ledger
  {
    s.ledger[id].completed >= s.ledger[id].total
  }

  ghost predicate EntryOk(s: State, id: JobId)
    requires id in s.db && id in s.ledger && id in s.cache
  {
    var e, row := s.cache[id], s.db[id];
    && e.jobID == id
    && match e.status {
         case CachePending =>
           && row.status == DBQueuing && e.chainID == row.chainID
           && (e.userOpHash != ZERO_HASH ==> Outstanding(s, id) == 0 && LatestHash(s, id, e.userOpHash))
         case CacheFailed => row.status != DBCompleted
         case CacheCompleted => row.status != DBFailed && Outstanding(s, id) == 0 && Finished(s, id)
       }
  }

  ghost predicate CopiesOk(s: State, id: JobId)
    requires id in s.db && id in s.ledger
  {
    && Outstanding(s, id) <= 1
    && (Outstanding(s, id) > 0 ==> id in s.cache || s.db[id].status == DBFailed)
    && (s.db[id].status == DBCompleted ==> Outstanding(s, id) == 0 && Finished(s, id))
  }

  /** A hash, unless zero, was issued for the job. */
  ghost predicate Owns(s: State, id: JobId, hash: Hash) {
    hash != ZERO_HASH ==> hash in s.issued && s.issued[hash].id == id
  }

  ghost predicate SendsOk(s: State, id: JobId)
    requires id in s.db && id in s.ledger
  {
    var sends := s.ledger[id].sends;
    && 0 <= Credit(s, id)
    && (sends == 0 || sends <= Room(s, id)) && sends <= Credit(s, id) + 1
    && (Unsent(s, id) ==> sends < Room(s, id) && sends <= Credit(s, id))
    && (s.worker.Sent? && s.worker.job.id == id && s.worker.hash != ZERO_HASH ==> LatestHash(s, id, s.worker.hash))
    && (id !in s.cache && s.db[id].status == DBQueuing ==> sends <= Credit(s, id))
    && Owns(s, id, s.ledger[id].lastHash)
  }

  /** The job may be cached and enqueued: nothing else holds it and it has executions left. */
  ghost predicate Free(s: State, id: JobId)
    requires id in s.db && id in s.ledger
  {
    && s.db[id].status == DBQueuing && Outstanding(s, id) == 0
    && s.ledger[id].sends < Room(s, id) && s.ledger[id].sends <= Credit(s, id)
  }

  /** A snapshot entry of the receipt pass against the live entry. */
  ghost predicate PendingSnapshotOk(s: State, id: JobId, e: JobCache)
    requires id in s.db
  {
    && e.jobID == id && e.status == CachePending
    && s.db[id].status == DBQueuing && e.chainID == s.db[id].chainID
    && id in s.cache && s.cache[id].status != CacheCompleted
    && (e.userOpHash != ZERO_HASH ==> s.cache[id] == e)
  }

  ghost predicate SettledSnapshotOk(s: State, id: JobId, status: CacheJobStatus) {
    id in s.cache && s.cache[id].status == status
  }

  ghost predicate ConfigOk(s: State, id: JobId, config: ExecutionConfig)
    requires id in s.ledger
  {
    && config.numberOfExecutions == s.ledger[id].total
    && config.numberOfExecutionsCompleted <= s.ledger[id].completed
    && (id in s.cache || s.ledger[id].sends <= config.numberOfExecutionsCompleted - s.ledger[id].start)
  }

  ghost predicate LoadedOk(s: State, id: JobId, jobs: map<JobId, EntityJob>, configs: Configs)
    requires id in s.db && id in s.ledger
  {
    id in jobs ==>
      && jobs[id].id == id && SameJob(jobs[id], s.db[id]) && s.db[id].status == DBQueuing
      && (id in configs ==> ConfigOk(s, id, configs[id]))
  }

  ghost predicate ReadyOk(s: State, id: JobId, ready: seq<EntityJob>)
    requires id in s.db && id in s.ledger
  {
    Copies(ready, id) > 0 ==> Copies(ready, id) == 1 && id !in s.cache && Free(s, id)
  }

  ghost predicate PollerOk(s: State, id: JobId)
    requires id in s.db && id in s.ledger
  {
    match s.poller
    case Resting => true
    case Receipts(todo, _) => id in todo ==> PendingSnapshotOk(s, id, todo[id])
    case DroppingEntry(todo, _, dropped) =>
      && (id in todo ==> id != dropped && PendingSnapshotOk(s, id, todo[id]))
      && (id == dropped ==>
            id in s.cache && s.cache[id].status == CachePending && s.cache[id].userOpHash != ZERO_HASH
            && Succeeded(s, s.cache[id].userOpHash))
    case FailingEntry(todo, _, failed, _) =>
      && (id in todo ==> id != failed && PendingSnapshotOk(s, id, todo[id]))
      && (id == failed ==> s.db[id].status == DBQueuing && id in s.cache && s.cache[id].status != CacheCompleted)
    case ListingForSync(_) => true
    case Syncing(status, todo) => id in todo ==> todo[id].jobID == id && SettledSnapshotOk(s, id, status)
    case DroppingSynced(status, todo, dropped) =>
      && (id in todo ==> id != dropped && todo[id].jobID == id && SettledSnapshotOk(s, id, status))
      && (id == dropped ==> SettledSnapshotOk(s, id, status) && s.db[id].status == DBStatusOf(status))
    case Loading => true
    case Fetching(jobs, _, configs) => LoadedOk(s, id, jobs, configs)
    case Filtering(jobs, configs, ready) =>
      && LoadedOk(s, id, jobs, configs) && ReadyOk(s, id, ready)
      && (id in jobs ==> Copies(ready, id) == 0)
    case MarkingCompleted(jobs, configs, ready, marked) =>
      && LoadedOk(s, id, jobs, configs) && ReadyOk(s, id, ready)
      && (id in jobs ==> Copies(ready, id) == 0 && id != marked)
      && (id == marked ==>
            Copies(ready, id) == 0 && id !in s.cache && s.db[id].status == DBQueuing && Finished(s, id))
    case Enqueuing(ready) => ReadyOk(s, id, ready)
    case Pushing(job, ready) =>
      && ReadyOk(s, id, ready)
      && (id == job.id ==>
            Copies(ready, id) == 0 && Free(s, id) && id in s.cache && s.cache[id] == NewEntry(job))
    case Undoing(job, ready) =>
      && ReadyOk(s, id, ready)
      && (id == job.id ==>
            Copies(ready, id) == 0 && Free(s, id) && id in s.cache && s.cache[id] == NewEntry(job))
  }

  ghost predicate RecordOk(s: State, id: JobId)
    requires id in s.db && id in s.ledger
  {
    && s.db[id].id == id
    && (id in s.cache ==> EntryOk(s, id))
    && CopiesOk(s, id)
    && SendsOk(s, id)
  }

  ghost predicate JobOk(s: State, id: JobId)
    requires id in s.db && id in s.ledger
  {
    RecordOk(s, id) && PollerOk(s, id)
  }

  /** x is a registered job, as registered. */
  ghost predicate Known(db: map<JobId, EntityJob>, x: EntityJob) {
    x.id in db && SameJob(x, db[x.id])
  }

  ghost predicate AllKnown(db: map<JobId, EntityJob>, q: seq<EntityJob>) {
    forall x :: x in q ==> Known(db, x)
  }

  /** Everything the poller carries is about registered jobs. */
  ghost predicate PollerKnows(s: State) {
    match s.poller
    case Resting => true
    case Receipts(todo, _) => todo.Keys <= s.db.Keys
    case DroppingEntry(todo, _, id) => todo.Keys <= s.db.Keys && id in s.db
    case FailingEntry(todo, _, id, _) => todo.Keys <= s.db.Keys && id in s.db
    case ListingForSync(status) => status != CachePending
    case Syncing(status, todo) => todo.Keys <= s.db.Keys && status != CachePending
    case DroppingSynced(status, todo, id) => todo.Keys <= s.db.Keys && id in s.db && status != CachePending
    case Loading => true
    case Fetching(jobs, _, _) => jobs.Keys <= s.db.Keys
    case Filtering(jobs, _, ready) => jobs.Keys <= s.db.Keys && AllKnown(s.db, ready)
    case MarkingCompleted(jobs, _, ready, id) =>
      jobs.Keys <= s.db.Keys && id in s.db && AllKnown(s.db, ready)
    case Enqueuing(ready) => AllKnown(s.db, ready)
    case Pushing(job, ready) => Known(s.db, job) && AllKnown(s.db, ready)
    case Undoing(job, ready) => Known(s.db, job) && AllKnown(s.db, ready)
  }

  ghost predicate Shape(s: State) {
    && s.ledger.Keys == s.db.Keys && s.cache.Keys <= s.db.Keys
    && AllKnown(s.db, s.queue)
    && (!s.worker.Waiting? ==> Known(s.db, s.worker.job))
    && (forall h :: h in s.issued ==> s.issued[h].id in s.db)
    && ZERO_HASH !in s.issued && s.mined.Keys <= s.issued.Keys
    && PollerKnows(s)
  }

  ghost predicate Inv(s: State) {
    Shape(s) && forall id :: id in s.db ==> JobOk(s, id)
  }

  /** A list about registered jobs has no copy of an unregistered one. */
  lemma {:induction false} NoCopiesOfStranger(s: State, q: seq<EntityJob>, id: JobId)
    requires id !in s.db && AllKnown(s.db, q)
    ensures Copies(q, id) == 0
  {
    if q != [] {
      assert q[0] in q;
      NoCopiesOfStranger(s, q[1..], id);
    }
  }

  // ---- steps of the worker and the environment: the poller's facts are stable under them ----

  /** A step beside the poller touches only a job that is outstanding, and only so far. */
  ghost predicate Undisturbed(s: State, t: State, id: JobId)
    requires id in s.db && id in s.ledger && id in t.db && id in t.ledger
  {
    var l, m := s.ledger[id], t.ledger[id];
    && t.poller == s.poller && t.db[id] == s.db[id]
    && l.total == m.total && l.start == m.start && l.completed <= m.completed
    && (Outstanding(s, id) == 0 ==>
          && Outstanding(t, id) == 0 && l.sends == m.sends
          && (id in s.cache <==> id in t.cache)
          && (id in s.cache ==> t.cache[id] == s.cache[id]))
    && (id in s.cache ==>
          && id in t.cache
          && (t.cache[id].status == s.cache[id].status || t.cache[id].status == CacheFailed)
          && (Succeeded(s, s.cache[id].userOpHash) ==> Succeeded(t, s.cache[id].userOpHash)))
  }

  lemma PollerUndisturbed(s: State, t: State, id: JobId)
    requires id in s.db && id in s.ledger && id in t.db && id in t.ledger
    requires PollerKnows(s) && RecordOk(s, id) && PollerOk(s, id) && Undisturbed(s, t, id)
    ensures PollerOk(t, id)
  {
  }

  lemma MineKeeps(s: State, hash: Hash, success: bool, t: State, id: JobId)
    requires Shape(s) && Mine(s, hash, success, t) && id in s.db && RecordOk(s, id)
    ensures id in t.db && id in t.ledger && RecordOk(t, id) && Undisturbed(s, t, id)
  {
  }

  lemma RegisterKeeps(s: State, a: Action, t: State, id: JobId)
    requires Shape(s) && EnvironmentStep(s, a, t) && (a.ARegister? || a.AChainProgress?) && id in s.db
             && RecordOk(s, id)
    ensures id in t.db && id in t.ledger && RecordOk(t, id) && Undisturbed(s, t, id)
  {
  }

  lemma Registered(s: State, job: EntityJob, total: nat, completed: nat, t: State)
    requires Shape(s) && Register(s, job, total, completed, t)
    ensures job.id in t.db && job.id in t.ledger && JobOk(t, job.id)
  {
    NoCopiesOfStranger(s, s.queue, job.id);
    match s.poller {
      case Filtering(_, _, ready) => NoCopiesOfStranger(s, ready, job.id);
      case MarkingCompleted(_, _, ready, _) => NoCopiesOfStranger(s, ready, job.id);
      case Enqueuing(ready) => NoCopiesOfStranger(s, ready, job.id);
      case Pushing(_, ready) => NoCopiesOfStranger(s, ready, job.id);
      case Undoing(_, ready) => NoCopiesOfStranger(s, ready, job.id);
      case _ =>
    }
  }

  lemma DequeueKeeps(s: State, decodes: bool, t: State, id: JobId)
    requires Shape(s) && Dequeue(s, decodes, t) && id in s.db && RecordOk(s, id)
    ensures id in t.db && id in t.ledger && RecordOk(t, id) && Undisturbed(s, t, id)
  {
    CopiesLast(s.queue, id);
  }

  lemma ExecuteKeeps(s: State, a: Action, t: State, id: JobId)
    requires Shape(s) && WorkerStep(s, a, t) && (a.AFailBeforeSend? || a.ASendRefused? || a.ASendAccepted?)
    requires id in s.db && RecordOk(s, id)
    ensures id in t.db && id in t.ledger && RecordOk(t, id) && Undisturbed(s, t, id)
  {
  }

  lemma RecordKeeps(s: State, a: Action, t: State, id: JobId)
    requires Shape(s) && WorkerStep(s, a, t) && (a.ARecordError? || a.ARecordHash?)
    requires id in s.db && RecordOk(s, id)
    ensures id in t.db && id in t.ledger && RecordOk(t, id) && Undisturbed(s, t, id)
  {
  }

  lemma EnvironmentKeeps(s: State, a: Action, t: State, id: JobId)
    requires Shape(s) && EnvironmentStep(s, a, t) && id in s.db && JobOk(s, id)
    ensures id in t.db && id in t.ledger && JobOk(t, id)
  {
    if a.AMine? { MineKeeps(s, a.hash, a.success, t, id); }
    else if a.ACrash? { return; }
    else { RegisterKeeps(s, a, t, id); }
    PollerUndisturbed(s, t, id);
  }

  lemma WorkerKeeps(s: State, a: Action, t: State, id: JobId)
    requires Shape(s) && WorkerStep(s, a, t) && id in s.db && JobOk(s, id)
    ensures id in t.db && id in t.ledger && JobOk(t, id)
  {
    if a.ADequeue? { DequeueKeeps(s, a.decodes, t, id); }
    else if a.ARecordError? { RecordKeeps(s, a, t, id); }
    else if a.ARecordHash? { RecordKeeps(s, a, t, id); }
    else { ExecuteKeeps(s, a, t, id); }
    PollerUndisturbed(s, t, id);
  }

  // ---- steps of the poller ----

  /** A step that only moves the poller leaves what is recorded about a job. */
  lemma MovingPollerKeepsRecord(s: State, t: State, id: JobId)
    requires t == s.(poller := t.poller) && id in s.db && id in s.ledger && RecordOk(s, id)
    ensures RecordOk(t, id)
  {
  }

  lemma ListsKeep(s: State, a: Action, t: State, id: JobId)
    requires Shape(s) && (ReceiptStep(s, a, t) || SyncStep(s, a, t)) && id in s.db && JobOk(s, id)
    requires a.AListPending? || a.AOpenChain? || a.AEndReceipts? || a.AListForSync? || a.AEndSync?
    ensures id in t.db && id in t.ledger && JobOk(t, id)
  {
    MovingPollerKeepsRecord(s, t, id);
  }

  lemma CheckReceiptKeeps(s: State, id: JobId, answer: ReceiptAnswer, t: State, k: JobId)
    requires Shape(s) && CheckReceipt(s, id, answer, t) && k in s.db && JobOk(s, k)
    requires id in s.db && PollerOk(s, id)
    ensures k in t.db && k in t.ledger && JobOk(t, k)
  {
    MovingPollerKeepsRecord(s, t, k);
  }

  lemma DropEntryKeeps(s: State, ok: bool, t: State, id: JobId)
    requires Shape(s) && DropEntry(s, ok, t) && id in s.db && JobOk(s, id)
    ensures id in t.db && id in t.ledger && JobOk(t, id)
  {
  }

  lemma FailEntryKeeps(s: State, ok: bool, t: State, id: JobId)
    requires Shape(s) && FailEntry(s, ok, t) && id in s.db && JobOk(s, id)
    ensures id in t.db && id in t.ledger && JobOk(t, id)
  {
  }

  lemma UpdateRowKeeps(s: State, id: JobId, ok: bool, t: State, k: JobId)
    requires Shape(s) && UpdateRow(s, id, ok, t) && k in s.db && JobOk(s, k)
    requires id in s.db && PollerOk(s, id)
    ensures k in t.db && k in t.ledger && JobOk(t, k)
  {
    hide AllKnown, Known;
  }

  lemma DropSyncedKeeps(s: State, ok: bool, t: State, id: JobId)
    requires Shape(s) && DropSynced(s, ok, t) && id in s.db && JobOk(s, id)
    ensures id in t.db && id in t.ledger && JobOk(t, id)
  {
  }

  lemma LoadKeeps(s: State, a: Action, t: State, id: JobId)
    requires Shape(s) && FilterStep(s, a, t) && id in s.db && JobOk(s, id)
    requires a.ALoadActive? || a.AReadConfig? || a.AAbortPass? || a.AStartFilter?
    ensures id in t.db && id in t.ledger && JobOk(t, id)
  {
    MovingPollerKeepsRecord(s, t, id);
  }

  lemma FilterSkips(s: State, id: JobId, t: State, k: JobId)
    requires s.poller.Filtering? && k in s.db && k in s.ledger && PollerOk(s, k)
    requires t == s.(poller := Filtering(s.poller.jobs - {id}, s.poller.configs, s.poller.ready))
    ensures PollerOk(t, k)
  {
  }

  lemma FilterMarks(s: State, id: JobId, t: State, k: JobId)
    requires s.poller.Filtering? && k in s.db && k in s.ledger && PollerOk(s, k)
    requires id in s.poller.jobs && id !in s.cache && id in s.poller.configs && s.poller.configs[id].Exhausted()
    requires t == s.(poller := MarkingCompleted(s.poller.jobs - {id}, s.poller.configs, s.poller.ready, id))
    ensures PollerOk(t, k)
  {
  }

  /** A job found due has executions left that no send has used, and nothing else holds it. */
  lemma FilterTakes(s: State, id: JobId, t: State, k: JobId)
    requires s.poller.Filtering? && k in s.db && k in s.ledger && JobOk(s, k)
    requires id in s.poller.jobs && id !in s.cache && id in s.poller.configs && !s.poller.configs[id].Exhausted()
    requires s.poller.jobs[id].id == id
    requires t == s.(poller := Filtering(s.poller.jobs - {id}, s.poller.configs, s.poller.ready + [s.poller.jobs[id]]))
    ensures PollerOk(t, k)
  {
    CopiesAppend(s.poller.ready, s.poller.jobs[id], k);
    assert t.poller.jobs == s.poller.jobs - {id};
  }

  lemma FilterJobKeeps(s: State, id: JobId, now: int, t: State, k: JobId)
    requires Shape(s) && FilterJob(s, id, now, t) && k in s.db && JobOk(s, k)
    requires id in s.db && PollerOk(s, id)
    ensures k in t.db && k in t.ledger && JobOk(t, k)
  {
    assert s.poller.jobs[id].id == id;
    MovingPollerKeepsRecord(s, t, k);
    if t.poller.MarkingCompleted? { FilterMarks(s, id, t, k); }
    else if t.poller.ready == s.poller.ready { FilterSkips(s, id, t, k); }
    else { FilterTakes(s, id, t, k); }
  }

  lemma MarkCompletedKeeps(s: State, ok: bool, t: State, id: JobId)
    requires Shape(s) && MarkCompleted(s, ok, t) && id in s.db && JobOk(s, id)
    ensures id in t.db && id in t.ledger && JobOk(t, id)
  {
  }

  lemma PassKeeps(s: State, a: Action, t: State, id: JobId)
    requires Shape(s) && EnqueueStep(s, a, t) && (a.AStartEnqueue? || a.AEndPass?) && id in s.db && JobOk(s, id)
    ensures id in t.db && id in t.ledger && JobOk(t, id)
  {
    MovingPollerKeepsRecord(s, t, id);
  }

  lemma AddEntryKeeps(s: State, ok: bool, t: State, id: JobId)
    requires Shape(s) && AddEntry(s, ok, t) && id in s.db && JobOk(s, id)
    ensures id in t.db && id in t.ledger && JobOk(t, id)
  {
    assert s.poller.ready[0] in s.poller.ready && Known(s.db, s.poller.ready[0]);
    hide AllKnown;
  }

  lemma PushKeeps(s: State, ok: bool, t: State, id: JobId)
    requires Shape(s) && Push(s, ok, t) && id in s.db && JobOk(s, id)
    ensures id in t.db && id in t.ledger && JobOk(t, id)
  {
    hide AllKnown, Known;
  }

  lemma UndoKeeps(s: State, ok: bool, t: State, id: JobId)
    requires Shape(s) && Undo(s, ok, t) && id in s.db && JobOk(s, id)
    ensures id in t.db && id in t.ledger && JobOk(t, id)
  {
  }

  // ---- every step keeps the invariant ----

  lemma ReceiptKeeps(s: State, a: Action, t: State, id: JobId)
    requires Shape(s) && ReceiptStep(s, a, t) && id in s.db && JobOk(s, id)
    requires a.ACheckReceipt? && a.id in s.db ==> PollerOk(s, a.id)
    ensures id in t.db && id in t.ledger && JobOk(t, id)
  {
    if a.ACheckReceipt? { CheckReceiptKeeps(s, a.id, a.answer, t, id); }
    else if a.ADropEntry? { DropEntryKeeps(s, a.ok, t, id); }
    else if a.AFailEntry? { FailEntryKeeps(s, a.ok, t, id); }
    else { ListsKeep(s, a, t, id); }
  }

  lemma SyncKeeps(s: State, a: Action, t: State, id: JobId)
    requires Shape(s) && SyncStep(s, a, t) && id in s.db && JobOk(s, id)
    requires a.AUpdateRow? && a.id in s.db ==> PollerOk(s, a.id)
    ensures id in t.db && id in t.ledger && JobOk(t, id)
  {
    if a.AUpdateRow? { UpdateRowKeeps(s, a.id, a.ok, t, id); }
    else if a.ADropSynced? { DropSyncedKeeps(s, a.ok, t, id); }
    else { ListsKeep(s, a, t, id); }
  }

  lemma FilterKeeps(s: State, a: Action, t: State, id: JobId)
    requires Shape(s) && FilterStep(s, a, t) && id in s.db && JobOk(s, id)
    requires a.AFilterJob? && a.id in s.db ==> PollerOk(s, a.id)
    ensures id in t.db && id in t.ledger && JobOk(t, id)
  {
    if a.AFilterJob? { FilterJobKeeps(s, a.id, a.now, t, id); }
    else if a.AMarkCompleted? { MarkCompletedKeeps(s, a.ok, t, id); }
    else { LoadKeeps(s, a, t, id); }
  }

  lemma EnqueueKeeps(s: State, a: Action, t: State, id: JobId)
    requires Shape(s) && EnqueueStep(s, a, t) && id in s.db && JobOk(s, id)
    ensures id in t.db && id in t.ledger && JobOk(t, id)
  {
    if a.AAddEntry? { AddEntryKeeps(s, a.ok, t, id); }
    else if a.APush? { PushKeeps(s, a.ok, t, id); }
    else if a.AUndo? { UndoKeeps(s, a.ok, t, id); }
    else { PassKeeps(s, a, t, id); }
  }

  lemma RegisterShape(s: State, job: EntityJob, total: nat, completed: nat, t: State)
    requires Shape(s) && Register(s, job, total, completed, t)
    ensures Shape(t)
  {
    assert forall x :: Known(s.db, x) ==> Known(t.db, x);
  }

  lemma EnvironmentShape(s: State, a: Action, t: State)
    requires Shape(s) && EnvironmentStep(s, a, t) && !a.ARegister?
    ensures Shape(t) && t.db == s.db
  {
  }

  lemma WorkerShape(s: State, a: Action, t: State)
    requires Shape(s) && WorkerStep(s, a, t)
    ensures Shape(t) && t.db == s.db
  {
    if a.ADequeue? { assert s.queue[|s.queue| - 1] in s.queue; }
  }

  lemma ReceiptShape(s: State, a: Action, t: State)
    requires Shape(s) && ReceiptStep(s, a, t)
    requires a.ACheckReceipt? && a.id in s.db ==> PollerOk(s, a.id)
    ensures Shape(t) && t.db == s.db
  {
    assert t == s.(poller := t.poller, cache := t.cache);
  }

  lemma UpdateRowShape(s: State, id: JobId, ok: bool, t: State)
    requires Shape(s) && UpdateRow(s, id, ok, t) && id in s.db && PollerOk(s, id)
    ensures Shape(t) && t.db.Keys == s.db.Keys
  {
    assert forall x :: Known(s.db, x) ==> Known(t.db, x);
  }

  lemma SyncShape(s: State, a: Action, t: State)
    requires Shape(s) && SyncStep(s, a, t) && !a.AUpdateRow?
    ensures Shape(t) && t.db == s.db
  {
  }

  lemma FilterJobShape(s: State, id: JobId, now: int, t: State)
    requires Shape(s) && FilterJob(s, id, now, t) && id in s.db && PollerOk(s, id)
    ensures Shape(t) && t.db == s.db
  {
    var job := s.poller.jobs[id];
    assert Known(s.db, job);
    assert t == s.(poller := t.poller);
    hide PollerOk;
    assert AllKnown(s.db, s.poller.ready + [job]);
    assert PollerKnows(t);
  }

  lemma FilterShape(s: State, a: Action, t: State)
    requires Shape(s) && FilterStep(s, a, t) && !a.AFilterJob?
    ensures Shape(t) && t.db == s.db
  {
  }

  lemma TailKnown(db: map<JobId, EntityJob>, q: seq<EntityJob>)
    requires AllKnown(db, q) && q != []
    ensures Known(db, q[0]) && AllKnown(db, q[1..])
  {
    assert q[0] in q && forall x :: x in q[1..] ==> x in q;
  }

  lemma AddEntryShape(s: State, ok: bool, t: State)
    requires Shape(s) && AddEntry(s, ok, t)
    ensures Shape(t) && t.db == s.db
  {
    TailKnown(s.db, s.poller.ready);
  }

  lemma PushShape(s: State, ok: bool, t: State)
    requires Shape(s) && Push(s, ok, t)
    ensures Shape(t) && t.db == s.db
  {
  }

  lemma EnqueueShape(s: State, a: Action, t: State)
    requires Shape(s) && EnqueueStep(s, a, t)
    ensures Shape(t) && t.db == s.db
  {
    if a.AAddEntry? { AddEntryShape(s, a.ok, t); }
    else if a.APush? { PushShape(s, a.ok, t); }
    else { assert t == s.(poller := t.poller, cache := t.cache) && t.cache.Keys <= s.cache.Keys; }
  }

  lemma EnvironmentInv(s: State, a: Action, t: State)
    requires Inv(s) && EnvironmentStep(s, a, t)
    ensures Inv(t)
  {
    if a.ARegister? {
      RegisterShape(s, a.job, a.total, a.completed, t);
      Registered(s, a.job, a.total, a.completed, t);
    } else {
      EnvironmentShape(s, a, t);
    }
    forall id | id in t.db ensures JobOk(t, id) {
      if id in s.db { EnvironmentKeeps(s, a, t, id); }
    }
  }

  lemma WorkerInv(s: State, a: Action, t: State)
    requires Inv(s) && WorkerStep(s, a, t)
    ensures Inv(t)
  {
    WorkerShape(s, a, t);
    forall id | id in t.db ensures JobOk(t, id) { WorkerKeeps(s, a, t, id); }
  }

  lemma ReceiptInv(s: State, a: Action, t: State)
    requires Inv(s) && ReceiptStep(s, a, t)
    ensures Inv(t)
  {
    if a.ACheckReceipt? && a.id in s.db { assert JobOk(s, a.id); }
    ReceiptShape(s, a, t);
    forall id | id in t.db ensures JobOk(t, id) { ReceiptKeeps(s, a, t, id); }
  }

  lemma SyncInv(s: State, a: Action, t: State)
    requires Inv(s) && SyncStep(s, a, t)
    ensures Inv(t)
  {
    if a.AUpdateRow? {
      assert JobOk(s, a.id);
      UpdateRowShape(s, a.id, a.ok, t);
    } else {
      SyncShape(s, a, t);
    }
    forall id | id in t.db ensures JobOk(t, id) { SyncKeeps(s, a, t, id); }
  }

  lemma FilterInv(s: State, a: Action, t: State)
    requires Inv(s) && FilterStep(s, a, t)
    ensures Inv(t)
  {
    if a.AFilterJob? {
      assert JobOk(s, a.id);
      FilterJobShape(s, a.id, a.now, t);
    } else {
      FilterShape(s, a, t);
    }
    forall id | id in t.db ensures JobOk(t, id) { FilterKeeps(s, a, t, id); }
  }

  lemma EnqueueInv(s: State, a: Action, t: State)
    requires Inv(s) && EnqueueStep(s, a, t)
    ensures Inv(t)
  {
    EnqueueShape(s, a, t);
    forall id | id in t.db ensures JobOk(t, id) { EnqueueKeeps(s, a, t, id); }
  }

  /** Every step, of any kind and with any fault, keeps the invariant. */
  lemma NextKeepsInv(s: State, t: State)
    requires Inv(s) && Next(s, t)
    ensures Inv(t)
  {
    var a :| Step(s, a, t);
    if EnvironmentStep(s, a, t) { EnvironmentInv(s, a, t); }
    else if WorkerStep(s, a, t) { WorkerInv(s, a, t); }
    else if ReceiptStep(s, a, t) { ReceiptInv(s, a, t); }
    else if SyncStep(s, a, t) { SyncInv(s, a, t); }
    else if FilterStep(s, a, t) { FilterInv(s, a, t); }
    else { EnqueueInv(s, a, t); }
  }

  lemma {:induction false} RunKeepsInv(run: seq<State>, i: nat)
    requires IsRun(run) && i < |run|
    ensures Inv(run[i])
  {
    if i > 0 {
      RunKeepsInv(run, i - 1);
      assert Next(run[i - 1], run[i - 1 + 1]);
      NextKeepsInv(run[i - 1], run[i]);
    }
  }
}
