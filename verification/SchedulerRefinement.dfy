/**
 * The quiet pass of PollPass is a run of the scheduler protocol: step by step the poller reaches
 * exactly the stores that the whole-store specification gives.
 */
module SchedulerRefinement {
  import opened Wrappers
  import opened Jobs
  import opened JobCacheEntries
  import opened ExecutionConfigs
  import opened PollPass
  import opened Execution
  import opened Scheduler
  import opened SchedulerPaths
  import P = SchedulerProtocol

  type State = P.State

  function Payloads(q: seq<EntityJob>): seq<Payload> {
    seq(|q|, i requires 0 <= i < |q| => EncodeJob(q[i]))
  }

  ghost function StoresOf(s: State): Stores {
    Stores(s.db, s.cache, Payloads(s.queue))
  }

  // ---- receipts ----

  /** A receipt that is found tells what the chain did with the operation. */
  ghost predicate ReceiptAgrees(env: Environment, s: State, e: JobCache) {
    var answer := env.receipt(e.chainID, e.userOpHash);
    answer.Found? && e.userOpHash != ZERO_HASH ==> e.userOpHash in s.mined && s.mined[e.userOpHash] == answer.success
  }

  ghost function Receiving(s: State, todo: Entries, chain: Option<int>, cache: Entries): State {
    s.(poller := P.Receipts(todo, chain), cache := cache)
  }

  /** One entry is judged as its verdict says. */
  lemma CheckOne(start: State, s: State, env: Environment, todo: Entries, id: JobId, cache: Entries)
    requires id in todo && todo[id].jobID == id && todo[id].status == CachePending && env.bundler(todo[id].chainID)
    requires ReceiptAgrees(env, s, todo[id])
    requires Leads(start, Receiving(s, todo, Some(todo[id].chainID), cache), true)
    ensures Leads(start, Receiving(s, todo - {id}, Some(todo[id].chainID),
                                   Apply(VerdictOf(env, todo[id]), cache, id)), true)
  {
    hide Leads;
    var e, rest, chain := todo[id], todo - {id}, Some(todo[id].chainID);
    var answer, v := env.receipt(e.chainID, e.userOpHash), VerdictOf(env, e);
    var a, d := Receiving(s, todo, chain, cache), Receiving(s, rest, chain, Apply(v, cache, id));
    var b := a.(poller := match v
                          case Keep => P.Receipts(rest, chain)
                          case Drop => P.DroppingEntry(rest, chain, id)
                          case Fail(msg) => P.FailingEntry(rest, chain, id, msg));
    assert P.CheckReceipt(a, id, answer, b);
    ThenReceipt(start, a, P.ACheckReceipt(id, answer), b, true);
    if v.Drop? {
      ThenReceipt(start, b, P.ADropEntry(true), d, true);
    } else if v.Fail? {
      ThenReceipt(start, b, P.AFailEntry(true), d, true);
    }
  }

  /** The entries of a list still to be judged. */
  ghost predicate Listed(m: Entries, todo: Entries) {
    forall id :: id in todo ==> id in m && todo[id] == m[id] && m[id].status == CachePending
  }

  ghost function Judged(m: Entries, todo: Entries): set<JobId> {
    WithStatus(m, CachePending).Keys - todo.Keys
  }

  lemma JudgeOne(env: Environment, m: Entries, todo: Entries, id: JobId)
    requires Listed(m, todo) && id in todo
    ensures Settled(env, m, Judged(m, todo - {id}))
            == Apply(VerdictOf(env, m[id]), Settled(env, m, Judged(m, todo)), id)
    ensures Listed(m, todo - {id}) && (todo - {id}).Keys < todo.Keys
  {
    assert (todo - {id}).Keys == todo.Keys - {id};
    assert Judged(m, todo - {id}) == Judged(m, todo) + {id};
    SettleOne(env, m, Judged(m, todo), id);
  }

  lemma SkipChain(env: Environment, m: Entries, todo: Entries, chainID: int)
    requires Listed(m, todo) && !env.bundler(chainID) && P.OnChain(todo, chainID) != {}
    ensures var rest := todo - P.OnChain(todo, chainID);
            && Settled(env, m, Judged(m, rest)) == Settled(env, m, Judged(m, todo))
            && Listed(m, rest) && rest.Keys < todo.Keys
  {
    var skipped := P.OnChain(todo, chainID);
    var id :| id in skipped;
    assert id in todo.Keys && id !in (todo - skipped).Keys;
    assert Judged(m, todo - skipped) == Judged(m, todo) + skipped;
    SettleNothing(env, m, Judged(m, todo), skipped);
  }

  lemma AllJudged(env: Environment, m: Entries)
    ensures Settled(env, m, Judged(m, map[])) == AfterReceipts(env, m)
    ensures Listed(m, WithStatus(m, CachePending)) && Settled(env, m, Judged(m, WithStatus(m, CachePending))) == m
  {
    var pending := WithStatus(m, CachePending);
    assert Judged(m, pending) == {};
    SettledNone(env, m);
    SettleNothing(env, m, Judged(m, map[]), m.Keys - pending.Keys);
    assert Judged(m, map[]) + (m.Keys - pending.Keys) == m.Keys;
  }

  ghost predicate Open(todo: Entries, chain: Option<int>) {
    chain.Some? && P.OnChain(todo, chain.value) != {}
  }

  lemma {:induction false} ReceiptsRun(start: State, s: State, env: Environment, m: Entries, todo: Entries,
                                       chain: Option<int>)
    requires KeysMatch(m) && Listed(m, todo) && (chain.Some? ==> env.bundler(chain.value))
    requires forall id :: id in m ==> ReceiptAgrees(env, s, m[id])
    requires Leads(start, Receiving(s, todo, chain, Settled(env, m, Judged(m, todo))), true)
    ensures Leads(start, s.(poller := P.ListingForSync(CacheFailed), cache := AfterReceipts(env, m)), true)
    decreases todo.Keys, if Open(todo, chain) then 0 else 1
  {
    hide Leads, Settled, Judged, AfterReceipts, ReceiptAgrees, VerdictOf;
    var cache := Settled(env, m, Judged(m, todo));
    var here := Receiving(s, todo, chain, cache);
    if todo == map[] {
      AllJudged(env, m);
      ThenReceipt(start, here, P.AEndReceipts, here.(poller := P.ListingForSync(CacheFailed)), true);
    } else if Open(todo, chain) {
      var id :| id in P.OnChain(todo, chain.value);
      CheckOne(start, s, env, todo, id, cache);
      JudgeOne(env, m, todo, id);
      ReceiptsRun(start, s, env, m, todo - {id}, chain);
    } else {
      var id :| id in todo;
      var next := todo[id].chainID;
      assert id in P.OnChain(todo, next);
      if env.bundler(next) {
        ThenReceipt(start, here, P.AOpenChain(next, true), Receiving(s, todo, Some(next), cache), true);
        ReceiptsRun(start, s, env, m, todo, Some(next));
      } else {
        SkipChain(env, m, todo, next);
        var rest := todo - P.OnChain(todo, next);
        ThenReceipt(start, here, P.AOpenChain(next, false), Receiving(s, rest, None, cache), true);
        ReceiptsRun(start, s, env, m, rest, None);
      }
    }
  }

  // ---- sync ----

  ghost function SyncingAt(s: State, status: CacheJobStatus, todo: Entries,
                           jobs: map<JobId, EntityJob>, m: Entries, done: set<JobId>): State {
    s.(poller := P.Syncing(status, todo), db := Synced(jobs, m, done), cache := m - done)
  }

  /** A row not yet synced is still the old row. */
  lemma SyncedKeepsKeys(jobs: map<JobId, EntityJob>, m: Entries, done: set<JobId>, id: JobId)
    requires id !in done
    ensures (id in Synced(jobs, m, done) <==> id in jobs) && (id in jobs ==> Synced(jobs, m, done)[id] == jobs[id])
  {
  }

  /** One entry is written to its row and then removed. */
  lemma SyncStepRun(start: State, s: State, status: CacheJobStatus, todo: Entries, id: JobId,
                    jobs: map<JobId, EntityJob>, m: Entries, done: set<JobId>)
    requires id in todo && id !in done && id in m && todo[id] == m[id] && m[id].status == status && m[id].jobID == id
    requires Leads(start, SyncingAt(s, status, todo, jobs, m, done), true)
    ensures Leads(start, SyncingAt(s, status, todo - {id}, jobs, m, done + {id}), true)
  {
    hide Leads, Synced, WithOutcome;
    SyncOne(jobs, m, done, id);
    RemoveOne(m, done, id);
    SyncedKeepsKeys(jobs, m, done, id);
    var here := SyncingAt(s, status, todo, jobs, m, done);
    var mid := here.(poller := P.DroppingSynced(status, todo - {id}, id), db := Synced(jobs, m, done + {id}));
    ThenSync(start, here, P.AUpdateRow(id, true), mid, true);
    ThenSync(start, mid, P.ADropSynced(true), SyncingAt(s, status, todo - {id}, jobs, m, done + {id}), true);
  }

  lemma {:induction false} SyncRun(start: State, s: State, status: CacheJobStatus, todo: Entries,
                                   jobs: map<JobId, EntityJob>, m: Entries, done: set<JobId>)
    requires KeysMatch(m) && todo.Keys !! done
    requires forall id :: id in todo ==> id in m && todo[id] == m[id] && m[id].status == status
    requires Leads(start, SyncingAt(s, status, todo, jobs, m, done), true)
    ensures Leads(start, SyncingAt(s, status, map[], jobs, m, done + todo.Keys), true)
    decreases todo.Keys
  {
    hide Leads, SyncingAt;
    if todo == map[] {
      assert done + todo.Keys == done;
    } else {
      var id :| id in todo;
      var rest := todo - {id};
      assert rest.Keys == todo.Keys - {id};
      SyncStepRun(start, s, status, todo, id, jobs, m, done);
      SyncRun(start, s, status, rest, jobs, m, done + {id});
      assert done + {id} + rest.Keys == done + todo.Keys;
    }
  }

  lemma AllSynced(m: Entries)
    ensures WithStatus(m, CacheFailed).Keys + WithStatus(m, CacheCompleted).Keys == Decided(m)
    ensures m - Decided(m) == WithStatus(m, CachePending)
    ensures {} + WithStatus(m, CacheFailed).Keys == WithStatus(m, CacheFailed).Keys
  {
  }

  lemma CompletedListed(m: Entries)
    ensures var failed, completed := WithStatus(m, CacheFailed), WithStatus(m, CacheCompleted);
            && completed.Keys !! failed.Keys
            && forall id :: id in completed ==> id in m && completed[id] == m[id] && m[id].status == CacheCompleted
  {
  }

  lemma SyncPhase(start: State, s: State, jobs: map<JobId, EntityJob>, m: Entries)
    requires KeysMatch(m)
    requires Leads(start, s.(poller := P.ListingForSync(CacheFailed), db := jobs, cache := m), true)
    ensures Leads(start, s.(poller := P.Loading, db := Synced(jobs, m, Decided(m)),
                            cache := WithStatus(m, CachePending)), true)
  {
    hide Leads, Synced, Decided;
    var failed, completed := WithStatus(m, CacheFailed), WithStatus(m, CacheCompleted);
    SyncedNone(jobs, m);
    FailedRemoved(m, failed.Keys);
    AllSynced(m);
    ThenSync(start, s.(poller := P.ListingForSync(CacheFailed), db := jobs, cache := m), P.AListForSync(true),
             SyncingAt(s, CacheFailed, failed, jobs, m, {}), true);
    SyncRun(start, s, CacheFailed, failed, jobs, m, {});
    hide WithStatus;
    var mid := SyncingAt(s, CacheFailed, map[], jobs, m, failed.Keys);
    ThenSync(start, mid, P.AEndSync, mid.(poller := P.ListingForSync(CacheCompleted)), true);
    ThenSync(start, mid.(poller := P.ListingForSync(CacheCompleted)), P.AListForSync(true),
             SyncingAt(s, CacheCompleted, completed, jobs, m, failed.Keys), true);
    CompletedListed(m);
    SyncRun(start, s, CacheCompleted, completed, jobs, m, failed.Keys);
    var end := SyncingAt(s, CacheCompleted, map[], jobs, m, Decided(m));
    ThenSync(start, end, P.AEndSync, end.(poller := P.Loading), true);
  }

  // ---- fetch ----

  /** The configs the batch reads are those the chain holds. */
  ghost predicate ConfigsAgree(env: Environment, pooled: set<int>, s: State, jobs: map<JobId, EntityJob>) {
    forall id :: id in jobs && ConfigOf(env.chains, pooled, jobs[id]).Some? ==>
      var config := ConfigOf(env.chains, pooled, jobs[id]).value;
      && id in s.ledger && config.numberOfExecutions == s.ledger[id].total
      && config.numberOfExecutionsCompleted == s.ledger[id].completed
  }

  ghost function ConfigsRead(env: Environment, pooled: set<int>, jobs: map<JobId, EntityJob>,
                             read: set<JobId>): Configs {
    map id | id in jobs && id in read && ConfigOf(env.chains, pooled, jobs[id]).Some? ::
      ConfigOf(env.chains, pooled, jobs[id]).value
  }

  ghost function FetchingAt(s: State, env: Environment, pooled: set<int>, active: map<JobId, EntityJob>,
                            unread: set<JobId>): State {
    s.(poller := P.Fetching(active, unread, ConfigsRead(env, pooled, active, active.Keys - unread)))
  }

  lemma ReadOne(env: Environment, pooled: set<int>, active: map<JobId, EntityJob>, unread: set<JobId>, id: JobId)
    requires id in unread && id in active && ConfigOf(env.chains, pooled, active[id]).Some?
    ensures ConfigsRead(env, pooled, active, active.Keys - (unread - {id})) ==
            ConfigsRead(env, pooled, active, active.Keys - unread)[id := ConfigOf(env.chains, pooled, active[id]).value]
  {
  }

  lemma {:induction false} FetchRun(start: State, s: State, env: Environment, pooled: set<int>,
                                    active: map<JobId, EntityJob>, unread: set<JobId>)
    requires unread <= active.Keys && ConfigsAgree(env, pooled, s, active)
    requires forall id :: id in active ==> ConfigOf(env.chains, pooled, active[id]).Some?
    requires Leads(start, FetchingAt(s, env, pooled, active, unread), true)
    ensures Leads(start, FetchingAt(s, env, pooled, active, {}), true)
  {
    hide Leads, ConfigsRead, ConfigOf;
    if unread != {} {
      var id :| id in unread;
      ReadOne(env, pooled, active, unread, id);
      ThenFilter(start, FetchingAt(s, env, pooled, active, unread),
                 P.AReadConfig(id, ConfigOf(env.chains, pooled, active[id]).value),
                 FetchingAt(s, env, pooled, active, unread - {id}), true);
      FetchRun(start, s, env, pooled, active, unread - {id});
    }
  }

  // ---- filter ----

  ghost function FilteringAt(s: State, env: Environment, pooled: set<int>, m: Entries, active: map<JobId, EntityJob>,
                             configs: Configs, order: seq<EntityJob>, i: nat): State
    requires i <= |order|
  {
    s.(poller := P.Filtering(active - JobIds(order[..i]), configs, DueJobs(env, pooled, m, order[..i])),
       cache := Marked(env, pooled, m, order[..i]))
  }

  /** The ids done are those of a prefix of the order. */
  lemma TakeOne(active: map<JobId, EntityJob>, order: seq<EntityJob>, i: nat)
    requires DistinctJobs(order) && i < |order|
    ensures order[i].id !in JobIds(order[..i])
    ensures active - JobIds(order[..i + 1]) == active - JobIds(order[..i]) - {order[i].id}
  {
    assert order[..i + 1] == order[..i] + [order[i]];
    assert JobIds(order[..i + 1]) == JobIds(order[..i]) + {order[i].id};
  }

  lemma FilterOne(start: State, s: State, env: Environment, pooled: set<int>, m: Entries, active: map<JobId, EntityJob>,
                  configs: Configs, order: seq<EntityJob>, i: nat)
    requires i < |order| && DistinctJobs(order)
    requires order[i].id in active && active[order[i].id] == order[i] && order[i].id in configs
    requires ConfigOf(env.chains, pooled, order[i]) == Some(configs[order[i].id])
    requires Leads(start, FilteringAt(s, env, pooled, m, active, configs, order, i), true)
    ensures Leads(start, FilteringAt(s, env, pooled, m, active, configs, order, i + 1), true)
  {
    hide Leads, DueJobs, Marked, JobIds, DistinctJobs, ConfigOf;
    var job, a := order[i], FilteringAt(s, env, pooled, m, active, configs, order, i);
    NextDecision(env, pooled, m, order, i);
    assert a.poller.ready + [] == a.poller.ready;
    TakeOne(active, order, i);
    var rest := active - JobIds(order[..i]) - {job.id};
    var d := FilteringAt(s, env, pooled, m, active, configs, order, i + 1);
    if DecisionOf(env, pooled, m, job).Complete? {
      var b := a.(poller := P.MarkingCompleted(rest, configs, a.poller.ready, job.id));
      assert P.FilterJob(a, job.id, env.clock(job.id), b);
      ThenFilter(start, a, P.AFilterJob(job.id, env.clock(job.id)), b, true);
      ThenFilter(start, b, P.AMarkCompleted(true), d, true);
    } else {
      assert P.FilterJob(a, job.id, env.clock(job.id), d);
      ThenFilter(start, a, P.AFilterJob(job.id, env.clock(job.id)), d, true);
    }
  }

  lemma {:induction false} FilterRun(start: State, s: State, env: Environment, pooled: set<int>, m: Entries,
                                     active: map<JobId, EntityJob>, configs: Configs, order: seq<EntityJob>, i: nat)
    requires i <= |order| && DistinctJobs(order)
    requires forall job :: job in order ==>
               && job.id in active && active[job.id] == job && job.id in configs
               && ConfigOf(env.chains, pooled, job) == Some(configs[job.id])
    requires Leads(start, FilteringAt(s, env, pooled, m, active, configs, order, i), true)
    ensures Leads(start, FilteringAt(s, env, pooled, m, active, configs, order, |order|), true)
    decreases |order| - i
  {
    hide Leads, FilteringAt, DistinctJobs, ConfigOf;
    if i < |order| {
      assert order[i] in order;
      FilterOne(start, s, env, pooled, m, active, configs, order, i);
      FilterRun(start, s, env, pooled, m, active, configs, order, i + 1);
    }
  }

  // ---- enqueue ----

  function PushedJobs(jobs: seq<EntityJob>): seq<EntityJob> {
    if jobs == [] then [] else [jobs[|jobs| - 1]] + PushedJobs(jobs[..|jobs| - 1])
  }

  lemma {:induction false} PushedPayloads(jobs: seq<EntityJob>, queue: seq<EntityJob>)
    ensures Payloads(PushedJobs(jobs) + queue) == Pushed(jobs) + Payloads(queue)
  {
    hide EncodeJob;
    if jobs == [] {
      assert PushedJobs(jobs) + queue == queue;
    } else {
      var front, last := jobs[..|jobs| - 1], jobs[|jobs| - 1];
      PushedPayloads(front, queue);
      assert PushedJobs(jobs) + queue == [last] + (PushedJobs(front) + queue);
      assert Payloads([last] + (PushedJobs(front) + queue)) == [EncodeJob(last)] + Payloads(PushedJobs(front) + queue);
    }
  }

  ghost function EnqueuingAt(s: State, m: Entries, due: seq<EntityJob>, i: nat): State
    requires i <= |due|
  {
    s.(poller := P.Enqueuing(due[i..]), cache := Added(m, due[..i]), queue := PushedJobs(due[..i]) + s.queue,
       enqueued := s.enqueued + due[..i])
  }

  lemma PushOne(m: Entries, queue: seq<EntityJob>, enqueued: seq<EntityJob>, due: seq<EntityJob>, i: nat)
    requires i < |due|
    ensures due[i..] != [] && due[i..][0] == due[i] && due[i..][1..] == due[i + 1..]
    ensures Added(m, due[..i + 1]) == Added(m, due[..i])[due[i].id := NewEntry(due[i])]
    ensures PushedJobs(due[..i + 1]) + queue == [due[i]] + (PushedJobs(due[..i]) + queue)
    ensures enqueued + due[..i + 1] == enqueued + due[..i] + [due[i]]
  {
    hide NewEntry;
    assert due[..i + 1][..i] == due[..i];
  }

  lemma {:induction false} EnqueueRun(start: State, s: State, m: Entries, due: seq<EntityJob>, i: nat)
    requires i <= |due| && Leads(start, EnqueuingAt(s, m, due, i), true)
    ensures Leads(start, EnqueuingAt(s, m, due, |due|), true)
    decreases |due| - i
  {
    hide Leads, Added, PushedJobs, NewEntry;
    if i < |due| {
      PushOne(m, s.queue, s.enqueued, due, i);
      var a, c := EnqueuingAt(s, m, due, i), EnqueuingAt(s, m, due, i + 1);
      var b := a.(poller := P.Pushing(due[i], due[i + 1..]), cache := Added(m, due[..i + 1]));
      ThenEnqueue(start, a, P.AAddEntry(true), b, true);
      ThenEnqueue(start, b, P.APush(true), c, true);
      EnqueueRun(start, s, m, due, i + 1);
    }
  }

  // ---- the whole pass ----

  /** What the pass is told from outside is what the protocol's chain has done so far. */
  ghost predicate Agrees(env: Environment, pooled: set<int>, s: State) {
    (forall id :: id in s.cache ==> ReceiptAgrees(env, s, s.cache[id])) && ConfigsAgree(env, pooled, s, s.db)
  }

  /** An outcome does not change what the config read of a job gives. */
  lemma SyncedConfigsAgree(env: Environment, pooled: set<int>, s: State, m: Entries, done: set<JobId>)
    requires ConfigsAgree(env, pooled, s, s.db)
    ensures ConfigsAgree(env, pooled, s, ActiveJobs(Synced(s.db, m, done)))
  {
    forall id | id in s.db
      ensures ConfigOf(env.chains, pooled, Synced(s.db, m, done)[id]) == ConfigOf(env.chains, pooled, s.db[id])
    {
    }
  }

  /** Steps 1 and 2. */
  lemma SettlingRun(s: State, env: Environment)
    requires s.poller.Resting? && KeysMatch(s.cache)
    requires forall id :: id in s.cache ==> ReceiptAgrees(env, s, s.cache[id])
    ensures var mid := SyncedStores(env, StoresOf(s));
            Leads(s, s.(poller := P.Loading, db := mid.jobs, cache := mid.entries), true)
  {
    hide Leads, Settled, Judged, AfterReceipts, ReceiptAgrees, Synced;
    var m, pending := s.cache, WithStatus(s.cache, CachePending);
    StaysPut(s, true);
    AllJudged(env, m);
    ThenReceipt(s, s, P.AListPending(true), Receiving(s, pending, None, m), true);
    ReceiptsRun(s, s, env, m, pending, None);
    AfterReceiptsKeysMatch(env, m);
    SyncPhase(s, s, s.db, AfterReceipts(env, m));
  }

  lemma NothingRead(env: Environment, pooled: set<int>, active: map<JobId, EntityJob>)
    ensures ConfigsRead(env, pooled, active, active.Keys - active.Keys) == map[]
    ensures active.Keys - {} == active.Keys
  {
  }

  lemma NothingTaken(env: Environment, pooled: set<int>, m: Entries, active: map<JobId, EntityJob>,
                     order: seq<EntityJob>)
    ensures active - JobIds(order[..0]) == active
    ensures DueJobs(env, pooled, m, order[..0]) == [] && Marked(env, pooled, m, order[..0]) == m
  {
    assert JobIds(order[..0]) == {};
  }

  lemma AllTaken(active: map<JobId, EntityJob>, order: seq<EntityJob>)
    requires forall id :: id in active ==> active[id] in order && active[id].id == id
    ensures active - JobIds(order) == map[]
  {
    forall id | id in active ensures id in JobIds(order) {
      assert active[id] in order;
    }
  }

  /** The listed jobs are the active ones, each under its id. */
  lemma OrderIsActive(jobs: map<JobId, EntityJob>, order: seq<EntityJob>, keys: seq<JobId>)
    requires RowsMatch(jobs) && Enumerates(order, keys, ActiveJobs(jobs))
    ensures var active := ActiveJobs(jobs);
            && DistinctJobs(order)
            && (forall job :: job in order ==> job.id in active && active[job.id] == job)
            && (forall id :: id in active ==> active[id] in order && active[id].id == id)
  {
    ListedRow(jobs, order, keys);
  }

  /** Step 3 and the batch read. */
  lemma FetchPhase(start: State, s: State, env: Environment, pooled: set<int>, active: map<JobId, EntityJob>)
    requires active == ActiveJobs(s.db) && ConfigsAgree(env, pooled, s, active)
    requires forall id :: id in active ==> ConfigOf(env.chains, pooled, active[id]).Some?
    requires Leads(start, s.(poller := P.Loading), true)
    ensures Leads(start, s.(poller := P.Filtering(active, ConfigsRead(env, pooled, active, active.Keys), [])), true)
  {
    hide Leads, ConfigOf, ConfigsAgree, ConfigsRead, ActiveJobs;
    NothingRead(env, pooled, active);
    ThenFilter(start, s.(poller := P.Loading), P.ALoadActive(true), FetchingAt(s, env, pooled, active, active.Keys),
               true);
    FetchRun(start, s, env, pooled, active, active.Keys);
    var f := FetchingAt(s, env, pooled, active, {});
    ThenFilter(start, f, P.AStartFilter, s.(poller := P.Filtering(active, f.poller.configs, [])), true);
  }

  /** Step 4. */
  lemma FilterPhase(start: State, s: State, env: Environment, pooled: set<int>, active: map<JobId, EntityJob>,
                    configs: Configs, order: seq<EntityJob>)
    requires DistinctJobs(order)
    requires forall id :: id in active ==> active[id] in order && active[id].id == id
    requires forall job :: job in order ==>
               && job.id in active && active[job.id] == job && job.id in configs
               && ConfigOf(env.chains, pooled, job) == Some(configs[job.id])
    requires Leads(start, s.(poller := P.Filtering(active, configs, [])), true)
    ensures Leads(start, s.(poller := P.Enqueuing(DueJobs(env, pooled, s.cache, order)),
                            cache := Marked(env, pooled, s.cache, order)), true)
  {
    hide Leads, ConfigOf, DueJobs, Marked, JobIds, DistinctJobs;
    NothingTaken(env, pooled, s.cache, active, order);
    assert FilteringAt(s, env, pooled, s.cache, active, configs, order, 0)
      == s.(poller := P.Filtering(active, configs, []));
    FilterRun(start, s, env, pooled, s.cache, active, configs, order, 0);
    AllTaken(active, order);
    assert order[..|order|] == order;
    var f := FilteringAt(s, env, pooled, s.cache, active, configs, order, |order|);
    ThenEnqueue(start, f, P.AStartEnqueue, f.(poller := P.Enqueuing(f.poller.ready)), true);
  }

  lemma FetchAndFilter(start: State, s: State, env: Environment, pooled: set<int>, order: seq<EntityJob>,
                       keys: seq<JobId>)
    requires RowsMatch(s.db) && Enumerates(order, keys, ActiveJobs(s.db)) && AllReadable(env.chains, pooled, order)
    requires ConfigsAgree(env, pooled, s, ActiveJobs(s.db)) && Leads(start, s.(poller := P.Loading), true)
    ensures Leads(start, s.(poller := P.Enqueuing(DueJobs(env, pooled, s.cache, order)),
                            cache := Marked(env, pooled, s.cache, order)), true)
  {
    hide Leads, ConfigOf, ConfigsAgree, DueJobs, Marked, RowsMatch, Enumerates, ActiveJobs, DistinctJobs;
    OrderIsActive(s.db, order, keys);
    var active := ActiveJobs(s.db);
    FetchPhase(start, s, env, pooled, active);
    FilterPhase(start, s, env, pooled, active, ConfigsRead(env, pooled, active, active.Keys), order);
  }

  lemma NothingPushed(m: Entries, queue: seq<EntityJob>, enqueued: seq<EntityJob>, due: seq<EntityJob>)
    ensures due[0..] == due && due[..|due|] == due && due[|due|..] == []
    ensures Added(m, due[..0]) == m && PushedJobs(due[..0]) + queue == queue && enqueued + due[..0] == enqueued
  {
  }

  /** Step 5. */
  lemma EnqueuePhase(start: State, s: State, due: seq<EntityJob>)
    requires Leads(start, s.(poller := P.Enqueuing(due)), true)
    ensures Leads(start, s.(poller := P.Resting, cache := Added(s.cache, due), queue := PushedJobs(due) + s.queue,
                            enqueued := s.enqueued + due), true)
  {
    hide Leads, Added, PushedJobs;
    NothingPushed(s.cache, s.queue, s.enqueued, due);
    assert EnqueuingAt(s, s.cache, due, 0) == s.(poller := P.Enqueuing(due));
    EnqueueRun(start, s, s.cache, due, 0);
    var e := EnqueuingAt(s, s.cache, due, |due|);
    ThenEnqueue(start, e, P.AEndPass, e.(poller := P.Resting), true);
  }

  /** Steps 3 to 5. */
  lemma EnqueuingRun(start: State, s: State, env: Environment, pooled: set<int>, order: seq<EntityJob>,
                     keys: seq<JobId>)
    returns (t: State)
    requires RowsMatch(s.db) && Enumerates(order, keys, ActiveJobs(s.db))
             && ConfigsAgree(env, pooled, s, ActiveJobs(s.db))
    requires Leads(start, s.(poller := P.Loading), true)
    ensures Leads(start, t, true) && t.poller.Resting? && t.worker == s.worker && t.ledger == s.ledger
    ensures StoresOf(t) == EnqueuedStores(env, pooled, StoresOf(s), order)
  {
    hide Leads, ConfigsAgree, DueJobs, Marked, Added, Pushed, PushedJobs, Payloads, RowsMatch, ActiveJobs, Enumerates,
      AllReadable;
    if AllReadable(env.chains, pooled, order) {
      FetchAndFilter(start, s, env, pooled, order, keys);
      var due, u := DueJobs(env, pooled, s.cache, order), s.(cache := Marked(env, pooled, s.cache, order));
      EnqueuePhase(start, u, due);
      PushedPayloads(due, s.queue);
      t := u.(poller := P.Resting, cache := Added(u.cache, due), queue := PushedJobs(due) + s.queue,
              enqueued := s.enqueued + due);
    } else {
      var active := ActiveJobs(s.db);
      var f := s.(poller := P.Fetching(active, active.Keys, map[]));
      ThenFilter(start, s.(poller := P.Loading), P.ALoadActive(true), f, true);
      t := s.(poller := P.Resting);
      ThenFilter(start, f, P.AAbortPass, t, true);
    }
  }

  lemma SameConfigsAgree(env: Environment, pooled: set<int>, s: State, t: State, jobs: map<JobId, EntityJob>)
    requires ConfigsAgree(env, pooled, s, jobs) && t.ledger == s.ledger
    ensures ConfigsAgree(env, pooled, t, jobs)
  {
  }

  // ---- one turn of the worker ----

  /**
   * The specified pass is a run of the protocol, from any state in which the poller rests: what
   * holds of all runs holds of it. The worker may hold a job; it only does not move meanwhile.
   */
  lemma PassIsRun(env: Environment, pooled: set<int>, s: State, order: seq<EntityJob>, keys: seq<JobId>,
                  after: Stores) returns (t: State)
    requires s.poller.Resting? && Agrees(env, pooled, s) && KeysMatch(s.cache) && RowsMatch(s.db)
    requires Pass(env, pooled, StoresOf(s), order, keys, after)
    ensures Leads(s, t, true) && t.poller.Resting? && t.worker == s.worker && t.ledger == s.ledger
    ensures StoresOf(t) == after
  {
    hide Leads, ConfigsAgree, ReceiptAgrees, EnqueuedStores, AfterReceipts, Synced, Payloads, Enumerates, RowsMatch,
      ActiveJobs;
    var mid := SyncedStores(env, StoresOf(s));
    SettlingRun(s, env);
    SyncedRowsMatch(env, StoresOf(s));
    SyncedConfigsAgree(env, pooled, s, AfterReceipts(env, s.cache), Decided(AfterReceipts(env, s.cache)));
    var u := s.(db := mid.jobs, cache := mid.entries);
    SameConfigsAgree(env, pooled, s, u, ActiveJobs(mid.jobs));
    t := EnqueuingRun(s, u, env, pooled, order, keys);
  }

  /** The answer of an execution fits the protocol: an accepted operation's hash is new (or zero). */
  ghost predicate Fresh(s: State, result: Execution) {
    result.Accepted? ==> result.hash == ZERO_HASH || result.hash !in s.issued
  }

  /** What the execution itself does: the job leaves the queue and, if it is sent, that is counted. */
  ghost function ExecutedState(s: State, result: Execution, text: Execution -> string): State
    requires s.queue != [] && s.queue[|s.queue| - 1].id in s.ledger
  {
    var n := |s.queue| - 1;
    var job := s.queue[n];
    var l, a := s.ledger[job.id], s.(queue := s.queue[..n], dequeued := s.dequeued + [job]);
    match result
    case Panicked => a.(worker := P.Waiting, poller := P.Resting)
    case NotSent(_) => a.(worker := P.Errored(job, text(result)))
    case Refused =>
      a.(worker := P.Errored(job, text(result)),
         ledger := s.ledger[job.id := l.(sends := l.sends + 1, lastHash := ZERO_HASH)])
    case Accepted(hash) =>
      a.(worker := P.Sent(job, hash),
         ledger := s.ledger[job.id := l.(sends := l.sends + 1, lastHash := hash)],
         issued := if hash == ZERO_HASH then s.issued
                   else s.issued[hash := P.SentOperation(job.id, job.chainID)])
  }

  lemma ExecutionIsRun(s: State, result: Execution, text: Execution -> string)
    requires s.worker.Waiting? && s.queue != [] && s.queue[|s.queue| - 1].id in s.ledger && Fresh(s, result)
    ensures Leads(s, ExecutedState(s, result, text), true)
    ensures result.Accepted? ==> Leads(s, ExecutedState(s, result, text), false)
  {
    hide Leads;
    var n := |s.queue| - 1;
    var job, t := s.queue[n], ExecutedState(s, result, text);
    var a := s.(queue := s.queue[..n], worker := P.Running(job), dequeued := s.dequeued + [job]);
    StaysPut(s, false);
    ThenWorker(s, s, P.ADequeue(true), a, false);
    if result.Accepted? {
      ThenWorker(s, a, P.ASendAccepted(result.hash), t, false);
      FaultsMayStayAway(s, t);
    } else {
      FaultsMayStayAway(s, a);
      if result.Panicked? {
        assert P.EnvironmentStep(a, P.ACrash, t);
        Then(s, a, P.ACrash, t, true);
      } else {
        var action := if result.Refused? then P.ASendRefused(text(result)) else P.AFailBeforeSend(text(result));
        ThenWorker(s, a, action, t, true);
      }
    }
  }

  /**
   * What ProcessNextJob does with a payload that decodes is a run of the protocol, which counts a
   * send attempt exactly when SendUserOperation was called. Recording the result in the cache is a
   * step of its own, and it does not fail.
   */
  lemma TurnIsRun(s: State, result: Execution, text: Execution -> string) returns (t: State)
    requires s.worker.Waiting? && s.queue != [] && s.queue[|s.queue| - 1].id in s.ledger && Fresh(s, result)
    ensures var job, m := s.queue[|s.queue| - 1], ExecutedState(s, result, text);
            && Leads(s, m, true) && (result.Accepted? ==> Leads(s, m, false)) && Leads(m, t, false)
            && t.worker.Waiting? && t.queue == s.queue[..|s.queue| - 1] && t.db == s.db && t.ledger == m.ledger
            && (result.Panicked? || t.poller == s.poller)
            && m.ledger.Keys == s.ledger.Keys
            && m.ledger[job.id].sends == s.ledger[job.id].sends + (if result.Accepted? || result.Refused? then 1 else 0)
            && t.cache == AfterExecution(result, job.id, text, s.cache)
            && Recorded(result, job.id, text, s.cache, t.cache)
  {
    hide Leads;
    var job, m := s.queue[|s.queue| - 1], ExecutedState(s, result, text);
    ExecutionIsRun(s, result, text);
    StaysPut(m, false);
    t := m.(worker := P.Waiting, cache := AfterExecution(result, job.id, text, s.cache));
    if result.Accepted? {
      ThenWorker(m, m, P.ARecordHash(true), t, false);
    } else if !result.Panicked? {
      ThenWorker(m, m, P.ARecordError(true), t, false);
    }
  }

  // ---- the cache is only touched through the repository ----

  /** The repository operation on entries that a step is, if it is one and its call succeeds. */
  ghost function OperationOf(s: State, a: P.Action): Option<Operation> {
    match a
    case ARecordError(ok) =>
      if ok && s.worker.Errored? then Some(SetStatus(s.worker.job.id, CacheFailed, Some(s.worker.msg))) else None
    case ARecordHash(ok) => if ok && s.worker.Sent? then Some(UpdateHash(s.worker.job.id, s.worker.hash)) else None
    case AListPending(ok) => if ok then Some(ListByStatus(CachePending)) else None
    case ADropEntry(ok) => if ok && s.poller.DroppingEntry? then Some(Delete(s.poller.id)) else None
    case AFailEntry(ok) =>
      if ok && s.poller.FailingEntry? then Some(SetStatus(s.poller.id, CacheFailed, Some(s.poller.msg))) else None
    case AListForSync(ok) => if ok && s.poller.ListingForSync? then Some(ListByStatus(s.poller.status)) else None
    case ADropSynced(ok) => if ok && s.poller.DroppingSynced? then Some(Delete(s.poller.id)) else None
    case AFilterJob(id, _) => Some(Get(id))
    case AMarkCompleted(ok) =>
      if ok && s.poller.MarkingCompleted? then Some(SetStatus(s.poller.id, CacheCompleted, None)) else None
    case AAddEntry(ok) =>
      if ok && s.poller.Enqueuing? && s.poller.ready != [] then Some(Add(NewEntry(s.poller.ready[0]))) else None
    case AUndo(ok) => if ok && s.poller.Undoing? then Some(Delete(s.poller.job.id)) else None
    case _ => None
  }

  /** The step changes the cache as its operation does. */
  ghost predicate ByOperation(s: State, a: P.Action, t: State) {
    t.cache == if OperationOf(s, a).Some? then EffectOf(OperationOf(s, a).value, s.cache) else s.cache
  }

  lemma EnvironmentByOperation(s: State, a: P.Action, t: State)
    requires P.EnvironmentStep(s, a, t)
    ensures ByOperation(s, a, t)
  {
  }

  lemma WorkerByOperation(s: State, a: P.Action, t: State)
    requires P.WorkerStep(s, a, t)
    ensures ByOperation(s, a, t)
  {
  }

  lemma ReceiptByOperation(s: State, a: P.Action, t: State)
    requires P.ReceiptStep(s, a, t)
    ensures ByOperation(s, a, t)
  {
  }

  lemma SyncByOperation(s: State, a: P.Action, t: State)
    requires P.SyncStep(s, a, t)
    ensures ByOperation(s, a, t)
  {
  }

  lemma FilterByOperation(s: State, a: P.Action, t: State)
    requires P.FilterStep(s, a, t)
    ensures ByOperation(s, a, t)
  {
    if a.AFilterJob? { assert t == s.(poller := t.poller); }
  }

  lemma EnqueueByOperation(s: State, a: P.Action, t: State)
    requires P.EnqueueStep(s, a, t)
    ensures ByOperation(s, a, t)
  {
  }

  /** A step that reads the cache goes on with the answer of its operation. */
  lemma ReadsAreAnswers(s: State, a: P.Action, t: State)
    requires P.Step(s, a, t)
    ensures a.AListPending? && a.ok ==>
              OperationOf(s, a).Some?
              && t.poller == P.Receipts(AnswerOf(OperationOf(s, a).value, s.cache).entries, None)
    ensures a.AListForSync? && a.ok ==>
              OperationOf(s, a).Some?
              && t.poller == P.Syncing(s.poller.status, AnswerOf(OperationOf(s, a).value, s.cache).entries)
    ensures a.AFilterJob? && AnswerOf(Get(a.id), s.cache).OneEntry? ==>
              t.poller == P.Filtering(s.poller.jobs - {a.id}, s.poller.configs, s.poller.ready)
  {
    if a.AListPending? { assert P.ListPending(s, a.ok, t); }
    else if a.AListForSync? { assert P.ListForSync(s, a.ok, t); }
    else if a.AFilterJob? { assert P.FilterJob(s, a.id, a.now, t); }
  }

  /** So each step sees and leaves the cache as the locking lets concurrent callers see and leave it. */
  lemma StepsAreOperations(s: State, a: P.Action, t: State)
    requires P.Step(s, a, t)
    ensures t.cache == if OperationOf(s, a).Some? then EffectOf(OperationOf(s, a).value, s.cache) else s.cache
  {
    if P.EnvironmentStep(s, a, t) { EnvironmentByOperation(s, a, t); }
    else if P.WorkerStep(s, a, t) { WorkerByOperation(s, a, t); }
    else if P.ReceiptStep(s, a, t) { ReceiptByOperation(s, a, t); }
    else if P.SyncStep(s, a, t) { SyncByOperation(s, a, t); }
    else if P.FilterStep(s, a, t) { FilterByOperation(s, a, t); }
    else { EnqueueByOperation(s, a, t); }
  }
}
