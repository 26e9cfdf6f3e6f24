/**
 * The RWMutex discipline of src/repository/job_cache.go: any number of threads run the
 * repository operations as separate Redis commands (GET then SET, KEYS then one GET per key)
 * under RLock or Lock, and what they observe is a sequence of atomic operations.
 */
module JobCacheLocking {
  import opened Wrappers
  import opened Jobs
  import opened JobCacheEntries

  type ThreadId = nat

  /** Where a thread stands; since is the number of operations that had taken effect at its call. */
  datatype Thread =
    | Idle
    | Blocked(op: Operation, since: nat)
    | Holding(op: Operation, since: nat)                              // has the lock, no command sent
    | ReadOne(op: Operation, since: nat, entry: JobCache)             // UpdateJobCacheUserOpHash between GET and SET
    | Scanning(op: Operation, since: nat, keys: set<JobId>, seen: Entries, stats: CacheStatistics)
    | Finished(op: Operation, since: nat, answer: Answer, at: nat)    // before the deferred unlock

  /** One operation taking effect: faulted when a Redis command failed. */
  datatype Event = Event(caller: ThreadId, op: Operation, answer: Answer, faulted: bool)

  /** A returned call: it took effect as event number at. */
  datatype Returned = Returned(caller: ThreadId, op: Operation, answer: Answer, since: nat, at: nat)

  datatype State = State(
    initial: Entries,
    redis: Entries,
    writer: Option<ThreadId>,
    readers: set<ThreadId>,
    threads: map<ThreadId, Thread>,
    log: seq<Event>,
    history: seq<Returned>)

  ghost predicate Initial(s: State) {
    && s.redis == s.initial && s.writer == None && s.readers == {} && s.log == [] && s.history == []
    && forall t :: t in s.threads ==> s.threads[t] == Idle
  }

  function Count(stats: CacheStatistics, status: CacheJobStatus): CacheStatistics {
    match status
    case CachePending => stats.(pending := stats.pending + 1)
    case CacheFailed => stats.(failed := stats.failed + 1)
    case CacheCompleted => stats.(completed := stats.completed + 1)
  }

  /** The thread's operation takes effect and has its answer. */
  function Finish(s: State, t: ThreadId, redis: Entries, answer: Answer, faulted: bool): State
    requires t in s.threads && !s.threads[t].Idle?
  {
    var th := s.threads[t];
    s.(redis := redis,
       threads := s.threads[t := Finished(th.op, th.since, answer, |s.log|)],
       log := s.log + [Event(t, th.op, answer, faulted)])
  }

  function Move(s: State, t: ThreadId, th: Thread): State {
    s.(threads := s.threads[t := th])
  }

  ghost predicate Call(s: State, t: ThreadId, op: Operation, s': State) {
    t in s.threads && s.threads[t].Idle? && s' == Move(s, t, Blocked(op, |s.log|))
  }

  ghost predicate Lock(s: State, t: ThreadId, s': State) {
    && t in s.threads && s.threads[t].Blocked? && s.writer.None?
    && var th := s.threads[t];
       if th.op.Writes()
       then s.readers == {} && s' == Move(s, t, Holding(th.op, th.since)).(writer := Some(t))
       else s' == Move(s, t, Holding(th.op, th.since)).(readers := s.readers + {t})
  }

  ghost predicate Unlock(s: State, t: ThreadId, s': State) {
    && t in s.threads && s.threads[t].Finished?
    && var th := s.threads[t];
       var back := Move(s, t, Idle).(history := s.history + [Returned(t, th.op, th.answer, th.since, th.at)]);
       s' == if th.op.Writes() then back.(writer := None) else back.(readers := s.readers - {t})
  }

  /** The Redis command at hand fails and the operation returns the error. */
  ghost predicate Fault(s: State, t: ThreadId, s': State) {
    && t in s.threads && (s.threads[t].Holding? || s.threads[t].ReadOne? || s.threads[t].Scanning?)
    && s' == Finish(s, t, s.redis, Error, true)
  }

  /** The first Redis command of the operation. */
  ghost predicate FirstCommand(s: State, t: ThreadId, s': State) {
    && t in s.threads && s.threads[t].Holding?
    && var th := s.threads[t];
       match th.op
       case Get(id) =>
         s' == Finish(s, t, s.redis, if id in s.redis then OneEntry(s.redis[id]) else Error, false)
       case SetStatus(id, status, message) =>
         s' == Finish(s, t, s.redis[id := StatusEntry(id, status, message)], Done, false)
       case Delete(id) => s' == Finish(s, t, s.redis - {id}, Done, false)
       case Add(entry) => s' == Finish(s, t, s.redis[entry.jobID := entry], Done, false)
       case UpdateHash(id, _) =>
         if id in s.redis then s' == Move(s, t, ReadOne(th.op, th.since, s.redis[id]))
         else s' == Finish(s, t, s.redis, Error, false)
       case _ => s' == Move(s, t, Scanning(th.op, th.since, s.redis.Keys, map[], CacheStatistics(0, 0, 0, 0)))
  }

  /** The SET of UpdateJobCacheUserOpHash writes back the entry read before. */
  ghost predicate WriteBack(s: State, t: ThreadId, s': State) {
    && t in s.threads && s.threads[t].ReadOne? && s.threads[t].op.UpdateHash?
    && var th := s.threads[t];
       s' == Finish(s, t, s.redis[th.op.id := th.entry.(userOpHash := th.op.hash)], Done, false)
  }

  /** One GET of a scan; a key that is gone is skipped. */
  ghost predicate ScanOne(s: State, t: ThreadId, k: JobId, s': State) {
    && t in s.threads && s.threads[t].Scanning? && k in s.threads[t].keys
    && var th := s.threads[t];
       var rest := th.(keys := th.keys - {k});
       s' == Move(s, t,
                  if k !in s.redis then rest
                  else rest.(seen := if th.op.ListByStatus? && s.redis[k].status == th.op.status
                                     then th.seen[k := s.redis[k]] else th.seen,
                             stats := Count(th.stats, s.redis[k].status)))
  }

  /** What a finished scan returns. */
  function ScanAnswer(th: Thread): Answer
    requires th.Scanning?
  {
    if th.op.ListByStatus? then Listing(th.seen)
    else Counts(th.stats.(total := th.stats.pending + th.stats.failed + th.stats.completed))
  }

  ghost predicate EndScan(s: State, t: ThreadId, s': State) {
    && t in s.threads && s.threads[t].Scanning? && s.threads[t].keys == {}
    && s' == Finish(s, t, s.redis, ScanAnswer(s.threads[t]), false)
  }

  ghost predicate Next(s: State, s': State) {
    || (exists t, op :: Call(s, t, op, s'))
    || (exists t :: Lock(s, t, s') || Unlock(s, t, s') || Fault(s, t, s') || FirstCommand(s, t, s')
                    || WriteBack(s, t, s') || EndScan(s, t, s'))
    || (exists t, k :: ScanOne(s, t, k, s'))
  }

  ghost predicate IsRun(run: seq<State>) {
    && run != [] && Initial(run[0])
    && forall i :: 0 <= i < |run| - 1 ==> Next(run[i], run[i + 1])
  }

  // ---- the atomic reading of a log ----

  function EventEffect(e: Event, m: Entries): Entries {
    if e.faulted then m else EffectOf(e.op, m)
  }

  predicate EventAnswer(e: Event, m: Entries) {
    e.answer == if e.faulted then Error else AnswerOf(e.op, m)
  }

  /** The entries after the first n events, each done atomically. */
  function Replay(m: Entries, log: seq<Event>, n: nat): Entries
    requires n <= |log|
  {
    if n == 0 then m else EventEffect(log[n - 1], Replay(m, log, n - 1))
  }

  lemma {:induction false} ReplayPrefix(m: Entries, log: seq<Event>, e: Event, n: nat)
    requires n <= |log|
    ensures Replay(m, log + [e], n) == Replay(m, log, n)
  {
    if n > 0 {
      ReplayPrefix(m, log, e, n - 1);
    }
  }

  ghost predicate HasLock(s: State, t: ThreadId)
    requires t in s.threads
  {
    !s.threads[t].Idle? && !s.threads[t].Blocked?
  }

  ghost predicate ThreadOk(s: State, t: ThreadId)
    requires t in s.threads
  {
    var th := s.threads[t];
    && (HasLock(s, t) && th.op.Writes() <==> s.writer == Some(t))
    && (HasLock(s, t) && !th.op.Writes() <==> t in s.readers)
    && match th
       case Idle => true
       case Blocked(_, since) => since <= |s.log|
       case Holding(_, since) => since <= |s.log|
       case ReadOne(op, since, entry) =>
         since <= |s.log| && op.UpdateHash? && op.id in s.redis && s.redis[op.id] == entry
       case Scanning(op, since, keys, seen, stats) =>
         && since <= |s.log| && (op.ListByStatus? || op.Statistics?) && keys <= s.redis.Keys
         && (op.ListByStatus? ==> seen == WithStatus(s.redis - keys, op.status))
         && StatisticsOf(s.redis - keys).(total := 0) == stats.(total := 0)
       case Finished(op, since, answer, at) =>
         since <= at < |s.log| && s.log[at].caller == t && s.log[at].op == op && s.log[at].answer == answer
  }

  ghost predicate LogOk(s: State) {
    && (forall n :: 0 <= n < |s.log| ==> EventAnswer(s.log[n], Replay(s.initial, s.log, n)))
    && Replay(s.initial, s.log, |s.log|) == s.redis
  }

  ghost predicate ReturnedOk(s: State, r: Returned) {
    r.since <= r.at < |s.log| && s.log[r.at].caller == r.caller && s.log[r.at].op == r.op
      && s.log[r.at].answer == r.answer
  }

  /** A thread's calls are one after the other. */
  ghost predicate CallsInOrder(s: State, t: ThreadId)
    requires t in s.threads
  {
    !s.threads[t].Idle? ==>
      forall i :: 0 <= i < |s.history| && s.history[i].caller == t ==> s.history[i].at < s.threads[t].since
  }

  /** Each returned call is an event of its own. */
  ghost predicate HistoryOk(s: State) {
    && (forall i :: 0 <= i < |s.history| ==> ReturnedOk(s, s.history[i]))
    && (forall i, j :: 0 <= i < j < |s.history| ==> s.history[i].at != s.history[j].at)
  }

  ghost predicate Inv(s: State) {
    && (s.writer.Some? ==> s.readers == {} && s.writer.value in s.threads)
    && s.readers <= s.threads.Keys
    && (forall t :: t in s.threads ==> ThreadOk(s, t) && CallsInOrder(s, t))
    && LogOk(s) && HistoryOk(s)
  }

  // ---- the invariant is kept ----

  lemma OldAnswers(initial: Entries, log: seq<Event>, e: Event, n: nat)
    requires n < |log| && EventAnswer(log[n], Replay(initial, log, n))
    ensures EventAnswer((log + [e])[n], Replay(initial, log + [e], n))
  {
    hide *;
    ReplayPrefix(initial, log, e, n);
    assert (log + [e])[n] == log[n];
  }

  /** Appending an event that agrees with the current entries keeps the log's reading. */
  lemma AppendEvent(initial: Entries, redis: Entries, log: seq<Event>, e: Event)
    requires forall n :: 0 <= n < |log| ==> EventAnswer(log[n], Replay(initial, log, n))
    requires Replay(initial, log, |log|) == redis && EventAnswer(e, redis)
    ensures forall n :: 0 <= n < |log + [e]| ==> EventAnswer((log + [e])[n], Replay(initial, log + [e], n))
    ensures Replay(initial, log + [e], |log + [e]|) == EventEffect(e, redis)
  {
    hide EventAnswer, EventEffect;
    ReplayPrefix(initial, log, e, |log|);
    forall n | 0 <= n < |log| ensures EventAnswer((log + [e])[n], Replay(initial, log + [e], n)) {
      OldAnswers(initial, log, e, n);
    }
  }

  /** A thread that takes effect while holding the lock, as one atomic operation. */
  lemma FinishKeeps(s: State, t: ThreadId, redis: Entries, answer: Answer, faulted: bool)
    requires Inv(s) && t in s.threads && HasLock(s, t) && !s.threads[t].Finished?
    requires EventAnswer(Event(t, s.threads[t].op, answer, faulted), s.redis)
    requires redis == EventEffect(Event(t, s.threads[t].op, answer, faulted), s.redis)
    ensures Inv(Finish(s, t, redis, answer, faulted))
  {
    var s' := Finish(s, t, redis, answer, faulted);
    AppendEvent(s.initial, s.redis, s.log, Event(t, s.threads[t].op, answer, faulted));
    forall u | u in s'.threads ensures ThreadOk(s', u) && CallsInOrder(s', u) {
      assert ThreadOk(s, u) && CallsInOrder(s, u) && ThreadOk(s, t);
    }
  }

  lemma MoveKeeps(s: State, t: ThreadId, th: Thread)
    requires Inv(s) && t in s.threads && HasLock(s, t) && !s.threads[t].Finished?
    requires !th.Idle? && !th.Blocked? && th.op == s.threads[t].op && th.since == s.threads[t].since
    requires ThreadOk(Move(s, t, th), t)
    ensures Inv(Move(s, t, th))
  {
    var s' := Move(s, t, th);
    forall u | u in s'.threads ensures ThreadOk(s', u) && CallsInOrder(s', u) {
      assert ThreadOk(s, u) && CallsInOrder(s, u);
    }
  }

  lemma UnlockKeeps(s: State, t: ThreadId, s': State)
    requires Inv(s) && Unlock(s, t, s')
    ensures Inv(s')
  {
    assert ThreadOk(s, t) && CallsInOrder(s, t);
    forall u | u in s'.threads ensures ThreadOk(s', u) && CallsInOrder(s', u) {
      assert ThreadOk(s, u) && CallsInOrder(s, u);
    }
  }

  lemma LockingKeeps(s: State, t: ThreadId, op: Operation, s': State)
    requires Inv(s) && (Call(s, t, op, s') || Lock(s, t, s'))
    ensures Inv(s')
  {
    forall u | u in s'.threads ensures ThreadOk(s', u) && CallsInOrder(s', u) {
      assert ThreadOk(s, u) && CallsInOrder(s, u) && ThreadOk(s, t);
    }
  }

  lemma FirstCommandKeeps(s: State, t: ThreadId, s': State)
    requires Inv(s) && FirstCommand(s, t, s')
    ensures Inv(s')
  {
    assert ThreadOk(s, t);
    var th := s.threads[t];
    match th.op
    case Get(id) => FinishKeeps(s, t, s.redis, if id in s.redis then OneEntry(s.redis[id]) else Error, false);
    case SetStatus(id, status, message) =>
      FinishKeeps(s, t, s.redis[id := StatusEntry(id, status, message)], Done, false);
    case Delete(id) => FinishKeeps(s, t, s.redis - {id}, Done, false);
    case Add(entry) => FinishKeeps(s, t, s.redis[entry.jobID := entry], Done, false);
    case UpdateHash(id, _) =>
      if id in s.redis {
        MoveKeeps(s, t, ReadOne(th.op, th.since, s.redis[id]));
      } else {
        FinishKeeps(s, t, s.redis, Error, false);
      }
    case _ =>
      assert s.redis - s.redis.Keys == map[];
      MoveKeeps(s, t, Scanning(th.op, th.since, s.redis.Keys, map[], CacheStatistics(0, 0, 0, 0)));
  }

  lemma ScanOneKeeps(s: State, t: ThreadId, k: JobId, s': State)
    requires Inv(s) && ScanOne(s, t, k, s')
    ensures Inv(s')
  {
    assert ThreadOk(s, t);
    var th := s.threads[t];
    VisitOne(s.redis, th.keys, k, CachePending);
    VisitOne(s.redis, th.keys, k, CacheFailed);
    VisitOne(s.redis, th.keys, k, CacheCompleted);
    MoveKeeps(s, t, s'.threads[t]);
  }

  /** A scan under the lock has seen exactly what an atomic look at the entries sees. */
  lemma ScanIsSnapshot(s: State, t: ThreadId)
    requires t in s.threads && s.threads[t].Scanning? && s.threads[t].keys == {} && ThreadOk(s, t)
    ensures ScanAnswer(s.threads[t]) == AnswerOf(s.threads[t].op, s.redis)
  {
    assert s.redis - {} == s.redis;
  }

  lemma NextKeepsInv(s: State, s': State)
    requires Inv(s) && Next(s, s')
    ensures Inv(s')
  {
    if t, op :| Call(s, t, op, s') {
      LockingKeeps(s, t, op, s');
    } else if t, k :| ScanOne(s, t, k, s') {
      ScanOneKeeps(s, t, k, s');
    } else {
      var t :| Lock(s, t, s') || Unlock(s, t, s') || Fault(s, t, s') || FirstCommand(s, t, s')
               || WriteBack(s, t, s') || EndScan(s, t, s');
      assert ThreadOk(s, t);
      if Lock(s, t, s') {
        LockingKeeps(s, t, Statistics, s');
      } else if Unlock(s, t, s') {
        UnlockKeeps(s, t, s');
      } else if Fault(s, t, s') {
        FinishKeeps(s, t, s.redis, Error, true);
      } else if FirstCommand(s, t, s') {
        FirstCommandKeeps(s, t, s');
      } else if WriteBack(s, t, s') {
        FinishKeeps(s, t, s'.redis, Done, false);
      } else {
        ScanIsSnapshot(s, t);
        FinishKeeps(s, t, s.redis, ScanAnswer(s.threads[t]), false);
      }
    }
  }

  lemma {:induction false} RunKeepsInv(run: seq<State>, i: nat)
    requires IsRun(run) && i < |run|
    ensures Inv(run[i])
  {
    if i > 0 {
      RunKeepsInv(run, i - 1);
      assert Next(run[i - 1], run[i - 1 + 1]);
      NextKeepsInv(run[i - 1], run[i]);
    }
  }

  /**
   * Linearizability. In every run the log, taken as a sequence of atomic operations from the
   * initial entries, gives every answer and the present entries; and every call that has returned
   * is one event of the log, its own, which took effect between its call and its return.
   */
  lemma RunsAreAtomic(run: seq<State>, i: nat)
    requires IsRun(run) && i < |run|
    ensures var s := run[i];
            && (forall n :: 0 <= n < |s.log| ==> EventAnswer(s.log[n], Replay(s.initial, s.log, n)))
            && Replay(s.initial, s.log, |s.log|) == s.redis
            && (forall k :: 0 <= k < |s.history| ==> ReturnedOk(s, s.history[k]))
            && (forall j, k :: 0 <= j < k < |s.history| ==> s.history[j].at != s.history[k].at)
  {
    RunKeepsInv(run, i);
  }

  // ---- real-time order ----

  lemma FirstCommandHistory(s: State, t: ThreadId, s': State)
    requires FirstCommand(s, t, s')
    ensures s.history == s'.history
  {
  }

  lemma HistoryStep(s: State, s': State)
    requires Next(s, s')
    ensures s.history <= s'.history
  {
    if t :| FirstCommand(s, t, s') {
      FirstCommandHistory(s, t, s');
    }
  }

  lemma {:induction false} HistoryOnlyGrows(run: seq<State>, i: nat, k: nat)
    requires IsRun(run) && i <= k < |run|
    ensures run[i].history <= run[k].history
  {
    hide Next;
    if i < k {
      HistoryOnlyGrows(run, i, k - 1);
      assert Next(run[k - 1], run[k - 1 + 1]);
      HistoryStep(run[k - 1], run[k]);
    }
  }

  /** Whatever the thread has under way, or returned after the first h returns, it called after n events. */
  ghost predicate CalledAfter(s: State, t: ThreadId, n: nat, h: nat) {
    && n <= |s.log| && h <= |s.history|
    && (t in s.threads && !s.threads[t].Idle? ==> s.threads[t].since >= n)
    && forall j :: h <= j < |s.history| && s.history[j].caller == t ==> s.history[j].since >= n
  }

  lemma FirstCommandCalledAfter(s: State, u: ThreadId, s': State, t: ThreadId, n: nat, h: nat)
    requires FirstCommand(s, u, s') && CalledAfter(s, t, n, h)
    ensures CalledAfter(s', t, n, h)
  {
  }

  lemma ScanOneCalledAfter(s: State, u: ThreadId, k: JobId, s': State, t: ThreadId, n: nat, h: nat)
    requires ScanOne(s, u, k, s') && CalledAfter(s, t, n, h)
    ensures CalledAfter(s', t, n, h)
  {
    assert s'.threads[u].since == s.threads[u].since;
  }

  lemma UnlockCalledAfter(s: State, u: ThreadId, s': State, t: ThreadId, n: nat, h: nat)
    requires Unlock(s, u, s') && CalledAfter(s, t, n, h)
    ensures CalledAfter(s', t, n, h)
  {
  }

  lemma CalledAfterStep(s: State, s': State, t: ThreadId, n: nat, h: nat)
    requires Next(s, s') && CalledAfter(s, t, n, h)
    ensures CalledAfter(s', t, n, h)
  {
    if u :| FirstCommand(s, u, s') {
      FirstCommandCalledAfter(s, u, s', t, n, h);
    } else if u, k :| ScanOne(s, u, k, s') {
      ScanOneCalledAfter(s, u, k, s', t, n, h);
    } else if u :| Unlock(s, u, s') {
      UnlockCalledAfter(s, u, s', t, n, h);
    }
  }

  lemma {:induction false} CalledAfterRun(run: seq<State>, k: nat, m: nat, t: ThreadId, n: nat, h: nat)
    requires IsRun(run) && k <= m < |run| && CalledAfter(run[k], t, n, h)
    ensures CalledAfter(run[m], t, n, h)
  {
    hide Next, CalledAfter;
    if k < m {
      CalledAfterRun(run, k, m - 1, t, n, h);
      assert Next(run[m - 1], run[m - 1 + 1]);
      CalledAfterStep(run[m - 1], run[m], t, n, h);
    }
  }

  /**
   * Real-time order: a call that returns (as number j) after it was made at step k comes later
   * in the order of events than every call that had returned by then.
   */
  lemma LaterCallsTakeEffectLater(run: seq<State>, k: nat, m: nat, t: ThreadId, op: Operation, i: nat, j: nat)
    requires IsRun(run) && k < m < |run| && Call(run[k], t, op, run[k + 1])
    requires i < |run[k].history| <= j < |run[m].history| && run[m].history[j].caller == t
    ensures i < |run[m].history| && run[m].history[i] == run[k].history[i]
    ensures run[m].history[i].at < run[m].history[j].at < |run[m].log|
  {
    RunKeepsInv(run, k);
    RunKeepsInv(run, m);
    HistoryOnlyGrows(run, k, m);
    hide Next;
    assert CalledAfter(run[k + 1], t, |run[k].log|, |run[k].history|);
    CalledAfterRun(run, k + 1, m, t, |run[k].log|, |run[k].history|);
    assert ReturnedOk(run[k], run[k].history[i]) && ReturnedOk(run[m], run[m].history[j]);
  }
}
