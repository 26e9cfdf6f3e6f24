/** What every run of the scheduler protocol guarantees. */
module SchedulerTheorems {
  import opened Wrappers
  import opened Jobs
  import opened JobCacheEntries
  import opened SchedulerProtocol
  import opened SchedulerInvariant

  // ---- bounded sends ----

  /**
   * In every interleaving, with any faults and crashes, SendUserOperation is attempted for a job
   * at most as often as it had executions left when it was registered, and never more than one
   * attempt ahead of the executions that the chain has added since.
   */
  lemma BoundedSends(run: seq<State>, i: nat, id: JobId)
    requires IsRun(run) && i < |run| && id in run[i].db
    ensures id in run[i].ledger
    ensures run[i].ledger[id].sends <= if run[i].ledger[id].total < run[i].ledger[id].start then 0
                                       else run[i].ledger[id].total - run[i].ledger[id].start
    ensures run[i].ledger[id].sends <= run[i].ledger[id].completed - run[i].ledger[id].start + 1
  {
    RunKeepsInv(run, i);
    assert JobOk(run[i], id);
  }

  /** A job is completed, in the cache or in the table, only when the chain has counted all its executions. */
  lemma CompletedIsTrue(run: seq<State>, i: nat, id: JobId)
    requires IsRun(run) && i < |run| && id in run[i].db
    requires run[i].db[id].status == DBCompleted || (id in run[i].cache && run[i].cache[id].status == CacheCompleted)
    ensures id in run[i].ledger && run[i].ledger[id].completed >= run[i].ledger[id].total
  {
    RunKeepsInv(run, i);
    assert JobOk(run[i], id);
  }

  // ---- one copy ----

  /** A job is in the queue or with the worker at most once, and is then accounted for. */
  lemma OneOutstandingCopy(run: seq<State>, i: nat, id: JobId)
    requires IsRun(run) && i < |run| && id in run[i].db
    ensures Outstanding(run[i], id) <= 1
    ensures Outstanding(run[i], id) == 1 ==>
              || (id in run[i].cache && run[i].cache[id].status != CacheCompleted)
              || run[i].db[id].status == DBFailed
  {
    RunKeepsInv(run, i);
    assert JobOk(run[i], id);
  }

  // ---- pending entries and the receipts asked for ----

  lemma PendingEntryWellFormed(run: seq<State>, i: nat, id: JobId)
    requires IsRun(run) && i < |run| && id in run[i].cache && run[i].cache[id].status == CachePending
    ensures var s, e := run[i], run[i].cache[id];
            && e.jobID == id && id in s.db && e.chainID == s.db[id].chainID && s.db[id].status == DBQueuing
            && (e.userOpHash != ZERO_HASH ==>
                  && Outstanding(s, id) == 0
                  && id in s.ledger && s.ledger[id].lastHash == e.userOpHash
                  && e.userOpHash in s.issued && s.issued[e.userOpHash] == SentOperation(id, e.chainID))
  {
    RunKeepsInv(run, i);
    assert JobOk(run[i], id);
  }

  /**
   * Whenever the poller, working from its old list, asks for a receipt, it asks the job's chain
   * about the operation of that job's latest send.
   */
  lemma ReceiptAskedAboutLatestSend(run: seq<State>, i: nat, id: JobId, answer: ReceiptAnswer, t: State)
    requires IsRun(run) && i < |run| && CheckReceipt(run[i], id, answer, t)
    requires run[i].poller.todo[id].userOpHash != ZERO_HASH
    ensures var s, e := run[i], run[i].poller.todo[id];
            && id in s.db && s.poller.chain == Some(s.db[id].chainID)
            && id in s.ledger && s.ledger[id].lastHash == e.userOpHash
            && e.userOpHash in s.issued && s.issued[e.userOpHash] == SentOperation(id, s.db[id].chainID)
  {
    RunKeepsInv(run, i);
    assert id in run[i].db && JobOk(run[i], id);
  }

  // ---- terminal outcomes ----

  /** Failed or completed, in the table or still only in the cache. */
  ghost function Outcome(s: State, id: JobId): Option<DBJobStatus>
    requires id in s.db
  {
    if s.db[id].status != DBQueuing then Some(s.db[id].status)
    else if id in s.cache && s.cache[id].status != CachePending then Some(DBStatusOf(s.cache[id].status))
    else None
  }

  /** Send attempts made or still possible from the copy that is out. */
  ghost function Committed(s: State, id: JobId): nat
    requires id in s.ledger
  {
    s.ledger[id].sends + if Unsent(s, id) then 1 else 0
  }

  /** An outcome stays, the row only ever takes it over, and no further send is set up. */
  ghost predicate OutcomeStays(s: State, t: State, id: JobId)
    requires id in s.db && id in s.ledger
  {
    && id in t.db && id in t.ledger
    && (t.db[id].status != s.db[id].status ==> Outcome(s, id) == Some(t.db[id].status))
    && (Outcome(s, id).Some? ==> Outcome(t, id) == Outcome(s, id) && Committed(t, id) <= Committed(s, id))
  }

  lemma WorkerOutcome(s: State, a: Action, t: State, id: JobId)
    requires Shape(s) && WorkerStep(s, a, t) && id in s.db && JobOk(s, id)
    ensures OutcomeStays(s, t, id)
  {
    if a.ADequeue? { CopiesLast(s.queue, id); }
  }

  lemma EnvironmentOutcome(s: State, a: Action, t: State, id: JobId)
    requires Shape(s) && EnvironmentStep(s, a, t) && id in s.db && JobOk(s, id)
    ensures OutcomeStays(s, t, id)
  {
  }

  lemma ReceiptOutcome(s: State, a: Action, t: State, id: JobId)
    requires Shape(s) && ReceiptStep(s, a, t) && id in s.db && JobOk(s, id)
    ensures OutcomeStays(s, t, id)
  {
    if a.ADropEntry? { assert DropEntry(s, a.ok, t); }
    else if a.AFailEntry? { assert FailEntry(s, a.ok, t); }
    else if a.ACheckReceipt? { assert t == s.(poller := t.poller); }
    else { assert t == s.(poller := t.poller); }
  }

  lemma SyncOutcome(s: State, a: Action, t: State, id: JobId)
    requires Shape(s) && SyncStep(s, a, t) && id in s.db && JobOk(s, id)
    requires a.AUpdateRow? && a.id in s.db ==> PollerOk(s, a.id)
    ensures OutcomeStays(s, t, id)
  {
  }

  lemma FilterOutcome(s: State, a: Action, t: State, id: JobId)
    requires Shape(s) && FilterStep(s, a, t) && id in s.db && JobOk(s, id)
    ensures OutcomeStays(s, t, id)
  {
    if a.AMarkCompleted? { assert MarkCompleted(s, a.ok, t); }
    else if a.AFilterJob? { assert t == s.(poller := t.poller); }
    else { assert t == s.(poller := t.poller); }
  }

  lemma EnqueueOutcome(s: State, a: Action, t: State, id: JobId)
    requires Shape(s) && EnqueueStep(s, a, t) && id in s.db && JobOk(s, id)
    ensures OutcomeStays(s, t, id)
  {
    hide AllKnown, Known;
    if a.AAddEntry? && a.ok {
      assert s.poller.ready[0] in s.poller.ready;
    }
  }

  lemma NextOutcome(s: State, t: State, id: JobId)
    requires Inv(s) && Next(s, t) && id in s.db
    ensures OutcomeStays(s, t, id)
  {
    assert JobOk(s, id);
    var a :| Step(s, a, t);
    if EnvironmentStep(s, a, t) { EnvironmentOutcome(s, a, t, id); }
    else if WorkerStep(s, a, t) { WorkerOutcome(s, a, t, id); }
    else if ReceiptStep(s, a, t) { ReceiptOutcome(s, a, t, id); }
    else if SyncStep(s, a, t) {
      if a.AUpdateRow? { assert JobOk(s, a.id); }
      SyncOutcome(s, a, t, id);
    }
    else if FilterStep(s, a, t) { FilterOutcome(s, a, t, id); }
    else { EnqueueOutcome(s, a, t, id); }
  }

  /**
   * Once a job is failed or completed, in the cache or in the table, it is so with the same
   * outcome ever after; a terminal row never changes; and at most the one copy that is already
   * out can still be sent.
   */
  lemma {:induction false} OutcomeIsFinal(run: seq<State>, i: nat, k: nat, id: JobId)
    requires IsRun(run) && i <= k < |run| && id in run[i].db && Outcome(run[i], id).Some?
    ensures id in run[k].db && id in run[k].ledger && id in run[i].ledger
    ensures Outcome(run[k], id) == Outcome(run[i], id)
    ensures run[i].db[id].status != DBQueuing ==> run[k].db[id].status == run[i].db[id].status
    ensures run[k].ledger[id].sends <= Committed(run[i], id)
    ensures Committed(run[k], id) <= Committed(run[i], id)
  {
    RunKeepsInv(run, i);
    if k > i {
      OutcomeIsFinal(run, i, k - 1, id);
      RunKeepsInv(run, k - 1);
      assert Next(run[k - 1], run[k - 1 + 1]);
      NextOutcome(run[k - 1], run[k], id);
    }
  }

  // ---- first in, first out ----

  /** The queue as Redis holds it, read from the BRPop end. */
  function OldestFirst(q: seq<EntityJob>): seq<EntityJob> {
    if q == [] then [] else OldestFirst(q[1..]) + [q[0]]
  }

  lemma {:induction false} OldestFirstPop(q: seq<EntityJob>)
    requires q != []
    ensures OldestFirst(q) == [q[|q| - 1]] + OldestFirst(q[..|q| - 1])
  {
    if |q| > 1 {
      OldestFirstPop(q[1..]);
      assert q[1..][..|q| - 2] == q[..|q| - 1][1..];
    }
  }

  ghost predicate Fifo(s: State) {
    s.enqueued == s.dequeued + OldestFirst(s.queue)
  }

  /** What the bound speaks of is fixed at registration; counters never go back. */
  ghost predicate LedgerGrows(s: State, t: State) {
    forall id :: id in s.ledger ==>
      && id in t.ledger
      && t.ledger[id].total == s.ledger[id].total && t.ledger[id].start == s.ledger[id].start
      && s.ledger[id].completed <= t.ledger[id].completed && s.ledger[id].sends <= t.ledger[id].sends
  }

  lemma EnvironmentLedger(s: State, a: Action, t: State)
    requires Shape(s) && EnvironmentStep(s, a, t)
    ensures LedgerGrows(s, t) && (Fifo(s) ==> Fifo(t))
  {
  }

  lemma WorkerLedger(s: State, a: Action, t: State)
    requires WorkerStep(s, a, t)
    ensures LedgerGrows(s, t) && (Fifo(s) ==> Fifo(t))
  {
    if a.ADequeue? { OldestFirstPop(s.queue); }
  }

  lemma ReceiptLedger(s: State, a: Action, t: State)
    requires ReceiptStep(s, a, t)
    ensures LedgerGrows(s, t) && (Fifo(s) ==> Fifo(t))
  {
    if a.ADropEntry? { assert t.ledger == s.ledger && t.queue == s.queue; }
    else if a.AFailEntry? { assert t.ledger == s.ledger && t.queue == s.queue; }
    else if a.ACheckReceipt? { assert t == s.(poller := t.poller); }
    else { assert t == s.(poller := t.poller); }
  }

  lemma SyncLedger(s: State, a: Action, t: State)
    requires SyncStep(s, a, t)
    ensures LedgerGrows(s, t) && (Fifo(s) ==> Fifo(t))
  {
  }

  lemma FilterJobLedger(s: State, id: JobId, now: int, t: State)
    requires FilterJob(s, id, now, t)
    ensures LedgerGrows(s, t) && (Fifo(s) ==> Fifo(t))
  {
    assert t == s.(poller := t.poller);
  }

  lemma FilterLedger(s: State, a: Action, t: State)
    requires FilterStep(s, a, t)
    ensures LedgerGrows(s, t) && (Fifo(s) ==> Fifo(t))
  {
    if a.AFilterJob? { FilterJobLedger(s, a.id, a.now, t); }
    else if a.AMarkCompleted? { assert t.ledger == s.ledger && t.queue == s.queue; }
    else { assert t == s.(poller := t.poller); }
  }

  lemma PushFifo(s: State, ok: bool, t: State)
    requires Push(s, ok, t)
    ensures Fifo(s) ==> Fifo(t)
  {
    if ok && Fifo(s) {
      assert t.queue[1..] == s.queue;
      assert t.enqueued == s.dequeued + (OldestFirst(s.queue) + [s.poller.job]);
    }
  }

  lemma EnqueueLedger(s: State, a: Action, t: State)
    requires EnqueueStep(s, a, t)
    ensures LedgerGrows(s, t) && (Fifo(s) ==> Fifo(t))
  {
    assert t.ledger == s.ledger;
    if a.APush? { PushFifo(s, a.ok, t); }
    else { assert t.queue == s.queue && t.enqueued == s.enqueued && t.dequeued == s.dequeued; }
  }

  lemma NextLedger(s: State, t: State)
    requires Inv(s) && Next(s, t)
    ensures LedgerGrows(s, t) && (Fifo(s) ==> Fifo(t))
  {
    var a :| Step(s, a, t);
    if EnvironmentStep(s, a, t) { EnvironmentLedger(s, a, t); }
    else if WorkerStep(s, a, t) { WorkerLedger(s, a, t); }
    else if ReceiptStep(s, a, t) { ReceiptLedger(s, a, t); }
    else if SyncStep(s, a, t) { SyncLedger(s, a, t); }
    else if FilterStep(s, a, t) { FilterLedger(s, a, t); }
    else { EnqueueLedger(s, a, t); }
  }

  /** Pops come in push order and nothing is lost or repeated: crashes do not disturb the queue. */
  lemma {:induction false} QueueIsFifo(run: seq<State>, i: nat)
    requires IsRun(run) && i < |run|
    ensures Fifo(run[i])
  {
    if i == 0 {
      assert run[0].dequeued + [] == [];
    } else {
      QueueIsFifo(run, i - 1);
      RunKeepsInv(run, i - 1);
      assert Next(run[i - 1], run[i - 1 + 1]);
      NextLedger(run[i - 1], run[i]);
    }
  }

  lemma {:induction false} LedgerOnlyGrows(run: seq<State>, i: nat, k: nat)
    requires IsRun(run) && i <= k < |run|
    ensures LedgerGrows(run[i], run[k])
  {
    if i < k {
      LedgerOnlyGrows(run, i, k - 1);
      RunKeepsInv(run, k - 1);
      assert Next(run[k - 1], run[k - 1 + 1]);
      NextLedger(run[k - 1], run[k]);
    }
  }
}
