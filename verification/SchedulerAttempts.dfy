/**
 * When SendUserOperation is attempted again for a job: never after an attempt that brought no
 * operation to the chain, and otherwise only once the operation of the last attempt has succeeded.
 */
module SchedulerAttempts {
  import opened Wrappers
  import opened Jobs
  import opened JobCacheEntries
  import opened SchedulerProtocol
  import opened SchedulerInvariant
  import opened SchedulerTheorems

  ghost predicate PendingEntry(s: State, id: JobId) {
    id in s.cache && s.cache[id].status == CachePending
  }

  /** The poller has cached the job but not yet pushed it. */
  ghost predicate BeingPushed(s: State, id: JobId) {
    (s.poller.Pushing? || s.poller.Undoing?) && s.poller.job.id == id
  }

  /** No copy can be sent, and a pending entry waits for a receipt or for the zero-hash branch. */
  ghost predicate Settling(s: State, id: JobId)
    requires id in s.db
  {
    && !Unsent(s, id)
    && (Outcome(s, id).Some? || (PendingEntry(s, id) && (s.cache[id].userOpHash == ZERO_HASH ==> !BeingPushed(s, id))))
  }

  ghost predicate Reverted(s: State, hash: Hash) {
    hash in s.mined && !s.mined[hash]
  }

  /** Nothing of the job can succeed any more: what the entry or the worker still waits for has reverted. */
  ghost predicate Spent(s: State, id: JobId)
    requires id in s.db
  {
    && Settling(s, id)
    && (PendingEntry(s, id) && s.cache[id].userOpHash != ZERO_HASH ==> Reverted(s, s.cache[id].userOpHash))
    && (s.worker.Sent? && s.worker.job.id == id && s.worker.hash != ZERO_HASH ==> Reverted(s, s.worker.hash))
  }

  /** The job's receipt has not come, and until it comes no copy is set up. */
  ghost predicate Awaiting(s: State, id: JobId)
    requires id in s.db && id in s.ledger
  {
    Settling(s, id) && !Succeeded(s, s.ledger[id].lastHash)
  }

  /** A settled job stays settled, without a send, unless the receipt of a successful operation frees it. */
  ghost predicate StaysSettled(s: State, t: State, id: JobId)
    requires id in s.db && id in s.ledger
  {
    && id in t.db && id in t.ledger && t.ledger[id].sends == s.ledger[id].sends
      && t.ledger[id].lastHash == s.ledger[id].lastHash
    && Settling(t, id)
    && (Spent(s, id) ==> Spent(t, id))
  }

  lemma MineSettled(s: State, hash: Hash, success: bool, t: State, id: JobId)
    requires Shape(s) && Mine(s, hash, success, t) && id in s.db && JobOk(s, id) && Settling(s, id)
    ensures StaysSettled(s, t, id)
  {
    hide JobOk, AllKnown, Known;
  }

  lemma EnvironmentSettled(s: State, a: Action, t: State, id: JobId)
    requires Shape(s) && EnvironmentStep(s, a, t) && id in s.db && JobOk(s, id) && Settling(s, id)
    ensures StaysSettled(s, t, id)
  {
    if a.AMine? { MineSettled(s, a.hash, a.success, t, id); }
  }

  lemma WorkerSettled(s: State, a: Action, t: State, id: JobId)
    requires Shape(s) && WorkerStep(s, a, t) && id in s.db && JobOk(s, id) && Settling(s, id)
    ensures StaysSettled(s, t, id)
  {
    hide AllKnown, Known;
    if a.ADequeue? { CopiesLast(s.queue, id); }
  }

  lemma DropSettled(s: State, ok: bool, t: State, id: JobId)
    requires Shape(s) && DropEntry(s, ok, t) && id in s.db && JobOk(s, id) && Settling(s, id)
    requires Spent(s, id) || Awaiting(s, id)
    ensures StaysSettled(s, t, id)
  {
    hide AllKnown, Known;
  }

  lemma FailSettled(s: State, ok: bool, t: State, id: JobId)
    requires Shape(s) && FailEntry(s, ok, t) && id in s.db && JobOk(s, id) && Settling(s, id)
    ensures StaysSettled(s, t, id)
  {
    hide AllKnown, Known;
  }

  lemma ReceiptSettled(s: State, a: Action, t: State, id: JobId)
    requires Shape(s) && ReceiptStep(s, a, t) && id in s.db && JobOk(s, id) && Settling(s, id)
    requires Spent(s, id) || Awaiting(s, id)
    ensures StaysSettled(s, t, id)
  {
    if a.ADropEntry? { DropSettled(s, a.ok, t, id); }
    else if a.AFailEntry? { FailSettled(s, a.ok, t, id); }
    else { assert t == s.(poller := t.poller); }
  }

  lemma UpdateRowSettled(s: State, k: JobId, ok: bool, t: State, id: JobId)
    requires Shape(s) && UpdateRow(s, k, ok, t) && id in s.db && JobOk(s, id) && Settling(s, id)
    requires k in s.db ==> PollerOk(s, k)
    ensures StaysSettled(s, t, id)
  {
    hide AllKnown, Known;
  }

  lemma DropSyncedSettled(s: State, ok: bool, t: State, id: JobId)
    requires Shape(s) && DropSynced(s, ok, t) && id in s.db && JobOk(s, id) && Settling(s, id)
    ensures StaysSettled(s, t, id)
  {
    hide AllKnown, Known;
  }

  lemma SyncSettled(s: State, a: Action, t: State, id: JobId)
    requires Shape(s) && SyncStep(s, a, t) && id in s.db && JobOk(s, id) && Settling(s, id)
    requires a.AUpdateRow? && a.id in s.db ==> PollerOk(s, a.id)
    ensures StaysSettled(s, t, id)
  {
    if a.AUpdateRow? { UpdateRowSettled(s, a.id, a.ok, t, id); }
    else if a.ADropSynced? { DropSyncedSettled(s, a.ok, t, id); }
    else { assert t == s.(poller := t.poller); }
  }

  lemma FilterSettled(s: State, a: Action, t: State, id: JobId)
    requires Shape(s) && FilterStep(s, a, t) && id in s.db && JobOk(s, id) && Settling(s, id)
    ensures StaysSettled(s, t, id)
  {
    hide AllKnown, Known;
    if a.AMarkCompleted? { assert MarkCompleted(s, a.ok, t); }
    else { assert t == s.(poller := t.poller); }
  }

  lemma AddEntrySettled(s: State, ok: bool, t: State, id: JobId)
    requires Shape(s) && AddEntry(s, ok, t) && id in s.db && JobOk(s, id) && Settling(s, id)
    ensures StaysSettled(s, t, id)
  {
    hide AllKnown, Known;
    assert s.poller.ready[0] in s.poller.ready;
  }

  lemma PushSettled(s: State, ok: bool, t: State, id: JobId)
    requires Shape(s) && Push(s, ok, t) && id in s.db && JobOk(s, id) && Settling(s, id)
    ensures StaysSettled(s, t, id)
  {
    hide AllKnown, Known;
  }

  lemma UndoSettled(s: State, ok: bool, t: State, id: JobId)
    requires Shape(s) && Undo(s, ok, t) && id in s.db && JobOk(s, id) && Settling(s, id)
    ensures StaysSettled(s, t, id)
  {
    hide AllKnown, Known;
  }

  lemma EnqueueSettled(s: State, a: Action, t: State, id: JobId)
    requires Shape(s) && EnqueueStep(s, a, t) && id in s.db && JobOk(s, id) && Settling(s, id)
    ensures StaysSettled(s, t, id)
  {
    if a.AAddEntry? { AddEntrySettled(s, a.ok, t, id); }
    else if a.APush? { PushSettled(s, a.ok, t, id); }
    else if a.AUndo? { UndoSettled(s, a.ok, t, id); }
    else { assert t == s.(poller := t.poller); }
  }

  lemma NextSettled(s: State, t: State, id: JobId)
    requires Inv(s) && Next(s, t) && id in s.db && id in s.ledger && Settling(s, id)
    requires Spent(s, id) || Awaiting(s, id)
    ensures StaysSettled(s, t, id)
  {
    hide Settling, Spent, StaysSettled;
    assert JobOk(s, id);
    var a :| Step(s, a, t);
    if EnvironmentStep(s, a, t) { EnvironmentSettled(s, a, t, id); }
    else if WorkerStep(s, a, t) { WorkerSettled(s, a, t, id); }
    else if ReceiptStep(s, a, t) { ReceiptSettled(s, a, t, id); }
    else if SyncStep(s, a, t) {
      if a.AUpdateRow? { assert JobOk(s, a.id); }
      SyncSettled(s, a, t, id);
    }
    else if FilterStep(s, a, t) { FilterSettled(s, a, t, id); }
    else { EnqueueSettled(s, a, t, id); }
  }

  // ---- attempts that bring nothing to the chain ----

  lemma SpentIsSettling(s: State, id: JobId)
    requires id in s.db && Spent(s, id)
    ensures Settling(s, id)
  {
  }

  lemma {:induction false} SpentForever(run: seq<State>, i: nat, k: nat, id: JobId)
    requires IsRun(run) && i <= k < |run| && id in run[i].db && id in run[i].ledger && Spent(run[i], id)
    ensures id in run[k].db && id in run[k].ledger && Spent(run[k], id)
    ensures run[k].ledger[id].sends == run[i].ledger[id].sends
  {
    hide Spent, Next, Inv;
    if i < k {
      SpentForever(run, i, k - 1, id);
      RunKeepsInv(run, k - 1);
      assert Next(run[k - 1], run[k - 1 + 1]);
      SpentIsSettling(run[k - 1], id);
      NextSettled(run[k - 1], run[k], id);
    }
  }

  /** An execution of the job that ends with an error, or with a hash that stands for no operation. */
  ghost predicate Fruitless(s: State, a: Action, id: JobId) {
    s.worker.Running? && s.worker.job.id == id
      && (a.AFailBeforeSend? || a.ASendRefused? || a == ASendAccepted(ZERO_HASH))
  }

  ghost predicate IsSend(s: State, a: Action, id: JobId) {
    s.worker.Running? && s.worker.job.id == id && (a.ASendRefused? || a.ASendAccepted?)
  }

  lemma ExecutingIsWorkerStep(s: State, a: Action, t: State)
    requires Step(s, a, t) && (a.AFailBeforeSend? || a.ASendRefused? || a.ASendAccepted?)
    ensures WorkerStep(s, a, t)
  {
  }

  lemma ExecutedSettles(s: State, a: Action, t: State, id: JobId)
    requires Shape(s) && WorkerStep(s, a, t) && id in s.db && JobOk(s, id) && (Fruitless(s, a, id) || IsSend(s, a, id))
    ensures id in t.db && id in t.ledger && Settling(t, id)
    ensures Fruitless(s, a, id) ==> Spent(t, id)
  {
  }

  lemma FruitlessSpends(s: State, a: Action, t: State, id: JobId)
    requires Inv(s) && Step(s, a, t) && Fruitless(s, a, id)
    ensures id in t.db && id in t.ledger && Spent(t, id)
  {
    hide Step, WorkerStep, Spent, Settling;
    assert id in s.db && JobOk(s, id);
    ExecutingIsWorkerStep(s, a, t);
    ExecutedSettles(s, a, t, id);
  }

  /**
   * An execution that fails before SendUserOperation, or whose submission is refused, is final:
   * whatever follows, its failure being recorded or not, the job is not sent again.
   */
  lemma RefusedIsFinal(run: seq<State>, i: nat, k: nat, a: Action, id: JobId)
    requires IsRun(run) && i < k < |run| && Step(run[i], a, run[i + 1]) && Fruitless(run[i], a, id)
    ensures id in run[i + 1].ledger && id in run[k].ledger
    ensures run[k].ledger[id].sends == run[i + 1].ledger[id].sends
  {
    hide Step, Fruitless, Spent, Inv;
    RunKeepsInv(run, i);
    FruitlessSpends(run[i], a, run[i + 1], id);
    SpentForever(run, i + 1, k, id);
  }

  // ---- a further attempt needs a success ----

  /** Once sent, a job waits for its outcome or its last operation has succeeded. */
  ghost predicate Answered(s: State, id: JobId)
    requires id in s.db && id in s.ledger
  {
    s.ledger[id].sends > 0 ==> Succeeded(s, s.ledger[id].lastHash) || Settling(s, id)
  }

  lemma SendSettles(s: State, a: Action, t: State, id: JobId)
    requires Inv(s) && Step(s, a, t) && IsSend(s, a, id)
    ensures id in t.db && id in t.ledger && Settling(t, id)
  {
    hide Step, WorkerStep, Spent, Settling;
    assert id in s.db && JobOk(s, id);
    ExecutingIsWorkerStep(s, a, t);
    ExecutedSettles(s, a, t, id);
  }

  /** The count of attempts and the last hash are as before, and an operation that succeeded has succeeded. */
  ghost predicate NotSent(s: State, t: State, id: JobId)
    requires id in s.ledger
  {
    && id in t.ledger && t.ledger[id].sends == s.ledger[id].sends && t.ledger[id].lastHash == s.ledger[id].lastHash
    && (Succeeded(s, s.ledger[id].lastHash) ==> Succeeded(t, t.ledger[id].lastHash))
  }

  lemma EnvironmentNotSent(s: State, a: Action, t: State, id: JobId)
    requires Shape(s) && EnvironmentStep(s, a, t) && id in s.db
    ensures id in t.db && NotSent(s, t, id)
  {
  }

  lemma WorkerNotSent(s: State, a: Action, t: State, id: JobId)
    requires Shape(s) && WorkerStep(s, a, t) && !IsSend(s, a, id) && id in s.db
    ensures id in t.db && NotSent(s, t, id)
  {
  }

  lemma ReceiptNotSent(s: State, a: Action, t: State, id: JobId)
    requires ReceiptStep(s, a, t) && id in s.db && id in s.ledger
    ensures id in t.db && NotSent(s, t, id)
  {
    assert t.ledger == s.ledger && t.mined == s.mined;
  }

  lemma PassNotSent(s: State, a: Action, t: State, id: JobId)
    requires SyncStep(s, a, t) || EnqueueStep(s, a, t)
    requires id in s.db && id in s.ledger
    ensures id in t.db && NotSent(s, t, id)
  {
    assert t.ledger == s.ledger && t.mined == s.mined;
  }

  lemma FilterNotSent(s: State, a: Action, t: State, id: JobId)
    requires FilterStep(s, a, t) && id in s.db && id in s.ledger
    ensures id in t.db && NotSent(s, t, id)
  {
    if a.AFilterJob? { assert t == s.(poller := t.poller); }
  }

  lemma OnlySendsCount(s: State, a: Action, t: State, id: JobId)
    requires Shape(s) && Step(s, a, t) && !IsSend(s, a, id) && id in s.db
    ensures id in t.db && NotSent(s, t, id)
  {
    hide NotSent, IsSend;
    if EnvironmentStep(s, a, t) { EnvironmentNotSent(s, a, t, id); }
    else if WorkerStep(s, a, t) { WorkerNotSent(s, a, t, id); }
    else if FilterStep(s, a, t) { FilterNotSent(s, a, t, id); }
    else if ReceiptStep(s, a, t) { ReceiptNotSent(s, a, t, id); }
    else { PassNotSent(s, a, t, id); }
  }

  lemma ShapeOf(s: State)
    requires Inv(s)
    ensures Shape(s)
  {
  }

  lemma SettledAfter(s: State, t: State, id: JobId)
    requires id in s.db && id in s.ledger && StaysSettled(s, t, id)
    ensures id in t.db && Settling(t, id)
  {
  }

  lemma AnsweredStep(s: State, a: Action, t: State, id: JobId)
    requires Inv(s) && Step(s, a, t) && id in s.db && id in s.ledger && Answered(s, id)
    ensures id in t.db && id in t.ledger && Answered(t, id)
  {
    hide Step, Settling, IsSend, Inv, StaysSettled;
    if IsSend(s, a, id) {
      SendSettles(s, a, t, id);
    } else {
      ShapeOf(s);
      OnlySendsCount(s, a, t, id);
      if s.ledger[id].sends > 0 && !Succeeded(s, s.ledger[id].lastHash) {
        assert Next(s, t);
        NextSettled(s, t, id);
        SettledAfter(s, t, id);
      }
    }
  }

  lemma ReceiptKeys(s: State, a: Action, t: State)
    requires ReceiptStep(s, a, t)
    ensures t.db == s.db
  {
  }

  lemma SyncKeys(s: State, a: Action, t: State)
    requires SyncStep(s, a, t)
    ensures t.db.Keys == s.db.Keys
  {
  }

  lemma FilterKeys(s: State, a: Action, t: State)
    requires FilterStep(s, a, t)
    ensures t.db == s.db
  {
    if a.AFilterJob? { assert t == s.(poller := t.poller); }
  }

  /** Only a registration makes a row. */
  lemma KeysStay(s: State, a: Action, t: State)
    requires Shape(s) && Step(s, a, t) && !a.ARegister?
    ensures t.db.Keys == s.db.Keys
  {
    hide EnvironmentStep, WorkerStep, ReceiptStep, SyncStep, FilterStep, EnqueueStep, Shape;
    if EnvironmentStep(s, a, t) { EnvironmentShape(s, a, t); }
    else if WorkerStep(s, a, t) { WorkerShape(s, a, t); }
    else if ReceiptStep(s, a, t) { ReceiptKeys(s, a, t); }
    else if SyncStep(s, a, t) { SyncKeys(s, a, t); }
    else if FilterStep(s, a, t) { FilterKeys(s, a, t); }
    else { EnqueueShape(s, a, t); }
  }

  lemma NewJobAnswered(s: State, a: Action, t: State, id: JobId)
    requires Inv(s) && Step(s, a, t) && id !in s.db && id in t.db
    ensures id in t.ledger && Answered(t, id)
  {
    if a.ARegister? {
      assert Register(s, a.job, a.total, a.completed, t);
    } else {
      KeysStay(s, a, t);
    }
  }

  lemma {:induction false} AnsweredRun(run: seq<State>, i: nat, id: JobId)
    requires IsRun(run) && i < |run| && id in run[i].db
    ensures id in run[i].ledger && Answered(run[i], id)
  {
    hide Answered, Step, Inv;
    if i > 0 {
      RunKeepsInv(run, i - 1);
      assert Next(run[i - 1], run[i - 1 + 1]);
      var a :| Step(run[i - 1], a, run[i]);
      if id in run[i - 1].db {
        AnsweredRun(run, i - 1, id);
        AnsweredStep(run[i - 1], a, run[i], id);
      } else {
        NewJobAnswered(run[i - 1], a, run[i], id);
      }
    }
  }

  /**
   * SendUserOperation is attempted again for a job only after the operation of its last attempt
   * has succeeded on the chain.
   */
  lemma NextAttemptNeedsSuccess(run: seq<State>, i: nat, a: Action, t: State, id: JobId)
    requires IsRun(run) && i < |run| && Step(run[i], a, t) && IsSend(run[i], a, id)
    ensures id in run[i].ledger
    ensures var s := run[i];
            s.ledger[id].sends > 0 ==>
              && s.ledger[id].lastHash in s.issued && s.issued[s.ledger[id].lastHash].id == id
              && s.ledger[id].lastHash in s.mined && s.mined[s.ledger[id].lastHash]
  {
    hide Step;
    RunKeepsInv(run, i);
    assert JobOk(run[i], id);
    AnsweredRun(run, i, id);
  }

  lemma RevertedSpends(s: State, id: JobId)
    requires Inv(s) && id in s.db && id in s.ledger && Settling(s, id) && Reverted(s, s.ledger[id].lastHash)
    ensures Spent(s, id)
  {
    assert JobOk(s, id);
  }

  /** An operation that reverts on the chain is final: from then on the job is not sent again. */
  lemma RevertedIsFinal(run: seq<State>, i: nat, k: nat, id: JobId)
    requires IsRun(run) && i <= k < |run| && id in run[i].db
    requires id in run[i].ledger && run[i].ledger[id].sends > 0 && Reverted(run[i], run[i].ledger[id].lastHash)
    ensures id in run[k].ledger && run[k].ledger[id].sends == run[i].ledger[id].sends
  {
    RunKeepsInv(run, i);
    AnsweredRun(run, i, id);
    RevertedSpends(run[i], id);
    SpentForever(run, i, k, id);
  }
}
