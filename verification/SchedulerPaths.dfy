/** Finite continuations of the scheduler protocol, with or without faults. */
module SchedulerPaths {
  import opened Wrappers
  import opened Jobs
  import opened JobCacheEntries
  import opened SchedulerProtocol

  /** A call that errs, or a crash. */
  predicate Fails(a: Action) {
    match a
    case ACrash => true
    case ADequeue(decodes) => !decodes
    case AFailBeforeSend(_) => true
    case ASendRefused(_) => true
    case ARecordError(ok) => !ok
    case ARecordHash(ok) => !ok
    case AListPending(ok) => !ok
    case AOpenChain(_, ok) => !ok
    case ACheckReceipt(_, answer) => answer.Unavailable?
    case ADropEntry(ok) => !ok
    case AFailEntry(ok) => !ok
    case AListForSync(ok) => !ok
    case AUpdateRow(_, ok) => !ok
    case ADropSynced(ok) => !ok
    case ALoadActive(ok) => !ok
    case AAbortPass => true
    case AMarkCompleted(ok) => !ok
    case AAddEntry(ok) => !ok
    case APush(ok) => !ok
    case AUndo(ok) => !ok
    case _ => false
  }

  ghost predicate Moves(s: State, t: State, faults: bool) {
    exists a :: (faults || !Fails(a)) && Step(s, a, t)
  }

  ghost predicate IsPath(path: seq<State>, faults: bool) {
    path != [] && forall i :: 0 <= i < |path| - 1 ==> Moves(path[i], path[i + 1], faults)
  }

  /** t can come after s; without faults, if faults is false. */
  ghost predicate Leads(s: State, t: State, faults: bool) {
    exists path :: IsPath(path, faults) && path[0] == s && path[|path| - 1] == t
  }

  lemma StaysPut(s: State, faults: bool)
    ensures Leads(s, s, faults)
  {
    assert IsPath([s], faults);
  }

  lemma Joined(s: State, m: State, t: State, faults: bool)
    requires Leads(s, m, faults) && Leads(m, t, faults)
    ensures Leads(s, t, faults)
  {
    hide Moves;
    var first :| IsPath(first, faults) && first[0] == s && first[|first| - 1] == m;
    var second :| IsPath(second, faults) && second[0] == m && second[|second| - 1] == t;
    var path := first + second[1..];
    forall i | 0 <= i < |path| - 1 ensures Moves(path[i], path[i + 1], faults) {
      if i < |first| - 1 {
        assert Moves(first[i], first[i + 1], faults);
      } else {
        var j := i - (|first| - 1);
        assert Moves(second[j], second[j + 1], faults);
        assert path[i] == second[j] && path[i + 1] == second[j + 1];
      }
    }
    assert path[|path| - 1] == t;
  }

  lemma OneStep(s: State, a: Action, t: State, faults: bool)
    requires (faults || !Fails(a)) && Step(s, a, t)
    ensures Leads(s, t, faults)
  {
    hide Step, Fails;
    assert Moves(s, t, faults);
    assert IsPath([s, t], faults);
  }

  lemma Then(start: State, s: State, a: Action, t: State, faults: bool)
    requires Leads(start, s, faults) && (faults || !Fails(a)) && Step(s, a, t)
    ensures Leads(start, t, faults)
  {
    hide Step, Fails, Leads;
    OneStep(s, a, t, faults);
    Joined(start, s, t, faults);
  }

  lemma ThenWorker(start: State, s: State, a: Action, t: State, faults: bool)
    requires Leads(start, s, faults) && (faults || !Fails(a)) && WorkerStep(s, a, t)
    ensures Leads(start, t, faults)
  {
    hide WorkerStep, Leads, Fails;
    Then(start, s, a, t, faults);
  }

  lemma ThenReceipt(start: State, s: State, a: Action, t: State, faults: bool)
    requires Leads(start, s, faults) && (faults || !Fails(a)) && ReceiptStep(s, a, t)
    ensures Leads(start, t, faults)
  {
    hide ReceiptStep, Leads, Fails;
    Then(start, s, a, t, faults);
  }

  lemma ThenSync(start: State, s: State, a: Action, t: State, faults: bool)
    requires Leads(start, s, faults) && (faults || !Fails(a)) && SyncStep(s, a, t)
    ensures Leads(start, t, faults)
  {
    hide SyncStep, Leads, Fails;
    Then(start, s, a, t, faults);
  }

  lemma ThenFilter(start: State, s: State, a: Action, t: State, faults: bool)
    requires Leads(start, s, faults) && (faults || !Fails(a)) && FilterStep(s, a, t)
    ensures Leads(start, t, faults)
  {
    hide FilterStep, Leads, Fails;
    Then(start, s, a, t, faults);
  }

  lemma ThenEnqueue(start: State, s: State, a: Action, t: State, faults: bool)
    requires Leads(start, s, faults) && (faults || !Fails(a)) && EnqueueStep(s, a, t)
    ensures Leads(start, t, faults)
  {
    hide EnqueueStep, Leads, Fails;
    Then(start, s, a, t, faults);
  }

  lemma FaultsMayStayAway(s: State, t: State)
    requires Leads(s, t, false)
    ensures Leads(s, t, true)
  {
    hide Step, Fails;
    var path :| IsPath(path, false) && path[0] == s && path[|path| - 1] == t;
    forall i | 0 <= i < |path| - 1 ensures Moves(path[i], path[i + 1], true) {
      assert Moves(path[i], path[i + 1], false);
    }
    assert IsPath(path, true);
  }

  /** A run goes on along any continuation of one of its states. */
  lemma RunGoesOn(run: seq<State>, i: nat, t: State) returns (longer: seq<State>)
    requires IsRun(run) && i < |run| && Leads(run[i], t, true)
    ensures IsRun(longer) && i < |longer| && longer[i] == run[i] && longer[|longer| - 1] == t
  {
    hide Step, Fails;
    var path :| IsPath(path, true) && path[0] == run[i] && path[|path| - 1] == t;
    longer := run[..i + 1] + path[1..];
    forall k | 0 <= k < |longer| - 1 ensures Next(longer[k], longer[k + 1]) {
      if k < i {
        assert Next(run[k], run[k + 1]);
      } else {
        assert Moves(path[k - i], path[k - i + 1], true);
        assert longer[k] == path[k - i] && longer[k + 1] == path[k - i + 1];
      }
    }
    assert longer[|longer| - 1] == t;
  }
}
