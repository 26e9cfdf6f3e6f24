/**
 * GetClient, GetBundlerClient and Close of src/service/blockchain.go for any number of threads:
 * the check under RLock, the second check under Lock, dialling and storing under Lock, and Close
 * closing every pooled client under Lock. Both pools share one RWMutex.
 */
module ClientPool {
  import opened Wrappers
  import opened ExecutionConfigs

  type ThreadId = nat

  /** A dialled connection; only identity matters. */
  type Connection = nat

  datatype Pool = RPC | Bundler
  datatype Key = Key(pool: Pool, chainId: int)

  /** A key between two Closes; epochs are separated by Closes. */
  datatype Slot = Slot(epoch: nat, key: Key)

  datatype Thread =
    | Idle
    | WantsRead(key: Key)
    | Reading(key: Key)                            // RLock
    | Hit(slot: Slot, client: Connection)          // RLock, found on the first check
    | Missed(key: Key)                             // no lock: the window between RUnlock and Lock
    | Writing(key: Key)                            // Lock, before the second check
    | Dialling(key: Key)                           // Lock, missed twice
    | Storing(slot: Slot, client: Connection)      // Lock, dialled
    | Done(slot: Slot, answer: Option<Connection>) // Lock, before the deferred unlock
    | WantsClose
    | Closing(pool: Pool, left: set<Connection>)   // Lock, closing the clients of one pool
    | Closed                                       // Lock, before the deferred unlock

  datatype Return = Return(slot: Slot, client: Connection)

  datatype State = State(
    pool: map<Key, Connection>,
    writer: Option<ThreadId>,
    readers: set<ThreadId>,
    threads: map<ThreadId, Thread>,
    dialled: map<Connection, Slot>,    // every successful dial, with its slot
    closed: set<Connection>,
    epoch: nat,
    stored: map<Slot, Connection>,   // what each slot was stored with
    returned: seq<Return>)             // every client handed to a caller

  ghost predicate Initial(s: State) {
    && s.pool == map[] && s.writer == None && s.readers == {} && s.dialled == map[] && s.closed == {}
    && s.stored == map[] && s.returned == [] && forall t :: t in s.threads ==> s.threads[t] == Idle
  }

  function Move(s: State, t: ThreadId, th: Thread): State {
    s.(threads := s.threads[t := th])
  }

  function Clients(s: State, pool: Pool): set<Connection> {
    set k | k in s.pool && k.pool == pool :: s.pool[k]
  }

  ghost predicate Call(s: State, t: ThreadId, call: Thread, s': State) {
    && t in s.threads && s.threads[t].Idle? && (call.WantsRead? || call.WantsClose?)
    && s' == Move(s, t, call)
  }

  ghost predicate RLock(s: State, t: ThreadId, s': State) {
    && t in s.threads && s.threads[t].WantsRead? && s.writer.None?
    && s' == Move(s, t, Reading(s.threads[t].key)).(readers := s.readers + {t})
  }

  ghost predicate FirstCheck(s: State, t: ThreadId, s': State) {
    && t in s.threads && s.threads[t].Reading?
    && var key := s.threads[t].key;
       s' == if key in s.pool then Move(s, t, Hit(Slot(s.epoch, key), s.pool[key]))
             else Move(s, t, Missed(key)).(readers := s.readers - {t})
  }

  ghost predicate ReturnHit(s: State, t: ThreadId, s': State) {
    && t in s.threads && s.threads[t].Hit?
    && s' == Move(s, t, Idle).(readers := s.readers - {t},
                               returned := s.returned + [Return(s.threads[t].slot, s.threads[t].client)])
  }

  ghost predicate Lock(s: State, t: ThreadId, s': State) {
    && t in s.threads && s.writer.None? && s.readers == {}
    && match s.threads[t] {
         case Missed(key) => s' == Move(s, t, Writing(key)).(writer := Some(t))
         case WantsClose => s' == Move(s, t, Closing(RPC, Clients(s, RPC))).(writer := Some(t))
         case _ => false
       }
  }

  ghost predicate SecondCheck(s: State, t: ThreadId, s': State) {
    && t in s.threads && s.threads[t].Writing?
    && var key := s.threads[t].key;
       s' == Move(s, t, if key in s.pool then Done(Slot(s.epoch, key), Some(s.pool[key]))
                        else if SupportedChain(key.chainId) then Dialling(key)
                        else Done(Slot(s.epoch, key), None))
  }

  ghost predicate Dial(s: State, t: ThreadId, client: Option<Connection>, s': State) {
    && t in s.threads && s.threads[t].Dialling?
    && var slot := Slot(s.epoch, s.threads[t].key);
       match client {
         case None => s' == Move(s, t, Done(slot, None))
         case Some(c) => c !in s.dialled && s' == Move(s, t, Storing(slot, c)).(dialled := s.dialled[c := slot])
       }
  }

  ghost predicate Store(s: State, t: ThreadId, s': State) {
    && t in s.threads && s.threads[t].Storing?
    && var slot, client := s.threads[t].slot, s.threads[t].client;
       s' == Move(s, t, Done(slot, Some(client))).(pool := s.pool[slot.key := client],
                                                   stored := s.stored[slot := client])
  }

  ghost predicate ReturnDone(s: State, t: ThreadId, s': State) {
    && t in s.threads && s.threads[t].Done?
    && var th := s.threads[t];
       s' == Move(s, t, Idle).(writer := None,
                               returned := if th.answer.Some? then s.returned + [Return(th.slot, th.answer.value)]
                                 else s.returned)
  }

  ghost predicate CloseOne(s: State, t: ThreadId, client: Connection, s': State) {
    && t in s.threads && s.threads[t].Closing? && client in s.threads[t].left
    && s' == Move(s, t, Closing(s.threads[t].pool, s.threads[t].left - {client})).(closed := s.closed + {client})
  }

  /** The pool just closed becomes nil; after the bundlers Close is done and a new epoch begins. */
  ghost predicate DropPool(s: State, t: ThreadId, s': State) {
    && t in s.threads && s.threads[t].Closing? && s.threads[t].left == {}
    && var pool := s.threads[t].pool;
       var rest := map k | k in s.pool && k.pool != pool :: s.pool[k];
       s' == if pool.RPC? then Move(s, t, Closing(Bundler, Clients(s, Bundler))).(pool := rest)
             else Move(s, t, Closed).(pool := rest, epoch := s.epoch + 1)
  }

  ghost predicate UnlockClose(s: State, t: ThreadId, s': State) {
    t in s.threads && s.threads[t].Closed? && s' == Move(s, t, Idle).(writer := None)
  }

  ghost predicate ReadStep(s: State, t: ThreadId, s': State) {
    (exists call :: Call(s, t, call, s')) || RLock(s, t, s') || FirstCheck(s, t, s') || ReturnHit(s, t, s')
  }

  ghost predicate WriteStep(s: State, t: ThreadId, s': State) {
    || Lock(s, t, s') || SecondCheck(s, t, s') || (exists client :: Dial(s, t, client, s')) || Store(s, t, s')
    || ReturnDone(s, t, s')
  }

  ghost predicate CloseStep(s: State, t: ThreadId, s': State) {
    (exists client :: CloseOne(s, t, client, s')) || DropPool(s, t, s') || UnlockClose(s, t, s')
  }

  ghost predicate Next(s: State, s': State) {
    exists t :: ReadStep(s, t, s') || WriteStep(s, t, s') || CloseStep(s, t, s')
  }

  ghost predicate IsRun(run: seq<State>) {
    && run != [] && Initial(run[0])
    && forall i :: 0 <= i < |run| - 1 ==> Next(run[i], run[i + 1])
  }

  // ---- invariant ----

  ghost predicate HoldsLock(th: Thread) {
    th.Writing? || th.Dialling? || th.Storing? || th.Done? || th.Closing? || th.Closed?
  }

  ghost predicate HoldsRLock(th: Thread) {
    th.Reading? || th.Hit?
  }

  ghost predicate StoredAs(s: State, slot: Slot, client: Connection) {
    slot in s.stored && s.stored[slot] == client
  }

  ghost predicate ThreadOk(s: State, t: ThreadId)
    requires t in s.threads
  {
    var th := s.threads[t];
    && (HoldsLock(th) <==> s.writer == Some(t))
    && (HoldsRLock(th) <==> t in s.readers)
    && match th
       case Hit(slot, client) => StoredAs(s, slot, client)
       case Dialling(key) => key !in s.pool && SupportedChain(key.chainId)
       case Storing(slot, client) =>
         && slot.epoch == s.epoch && slot.key !in s.pool && SupportedChain(slot.key.chainId)
         && client in s.dialled && s.dialled[client] == slot && client !in s.closed
       case Done(slot, answer) => answer.Some? ==> StoredAs(s, slot, answer.value)
       case Closing(pool, left) =>
         && left == Clients(s, pool) - s.closed
         && (pool.Bundler? ==> forall k :: k in s.pool ==> k.pool.Bundler?)
       case _ => true
  }

  ghost predicate IsClosing(s: State) {
    s.writer.Some? && s.writer.value in s.threads && s.threads[s.writer.value].Closing?
  }

  /** The client is dialled and about to be stored. */
  ghost predicate InHand(s: State, c: Connection) {
    s.writer.Some? && s.writer.value in s.threads && s.threads[s.writer.value].Storing?
      && s.threads[s.writer.value].client == c
  }

  ghost predicate Pooled(s: State, c: Connection) {
    c in s.dialled && s.dialled[c].key in s.pool && s.pool[s.dialled[c].key] == c
  }

  ghost predicate PoolOk(s: State) {
    && (forall k :: k in s.pool ==>
          && s.pool[k] in s.dialled && s.dialled[s.pool[k]] == Slot(s.epoch, k) && SupportedChain(k.chainId)
          && StoredAs(s, Slot(s.epoch, k), s.pool[k])
          && (s.pool[k] in s.closed ==> IsClosing(s) && s.threads[s.writer.value].pool == k.pool))
  }

  ghost predicate DialsOk(s: State) {
    && s.closed <= s.dialled.Keys
    && (forall c :: c in s.closed ==> s.dialled[c].epoch < s.epoch || IsClosing(s))
    && (forall c :: c in s.dialled ==> s.dialled[c].epoch <= s.epoch && (c in s.closed || Pooled(s, c) || InHand(s, c)))
    && (forall c, d :: c in s.dialled && d in s.dialled && s.dialled[c] == s.dialled[d] ==> c == d)
    && (forall slot :: slot in s.stored ==> s.stored[slot] in s.dialled && s.dialled[s.stored[slot]] == slot)
  }

  ghost predicate ThreadsOk(s: State) {
    && (s.writer.Some? ==> s.readers == {} && s.writer.value in s.threads)
    && s.readers <= s.threads.Keys
    && (forall t :: t in s.threads ==> ThreadOk(s, t))
  }

  ghost predicate ReturnsOk(s: State) {
    forall i :: 0 <= i < |s.returned| ==> StoredAs(s, s.returned[i].slot, s.returned[i].client)
  }

  ghost predicate Inv(s: State) {
    ThreadsOk(s) && PoolOk(s) && DialsOk(s) && ReturnsOk(s)
  }

  lemma CallKeeps(s: State, t: ThreadId, call: Thread, s': State)
    requires Inv(s) && Call(s, t, call, s')
    ensures Inv(s')
  {
    assert ThreadOk(s, t);
    forall u | u in s'.threads ensures ThreadOk(s', u) { assert ThreadOk(s, u); }
  }

  lemma RLockKeeps(s: State, t: ThreadId, s': State)
    requires Inv(s) && RLock(s, t, s')
    ensures Inv(s')
  {
    assert ThreadOk(s, t);
    forall u | u in s'.threads ensures ThreadOk(s', u) { assert ThreadOk(s, u); }
  }

  lemma FirstCheckKeeps(s: State, t: ThreadId, s': State)
    requires Inv(s) && FirstCheck(s, t, s')
    ensures Inv(s')
  {
    assert ThreadOk(s, t);
    forall u | u in s'.threads ensures ThreadOk(s', u) { assert ThreadOk(s, u); }
  }

  lemma ReturnHitKeeps(s: State, t: ThreadId, s': State)
    requires Inv(s) && ReturnHit(s, t, s')
    ensures Inv(s')
  {
    assert ThreadOk(s, t);
    forall u | u in s'.threads ensures ThreadOk(s', u) { assert ThreadOk(s, u); }
  }

  lemma LockThreads(s: State, t: ThreadId, s': State)
    requires Inv(s) && Lock(s, t, s')
    ensures ThreadsOk(s')
  {
    assert ThreadOk(s, t);
    forall u | u in s'.threads ensures ThreadOk(s', u) { assert ThreadOk(s, u); }
  }

  lemma LockKeeps(s: State, t: ThreadId, s': State)
    requires Inv(s) && Lock(s, t, s')
    ensures Inv(s')
  {
    assert ThreadOk(s, t);
    LockThreads(s, t, s');
  }

  lemma SecondCheckKeeps(s: State, t: ThreadId, s': State)
    requires Inv(s) && SecondCheck(s, t, s')
    ensures Inv(s')
  {
    assert ThreadOk(s, t);
    forall u | u in s'.threads ensures ThreadOk(s', u) { assert ThreadOk(s, u); }
  }

  lemma DialThreads(s: State, t: ThreadId, client: Option<Connection>, s': State)
    requires Inv(s) && Dial(s, t, client, s')
    ensures ThreadsOk(s')
  {
    assert ThreadOk(s, t);
    forall u | u in s'.threads ensures ThreadOk(s', u) { assert ThreadOk(s, u); }
  }

  lemma DialDials(s: State, t: ThreadId, client: Option<Connection>, s': State)
    requires Inv(s) && Dial(s, t, client, s')
    ensures DialsOk(s')
  {
    assert ThreadOk(s, t);
  }

  lemma DialKeeps(s: State, t: ThreadId, client: Option<Connection>, s': State)
    requires Inv(s) && Dial(s, t, client, s')
    ensures Inv(s')
  {
    DialThreads(s, t, client, s');
    DialDials(s, t, client, s');
    assert ThreadOk(s, t);
  }

  lemma StoreThreads(s: State, t: ThreadId, s': State)
    requires Inv(s) && Store(s, t, s')
    ensures ThreadsOk(s')
  {
    assert ThreadOk(s, t);
    forall u | u in s'.threads ensures ThreadOk(s', u) { assert ThreadOk(s, u); }
  }

  lemma StoreDials(s: State, t: ThreadId, s': State)
    requires Inv(s) && Store(s, t, s')
    ensures DialsOk(s')
  {
    assert ThreadOk(s, t);
  }

  lemma StoreKeeps(s: State, t: ThreadId, s': State)
    requires Inv(s) && Store(s, t, s')
    ensures Inv(s')
  {
    StoreThreads(s, t, s');
    StoreDials(s, t, s');
    assert ThreadOk(s, t);
  }

  lemma ReturnDoneKeeps(s: State, t: ThreadId, s': State)
    requires Inv(s) && ReturnDone(s, t, s')
    ensures Inv(s')
  {
    assert ThreadOk(s, t);
    forall u | u in s'.threads ensures ThreadOk(s', u) { assert ThreadOk(s, u); }
  }

  lemma CloseOneThreads(s: State, t: ThreadId, client: Connection, s': State)
    requires Inv(s) && CloseOne(s, t, client, s')
    ensures ThreadsOk(s')
  {
    assert ThreadOk(s, t);
    forall u | u in s'.threads ensures ThreadOk(s', u) { assert ThreadOk(s, u); }
  }

  lemma CloseOneKeeps(s: State, t: ThreadId, client: Connection, s': State)
    requires Inv(s) && CloseOne(s, t, client, s')
    ensures Inv(s')
  {
    assert ThreadOk(s, t);
    CloseOneThreads(s, t, client, s');
  }

  lemma AllClosed(s: State, t: ThreadId)
    requires Inv(s) && t in s.threads && s.threads[t].Closing? && s.threads[t].left == {}
    ensures forall k :: k in s.pool && k.pool == s.threads[t].pool ==> s.pool[k] in s.closed
  {
    assert ThreadOk(s, t);
    var pool := s.threads[t].pool;
    forall k | k in s.pool && k.pool == pool ensures s.pool[k] in s.closed {
      assert s.pool[k] in Clients(s, pool) && s.pool[k] !in Clients(s, pool) - s.closed;
    }
  }

  lemma DropPoolSelf(s: State, t: ThreadId, s': State)
    requires Inv(s) && DropPool(s, t, s')
    ensures t in s'.threads && s'.writer == Some(t) && ThreadOk(s', t)
  {
    assert ThreadOk(s, t);
    if s.threads[t].pool.RPC? {
      assert Clients(s', Bundler) == Clients(s, Bundler);
    }
  }

  lemma DropPoolThreads(s: State, t: ThreadId, s': State)
    requires Inv(s) && DropPool(s, t, s')
    ensures ThreadsOk(s')
  {
    DropPoolSelf(s, t, s');
    hide PoolOk, DialsOk, ReturnsOk, Clients;
    forall u | u in s'.threads && u != t ensures ThreadOk(s', u) { assert ThreadOk(s, u); }
  }

  lemma DropPoolDials(s: State, t: ThreadId, s': State)
    requires Inv(s) && DropPool(s, t, s')
    ensures DialsOk(s')
  {
    assert ThreadOk(s, t);
    AllClosed(s, t);
  }

  lemma DropPoolPool(s: State, t: ThreadId, s': State)
    requires Inv(s) && DropPool(s, t, s')
    ensures PoolOk(s') && ReturnsOk(s')
  {
    assert ThreadOk(s, t);
  }

  lemma DropPoolKeeps(s: State, t: ThreadId, s': State)
    requires Inv(s) && DropPool(s, t, s')
    ensures Inv(s')
  {
    DropPoolThreads(s, t, s');
    DropPoolDials(s, t, s');
    DropPoolPool(s, t, s');
  }

  lemma UnlockCloseKeeps(s: State, t: ThreadId, s': State)
    requires Inv(s) && UnlockClose(s, t, s')
    ensures Inv(s')
  {
    assert ThreadOk(s, t);
    forall u | u in s'.threads ensures ThreadOk(s', u) { assert ThreadOk(s, u); }
  }

  lemma NextKeepsInv(s: State, s': State)
    requires Inv(s) && Next(s, s')
    ensures Inv(s')
  {
    var t :| ReadStep(s, t, s') || WriteStep(s, t, s') || CloseStep(s, t, s');
    if call :| Call(s, t, call, s') { CallKeeps(s, t, call, s'); }
    else if RLock(s, t, s') { RLockKeeps(s, t, s'); }
    else if FirstCheck(s, t, s') { FirstCheckKeeps(s, t, s'); }
    else if ReturnHit(s, t, s') { ReturnHitKeeps(s, t, s'); }
    else if Lock(s, t, s') { LockKeeps(s, t, s'); }
    else if SecondCheck(s, t, s') { SecondCheckKeeps(s, t, s'); }
    else if client :| Dial(s, t, client, s') { DialKeeps(s, t, client, s'); }
    else if Store(s, t, s') { StoreKeeps(s, t, s'); }
    else if ReturnDone(s, t, s') { ReturnDoneKeeps(s, t, s'); }
    else if client :| CloseOne(s, t, client, s') { CloseOneKeeps(s, t, client, s'); }
    else if DropPool(s, t, s') { DropPoolKeeps(s, t, s'); }
    else { UnlockCloseKeeps(s, t, s'); }
  }

  lemma {:induction false} RunKeepsInv(run: seq<State>, i: nat)
    requires IsRun(run) && i < |run|
    ensures Inv(run[i])
  {
    if i > 0 {
      RunKeepsInv(run, i - 1);
      assert Next(run[i - 1], run[i - 1 + 1]);
      NextKeepsInv(run[i - 1], run[i]);
    }
  }

  // ---- what every run guarantees ----

  /** Between two Closes a chain is successfully dialled at most once per pool. */
  lemma DialledOncePerSlot(run: seq<State>, i: nat, c: Connection, d: Connection)
    requires IsRun(run) && i < |run| && c in run[i].dialled && d in run[i].dialled
    requires run[i].dialled[c] == run[i].dialled[d]
    ensures c == d
  {
    RunKeepsInv(run, i);
  }

  /** Between two Closes every caller of a chain is given the same client, which was dialled for it. */
  lemma SameClientForAll(run: seq<State>, i: nat, j: nat, k: nat)
    requires IsRun(run) && i < |run| && j < |run[i].returned| && k < |run[i].returned|
    requires run[i].returned[j].slot == run[i].returned[k].slot
    ensures run[i].returned[j].client == run[i].returned[k].client
    ensures run[i].returned[j].client in run[i].dialled
    ensures run[i].dialled[run[i].returned[j].client] == run[i].returned[j].slot
  {
    RunKeepsInv(run, i);
  }

  /** When no thread holds the lock, every client ever dialled is in the pool or closed, and not both. */
  lemma NoClientLeaks(run: seq<State>, i: nat)
    requires IsRun(run) && i < |run| && run[i].writer.None?
    ensures run[i].dialled.Keys == run[i].pool.Values + run[i].closed
    ensures run[i].pool.Values !! run[i].closed
  {
    RunKeepsInv(run, i);
    var s := run[i];
    forall c | c in s.dialled ensures c in s.pool.Values || c in s.closed {
      if c !in s.closed { assert Pooled(s, c); }
    }
  }
}
