/**
 * The values of src/repository/job_cache.go and what each repository operation does to the
 * status entries, as one atomic change of one map.
 */
module JobCacheEntries {
  import opened Wrappers
  import opened Jobs

  /** A 32-byte hash; zero is the zero hash, which means "not sent yet". */
  type Hash = nat
  const ZERO_HASH: Hash := 0

  datatype CacheJobStatus = CachePending | CacheFailed | CacheCompleted

  datatype JobCache = JobCache(
    jobID: JobId,
    chainID: int,
    userOpHash: Hash,
    status: CacheJobStatus,
    error: string)

  /** The status entries, by the job id inside the Redis key. */
  type Entries = map<JobId, JobCache>

  /** What SetJobStatus writes: a fresh entry, so chain id and hash go back to zero. */
  function StatusEntry(id: JobId, status: CacheJobStatus, message: Option<string>): JobCache {
    JobCache(id, 0, ZERO_HASH, status, message.GetOr(""))
  }

  /** What pollJobLogic adds for a job it is about to enqueue. */
  function NewEntry(job: EntityJob): JobCache {
    JobCache(job.id, job.chainID, ZERO_HASH, CachePending, "")
  }

  function WithHash(entries: Entries, id: JobId, hash: Hash): Entries {
    if id in entries then entries[id := entries[id].(userOpHash := hash)] else entries
  }

  function WithStatus(entries: Entries, status: CacheJobStatus): Entries {
    map id | id in entries && entries[id].status == status :: entries[id]
  }

  datatype CacheStatistics = CacheStatistics(pending: nat, failed: nat, completed: nat, total: nat)

  /** The counts by status; the total is their sum, as the repository computes it. */
  function StatisticsOf(entries: Entries): CacheStatistics {
    var p, f := |WithStatus(entries, CachePending)|, |WithStatus(entries, CacheFailed)|;
    var c := |WithStatus(entries, CacheCompleted)|;
    CacheStatistics(p, f, c, p + f + c)
  }

  /** The repository operations on status entries. */
  datatype Operation =
    | Get(id: JobId)
    | SetStatus(id: JobId, status: CacheJobStatus, message: Option<string>)
    | Delete(id: JobId)
    | Add(entry: JobCache)
    | UpdateHash(id: JobId, hash: Hash)
    | ListByStatus(status: CacheJobStatus)
    | Statistics
  {
    /** Runs under Lock; the others run under RLock. */
    predicate Writes() {
      SetStatus? || Delete? || Add? || UpdateHash?
    }
  }

  datatype Answer =
    | Error
    | Done
    | OneEntry(entry: JobCache)
    | Listing(entries: Entries)
    | Counts(stats: CacheStatistics)

  /** The answer of an operation that meets no Redis error. */
  function AnswerOf(op: Operation, m: Entries): Answer {
    match op
    case Get(id) => if id in m then OneEntry(m[id]) else Error
    case UpdateHash(id, _) => if id in m then Done else Error
    case ListByStatus(status) => Listing(WithStatus(m, status))
    case Statistics => Counts(StatisticsOf(m))
    case _ => Done
  }

  /** The entries after an operation that meets no Redis error. */
  function EffectOf(op: Operation, m: Entries): Entries {
    match op
    case SetStatus(id, status, message) => m[id := StatusEntry(id, status, message)]
    case Delete(id) => m - {id}
    case Add(entry) => m[entry.jobID := entry]
    case UpdateHash(id, hash) => WithHash(m, id, hash)
    case _ => m
  }

  lemma KeysWithStatus(m: Entries, status: CacheJobStatus)
    ensures |WithStatus(m, status)| == |set id | id in m && m[id].status == status|
  {
    assert WithStatus(m, status).Keys == set id | id in m && m[id].status == status;
  }

  lemma DisjointSum(a: set<JobId>, b: set<JobId>, c: set<JobId>)
    requires a !! b !! c
    ensures |a + b + c| == |a| + |b| + |c|
  {
  }

  lemma NoneVisited(m: Entries)
    ensures forall status :: |WithStatus(m - m.Keys, status)| == 0
  {
    assert m - m.Keys == map[];
  }

  lemma InsertOne(m: Entries, k: JobId, e: JobCache, status: CacheJobStatus)
    requires k !in m
    ensures WithStatus(m[k := e], status) ==
            if e.status == status then WithStatus(m, status)[k := e] else WithStatus(m, status)
    ensures |WithStatus(m[k := e], status)| == |WithStatus(m, status)| + if e.status == status then 1 else 0
  {
    var before, after := WithStatus(m, status), WithStatus(m[k := e], status);
    if e.status == status {
      assert after == before[k := e];
    } else {
      assert after == before;
    }
  }

  /** Visiting one more key adds its entry to the list of its status and to no other. */
  lemma VisitOne(m: Entries, keys: set<JobId>, k: JobId, status: CacheJobStatus)
    requires k in keys && k in m
    ensures WithStatus(m - (keys - {k}), status) ==
            if m[k].status == status then WithStatus(m - keys, status)[k := m[k]] else WithStatus(m - keys, status)
    ensures |WithStatus(m - (keys - {k}), status)| ==
            |WithStatus(m - keys, status)| + if m[k].status == status then 1 else 0
  {
    hide WithStatus;
    assert m - (keys - {k}) == (m - keys)[k := m[k]];
    InsertOne(m - keys, k, m[k], status);
  }

  /** Each status has its own entries and together they are all entries. */
  lemma ListsPartitionEntries(m: Entries)
    ensures WithStatus(m, CachePending).Keys + WithStatus(m, CacheFailed).Keys + WithStatus(m, CacheCompleted).Keys
            == m.Keys
    ensures WithStatus(m, CachePending).Keys !! WithStatus(m, CacheFailed).Keys !! WithStatus(m, CacheCompleted).Keys
    ensures StatisticsOf(m).total == |m|
  {
    var p, f, c := WithStatus(m, CachePending), WithStatus(m, CacheFailed), WithStatus(m, CacheCompleted);
    assert p.Keys + f.Keys + c.Keys == m.Keys;
    DisjointSum(p.Keys, f.Keys, c.Keys);
    assert |p| == |p.Keys| && |f| == |f.Keys| && |c| == |c.Keys| && |m| == |m.Keys|;
  }

  /** The statistics are the numbers of entries of each status, and of all. */
  lemma StatisticsCount(m: Entries)
    ensures var stats := StatisticsOf(m);
            && stats.total == |m|
            && stats.pending == |set id | id in m && m[id].status == CachePending|
            && stats.failed == |set id | id in m && m[id].status == CacheFailed|
            && stats.completed == |set id | id in m && m[id].status == CacheCompleted|
  {
    hide WithStatus;
    ListsPartitionEntries(m);
    KeysWithStatus(m, CachePending);
    KeysWithStatus(m, CacheFailed);
    KeysWithStatus(m, CacheCompleted);
  }

  /** UpdateJobCacheUserOpHash creates no entry and changes nothing but one hash. */
  lemma UpdateHashOnlyMovesHash(m: Entries, id: JobId, hash: Hash)
    ensures var n := EffectOf(UpdateHash(id, hash), m);
            && n.Keys == m.Keys
            && (forall k :: k in m ==> n[k].(userOpHash := ZERO_HASH) == m[k].(userOpHash := ZERO_HASH))
            && (forall k :: k in m && k != id ==> n[k] == m[k])
            && (AnswerOf(UpdateHash(id, hash), m) == Done <==> id in m)
            && (id in m ==> n[id].userOpHash == hash)
  {
  }
}
