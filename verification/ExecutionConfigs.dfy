/** src/service/blockchain.go: pooled clients and the readers of the on-chain job record. */
module ExecutionConfigs {
  import opened Wrappers
  import opened Bytes
  import opened Jobs

  const SCHEDULED_TRANSFERS := "0xA8E374779aeE60413c974b484d6509c7E4DDb6bA"
  const SCHEDULED_ORDERS := "0x40dc90D670C89F322fa8b9f685770296428DCb6b"

  /** Sepolia, Arbitrum Sepolia, Base Sepolia, Optimism Sepolia, Polygon Amoy, Arbitrum One, Base. */
  predicate SupportedChain(chainId: int) {
    chainId in {11155111, 421614, 84532, 11155420, 80002, 42161, 8453}
  }

  /** getContractAddress */
  function ContractAddress(jobType: DBJobType): Option<string> {
    match jobType
    case Transfer => Some(SCHEDULED_TRANSFERS)
    case Swap => Some(SCHEDULED_ORDERS)
    case Other(_) => None
  }

  /** A fixed state of the chains: which can be dialled and what executionLog answers (None is an error). */
  datatype Chains = Chains(
    dials: int -> bool,
    executionLog: (int, string, Address, int) -> Option<ExecutionConfig>)

  datatype Client = Client(chainId: int, serial: nat)

  predicate Reachable(chains: Chains, pooled: set<int>, chainId: int) {
    chainId in pooled || (SupportedChain(chainId) && chains.dials(chainId))
  }

  /** What reading one job gives. */
  function ConfigOf(chains: Chains, pooled: set<int>, job: EntityJob): Option<ExecutionConfig> {
    var contract := ContractAddress(job.jobType);
    if !Reachable(chains, pooled, job.chainID) || contract.None? then None
    else chains.executionLog(job.chainID, contract.value, job.accountAddress, job.onChainJobID)
  }

  /**
   * The record of a job, spelled out: on which chains, at which contract and under which account
   * and on-chain id it is read. None is a failure.
   */
  ghost predicate ReadsAs(chains: Chains, pooled: set<int>, job: EntityJob, config: Option<ExecutionConfig>) {
    var listed := {11155111, 421614, 84532, 11155420, 80002, 42161, 8453};
    var up := job.chainID in pooled || (job.chainID in listed && chains.dials(job.chainID));
    match job.jobType
    case Transfer =>
      config == if up then chains.executionLog(job.chainID, "0xA8E374779aeE60413c974b484d6509c7E4DDb6bA",
                                               job.accountAddress, job.onChainJobID) else None
    case Swap =>
      config == if up then chains.executionLog(job.chainID, "0x40dc90D670C89F322fa8b9f685770296428DCb6b",
                                               job.accountAddress, job.onChainJobID) else None
    case Other(_) => config == None
  }

  /** ConfigOf is that record, and fails exactly when there is none. */
  lemma ConfigReadsAs(chains: Chains, pooled: set<int>, job: EntityJob)
    ensures forall config :: ReadsAs(chains, pooled, job, config) <==> config == ConfigOf(chains, pooled, job)
  {
  }

  predicate AllReadable(chains: Chains, pooled: set<int>, jobs: seq<EntityJob>) {
    forall job :: job in jobs ==> ConfigOf(chains, pooled, job).Some?
  }

  predicate DistinctJobs(jobs: seq<EntityJob>) {
    forall i, j :: 0 <= i < j < |jobs| ==> jobs[i].id != jobs[j].id
  }

  datatype GroupKey = GroupKey(chainId: int, jobType: DBJobType)

  function KeyOf(job: EntityJob): GroupKey {
    GroupKey(job.chainID, job.jobType)
  }

  type Configs = map<JobId, ExecutionConfig>

  ghost predicate IsGrouping(jobs: seq<EntityJob>, groups: map<GroupKey, seq<EntityJob>>) {
    && (forall job :: job in jobs ==> KeyOf(job) in groups && job in groups[KeyOf(job)])
    && (forall key, job :: key in groups && job in groups[key] ==> job in jobs && KeyOf(job) == key)
    && (forall key :: key in groups ==> groups[key] != [] && (DistinctJobs(jobs) ==> DistinctJobs(groups[key])))
  }

  lemma AddToGrouping(jobs: seq<EntityJob>, i: nat, groups: map<GroupKey, seq<EntityJob>>, group: seq<EntityJob>)
    requires i < |jobs| && IsGrouping(jobs[..i], groups)
    requires group == if KeyOf(jobs[i]) in groups then groups[KeyOf(jobs[i])] else []
    ensures IsGrouping(jobs[..i + 1], groups[KeyOf(jobs[i]) := group + [jobs[i]]])
  {
    assert jobs[..i + 1] == jobs[..i] + [jobs[i]];
    if DistinctJobs(jobs[..i + 1]) {
      assert DistinctJobs(jobs[..i]) by {
        assert forall a :: 0 <= a < i ==> jobs[..i][a] == jobs[..i + 1][a];
      }
      forall a | 0 <= a < |group| ensures group[a].id != jobs[i].id {
        assert group[a] in group && group[a] in jobs[..i];
        var m :| 0 <= m < i && jobs[..i][m] == group[a];
        assert jobs[..i + 1][m] == group[a] && jobs[..i + 1][i] == jobs[i];
      }
    }
  }

  /** after is before with the config of every one of these jobs, and no more. */
  ghost predicate Extends(chains: Chains, pooled: set<int>, jobs: seq<EntityJob>, before: Configs, after: Configs) {
    && (forall id :: id in after <==> id in before || exists job :: job in jobs && job.id == id)
    && (forall job :: job in jobs ==> ConfigOf(chains, pooled, job) == Some(after[job.id]))
    && (forall id :: id in before && (forall job :: job in jobs ==> job.id != id) ==> after[id] == before[id])
  }

  lemma ExtendsAppend(chains: Chains, pooled: set<int>, done: seq<EntityJob>, group: seq<EntityJob>,
                      before: Configs, mid: Configs, after: Configs)
    requires Extends(chains, pooled, done, before, mid) && Extends(chains, pooled, group, mid, after)
    requires forall a, b :: a in done && b in group ==> a.id != b.id
    ensures Extends(chains, pooled, done + group, before, after)
  {
  }

  /** The result of a batch is fixed by which jobs are in it: neither their order nor that of the groups matters. */
  lemma BatchDetermined(chains: Chains, pooled: set<int>, jobs: seq<EntityJob>, again: seq<EntityJob>, a: Configs,
                        b: Configs)
    requires forall job :: job in jobs <==> job in again
    requires Extends(chains, pooled, jobs, map[], a) && Extends(chains, pooled, again, map[], b)
    ensures AllReadable(chains, pooled, jobs) <==> AllReadable(chains, pooled, again)
    ensures a == b
  {
    forall id | id in a ensures id in b && b[id] == a[id] {
      var job :| job in jobs && job.id == id;
      assert job in again;
    }
    forall id | id in b ensures id in a {
      var job :| job in again && job.id == id;
      assert job in jobs;
    }
  }

  /** In a list with distinct ids, jobs of different groups have different ids. */
  lemma GroupsApart(jobs: seq<EntityJob>, a: EntityJob, b: EntityJob)
    requires DistinctJobs(jobs) && a in jobs && b in jobs && KeyOf(a) != KeyOf(b)
    ensures a.id != b.id
  {
  }

  /** Reading does not depend on which reachable chains have joined the pool meanwhile. */
  lemma SameReach(chains: Chains, pooled: set<int>, more: set<int>, jobs: seq<EntityJob>)
    requires pooled <= more && forall c :: c in more ==> Reachable(chains, pooled, c)
    ensures forall job :: ConfigOf(chains, more, job) == ConfigOf(chains, pooled, job)
  {
  }

  class BlockchainService {
    var clientPool: map<int, Client>   // a nil map reads as empty
    var dialled: nat

    ghost predicate Valid()
      reads this
    {
      forall c :: c in clientPool ==> clientPool[c].chainId == c && clientPool[c].serial < dialled
    }

    /** Only chains that can be reached join the pool, so what is reachable does not change. */
    twostate predicate PoolGrows(chains: Chains)
      reads this
    {
      && old(clientPool).Keys <= clientPool.Keys
      && (forall c :: c in old(clientPool) ==> clientPool[c] == old(clientPool)[c])
      && (forall c :: c in clientPool ==> Reachable(chains, old(clientPool).Keys, c))
    }

    constructor ()
      ensures Valid() && clientPool == map[]
    {
      clientPool, dialled := map[], 0;
    }

    /** GetClient: the pooled client, or a new one that joins the pool. */
    method GetClient(chains: Chains, chainId: int) returns (client: Option<Client>)
      requires Valid()
      modifies this
      ensures Valid() && PoolGrows(chains)
      ensures client.Some? <==> Reachable(chains, old(clientPool).Keys, chainId)
      ensures client.Some? <==>
              || chainId in old(clientPool)
              || (chainId in {11155111, 421614, 84532, 11155420, 80002, 42161, 8453} && chains.dials(chainId))
      ensures client.Some? ==> chainId in clientPool && client.value == clientPool[chainId]
      ensures client.None? || chainId in old(clientPool) ==> clientPool == old(clientPool) && dialled == old(dialled)
    {
      if chainId in clientPool { return Some(clientPool[chainId]); }
      if !SupportedChain(chainId) { return None; }
      if !chains.dials(chainId) { return None; }
      var dialledClient := Client(chainId, dialled);
      dialled := dialled + 1;
      clientPool := clientPool[chainId := dialledClient];
      return Some(dialledClient);
    }

    /** GetExecutionConfig: one job. */
    method GetExecutionConfig(chains: Chains, job: EntityJob) returns (config: Option<ExecutionConfig>)
      requires Valid()
      modifies this
      ensures Valid() && PoolGrows(chains)
      ensures config == ConfigOf(chains, old(clientPool).Keys, job)
      ensures ReadsAs(chains, old(clientPool).Keys, job, config)
    {
      ConfigReadsAs(chains, clientPool.Keys, job);
      hide ReadsAs;
      var client := GetClient(chains, job.chainID);
      if client.None? { return None; }
      var contract := ContractAddress(job.jobType);
      if contract.None? { return None; }
      return chains.executionLog(client.value.chainId, contract.value, job.accountAddress, job.onChainJobID);
    }

    /** The jobs by chain and type, in list order within a group. */
    static method GroupJobs(jobs: seq<EntityJob>) returns (groups: map<GroupKey, seq<EntityJob>>)
      ensures IsGrouping(jobs, groups)
    {
      groups := map[];
      for i := 0 to |jobs|
        invariant IsGrouping(jobs[..i], groups)
      {
        var key := KeyOf(jobs[i]);
        var group := if key in groups then groups[key] else [];
        AddToGrouping(jobs, i, groups, group);
        groups := groups[key := group + [jobs[i]]];
      }
      assert jobs[..|jobs|] == jobs;
    }

    /** The calls of one group, one after the other; the first failure ends the batch. */
    method ReadGroup(chains: Chains, key: GroupKey, group: seq<EntityJob>, before: Configs)
      returns (results: Option<Configs>)
      requires Valid() && group != [] && forall job :: job in group ==> KeyOf(job) == key
      modifies this
      ensures Valid() && PoolGrows(chains)
      ensures results.Some? <==> AllReadable(chains, old(clientPool).Keys, group)
      ensures results.Some? && DistinctJobs(group)
              ==> Extends(chains, old(clientPool).Keys, group, before, results.value)
    {
      assert KeyOf(group[0]) == key && group[0] in group;
      var client := GetClient(chains, key.chainId);
      if client.None? { return None; }
      var contract := ContractAddress(key.jobType);
      if contract.None? { return None; }
      var found: Configs := before;
      for i := 0 to |group|
        invariant AllReadable(chains, old(clientPool).Keys, group[..i])
        invariant DistinctJobs(group) ==> Extends(chains, old(clientPool).Keys, group[..i], before, found)
      {
        var job := group[i];
        assert job in group && group[..i + 1] == group[..i] + [job];
        var config := chains.executionLog(client.value.chainId, contract.value, job.accountAddress, job.onChainJobID);
        assert config == ConfigOf(chains, old(clientPool).Keys, job);
        if config.None? { return None; }
        found := found[job.id := config.value];
      }
      assert group[..|group|] == group;
      return Some(found);
    }

    /**
     * GetExecutionConfigsBatch agrees with the one-at-a-time reader: it succeeds exactly when every
     * job can be read, and for jobs with distinct ids it has exactly those ids with those configs.
     * The groups are visited in any order.
     */
    method GetExecutionConfigsBatch(chains: Chains, jobs: seq<EntityJob>) returns (results: Option<Configs>)
      requires Valid()
      modifies this
      ensures Valid() && PoolGrows(chains)
      ensures results.Some? <==> AllReadable(chains, old(clientPool).Keys, jobs)
      ensures results.Some? && DistinctJobs(jobs) ==> Extends(chains, old(clientPool).Keys, jobs, map[], results.value)
      ensures results.Some? <==> forall job :: job in jobs ==> !ReadsAs(chains, old(clientPool).Keys, job, None)
      ensures results.Some? && DistinctJobs(jobs) ==>
                && (forall id :: id in results.value <==> exists job :: job in jobs && job.id == id)
                && forall job :: job in jobs ==>
                     ReadsAs(chains, old(clientPool).Keys, job, Some(results.value[job.id]))
    {
      forall job | job in jobs
        ensures forall config ::
                  ReadsAs(chains, clientPool.Keys, job, config) <==> config == ConfigOf(chains, clientPool.Keys, job)
      {
        ConfigReadsAs(chains, clientPool.Keys, job);
      }
      hide ReadsAs, ConfigOf;
      if |jobs| == 0 { return Some(map[]); }
      var groups := GroupJobs(jobs);
      var found: Configs := map[];
      ghost var done: seq<EntityJob> := [];
      var left := groups.Keys;
      while left != {}
        invariant left <= groups.Keys && Valid() && PoolGrows(chains)
        invariant forall job :: job in done <==> job in jobs && KeyOf(job) !in left
        invariant AllReadable(chains, old(clientPool).Keys, done)
        invariant DistinctJobs(jobs) ==> Extends(chains, old(clientPool).Keys, done, map[], found)
      {
        var key :| key in left;
        var group := groups[key];
        SameReach(chains, old(clientPool).Keys, clientPool.Keys, group);
        var more := ReadGroup(chains, key, group, found);
        if more.None? { return None; }
        if DistinctJobs(jobs) {
          forall a, b | a in done && b in group ensures a.id != b.id {
            GroupsApart(jobs, a, b);
          }
          ExtendsAppend(chains, old(clientPool).Keys, done, group, map[], found, more.value);
        }
        found := more.value;
        left := left - {key};
        done := done + group;
      }
      return Some(found);
    }
  }
}
