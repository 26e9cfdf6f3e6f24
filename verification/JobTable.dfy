/** src/repository/job_repo.go: the jobs table. */
module JobTable {
  import opened Wrappers
  import opened Bytes
  import opened UserOperations
  import opened UserOperationJson
  import opened Jobs

  datatype RepoError = Offline | DuplicateJob | Undecodable | EncodingPanic

  /** The table by primary key; SQL gives its rows in no particular order. */
  type Rows = map<JobId, DBJob>

  /** UPDATE of one row: the message is written only with status failed. */
  function Updated(row: DBJob, status: DBJobStatus, errMsg: Option<string>): DBJob {
    if status == DBFailed && errMsg.Some? then row.(status := status, errMsg := errMsg) else row.(status := status)
  }

  /** WHERE status = ? */
  function WhereStatus(rows: Rows, status: DBJobStatus): Rows {
    map id | id in rows && rows[id].status == status :: rows[id]
  }

  predicate AllDecode(rows: Rows) {
    forall id :: id in rows ==> rows[id].id == id && ToEntityJob(rows[id]).Some?
  }

  /** The table as jobs. */
  function JobsOf(rows: Rows): map<JobId, EntityJob>
    requires AllDecode(rows)
  {
    map id | id in rows :: ToEntityJob(rows[id]).value
  }

  lemma InsertedRow(rows: Rows, row: DBJob)
    requires AllDecode(rows) && row.id !in rows && ToEntityJob(row).Some?
    ensures AllDecode(rows[row.id := row])
    ensures JobsOf(rows[row.id := row]) == JobsOf(rows)[row.id := ToEntityJob(row).value]
  {
    hide ToEntityJob;
  }

  lemma UpdatedTable(rows: Rows, id: JobId, status: DBJobStatus, errMsg: Option<string>)
    requires AllDecode(rows) && id in rows
    ensures AllDecode(rows[id := Updated(rows[id], status, errMsg)])
    ensures JobsOf(rows[id := Updated(rows[id], status, errMsg)]) ==
            JobsOf(rows)[id := WithOutcome(JobsOf(rows)[id], status, errMsg)]
  {
    hide Unmarshal, HexToAddress;
    var row := Updated(rows[id], status, errMsg);
    assert ToEntityJob(row) == Some(WithOutcome(ToEntityJob(rows[id]).value, status, errMsg));
  }

  lemma ActiveRowsDecode(rows: Rows, dbJobs: seq<DBJob>, keys: seq<JobId>, jobs: seq<EntityJob>)
    requires AllDecode(rows) && Enumerates(dbJobs, keys, WhereStatus(rows, DBQueuing))
    requires |jobs| == |dbJobs| && forall j :: 0 <= j < |jobs| ==> ToEntityJob(dbJobs[j]) == Some(jobs[j])
    ensures Enumerates(jobs, keys, ActiveJobs(JobsOf(rows)))
  {
    assert ActiveJobs(JobsOf(rows)).Keys == WhereStatus(rows, DBQueuing).Keys;
    var active := ActiveJobs(JobsOf(rows));
    forall i | 0 <= i < |keys| ensures keys[i] in active && jobs[i] == active[keys[i]] {
      assert dbJobs[i] == rows[keys[i]];
    }
  }

  lemma RowsHaveTheirIds(rows: Rows)
    requires AllDecode(rows)
    ensures forall id :: id in rows ==> JobsOf(rows)[id].id == id
  {
  }

  /** A listing of the active jobs has exactly the queuing ones, each under its id. */
  lemma ListedById(jobs: map<JobId, EntityJob>, list: seq<EntityJob>, keys: seq<JobId>)
    requires Enumerates(list, keys, ActiveJobs(jobs)) && forall id :: id in jobs ==> jobs[id].id == id
    ensures forall i, j :: 0 <= i < j < |list| ==> list[i].id != list[j].id
    ensures forall job :: job in list <==> job.id in jobs && jobs[job.id] == job && job.status == DBQueuing
  {
    forall i | 0 <= i < |list| ensures list[i].id == keys[i] && list[i] == jobs[keys[i]] {
    }
    forall job: EntityJob | job.id in jobs && jobs[job.id] == job && job.status == DBQueuing ensures job in list {
      assert job.id in ActiveJobs(jobs);
      var i :| 0 <= i < |keys| && keys[i] == job.id;
      assert list[i] == job;
    }
  }

  class JobRepository {
    var online: bool
    var rows: Rows

    ghost predicate Valid()
      reads this
    {
      AllDecode(rows)
    }

    ghost function Jobs(): map<JobId, EntityJob>
      requires Valid()
      reads this
    {
      JobsOf(rows)
    }

    constructor ()
      ensures Valid() && rows == map[] && online
    {
      rows := map[];
      online := true;
    }

    /**
     * CreateJob: id is the key the database generates, and the unique constraint is over account,
     * chain, on-chain id and job type. The new row is the only change, and it is
     * read back as the job asked for, with a nil nonce as 0 (and a negative one without its sign).
     */
    method CreateJob(id: JobId, account: Address, chainID: int, onChainJobID: int, jobType: DBJobType,
                     userOperation: UserOperation, entryPoint: Address, casing: Casing)
      returns (r: Result<EntityJob, RepoError>)
      requires Valid() && id !in rows
      modifies this`rows
      ensures Valid()
      ensures r.Success? ==>
                && r.value == EntityJob(id, account, chainID, onChainJobID,
                                        userOperation.(nonce := Some(Magnitude(userOperation.nonce))),
                                        entryPoint, jobType, DBQueuing, None)
                && Jobs() == old(Jobs())[id := r.value]
      ensures r.Failure? ==> rows == old(rows)
      ensures r == Failure(EncodingPanic) <==> Magnitude(userOperation.nonce) >= TWO256
      ensures r == Failure(Offline) <==> Magnitude(userOperation.nonce) < TWO256 && !online
      ensures r == Failure(DuplicateJob) <==>
              && Magnitude(userOperation.nonce) < TWO256 && online
              && exists k :: k in old(rows) && old(rows)[k].accountAddress == AddressText(account, casing)
                             && old(rows)[k].chainID == chainID && old(rows)[k].onChainJobID == onChainJobID
                             && old(rows)[k].jobType == jobType
      ensures r.Success? ==>
                && id in rows && rows == old(rows)[id := rows[id]]
                && AddressWritten(rows[id].accountAddress, account)
                && AddressWritten(rows[id].entryPointAddress, entryPoint)
                && rows[id].chainID == chainID && rows[id].onChainJobID == onChainJobID && rows[id].jobType == jobType
                && rows[id].status == DBQueuing && rows[id].errMsg.None?
                && CustomWritten(userOperation, rows[id].userOperation)
      ensures r != Failure(Undecodable)
    {
      hide ToEntityJob, JobsOf, MarshalCustom, AddressText, AddressWritten, CustomWritten;
      var userOpJSON := MarshalJSON(userOperation);
      CustomRoundTrip(userOperation);
      if userOpJSON.None? { return Failure(EncodingPanic); }
      var job := EntityJob(id, account, chainID, onChainJobID, userOperation, entryPoint, jobType, DBQueuing, None);
      var dbJob := RowOf(job, userOpJSON.value, casing);
      if !online { return Failure(Offline); }
      if exists k :: k in rows && rows[k].accountAddress == dbJob.accountAddress && rows[k].chainID == dbJob.chainID
                     && rows[k].onChainJobID == dbJob.onChainJobID && rows[k].jobType == dbJob.jobType {
        return Failure(DuplicateJob);
      }
      CreatedRowReadsBack(job, casing);
      AddressIsWritten(account, casing);
      AddressIsWritten(entryPoint, casing);
      InsertedRow(rows, dbJob);
      rows := rows[id := dbJob];
      return Success(ToEntityJob(dbJob).value);
    }

    /** SELECT with a status, the rows in some order. */
    method SelectByStatus(status: DBJobStatus) returns (dbJobs: seq<DBJob>, ghost keys: seq<JobId>)
      ensures Enumerates(dbJobs, keys, WhereStatus(rows, status))
    {
      dbJobs, keys := [], [];
      var left := WhereStatus(rows, status).Keys;
      while left != {}
        invariant left <= WhereStatus(rows, status).Keys
        invariant Enumerates(dbJobs, keys, WhereStatus(rows, status) - left)
      {
        var id :| id in left;
        left := left - {id};
        dbJobs := dbJobs + [rows[id]];
        keys := keys + [id];
      }
      assert WhereStatus(rows, status) - {} == WhereStatus(rows, status);
    }

    /** FindActiveJobs: every queuing job, each once; one undecodable row fails the whole call. */
    method FindActiveJobs() returns (r: Result<seq<EntityJob>, RepoError>, ghost keys: seq<JobId>)
      ensures !online ==> r == Failure(Offline)
      ensures online && Valid() ==>
                && r.Success? && Enumerates(r.value, keys, ActiveJobs(Jobs()))
                && (forall i, j :: 0 <= i < j < |r.value| ==> r.value[i].id != r.value[j].id)
                && forall job :: job in r.value <==>
                     job.id in Jobs() && Jobs()[job.id] == job && job.status == DBQueuing
      ensures online ==>
                (r.Failure? <==> exists id :: id in rows && rows[id].status == DBQueuing && ToEntityJob(rows[id]).None?)
      ensures online && r.Failure? ==> r.error == Undecodable
    {
      hide Unmarshal, HexToAddress;
      keys := [];
      if !online { return Failure(Offline), []; }
      var dbJobs, ids := SelectByStatus(DBQueuing);
      var jobs: seq<EntityJob> := [];
      for i := 0 to |dbJobs|
        invariant |jobs| == i
        invariant forall j :: 0 <= j < i ==> ToEntityJob(dbJobs[j]) == Some(jobs[j])
      {
        var job := ToEntityJob(dbJobs[i]);
        if job.None? {
          assert ids[i] in rows && rows[ids[i]].status == DBQueuing;
          return Failure(Undecodable), [];
        }
        jobs := jobs + [job.value];
      }
      forall id | id in rows && rows[id].status == DBQueuing ensures ToEntityJob(rows[id]).Some? {
        assert id in WhereStatus(rows, DBQueuing);
        var i :| 0 <= i < |ids| && ids[i] == id;
        assert ToEntityJob(dbJobs[i]) == Some(jobs[i]);
      }
      if AllDecode(rows) {
        ActiveRowsDecode(rows, dbJobs, ids, jobs);
        RowsHaveTheirIds(rows);
        ListedById(JobsOf(rows), jobs, ids);
      }
      return Success(jobs), ids;
    }

    /** UpdateJobStatus: one row, in status and (for failed) message; an unknown id changes nothing. */
    method UpdateJobStatus(id: JobId, status: DBJobStatus, errMsg: Option<string>) returns (ok: bool)
      requires Valid()
      modifies this`rows
      ensures Valid() && ok == online
      ensures Jobs() == if online && id in old(Jobs())
                        then old(Jobs())[id := WithOutcome(old(Jobs())[id], status, errMsg)]
                        else old(Jobs())
      ensures forall k :: k in Jobs() <==> k in old(Jobs())
      ensures forall k :: k in Jobs() ==>
                if ok && k == id
                then Jobs()[k] == old(Jobs())[k].(
                       status := status,
                       errMsg := if status == DBFailed && errMsg.Some? then errMsg else old(Jobs())[k].errMsg)
                else Jobs()[k] == old(Jobs())[k]
    {
      if !online { return false; }
      if id in rows {
        UpdatedTable(rows, id, status, errMsg);
        rows := rows[id := Updated(rows[id], status, errMsg)];
      }
      return true;
    }
  }
}
