/**
 * src/repository/job_cache.go: the repository object over Redis, one caller at a time. Each
 * method is shown to be the atomic operation that JobCacheLocking proves it is for concurrent
 * callers. A failing call changes nothing; commands on entries and on the queue fail separately.
 */
module JobCacheRepositories {
  import opened Wrappers
  import opened Jobs
  import opened JobCacheEntries
  import opened UserOperationJson

  function EffectIf(online: bool, op: Operation, m: Entries): Entries {
    if online then EffectOf(op, m) else m
  }

  function AnswerIf(online: bool, op: Operation, m: Entries): Answer {
    if online then AnswerOf(op, m) else Error
  }

  datatype DequeueResult = Empty | Unreachable | Garbled | Dequeued(job: EntityJob)

  class JobCacheRepository {
    var online: bool            // commands on entries succeed
    var queueOnline: bool       // commands on the queue succeed
    var entries: Entries
    var queue: seq<Payload>     // index 0 is the LPush end

    constructor ()
      ensures entries == map[] && queue == [] && online && queueOnline
    {
      entries, queue, online, queueOnline := map[], [], true, true;
    }

    /** LPush of the job's JSON. */
    method EnqueueJob(job: EntityJob) returns (ok: bool)
      modifies this`queue
      ensures ok == queueOnline
      ensures queue == if queueOnline then [EncodeJob(job)] + old(queue) else old(queue)
      ensures queueOnline ==>
                var p := queue[0];
                && queue[1..] == old(queue)
                && p.id == job.id && p.accountAddress == job.accountAddress && p.chainID == job.chainID
                && p.onChainJobID == job.onChainJobID && p.entryPointAddress == job.entryPointAddress
                && p.jobType == job.jobType && p.status == job.status && p.errMsg == job.errMsg
                && DefaultDocument(job.userOperation, p.userOperation)
    {
      DefaultTexts(job.userOperation);
      hide DefaultDocument, MarshalDefault;
      var jobData := EncodeJob(job);
      if !queueOnline { return false; }
      queue := [jobData] + queue;
      return true;
    }

    /** BRPop and decode; a payload that does not decode is gone. */
    method DequeueJob() returns (r: DequeueResult)
      modifies this`queue
      ensures !queueOnline ==> r == Unreachable && queue == old(queue)
      ensures queueOnline && old(queue) == [] ==> r == Empty && queue == []
      ensures queueOnline && old(queue) != [] ==>
                && queue == old(queue)[..|old(queue)| - 1]
                && var oldest := old(queue)[|old(queue)| - 1];
                   r == if DecodeJob(oldest).Some? then Dequeued(DecodeJob(oldest).value) else Garbled
    {
      if !queueOnline { return Unreachable; }
      if queue == [] { return Empty; }
      var result := queue[|queue| - 1];
      queue := queue[..|queue| - 1];
      var job := DecodeJob(result);
      return if job.Some? then Dequeued(job.value) else Garbled;
    }

    method GetJobCache(id: JobId) returns (answer: Answer)
      ensures answer == AnswerIf(online, Get(id), entries)
      ensures answer == if online && id in entries then OneEntry(entries[id]) else Error
    {
      if !online { return Error; }
      if id !in entries { return Error; }
      return OneEntry(entries[id]);
    }

    method SetJobStatus(id: JobId, status: CacheJobStatus, message: Option<string>) returns (answer: Answer)
      modifies this`entries
      ensures entries == EffectIf(online, SetStatus(id, status, message), old(entries))
      ensures answer == AnswerIf(online, SetStatus(id, status, message), old(entries))
      ensures answer == if online then Done else Error
      ensures entries == if online
                         then var error := if message.Some? then message.value else "";
                              old(entries)[id := JobCache(id, 0, 0, status, error)]
                         else old(entries)
    {
      var result := JobCache(id, 0, ZERO_HASH, status, "");
      if message.Some? {
        result := result.(error := message.value);
      }
      if !online { return Error; }
      entries := entries[id := result];
      return Done;
    }

    method DeleteJobCache(id: JobId) returns (answer: Answer)
      modifies this`entries
      ensures entries == EffectIf(online, Delete(id), old(entries))
      ensures answer == AnswerIf(online, Delete(id), old(entries))
      ensures answer == if online then Done else Error
      ensures !online ==> entries == old(entries)
      ensures online ==>
                id !in entries && forall k :: k != id ==>
                  (k in entries <==> k in old(entries)) && (k in entries ==> entries[k] == old(entries)[k])
    {
      if !online { return Error; }
      entries := entries - {id};
      return Done;
    }

    method AddJobCache(entry: JobCache) returns (answer: Answer)
      modifies this`entries
      ensures entries == EffectIf(online, Add(entry), old(entries))
      ensures answer == AnswerIf(online, Add(entry), old(entries))
      ensures answer == if online then Done else Error
      ensures entries == if online then old(entries)[entry.jobID := entry] else old(entries)
    {
      if !online { return Error; }
      entries := entries[entry.jobID := entry];
      return Done;
    }

    method UpdateJobCacheUserOpHash(id: JobId, hash: Hash) returns (answer: Answer)
      modifies this`entries
      ensures entries == EffectIf(online, UpdateHash(id, hash), old(entries))
      ensures answer == AnswerIf(online, UpdateHash(id, hash), old(entries))
      ensures answer == if online && id in old(entries) then Done else Error
      ensures entries == if online && id in old(entries)
                         then old(entries)[id := old(entries)[id].(userOpHash := hash)] else old(entries)
    {
      if !online { return Error; }
      if id !in entries { return Error; }
      var jobCache := entries[id];
      jobCache := jobCache.(userOpHash := hash);
      entries := entries[id := jobCache];
      return Done;
    }

    /** The entries of one status, each once, in the order Redis gives the keys. */
    method GetJobCachesByStatus(status: CacheJobStatus) returns (r: Option<seq<JobCache>>, ghost keys: seq<JobId>)
      ensures r.Some? <==> online
      ensures r.Some? ==> Enumerates(r.value, keys, WithStatus(entries, status))
      ensures r.Some? ==>
                && |keys| == |r.value| && (forall i, j :: 0 <= i < j < |keys| ==> keys[i] != keys[j])
                && (forall i :: 0 <= i < |keys| ==>
                      keys[i] in entries && entries[keys[i]] == r.value[i] && r.value[i].status == status)
                && forall id :: id in entries && entries[id].status == status ==> id in keys
    {
      keys := [];
      if !online { return None, []; }
      var jobCaches: seq<JobCache> := [];
      var left := entries.Keys;
      while left != {}
        invariant left <= entries.Keys
        invariant Enumerates(jobCaches, keys, WithStatus(entries - left, status))
      {
        var id :| id in left;
        left := left - {id};
        if entries[id].status == status {
          jobCaches := jobCaches + [entries[id]];
          keys := keys + [id];
        }
      }
      assert entries - {} == entries;
      return Some(jobCaches), keys;
    }

    method GetCacheStatistics() returns (answer: Answer)
      ensures answer == AnswerIf(online, Statistics, entries)
      ensures online ==>
                && answer.Counts? && answer.stats.total == |entries|
                && answer.stats.pending == |set id | id in entries && entries[id].status == CachePending|
                && answer.stats.failed == |set id | id in entries && entries[id].status == CacheFailed|
                && answer.stats.completed == |set id | id in entries && entries[id].status == CacheCompleted|
    {
      hide WithStatus;
      NoneVisited(entries);
      if !online { return Error; }
      var pending, failed, completed := 0, 0, 0;
      var left := entries.Keys;
      while left != {}
        invariant left <= entries.Keys
        invariant pending == |WithStatus(entries - left, CachePending)|
        invariant failed == |WithStatus(entries - left, CacheFailed)|
        invariant completed == |WithStatus(entries - left, CacheCompleted)|
      {
        var id :| id in left;
        VisitOne(entries, left, id, CachePending);
        VisitOne(entries, left, id, CacheFailed);
        VisitOne(entries, left, id, CacheCompleted);
        left := left - {id};
        match entries[id].status {
          case CachePending => pending := pending + 1;
          case CacheFailed => failed := failed + 1;
          case CacheCompleted => completed := completed + 1;
        }
      }
      assert entries - {} == entries;
      StatisticsCount(entries);
      return Counts(CacheStatistics(pending, failed, completed, pending + failed + completed));
    }
  }
}
