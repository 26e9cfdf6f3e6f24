/** src/domain/job.go: statuses, the stored and in-memory job, and the on-chain schedule. */
module Jobs {
  import opened Wrappers
  import opened Bytes
  import opened UserOperations
  import opened UserOperationJson
  import Hex
  import HexText

  /** Stands for a UUID; only equality matters. */
  type JobId = nat

  datatype DBJobStatus = DBQueuing | DBCompleted | DBFailed

  datatype DBJobType = Transfer | Swap | Other(name: string)

  datatype EntityJob = EntityJob(
    id: JobId,
    accountAddress: Address,
    chainID: int,
    onChainJobID: int,
    userOperation: UserOperation,
    entryPointAddress: Address,
    jobType: DBJobType,
    status: DBJobStatus,
    errMsg: Option<string>)

  /** Equal in every column that registration fixes: only status and errMsg may differ. */
  predicate SameJob(x: EntityJob, y: EntityJob) {
    x.(status := DBQueuing, errMsg := None) == y.(status := DBQueuing, errMsg := None)
  }

  /** UpdateJobStatus: the message is stored only with status failed. */
  function WithOutcome(job: EntityJob, status: DBJobStatus, errMsg: Option<string>): EntityJob {
    if status == DBFailed && errMsg.Some? then job.(status := status, errMsg := errMsg) else job.(status := status)
  }

  /** The queuing jobs. */
  function ActiveJobs(jobs: map<JobId, EntityJob>): map<JobId, EntityJob> {
    map id | id in jobs && jobs[id].status == DBQueuing :: jobs[id]
  }

  /** list holds the values of m, each once, in the order of keys. */
  ghost predicate Enumerates<T>(list: seq<T>, keys: seq<JobId>, m: map<JobId, T>) {
    && |keys| == |list|
    && (forall i, j :: 0 <= i < j < |keys| ==> keys[i] != keys[j])
    && (forall i :: 0 <= i < |keys| ==> keys[i] in m && list[i] == m[keys[i]])
    && (forall id :: id in m ==> id in keys)
  }

  // ---- the stored row ----

  /** A row of the jobs table: addresses as text, the operation as JSON. */
  datatype DBJob = DBJob(
    id: JobId,
    accountAddress: string,
    chainID: int,
    onChainJobID: int,
    userOperation: Document,
    entryPointAddress: string,
    jobType: DBJobType,
    status: DBJobStatus,
    errMsg: Option<string>)

  /** Which letters of an address text are capitals; EIP-55 chooses them by a hash. */
  type Casing = int -> bool

  function Upper(c: char): (u: char)
    ensures Hex.DigitValue(u) == Hex.DigitValue(c)
  {
    if 'a' <= c <= 'f' then (c as int - 32) as char else c
  }

  function Recase(s: string, casing: Casing): (t: string)
    ensures |t| == |s| && forall i :: 0 <= i < |s| ==> Hex.DigitValue(t[i]) == Hex.DigitValue(s[i])
  {
    if s == "" then ""
    else [if casing(0) then Upper(s[0]) else s[0]] + Recase(s[1..], i => casing(i + 1))
  }

  /** common.Address.Hex, for any choice of capitals. */
  function AddressText(a: Address, casing: Casing): string {
    "0x" + Recase(Hex.Encode(a), casing)
  }

  /** hex.DecodeString up to the first text that is not a byte (the error is ignored). */
  function DecodePrefix(s: string): seq<Byte> {
    if |s| < 2 || Hex.DigitValue(s[0]).None? || Hex.DigitValue(s[1]).None? then []
    else [Hex.DigitValue(s[0]).value * 16 + Hex.DigitValue(s[1]).value] + DecodePrefix(s[2..])
  }

  function WithoutPrefix(s: string): string {
    if |s| >= 2 && s[0] == '0' && (s[1] == 'x' || s[1] == 'X') then s[2..] else s
  }

  /** common.BytesToAddress: the last 20 bytes, padded on the left. */
  function AddressOfBytes(bytes: seq<Byte>): Address {
    if |bytes| > 20 then bytes[|bytes| - 20..] else Zeros(20 - |bytes|) + bytes
  }

  /** common.HexToAddress: never fails. */
  function HexToAddress(s: string): Address {
    var body := WithoutPrefix(s);
    AddressOfBytes(DecodePrefix(if |body| % 2 == 1 then "0" + body else body))
  }

  /** Text that has the digits of bs, in whatever case, decodes to bs. */
  lemma {:induction false} SameDigitsDecode(bs: seq<Byte>, s: string)
    requires |s| == 2 * |bs|
    requires forall i :: 0 <= i < |s| ==> Hex.DigitValue(s[i]) == Hex.DigitValue(Hex.Encode(bs)[i])
    ensures DecodePrefix(s) == bs
  {
    hide Hex.Digit, Hex.DigitValue;
    if bs != [] {
      var text, rest := Hex.Encode(bs), Hex.Encode(bs[1..]);
      assert text[2..] == rest;
      forall i | 0 <= i < |s[2..]| ensures Hex.DigitValue(s[2..][i]) == Hex.DigitValue(rest[i]) {
        assert s[2..][i] == s[i + 2] && rest[i] == text[i + 2];
      }
      SameDigitsDecode(bs[1..], s[2..]);
      assert text[0] == Hex.Digit(bs[0] / 16) && text[1] == Hex.Digit(bs[0] % 16);
    }
  }

  lemma PrefixGone(body: string)
    ensures WithoutPrefix("0x" + body) == body
  {
    var s := "0x" + body;
    assert s[0] == '0' && s[1] == 'x' && s[2..] == body;
  }

  lemma WholeAddress(a: Address)
    ensures AddressOfBytes(a) == a
  {
    assert Zeros(0) + a == a;
  }

  /** A stored address reads back, however its letters are cased. */
  lemma AddressTextReadsBack(a: Address, casing: Casing)
    ensures HexToAddress(AddressText(a, casing)) == a
  {
    var body := Recase(Hex.Encode(a), casing);
    SameDigitsDecode(a, body);
    PrefixGone(body);
    hide Recase, DecodePrefix, WithoutPrefix, AddressOfBytes, Hex.Encode;
    WholeAddress(a);
  }

  /** 0x and the 40 digits of the address, in whatever case. */
  ghost predicate AddressWritten(s: string, a: Address) {
    && |s| == 42 && s[0] == '0' && s[1] == 'x'
    && forall i {:trigger a[i]} :: 0 <= i < 20 ==>
         && HexText.IsHexDigit(s[2 + 2 * i]) && HexText.IsHexDigit(s[3 + 2 * i])
         && HexText.CharValue(s[2 + 2 * i]) * 16 + HexText.CharValue(s[3 + 2 * i]) == a[i]
  }

  lemma AddressIsWritten(a: Address, casing: Casing)
    ensures AddressWritten(AddressText(a, casing), a)
  {
    var s, code := AddressText(a, casing), Hex.Encode(a);
    var cased := Recase(code, casing);
    forall i | 0 <= i < 20
      ensures && HexText.IsHexDigit(s[2 + 2 * i]) && HexText.IsHexDigit(s[3 + 2 * i])
              && HexText.CharValue(s[2 + 2 * i]) * 16 + HexText.CharValue(s[3 + 2 * i]) == a[i]
    {
      Hex.EncodeAt(a, i);
      assert s[2 + 2 * i] == cased[2 * i] && s[3 + 2 * i] == cased[2 * i + 1];
      HexText.DigitReads(s[2 + 2 * i]);
      HexText.DigitReads(s[3 + 2 * i]);
      hide Hex.Encode, Recase, Hex.Digit, Hex.DigitValue, HexText.CharValue, HexText.IsHexDigit;
    }
  }

  /** ToEntityJob; None is an operation that does not decode. */
  function ToEntityJob(row: DBJob): Option<EntityJob> {
    var op := Unmarshal(row.userOperation);
    if op.None? then None
    else Some(EntityJob(row.id, HexToAddress(row.accountAddress), row.chainID, row.onChainJobID, op.value,
                        HexToAddress(row.entryPointAddress), row.jobType, row.status, row.errMsg))
  }

  /** A row with a given form of the operation. */
  function RowOf(job: EntityJob, op: Document, casing: Casing): DBJob {
    DBJob(job.id, AddressText(job.accountAddress, casing), job.chainID, job.onChainJobID, op,
          AddressText(job.entryPointAddress, casing), job.jobType, job.status, job.errMsg)
  }

  /** ToDBJob writes the operation by value, in the default form. */
  function ToDBJob(job: EntityJob, casing: Casing): DBJob {
    RowOf(job, MarshalDefault(job.userOperation), casing)
  }

  /** A job survives ToDBJob and back exactly when no number of its operation is negative; else it does not decode. */
  lemma ToDBJobRoundTrip(job: EntityJob, casing: Casing)
    ensures ToEntityJob(ToDBJob(job, casing)) == if NumbersNotNegative(job.userOperation) then Some(job) else None
  {
    AddressTextReadsBack(job.accountAddress, casing);
    AddressTextReadsBack(job.entryPointAddress, casing);
    DefaultRoundTrip(job.userOperation);
  }

  /** A row in the custom form, as CreateJob writes it, reads back with a nil nonce as 0. */
  lemma CreatedRowReadsBack(job: EntityJob, casing: Casing)
    requires Magnitude(job.userOperation.nonce) < TWO256
    ensures MarshalCustom(job.userOperation).Some?
    ensures ToEntityJob(RowOf(job, MarshalCustom(job.userOperation).value, casing)) ==
            Some(job.(userOperation := job.userOperation.(nonce := Some(Magnitude(job.userOperation.nonce)))))
  {
    AddressTextReadsBack(job.accountAddress, casing);
    AddressTextReadsBack(job.entryPointAddress, casing);
    CustomRoundTrip(job.userOperation);
  }

  // ---- the queued payload ----

  /** The JSON of an EntityJob in the queue: only the operation's own encoding is not plain. */
  datatype Payload = Payload(
    id: JobId,
    accountAddress: Address,
    chainID: int,
    onChainJobID: int,
    userOperation: Document,
    entryPointAddress: Address,
    jobType: DBJobType,
    status: DBJobStatus,
    errMsg: Option<string>)

  function EncodeJob(job: EntityJob): Payload {
    Payload(job.id, job.accountAddress, job.chainID, job.onChainJobID, MarshalDefault(job.userOperation),
            job.entryPointAddress, job.jobType, job.status, job.errMsg)
  }

  function DecodeJob(p: Payload): Option<EntityJob> {
    var op := Unmarshal(p.userOperation);
    if op.None? then None
    else Some(EntityJob(p.id, p.accountAddress, p.chainID, p.onChainJobID, op.value,
                        p.entryPointAddress, p.jobType, p.status, p.errMsg))
  }

  /** A queued job is dequeued unchanged, or not at all when a number of its operation is negative. */
  lemma PayloadRoundTrip(job: EntityJob)
    ensures DecodeJob(EncodeJob(job)) == if NumbersNotNegative(job.userOperation) then Some(job) else None
  {
    DefaultRoundTrip(job.userOperation);
  }

  // ---- the on-chain schedule ----

  /** The contract's record of a job; startDate and lastExecutionTime may be nil. */
  datatype ExecutionConfig = ExecutionConfig(
    executeInterval: int,
    numberOfExecutions: nat,
    numberOfExecutionsCompleted: nat,
    startDate: Option<int>,
    isEnabled: bool,
    lastExecutionTime: Option<int>,
    executionData: seq<Byte>)
  {
    /** The clock read of the original is the parameter now (Unix seconds). */
    predicate IsTimeToExecute(now: int) {
      if !isEnabled then false
      else if lastExecutionTime.None? || lastExecutionTime.value == 0 then
        startDate.Some? ==> now >= startDate.value
      else now >= lastExecutionTime.value + executeInterval
    }

    predicate Exhausted() {
      numberOfExecutionsCompleted >= numberOfExecutions
    }
  }

  /**
   * The schedule as a threshold: an enabled job is due from one instant on and never before it,
   * or, with neither a last execution nor a start date, at every instant.
   */
  function DueFrom(config: ExecutionConfig): Option<int> {
    if config.lastExecutionTime.GetOr(0) != 0
    then Some(config.lastExecutionTime.value + config.executeInterval)
    else config.startDate
  }

  lemma DueExactlyFromThreshold(config: ExecutionConfig, now: int)
    ensures config.IsTimeToExecute(now) <==>
            config.isEnabled && (DueFrom(config).Some? ==> now >= DueFrom(config).value)
    ensures forall later :: later >= now && config.IsTimeToExecute(now) ==> config.IsTimeToExecute(later)
  {
  }
}
