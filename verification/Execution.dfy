/** src/service/execution.go: from a stored job to the signed operation that is sent. */
module Execution {
  import opened Wrappers
  import opened Bytes
  import opened UserOperations
  import opened UserOperationHash
  import opened UserOperationJson
  import opened Jobs
  import opened JobCacheEntries
  import Hex
  import HexText

  // ---- nonce key ----

  datatype NonceKeyResult = Key(key: nat) | NilNonce | TooShort | Panics

  /** The upper 192 bits of a nonce that has at least 8 significant bytes. */
  function NonceKey(nonce: Option<int>): NonceKeyResult {
    var m := Magnitude(nonce);
    if nonce.None? then NilNonce
    else if m < 0x100_0000_0000_0000 then TooShort
    else if m >= TWO256 then Panics
    else Key(m / TWO64)
  }

  lemma NonceKeyWidth(nonce: Option<int>)
    requires NonceKey(nonce).Key?
    ensures NonceKey(nonce).key < TWO192
  {
  }

  lemma TopBytes(padded: seq<Byte>)
    requires |padded| == 32
    ensures FromBytes(padded[..24]) == FromBytes(padded) / TWO64
  {
    FromBytesConcat(padded[..24], padded[24..]);
    assert padded == padded[..24] + padded[24..];
    FromBytesBound(padded[24..]);
    Widths();
  }

  /** extractNonceKey: succeeds exactly for nonces from 2^56 to below 2^256. */
  method ExtractNonceKey(nonce: Option<int>) returns (result: NonceKeyResult)
    ensures result == NonceKey(nonce)
    ensures result.NilNonce? <==> nonce.None?
    ensures result.TooShort? <==> nonce.Some? && Magnitude(nonce) < 0x100_0000_0000_0000
    ensures result.Panics? <==> Magnitude(nonce) >= TWO256
    ensures result.Key? ==> result.key * TWO64 <= Magnitude(nonce) < (result.key + 1) * TWO64
  {
    if nonce.None? { return NilNonce; }
    var nonceBytes := MagnitudeBytes(nonce);
    ToBytesWidth(Magnitude(nonce), 7);
    ToBytesWidth(Magnitude(nonce), 32);
    Widths();
    if |nonceBytes| < 8 { return TooShort; }
    if |nonceBytes| > 32 { return Panics; }
    var paddedNonce := Make(32);
    CopyEndingAt(paddedNonce, 32, nonceBytes);
    assert paddedNonce[..] == Zeros(32 - |nonceBytes|) + nonceBytes;
    LeadingZeros(32 - |nonceBytes|, nonceBytes);
    TopBytes(paddedNonce[..]);
    assert paddedNonce[..][..24] == paddedNonce[..24];
    return Key(FromBytes(paddedNonce[..24]));
  }

  // ---- getNonce call data ----

  const GET_NONCE_SELECTOR: seq<Byte> := [0x35, 0x56, 0x7e, 0x1a]

  function GetNonceText(sender: Address, key: nat): string
    requires key < TWO256
  {
    Widths();
    "0x35567e1a" + Hex.Encode(AddressWord(sender)) + Hex.Encode(Padded(key, 32))
  }

  /** The call data getCurrentNonce builds for getNonce(address,uint192). */
  method GetNonceCallData(sender: Address, key: nat) returns (callData: string)
    requires key < TWO256
    ensures callData == GetNonceText(sender, key)
  {
    callData := "0x35567e1a";
    var senderBytes := Make(32);
    CopyEndingAt(senderBytes, 32, sender);
    assert senderBytes[..] == AddressWord(sender);
    callData := callData + Hex.Encode(senderBytes[..]);
    var keyBytes := Make(32);
    ToBytesWidth(key, 32);
    Widths();
    CopyEndingAt(keyBytes, 32, ToBytes(key));
    assert keyBytes[..] == Zeros(32 - |ToBytes(key)|) + ToBytes(key);
    callData := callData + Hex.Encode(keyBytes[..]);
  }

  lemma SelectorText()
    ensures "0x35567e1a" == "0x" + Hex.Encode(GET_NONCE_SELECTOR)
  {
    var s := GET_NONCE_SELECTOR;
    Hex.EncodeAt(s, 0);
    Hex.EncodeAt(s, 1);
    Hex.EncodeAt(s, 2);
    Hex.EncodeAt(s, 3);
    assert Hex.Encode(s) == "35567e1a" by { hide Hex.Encode; }
    hide *;
  }

  lemma KeyWord(key: nat)
    requires key < TWO192
    ensures key < Pow256(24) && key < Pow256(32) && Padded(key, 32) == Zeros(8) + Padded(key, 24)
  {
    Widths();
    LeadingZeros(8, Padded(key, 24));
    FromBytesInjective(Zeros(8) + Padded(key, 24), Padded(key, 32));
  }

  lemma HexPartsText(a: seq<Byte>, b: seq<Byte>, c: seq<Byte>)
    ensures "0x" + Hex.Encode(a) + Hex.Encode(b) + Hex.Encode(c) == "0x" + Hex.Encode(a + b + c)
  {
    Hex.EncodeConcat(a, b);
    Hex.EncodeConcat(a + b, c);
    hide Hex.Encode;
    var s, t, u := Hex.Encode(a), Hex.Encode(b), Hex.Encode(c);
    assert "0x" + s + t + u == "0x" + (s + t + u);
  }

  lemma HexPartsDecode(a: seq<Byte>, b: seq<Byte>, c: seq<Byte>)
    ensures DecodeBytes("0x" + Hex.Encode(a) + Hex.Encode(b) + Hex.Encode(c)) == Some(a + b + c)
  {
    HexPartsText(a, b, c);
    BytesRoundTrip(a + b + c);
  }

  lemma CallDataText(sender: Address, key: nat)
    requires key < TWO256
    ensures key < Pow256(32)
    ensures DecodeBytes(GetNonceText(sender, key)) == Some(GET_NONCE_SELECTOR + AddressWord(sender) + Padded(key, 32))
  {
    Widths();
    SelectorText();
    HexPartsDecode(GET_NONCE_SELECTOR, AddressWord(sender), Padded(key, 32));
    hide Hex.Encode, DecodeBytes, AddressWord, Padded;
    assert GetNonceText(sender, key) ==
           "0x" + Hex.Encode(GET_NONCE_SELECTOR) + Hex.Encode(AddressWord(sender)) + Hex.Encode(Padded(key, 32));
  }

  lemma Middle(a: seq<Byte>, b: seq<Byte>, c: seq<Byte>)
    ensures (a + b + c)[|a|..|a| + |b|] == b
  {
  }

  lemma CallDataSlices(selector: seq<Byte>, zeros: seq<Byte>, sender: seq<Byte>, high: seq<Byte>, low: seq<Byte>)
    requires |selector| == 4 && |zeros| == 12 && |sender| == 20 && |high| == 8 && |low| == 24
    ensures var data := selector + (zeros + sender) + (high + low);
            && |data| == 68 && data[..4] == selector && data[4..16] == zeros && data[16..36] == sender
            && data[36..44] == high && data[44..] == low
  {
    var data := selector + (zeros + sender) + (high + low);
    Middle(selector, zeros, sender + (high + low));
    assert data == selector + zeros + (sender + (high + low));
    Middle(selector + zeros, sender, high + low);
    assert data == selector + zeros + sender + (high + low);
    Middle(selector + zeros + sender, high, low);
    assert data == selector + zeros + sender + high + low;
  }

  /** The call data is 68 bytes: the selector, the sender in a word, the key in a word. */
  lemma CallDataDecodes(sender: Address, key: nat)
    requires key < TWO192
    ensures var data := DecodeBytes(GetNonceText(sender, key));
            && data.Some? && |data.value| == 68
            && data.value[..4] == [0x35, 0x56, 0x7e, 0x1a]
            && data.value[4..16] == Zeros(12) && data.value[16..36] == sender
            && data.value[36..44] == Zeros(8) && FromBytes(data.value[44..]) == key
  {
    CallDataText(sender, key);
    KeyWord(key);
    CallDataSlices(GET_NONCE_SELECTOR, Zeros(12), sender, Zeros(8), Padded(key, 24));
  }

  /** The call data that asks for the nonce of the sender under the key of this nonce. */
  ghost predicate NonceCall(uo: UserOperation, text: string) {
    exists data: seq<Byte> ::
      && HexText.BytesText(text, data) && |data| == 68 && data[..4] == [0x35, 0x56, 0x7e, 0x1a]
      && data[4..16] == Zeros(12) && data[16..36] == uo.sender
      && var key := FromBytes(data[36..]); key * TWO64 <= Magnitude(uo.nonce) < (key + 1) * TWO64
  }

  lemma NonceCallSpelled(uo: UserOperation)
    requires NonceKey(uo.nonce).Key?
    ensures NonceKey(uo.nonce).key < TWO256 && NonceCall(uo, GetNonceText(uo.sender, NonceKey(uo.nonce).key))
  {
    var key := NonceKey(uo.nonce).key;
    NonceKeyWidth(uo.nonce);
    Widths();
    var word, from := Padded(key, 32), AddressWord(uo.sender);
    var data := GET_NONCE_SELECTOR + from + word;
    SelectorText();
    HexPartsText(GET_NONCE_SELECTOR, from, word);
    HexText.EncodedIsText(data);
    AddressWordParts(uo.sender);
    hide Hex.Encode, HexText.BytesText, Padded, Zeros, AddressWord;
    assert data[36..] == word;
    assert data[16..36] == from[12..];
    assert data[4..16] == from[..12];
    assert data[..4] == GET_NONCE_SELECTOR;
  }

  // ---- fees ----

  /** One and a half times the base fee, rounded down, plus the priority fee. */
  function MaxFee(baseFee: int, priorityFee: int): (fee: int)
    ensures 2 * (fee - priorityFee) <= 3 * baseFee < 2 * (fee - priorityFee) + 2
  {
    3 * baseFee / 2 + priorityFee
  }

  /** getMaxFeePerGas, as it updates one big.Int. */
  method MaxFeePerGas(baseFeePerGas: int, maxPriorityFeePerGas: int) returns (maxFeePerGas: int)
    ensures maxFeePerGas == MaxFee(baseFeePerGas, maxPriorityFeePerGas)
    ensures var share := maxFeePerGas - maxPriorityFeePerGas; 2 * share <= 3 * baseFeePerGas < 2 * share + 2
  {
    maxFeePerGas := baseFeePerGas * 150;
    maxFeePerGas := maxFeePerGas / 100;
    maxFeePerGas := maxFeePerGas + maxPriorityFeePerGas;
  }

  // ---- signature ----

  function Repeated(b: Byte, n: nat): (bs: seq<Byte>)
    ensures |bs| == n && forall i :: 0 <= i < n ==> bs[i] == b
  {
    seq(n, i => b)
  }

  /** The placeholder a client puts where the signature goes. */
  const DUMMY_SIGNATURE: seq<Byte> :=
    Repeated(0xff, 15) + [0xf0] + Repeated(0x00, 16) + [0x7a] + Repeated(0xaa, 31) + [0x1c]

  /** Its 130 digits: 31 times f, 33 times 0, a 7, 63 times a, and 1c. */
  lemma DummyText(i: nat)
    requires i < 130
    ensures |Hex.Encode(DUMMY_SIGNATURE)| == 130
    ensures Hex.Encode(DUMMY_SIGNATURE)[i] ==
            if i < 31 then 'f' else if i < 64 then '0' else if i == 64 then '7' else if i < 128 then 'a'
            else if i == 128 then '1' else 'c'
  {
    Hex.EncodeAt(DUMMY_SIGNATURE, i / 2);
    hide Hex.Encode;
  }

  predicate EndsWith(signature: seq<Byte>, ending: seq<Byte>) {
    |signature| >= |ending| && signature[|signature| - |ending|..] == ending
  }

  predicate EndsWithDummy(signature: seq<Byte>) {
    EndsWith(signature, DUMMY_SIGNATURE)
  }

  /** A suffix of the hex text as long as the hex of b is the hex of b exactly when b is a byte suffix. */
  lemma HexSuffix(a: seq<Byte>, b: seq<Byte>)
    requires |a| >= |b|
    ensures |Hex.Encode(a)| - |Hex.Encode(b)| >= 0
    ensures Hex.Encode(a)[|Hex.Encode(a)| - |Hex.Encode(b)|..] == Hex.Encode(b) <==> a[|a| - |b|..] == b
  {
    var front, back := a[..|a| - |b|], a[|a| - |b|..];
    assert a == front + back;
    Hex.EncodeConcat(front, back);
    assert Hex.Encode(a)[|Hex.Encode(front)|..] == Hex.Encode(back);
    if Hex.Encode(back) == Hex.Encode(b) {
      Hex.EncodeInjective(back, b);
    }
  }

  /** The test on the hex text; the answer is the length of the leading signature. */
  method FindLeadingSignature(signature: seq<Byte>, dummy: seq<Byte>) returns (leading: Option<nat>)
    ensures leading == if EndsWith(signature, dummy) then Some(|signature| - |dummy|) else None
    ensures leading.Some? <==> |signature| >= |dummy| && signature[|signature| - |dummy|..] == dummy
  {
    var dummyText := Hex.Encode(dummy);
    var text := Hex.Encode(signature);
    var dummyIndex := |text| - |dummyText|;
    if dummyIndex < 0 { return None; }
    HexSuffix(signature, dummy);
    if text[dummyIndex..] != dummyText { return None; }
    return Some(|signature| - |dummy|);
  }

  /**
   * append(buf[:leading], signature...) when the capacity suffices: the bytes are written into
   * the array that the old slice also shows.
   */
  method AppendInPlace(buf: array<Byte>, leading: nat, signature: seq<Byte>)
    requires leading + |signature| <= buf.Length
    modifies buf
    ensures buf[..] == old(buf[..leading]) + signature + old(buf[leading + |signature|..])
  {
    var i := 0;
    while i < |signature|
      invariant 0 <= i <= |signature|
      invariant buf[..] == old(buf[..leading]) + signature[..i] + old(buf[leading + i..])
    {
      buf[leading + i] := signature[i];
      i := i + 1;
    }
    assert signature[..|signature|] == signature;
  }

  // ---- ExecuteJob ----

  type RawSignature = s: seq<Byte> | |s| == 65 witness Zeros(65)

  /** The limits a bundler estimated; a JSON answer may leave any of them out. */
  datatype GasEstimates = GasEstimates(
    preVerificationGas: Option<int>,
    verificationGasLimit: Option<int>,
    callGasLimit: Option<int>,
    paymasterVerificationGasLimit: Option<int>)

  /** The batch of the latest block and the priority fee; a null block is an answer without an error. */
  datatype FeeAnswer = NoFeeAnswer | NullBlock | Fees(baseFee: int, priorityFee: int)

  /**
   * What the outside world answers during one execution, by what it is asked; None is an error.
   * call is eth_call of a contract, estimate and send are asked about an operation and an entry point.
   */
  datatype World = World(
    bundlerClient: bool,
    rpcClient: bool,
    call: (Address, string) -> Option<int>,
    estimate: (UserOperation, Address) -> Option<GasEstimates>,
    fees: FeeAnswer,
    sign: Word -> Option<RawSignature>,
    send: (UserOperation, Address) -> Option<Hash>)

  datatype Failure =
    NoBundlerClient | NoRPCClient | BadNonceKey | NoCurrentNonce | NoDummySignature | NoEstimates | NoFees | NoSignature

  datatype Execution =
    | Accepted(hash: Hash)      // SendUserOperation returned a hash
    | Refused                   // SendUserOperation was called and failed
    | NotSent(why: Failure)     // an error before SendUserOperation
    | Panicked                  // a buffer was too short or a nil pointer was dereferenced

  /** personalSignHash of a 32-byte hash: \x19Ethereum Signed Message:\n32 and the hash. */
  function PersonalSignHash(k: HashFunction, hash: Word): Word {
    k([0x19, 0x45, 0x74, 0x68, 0x65, 0x72, 0x65, 0x75, 0x6d, 0x20, 0x53, 0x69, 0x67, 0x6e, 0x65, 0x64, 0x20,
       0x4d, 0x65, 0x73, 0x73, 0x61, 0x67, 0x65, 0x3a, 0x0a, 0x33, 0x32] + hash)
  }

  /** signature[64] += 27, in a byte. */
  function WithRecoveryId(signature: RawSignature): RawSignature {
    var v: int := signature[64];
    signature[64 := (v + 27) % 256]
  }

  /** The operation with the nonce, gas and fees of this execution, and still the dummy signature. */
  function Prepared(uo: UserOperation, nonce: int, e: GasEstimates, baseFee: int, priorityFee: int): UserOperation {
    uo.(nonce := Some(nonce),
        preVerificationGas := e.preVerificationGas,
        verificationGasLimit := e.verificationGasLimit,
        callGasLimit := e.callGasLimit,
        maxFeePerGas := Some(MaxFee(baseFee, priorityFee)),
        maxPriorityFeePerGas := Some(priorityFee),
        paymasterVerificationGasLimit :=
          if uo.paymaster.Some? then e.paymasterVerificationGasLimit else uo.paymasterVerificationGasLimit)
  }

  /** getCurrentNonce for the sender and the key of the operation's nonce. */
  function CurrentNonce(uo: UserOperation, w: World): Option<int> {
    if !NonceKey(uo.nonce).Key? then None
    else
      NonceKeyWidth(uo.nonce);
      w.call(ENTRY_POINT_V07, GetNonceText(uo.sender, NonceKey(uo.nonce).key))
  }

  /** The estimate for the operation with its current nonce and still the dummy signature. */
  function Estimates(job: EntityJob, w: World): Option<GasEstimates> {
    w.estimate(job.userOperation.(nonce := CurrentNonce(job.userOperation, w)), job.entryPointAddress)
  }

  /** MarshalJSON, with which the gas estimate is asked for, has room for a nonce of 32 bytes. */
  predicate NonceTooWide(uo: UserOperation, w: World) {
    Magnitude(CurrentNonce(uo, w)) >= TWO256
  }

  /** The first call that fails before anything is signed, in the order they are made. */
  function Obstacle(job: EntityJob, w: World): (why: Option<Failure>)
    ensures why != Some(NoSignature)
  {
    var uo := job.userOperation;
    if !w.bundlerClient then Some(NoBundlerClient)
    else if !w.rpcClient then Some(NoRPCClient)
    else if NonceKey(uo.nonce).NilNonce? || NonceKey(uo.nonce).TooShort? then Some(BadNonceKey)
    else if NonceKey(uo.nonce).Panics? then None
    else if CurrentNonce(uo, w).None? then Some(NoCurrentNonce)
    else if !EndsWithDummy(uo.signature) then Some(NoDummySignature)
    else if NonceTooWide(uo, w) then None
    else if Estimates(job, w).None? then Some(NoEstimates)
    else if w.fees.NoFeeAnswer? then Some(NoFees)
    else None
  }

  /** The estimates that are logged unconditionally are there. */
  predicate Complete(e: GasEstimates) {
    e.preVerificationGas.Some? && e.verificationGasLimit.Some? && e.callGasLimit.Some?
  }

  /** No call fails, but before the hash a buffer is too short or a missing block or estimate is dereferenced. */
  predicate BreaksOff(job: EntityJob, w: World)
    requires Obstacle(job, w).None?
  {
    || NonceKey(job.userOperation.nonce).Panics? || NonceTooWide(job.userOperation, w)
    || w.fees.NullBlock? || !Complete(Estimates(job, w).value)
  }

  /** The operation that is hashed: with this execution's nonce, gas and fees. */
  function ToHash(job: EntityJob, w: World): UserOperation
    requires Obstacle(job, w).None? && !BreaksOff(job, w)
  {
    Prepared(job.userOperation, CurrentNonce(job.userOperation, w).value, Estimates(job, w).value,
             w.fees.baseFee, w.fees.priorityFee)
  }

  /** No call fails, but the execution panics, at the latest in the packing. */
  predicate Crashes(job: EntityJob, w: World)
    requires Obstacle(job, w).None?
  {
    BreaksOff(job, w) || Packed(ToHash(job, w)).None?
  }

  /** What is signed for: the hash of the prepared operation, as a personal message. */
  function ToSign(k: HashFunction, job: EntityJob, w: World): Word
    requires Obstacle(job, w).None? && !Crashes(job, w)
  {
    PersonalSignHash(k, UserOpHash(k, ToHash(job, w), job.chainID).value)
  }

  /** A nonce with a key, as extractNonceKey has it. */
  ghost predicate HasKey(uo: UserOperation) {
    uo.nonce.Some? && 0x100_0000_0000_0000 <= Magnitude(uo.nonce) < TWO256
  }

  /** What the v0.7 entry point answers when asked for the nonce. */
  ghost predicate NonceAnswer(uo: UserOperation, w: World, answer: Option<int>) {
    exists text :: NonceCall(uo, text) &&
      w.call([0x00, 0x00, 0x00, 0x00, 0x71, 0x72, 0x7D, 0xE2, 0x2E, 0x5E,
              0x9D, 0x8B, 0xAF, 0x0E, 0xDA, 0xC6, 0xF3, 0x7D, 0xA0, 0x32], text) == answer
  }

  lemma KeyFound(uo: UserOperation)
    requires HasKey(uo)
    ensures NonceKey(uo.nonce).Key?
  {
  }

  lemma NonceIsAnswer(uo: UserOperation, w: World)
    requires NonceKey(uo.nonce).Key?
    ensures NonceAnswer(uo, w, CurrentNonce(uo, w))
  {
    NonceCallSpelled(uo);
    hide NonceCall, NonceKey, GetNonceText;
  }

  /** The operation that is sent, field by field: what comes from the job and what from the answers. */
  ghost predicate FieldsSent(job: EntityJob, w: World, sent: UserOperation) {
    var uo := job.userOperation;
    var e := w.estimate(uo.(nonce := sent.nonce), job.entryPointAddress);
    && sent.sender == uo.sender && sent.factory == uo.factory && sent.factoryData == uo.factoryData
    && sent.callData == uo.callData && sent.paymaster == uo.paymaster && sent.paymasterData == uo.paymasterData
    && sent.paymasterPostOpGasLimit == uo.paymasterPostOpGasLimit
    && sent.nonce.Some? && e.Some? && w.fees.Fees?
    && sent.preVerificationGas == e.value.preVerificationGas && sent.preVerificationGas.Some?
    && sent.verificationGasLimit == e.value.verificationGasLimit && sent.verificationGasLimit.Some?
    && sent.callGasLimit == e.value.callGasLimit && sent.callGasLimit.Some?
    && (uo.paymaster.Some? ==> sent.paymasterVerificationGasLimit == e.value.paymasterVerificationGasLimit)
    && (uo.paymaster.None? ==> sent.paymasterVerificationGasLimit == uo.paymasterVerificationGasLimit)
    && sent.maxPriorityFeePerGas == Some(w.fees.priorityFee) && sent.maxFeePerGas.Some?
    && var share := sent.maxFeePerGas.value - w.fees.priorityFee;
       2 * share <= 3 * w.fees.baseFee < 2 * share + 2
  }

  datatype Preparation = Ready(op: UserOperation, leading: nat) | Stopped(result: Execution)

  /** The first part of ExecuteJob: the fields of its copy of the operation are overwritten one by one. */
  method Prepare(job: EntityJob, w: World) returns (p: Preparation)
    ensures p == if Obstacle(job, w).Some? then Stopped(NotSent(Obstacle(job, w).value))
                 else if BreaksOff(job, w) then Stopped(Panicked)
                 else Ready(ToHash(job, w), |job.userOperation.signature| - 65)
    ensures p.Ready? ==>
              && NonceAnswer(job.userOperation, w, p.op.nonce) && FieldsSent(job, w, p.op)
              && p.op.signature == job.userOperation.signature
  {
    hide Unmarshal, MarshalCustom, MaxFee, Magnitude, GetNonceText, NonceAnswer;
    var userOp := job.userOperation;
    if !w.bundlerClient { return Stopped(NotSent(NoBundlerClient)); }
    if !w.rpcClient { return Stopped(NotSent(NoRPCClient)); }
    var nonceKey := ExtractNonceKey(userOp.nonce);
    if nonceKey.Panics? { return Stopped(Panicked); }
    if !nonceKey.Key? { return Stopped(NotSent(BadNonceKey)); }
    NonceKeyWidth(userOp.nonce);
    NonceIsAnswer(userOp, w);
    var callData := GetNonceCallData(userOp.sender, nonceKey.key);
    var currentNonce := w.call(ENTRY_POINT_V07, callData);
    if currentNonce.None? { return Stopped(NotSent(NoCurrentNonce)); }
    userOp := userOp.(nonce := currentNonce);
    var leading := FindLeadingSignature(userOp.signature, DUMMY_SIGNATURE);
    if leading.None? { return Stopped(NotSent(NoDummySignature)); }
    var request := MarshalJSON(userOp);
    CustomRoundTrip(userOp);
    if request.None? { return Stopped(Panicked); }
    var answer := w.estimate(userOp, job.entryPointAddress);
    if answer.None? { return Stopped(NotSent(NoEstimates)); }
    if w.fees.NoFeeAnswer? { return Stopped(NotSent(NoFees)); }
    if w.fees.NullBlock? { return Stopped(Panicked); }
    var maxFee := MaxFeePerGas(w.fees.baseFee, w.fees.priorityFee);
    var estimates := answer.value;
    if !Complete(estimates) { return Stopped(Panicked); }
    userOp := userOp.(preVerificationGas := estimates.preVerificationGas);
    userOp := userOp.(verificationGasLimit := estimates.verificationGasLimit);
    userOp := userOp.(callGasLimit := estimates.callGasLimit);
    userOp := userOp.(maxFeePerGas := Some(maxFee));
    userOp := userOp.(maxPriorityFeePerGas := Some(w.fees.priorityFee));
    if userOp.paymaster.Some? {
      userOp := userOp.(paymasterVerificationGasLimit := estimates.paymasterVerificationGasLimit);
    }
    return Ready(userOp, leading.value);
  }

  /** What ExecuteJob sends and returns. */
  ghost predicate Executed(job: EntityJob, w: World, k: HashFunction, result: Execution, sent: Option<UserOperation>) {
    var uo := job.userOperation;
    if Obstacle(job, w).Some? then sent.None? && result == NotSent(Obstacle(job, w).value)
    else if Crashes(job, w) then sent.None? && result == Panicked
    else
      var signature := w.sign(ToSign(k, job, w));
      if signature.None? then sent.None? && result == NotSent(NoSignature)
      else
        && sent == Some(ToHash(job, w)
                        .(signature := uo.signature[..|uo.signature| - 65] + WithRecoveryId(signature.value)))
        && var answer := w.send(sent.value, job.entryPointAddress);
           result == if answer.Some? then Accepted(answer.value) else Refused
  }

  // ---- the same, spelled out ----

  function Ascii(text: string): seq<Byte> {
    seq(|text|, i requires 0 <= i < |text| => text[i] as int % 256)
  }

  /** The hash of the personal message about the operation's hash. */
  function MessageHash(k: HashFunction, op: UserOperation, chainID: int): Option<Word> {
    var hash := UserOpHash(k, op, chainID);
    if hash.None? then None else Some(k(Ascii("\U{19}Ethereum Signed Message:\n32") + hash.value))
  }

  /**
   * The signature that is sent: the job's own up to its last 65 bytes, and then a signature of the
   * personal message about the hash of the operation that is sent, with 27 added to its last byte.
   */
  ghost predicate SignatureSent(job: EntityJob, w: World, k: HashFunction, sent: UserOperation) {
    var given, message := job.userOperation.signature, MessageHash(k, sent, job.chainID);
    && message.Some? && |sent.signature| == |given| >= 65
    && sent.signature[..|given| - 65] == given[..|given| - 65]
    && var signed := w.sign(message.value);
       && signed.Some? && sent.signature[|given| - 65..|given| - 1] == signed.value[..64]
       && var recovery: int := signed.value[64]; sent.signature[|given| - 1] == (recovery + 27) % 256
  }

  /** The calls up to the estimate have answered, in this order, and nothing has panicked yet. */
  ghost predicate Estimating(uo: UserOperation, w: World, nonce: Option<int>) {
    && w.bundlerClient && w.rpcClient && HasKey(uo) && nonce.Some? && Magnitude(nonce) < TWO256
    && |uo.signature| >= 65 && uo.signature[|uo.signature| - 65..] == DUMMY_SIGNATURE
  }

  /** Everything the execution needs before it asks for a signature of this operation. */
  ghost predicate Signable(job: EntityJob, w: World, nonce: Option<int>, op: UserOperation) {
    Estimating(job.userOperation, w, nonce) && op.nonce == nonce && FieldsSent(job, w, op) && Packable(op)
  }

  /** Which failure comes before the signature: the first call in order without an answer, or a text that is amiss. */
  ghost predicate FailsFor(job: EntityJob, w: World, nonce: Option<int>, result: Execution) {
    var uo, client := job.userOperation, w.bundlerClient && w.rpcClient;
    var dummy := |uo.signature| >= 65 && uo.signature[|uo.signature| - 65..] == DUMMY_SIGNATURE;
    var estimates := w.estimate(uo.(nonce := nonce), job.entryPointAddress);
    && (result == NotSent(NoBundlerClient) <==> !w.bundlerClient)
    && (result == NotSent(NoRPCClient) <==> w.bundlerClient && !w.rpcClient)
    && (result == NotSent(BadNonceKey) <==> client && (uo.nonce.None? || Magnitude(uo.nonce) < 0x100_0000_0000_0000))
    && (result == NotSent(NoCurrentNonce) <==> client && HasKey(uo) && nonce.None?)
    && (result == NotSent(NoDummySignature) <==> client && HasKey(uo) && nonce.Some? && !dummy)
    && (result == NotSent(NoEstimates) <==> Estimating(uo, w, nonce) && estimates.None?)
    && (result == NotSent(NoFees) <==> Estimating(uo, w, nonce) && estimates.Some? && w.fees.NoFeeAnswer?)
  }

  /**
   * Why nothing is sent, nonce being the current nonce. Of the other results it is one after the
   * signature was asked for exactly when the answers make up an operation that can be packed; else it
   * panics.
   */
  ghost predicate StopsFor(job: EntityJob, w: World, nonce: Option<int>, result: Execution) {
    && FailsFor(job, w, nonce, result)
    && (result == NotSent(NoSignature) || result.Accepted? || result.Refused? <==>
          exists op :: Signable(job, w, nonce, op))
  }

  /** What a whole execution sends and returns. */
  ghost predicate ExecutionSpelled(job: EntityJob, w: World, k: HashFunction, result: Execution,
                                   sent: Option<UserOperation>) {
    exists nonce ::
      && (HasKey(job.userOperation) ==> NonceAnswer(job.userOperation, w, nonce))
      && StopsFor(job, w, nonce, result)
      && (result == NotSent(NoSignature) ==>
            exists op ::
              && Signable(job, w, nonce, op)
              && MessageHash(k, op, job.chainID).Some? && w.sign(MessageHash(k, op, job.chainID).value).None?)
      && (sent.Some? <==> result.Accepted? || result.Refused?)
      && (sent.Some? ==>
            && Signable(job, w, nonce, sent.value) && SignatureSent(job, w, k, sent.value)
            && var answer := w.send(sent.value, job.entryPointAddress);
               && (result.Accepted? <==> answer.Some?) && (result.Accepted? ==> answer == Some(result.hash)))
  }

  lemma PersonalMessage(k: HashFunction, hash: Word)
    ensures PersonalSignHash(k, hash) == k(Ascii("\U{19}Ethereum Signed Message:\n32") + hash)
  {
    var prefix: seq<Byte> := [
      0x19, 0x45, 0x74, 0x68, 0x65, 0x72, 0x65, 0x75, 0x6d, 0x20, 0x53, 0x69, 0x67, 0x6e, 0x65, 0x64, 0x20,
      0x4d, 0x65, 0x73, 0x73, 0x61, 0x67, 0x65, 0x3a, 0x0a, 0x33, 0x32];
    assert Ascii("\U{19}Ethereum Signed Message:\n32") == prefix;
  }

  lemma ToHashSignable(job: EntityJob, w: World, signature: seq<Byte>)
    requires Obstacle(job, w).None? && !Crashes(job, w)
    ensures Signable(job, w, CurrentNonce(job.userOperation, w), ToHash(job, w).(signature := signature))
  {
    PackedExactly(ToHash(job, w).(signature := signature));
    SignatureOnlyCopied(ToHash(job, w), signature);
    hide Packed, Packable, Magnitude, GetNonceText;
  }

  /** The answers determine the operation, up to its signature. */
  lemma SignableIsToHash(job: EntityJob, w: World, op: UserOperation)
    requires Signable(job, w, CurrentNonce(job.userOperation, w), op)
    ensures Obstacle(job, w).None? && !Crashes(job, w)
    ensures op == ToHash(job, w).(signature := op.signature)
  {
    hide Packed, Packable, Magnitude, GetNonceText;
    var prepared := ToHash(job, w);
    assert op == prepared.(signature := op.signature);
    SignatureOnlyCopied(prepared, op.signature);
    PackedExactly(op);
  }

  lemma ObstacleFails(job: EntityJob, w: World, result: Execution)
    requires var why := Obstacle(job, w);
             if why.Some? then result == NotSent(why.value) else result.NotSent? ==> result.why == NoSignature
    ensures FailsFor(job, w, CurrentNonce(job.userOperation, w), result)
  {
    hide GetNonceText;
  }

  lemma ExecutedStops(job: EntityJob, w: World, k: HashFunction, result: Execution, sent: Option<UserOperation>)
    requires Executed(job, w, k, result, sent)
    ensures StopsFor(job, w, CurrentNonce(job.userOperation, w), result)
    ensures sent.Some? <==> result.Accepted? || result.Refused?
  {
    var nonce := CurrentNonce(job.userOperation, w);
    if Obstacle(job, w).None? && !Crashes(job, w) {
      ToHashSignable(job, w, []);
    }
    if op :| Signable(job, w, nonce, op) {
      SignableIsToHash(job, w, op);
    }
    hide Packed, Signable, ToHash, FailsFor, Obstacle, BreaksOff, ToSign, CurrentNonce;
    ObstacleFails(job, w, result);
  }

  lemma MessageOf(k: HashFunction, job: EntityJob, w: World, signature: seq<Byte>)
    requires Obstacle(job, w).None? && !Crashes(job, w)
    ensures MessageHash(k, ToHash(job, w).(signature := signature), job.chainID) == Some(ToSign(k, job, w))
  {
    SignatureNotHashed(k, ToHash(job, w), signature, job.chainID);
    PersonalMessage(k, UserOpHash(k, ToHash(job, w), job.chainID).value);
    hide PersonalSignHash, Ascii, ToHash, Obstacle;
  }

  lemma Spliced(given: seq<Byte>, signed: RawSignature)
    requires |given| >= 65
    ensures var n, s := |given|, given[..|given| - 65] + WithRecoveryId(signed);
            && |s| == n && s[..n - 65] == given[..n - 65] && s[n - 65..n - 1] == signed[..64]
            && var recovery: int := signed[64]; s[n - 1] == (recovery + 27) % 256
  {
  }

  lemma ExecutedSignature(job: EntityJob, w: World, k: HashFunction, result: Execution, sent: Option<UserOperation>)
    requires Executed(job, w, k, result, sent) && sent.Some?
    ensures SignatureSent(job, w, k, sent.value)
    ensures Signable(job, w, CurrentNonce(job.userOperation, w), sent.value)
  {
    hide Packed, Signable, MessageHash, ToSign, WithRecoveryId, ToHash, NonceKey, CurrentNonce, Estimates;
    var uo := job.userOperation;
    MessageOf(k, job, w, sent.value.signature);
    ToHashSignable(job, w, sent.value.signature);
    Spliced(uo.signature, w.sign(ToSign(k, job, w)).value);
  }

  lemma ExecutedSpelled(job: EntityJob, w: World, k: HashFunction, result: Execution, sent: Option<UserOperation>)
    requires Executed(job, w, k, result, sent)
    ensures ExecutionSpelled(job, w, k, result, sent)
  {
    hide StopsFor, Signable, SignatureSent, Obstacle, BreaksOff, Packed, NonceKey, MessageHash, ToHash, NonceAnswer;
    var nonce := CurrentNonce(job.userOperation, w);
    if HasKey(job.userOperation) {
      KeyFound(job.userOperation);
      NonceIsAnswer(job.userOperation, w);
    }
    ExecutedStops(job, w, k, result, sent);
    if result == NotSent(NoSignature) {
      ToHashSignable(job, w, []);
      MessageOf(k, job, w, []);
    }
    if sent.Some? {
      ExecutedSignature(job, w, k, result, sent);
    }
  }

  /** The hash that was signed is the hash of exactly the operation that is sent. */
  lemma SignedIsSent(job: EntityJob, w: World, k: HashFunction, result: Execution, sent: Option<UserOperation>)
    requires Executed(job, w, k, result, sent) && sent.Some?
    ensures UserOpHash(k, sent.value, job.chainID).Some?
    ensures var signed := w.sign(PersonalSignHash(k, UserOpHash(k, sent.value, job.chainID).value));
            && signed.Some? && |sent.value.signature| >= 65
            && sent.value.signature[|sent.value.signature| - 65..] == WithRecoveryId(signed.value)
  {
    var uo := job.userOperation;
    var prepared := ToHash(job, w);
    assert sent.value == prepared.(signature := sent.value.signature);
    SignatureNotHashed(k, prepared, sent.value.signature, job.chainID);
  }

  /**
   * ExecuteJob. buf is the array behind the job's signature slice, which the new signature
   * overwrites; nothing beyond the slice is touched, and nothing at all when nothing is sent.
   */
  method ExecuteJob(job: EntityJob, buf: array<Byte>, w: World, k: HashFunction)
    returns (result: Execution, sent: Option<UserOperation>)
    requires |job.userOperation.signature| <= buf.Length
    requires buf[..|job.userOperation.signature|] == job.userOperation.signature
    modifies buf
    ensures Executed(job, w, k, result, sent)
    ensures ExecutionSpelled(job, w, k, result, sent)
    ensures buf[..] ==
            if sent.Some? then sent.value.signature + old(buf[|job.userOperation.signature|..]) else old(buf[..])
  {
    hide PersonalSignHash, Packed, WithRecoveryId, ExecutionSpelled, Obstacle, BreaksOff, ToHash, NonceAnswer;
    hide FieldsSent, PackedHash, Inner, CurrentNonce;
    var n := |job.userOperation.signature|;
    var preparation := Prepare(job, w);
    if preparation.Stopped? {
      ExecutedSpelled(job, w, k, preparation.result, None);
      return preparation.result, None;
    }
    var userOp := preparation.op;
    var hash := UserOpHash(k, userOp, job.chainID);
    if hash.None? {
      ExecutedSpelled(job, w, k, Panicked, None);
      return Panicked, None;
    }
    var signature := w.sign(PersonalSignHash(k, hash.value));
    if signature.None? {
      ExecutedSpelled(job, w, k, NotSent(NoSignature), None);
      return NotSent(NoSignature), None;
    }
    AppendInPlace(buf, preparation.leading, WithRecoveryId(signature.value));
    assert buf[..n] == job.userOperation.signature[..preparation.leading] + WithRecoveryId(signature.value);
    userOp := userOp.(signature := buf[..n]);
    sent := Some(userOp);
    var answer := w.send(userOp, job.entryPointAddress);
    result := if answer.Some? then Accepted(answer.value) else Refused;
    ExecutedSpelled(job, w, k, result, sent);
  }
}
