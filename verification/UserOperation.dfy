/** erc4337/user_operation.go: the operation, its packed form and the packing. */
module UserOperations {
  import opened Wrappers
  import opened Bytes

  /** A nil pointer is None; a big.Int may hold any integer; a nil and an empty byte slice are one value. */
  datatype UserOperation = UserOperation(
    sender: Address,
    nonce: Option<int>,
    factory: Option<Address>,
    factoryData: seq<Byte>,
    callData: seq<Byte>,
    callGasLimit: Option<int>,
    verificationGasLimit: Option<int>,
    preVerificationGas: Option<int>,
    maxPriorityFeePerGas: Option<int>,
    maxFeePerGas: Option<int>,
    paymaster: Option<Address>,
    paymasterVerificationGasLimit: Option<int>,
    paymasterPostOpGasLimit: Option<int>,
    paymasterData: seq<Byte>,
    signature: seq<Byte>)

  datatype PackedUserOp = PackedUserOp(
    sender: Address,
    nonce: Option<int>,
    initCode: seq<Byte>,
    callData: seq<Byte>,
    accountGasLimits: seq<Byte>,
    preVerificationGas: Option<int>,
    gasFees: seq<Byte>,
    paymasterAndData: seq<Byte>,
    signature: seq<Byte>)

  /** big.Int.Bytes ignores the sign; a nil number writes nothing, like zero. */
  function Magnitude(x: Option<int>): nat {
    var n := x.GetOr(0);
    if n < 0 then -n else n
  }

  function MagnitudeBytes(x: Option<int>): seq<Byte> {
    ToBytes(Magnitude(x))
  }

  // ---- what the packing writes ----

  /**
   * The 32 bytes of two numbers, left half written first. None is the run-time panic of a slice
   * bound: the left number has more than 16 bytes or the right one more than 32. A right number
   * of 17 to 32 bytes writes over the left half.
   */
  function WordBytes(left: Option<int>, right: Option<int>): Option<seq<Byte>> {
    var l, r := MagnitudeBytes(left), MagnitudeBytes(right);
    if |l| > 16 || |r| > 32 then None
    else Some((Zeros(16 - |l|) + l + Zeros(16))[..32 - |r|] + r)
  }

  function HalfBytes(x: Option<int>): Option<seq<Byte>> {
    var b := MagnitudeBytes(x);
    if |b| > 16 then None else Some(Zeros(16 - |b|) + b)
  }

  function PaymasterBytes(uo: UserOperation): Option<seq<Byte>> {
    if uo.paymaster.None? then Some([])
    else
      var v, p := HalfBytes(uo.paymasterVerificationGasLimit), HalfBytes(uo.paymasterPostOpGasLimit);
      if v.None? || p.None? then None else Some(uo.paymaster.value + v.value + p.value + uo.paymasterData)
  }

  function InitCodeBytes(uo: UserOperation): seq<Byte> {
    if uo.factory.Some? && uo.factoryData != [] then uo.factory.value + uo.factoryData else []
  }

  /** The packed operation, or None where the packing panics. */
  function Packed(uo: UserOperation): Option<PackedUserOp> {
    var limits := WordBytes(uo.verificationGasLimit, uo.callGasLimit);
    var fees := WordBytes(uo.maxPriorityFeePerGas, uo.maxFeePerGas);
    var paymaster := PaymasterBytes(uo);
    if limits.None? || fees.None? || paymaster.None? then None
    else Some(PackedUserOp(uo.sender, Some(uo.nonce.GetOr(0)), InitCodeBytes(uo), uo.callData, limits.value,
                           Some(uo.preVerificationGas.GetOr(0)), fees.value, paymaster.value, uo.signature))
  }

  // ---- a reader of the ERC-4337 v0.7 layout, independent of the packing ----

  function LeftHalf(word: seq<Byte>): nat
    requires |word| == 32
  {
    FromBytes(word[..16])
  }

  function RightHalf(word: seq<Byte>): nat
    requires |word| == 32
  {
    FromBytes(word[16..])
  }

  /** paymasterAndData: address, two 16-byte limits, data. */
  function Unpack(p: PackedUserOp): UserOperation
    requires |p.accountGasLimits| == 32 && |p.gasFees| == 32
  {
    var hasFactory := |p.initCode| >= 20;
    var hasPaymaster := |p.paymasterAndData| >= 52;
    UserOperation(
      p.sender, p.nonce,
      if hasFactory then Some(p.initCode[..20]) else None,
      if hasFactory then p.initCode[20..] else [],
      p.callData,
      Some(RightHalf(p.accountGasLimits)), Some(LeftHalf(p.accountGasLimits)),
      p.preVerificationGas,
      Some(LeftHalf(p.gasFees)), Some(RightHalf(p.gasFees)),
      if hasPaymaster then Some(p.paymasterAndData[..20]) else None,
      if hasPaymaster then Some(FromBytes(p.paymasterAndData[20..36])) else None,
      if hasPaymaster then Some(FromBytes(p.paymasterAndData[36..52])) else None,
      if hasPaymaster then p.paymasterAndData[52..] else [],
      p.signature)
  }

  /**
   * What packing does not keep: nil is zero, a factory without data (or data without a factory)
   * is no factory, and paymaster fields without a paymaster are nothing.
   */
  function Normal(uo: UserOperation): UserOperation {
    var hasFactory := uo.factory.Some? && uo.factoryData != [];
    var hasPaymaster := uo.paymaster.Some?;
    uo.(nonce := Some(uo.nonce.GetOr(0)),
        factory := if hasFactory then uo.factory else None,
        factoryData := if hasFactory then uo.factoryData else [],
        callGasLimit := Some(uo.callGasLimit.GetOr(0)),
        verificationGasLimit := Some(uo.verificationGasLimit.GetOr(0)),
        preVerificationGas := Some(uo.preVerificationGas.GetOr(0)),
        maxPriorityFeePerGas := Some(uo.maxPriorityFeePerGas.GetOr(0)),
        maxFeePerGas := Some(uo.maxFeePerGas.GetOr(0)),
        paymasterVerificationGasLimit := if hasPaymaster then Some(uo.paymasterVerificationGasLimit.GetOr(0)) else None,
        paymasterPostOpGasLimit := if hasPaymaster then Some(uo.paymasterPostOpGasLimit.GetOr(0)) else None,
        paymasterData := if hasPaymaster then uo.paymasterData else [])
  }

  predicate Fits128(x: Option<int>) {
    0 <= x.GetOr(0) < TWO128
  }

  /** The gas and fee fields that are packed into 16 bytes fit there. */
  predicate GasInRange(uo: UserOperation) {
    && Fits128(uo.verificationGasLimit) && Fits128(uo.callGasLimit)
    && Fits128(uo.maxPriorityFeePerGas) && Fits128(uo.maxFeePerGas)
    && (uo.paymaster.Some? ==> Fits128(uo.paymasterVerificationGasLimit) && Fits128(uo.paymasterPostOpGasLimit))
  }

  /** A 16-byte field exists exactly below 2^128 and reads back as the magnitude. */
  lemma HalfReads(x: Option<int>)
    ensures HalfBytes(x).Some? <==> Magnitude(x) < TWO128
    ensures HalfBytes(x).Some? ==> |HalfBytes(x).value| == 16 && FromBytes(HalfBytes(x).value) == Magnitude(x)
  {
    ToBytesWidth(Magnitude(x), 16);
    Widths();
    if Magnitude(x) < TWO128 {
      LeadingZeros(16 - |MagnitudeBytes(x)|, MagnitudeBytes(x));
    }
  }

  lemma TailOverwritten(left: seq<Byte>, zeros: seq<Byte>, r: seq<Byte>)
    requires |left| == 16 && |zeros| == 16 && |r| <= 16
    ensures (left + zeros)[..32 - |r|] + r == left + (zeros[..16 - |r|] + r)
  {
    assert (left + zeros)[..32 - |r|] == left + zeros[..16 - |r|];
  }

  lemma WordOfHalves(left: Option<int>, right: Option<int>)
    requires HalfBytes(left).Some? && HalfBytes(right).Some?
    ensures WordBytes(left, right) == Some(HalfBytes(left).value + HalfBytes(right).value)
  {
    hide Zeros, MagnitudeBytes;
    var l, r := MagnitudeBytes(left), MagnitudeBytes(right);
    TailOverwritten(Zeros(16 - |l|) + l, Zeros(16), r);
    assert Zeros(16)[..16 - |r|] == Zeros(16 - |r|);
  }

  /** With both numbers in range the word is the two halves, and as one integer left * 2^128 + right. */
  lemma WordReads(left: Option<int>, right: Option<int>)
    requires Magnitude(left) < TWO128 && Magnitude(right) < TWO128
    ensures WordBytes(left, right).Some? && |WordBytes(left, right).value| == 32
    ensures LeftHalf(WordBytes(left, right).value) == Magnitude(left)
    ensures RightHalf(WordBytes(left, right).value) == Magnitude(right)
    ensures FromBytes(WordBytes(left, right).value) == Magnitude(left) * TWO128 + Magnitude(right)
  {
    HalfReads(left);
    HalfReads(right);
    WordOfHalves(left, right);
    var l, r := HalfBytes(left).value, HalfBytes(right).value;
    assert (l + r)[..16] == l && (l + r)[16..] == r;
    FromBytesConcat(l, r);
    Widths();
  }

  lemma {:induction false} Products(a: nat, b: nat, d: nat)
    requires a < b
    ensures a * d + d <= b * d
  {
    if a + 1 < b {
      Products(a, b - 1, d);
      assert b * d == (b - 1) * d + d;
    } else {
      assert b * d == a * d + d;
    }
  }

  lemma QuotientOf(q: nat, d: nat, r: nat)
    requires r < d
    ensures (q * d + r) / d == q
  {
    var n := q * d + r;
    var k, m := n / d, n % d;
    assert n == k * d + m;
    if k < q {
      Products(k, q, d);
    } else if q < k {
      Products(q, k, d);
    }
  }

  /** The digits of a number above its last n bytes. */
  lemma TopDigits(bs: seq<Byte>, n: nat)
    requires n <= |bs|
    ensures FromBytes(bs[..|bs| - n]) == FromBytes(bs) / Pow256(n)
  {
    var front, back := bs[..|bs| - n], bs[|bs| - n..];
    assert bs == front + back;
    FromBytesConcat(front, back);
    FromBytesBound(back);
    QuotientOf(FromBytes(front), Pow256(n), FromBytes(back));
  }

  /** The left number's half, before the right number is written, is left * 2^128. */
  lemma LeftWritten128(left: Option<int>)
    requires Magnitude(left) < TWO128
    ensures var l := MagnitudeBytes(left);
            |l| <= 16 && FromBytes(Zeros(16 - |l|) + l + Zeros(16)) == Magnitude(left) * TWO128
  {
    HalfReads(left);
    var half := HalfBytes(left).value;
    FromBytesConcat(half, Zeros(16));
    LeadingZeros(16, []);
    assert Zeros(16) + [] == Zeros(16);
    Widths();
  }

  /**
   * The word as an integer, whatever the width of the right number: it is written over the last
   * n bytes of left * 2^128, where n is its own length. So a right number of 2^128 or more
   * writes over the end of the left half.
   */
  lemma RightWritesOverLeft(left: Option<int>, right: Option<int>)
    requires WordBytes(left, right).Some?
    ensures Magnitude(left) < TWO128 && |WordBytes(left, right).value| == 32
    ensures var over := Pow256(|MagnitudeBytes(right)|);
            FromBytes(WordBytes(left, right).value) == Magnitude(left) * TWO128 / over * over + Magnitude(right)
  {
    ToBytesWidth(Magnitude(left), 16);
    Widths();
    LeftWritten128(left);
    var l, r := MagnitudeBytes(left), MagnitudeBytes(right);
    var word := Zeros(16 - |l|) + l + Zeros(16);
    assert WordBytes(left, right).value == word[..32 - |r|] + r;
    assert FromBytes(r) == Magnitude(right);
    hide Zeros, MagnitudeBytes, WordBytes, FromBytes, Pow256, ToBytes, Magnitude;
    TopDigits(word, |r|);
    FromBytesConcat(word[..32 - |r|], r);
  }

  /** A right number of 2^128 or more is not read back: the bound is needed. */
  lemma OversizedRightIsLost(left: Option<int>, right: Option<int>)
    requires Magnitude(right) >= TWO128 && WordBytes(left, right).Some?
    ensures |WordBytes(left, right).value| == 32
    ensures RightHalf(WordBytes(left, right).value) != Magnitude(right)
    ensures var over := Pow256(|MagnitudeBytes(right)|);
            && over > TWO128
            && FromBytes(WordBytes(left, right).value) == Magnitude(left) * TWO128 / over * over + Magnitude(right)
  {
    var word := WordBytes(left, right).value;
    FromBytesBound(word[16..]);
    Widths();
    RightWritesOverLeft(left, right);
    FromBytesBound(MagnitudeBytes(right));
  }

  /** A word exists and reads back as the two numbers exactly when both are below 2^128 (and no sign is lost). */
  lemma WordExact(left: Option<int>, right: Option<int>)
    ensures
      (Fits128(left) && Fits128(right)) <==>
      (var w := WordBytes(left, right);
       w.Some? && |w.value| == 32 && LeftHalf(w.value) == left.GetOr(0) && RightHalf(w.value) == right.GetOr(0))
  {
    var w := WordBytes(left, right);
    Widths();
    ToBytesWidth(Magnitude(left), 16);
    if Magnitude(left) < TWO128 && Magnitude(right) < TWO128 {
      WordReads(left, right);
    } else if w.Some? {
      OversizedRightIsLost(left, right);
    }
  }

  lemma PaymasterExact(uo: UserOperation)
    requires uo.paymaster.Some?
    ensures
      (Fits128(uo.paymasterVerificationGasLimit) && Fits128(uo.paymasterPostOpGasLimit)) <==>
      (var b := PaymasterBytes(uo);
       && b.Some? && |b.value| >= 52
       && FromBytes(b.value[20..36]) == uo.paymasterVerificationGasLimit.GetOr(0)
       && FromBytes(b.value[36..52]) == uo.paymasterPostOpGasLimit.GetOr(0))
    ensures PaymasterBytes(uo).Some? ==>
              var b := PaymasterBytes(uo).value;
              |b| >= 52 && b[..20] == uo.paymaster.value && b[52..] == uo.paymasterData
  {
    HalfReads(uo.paymasterVerificationGasLimit);
    HalfReads(uo.paymasterPostOpGasLimit);
    if PaymasterBytes(uo).Some? {
      var b := PaymasterBytes(uo).value;
      assert b[20..36] == HalfBytes(uo.paymasterVerificationGasLimit).value;
      assert b[36..52] == HalfBytes(uo.paymasterPostOpGasLimit).value;
    }
  }

  /**
   * Packing is invertible exactly on operations whose packed gas and fee fields fit 128 bits:
   * for those, and only those, it does not panic and the layout reads back every field.
   */
  lemma PackInvertible(uo: UserOperation)
    ensures Packed(uo).Some? ==> |Packed(uo).value.accountGasLimits| == 32 && |Packed(uo).value.gasFees| == 32
    ensures GasInRange(uo) <==> Packed(uo).Some? && Unpack(Packed(uo).value) == Normal(uo)
  {
    WordExact(uo.verificationGasLimit, uo.callGasLimit);
    WordExact(uo.maxPriorityFeePerGas, uo.maxFeePerGas);
    if uo.paymaster.Some? {
      PaymasterExact(uo);
    }
    if uo.factory.Some? && uo.factoryData != [] {
      assert InitCodeBytes(uo)[..20] == uo.factory.value && InitCodeBytes(uo)[20..] == uo.factoryData;
    }
  }

  lemma NilIsZero(x: Option<int>)
    ensures HalfBytes(Some(x.GetOr(0))) == HalfBytes(x)
    ensures MagnitudeBytes(Some(x.GetOr(0))) == MagnitudeBytes(x)
  {
    assert Magnitude(Some(x.GetOr(0))) == Magnitude(x);
  }

  lemma WordNilIsZero(left: Option<int>, right: Option<int>)
    ensures WordBytes(Some(left.GetOr(0)), Some(right.GetOr(0))) == WordBytes(left, right)
  {
    NilIsZero(left);
    NilIsZero(right);
  }

  lemma PaymasterDependsOnNormal(uo: UserOperation)
    ensures PaymasterBytes(Normal(uo)) == PaymasterBytes(uo)
  {
    if uo.paymaster.Some? {
      NilIsZero(uo.paymasterVerificationGasLimit);
      NilIsZero(uo.paymasterPostOpGasLimit);
    }
  }

  /** What packing drops cannot be seen in the packed operation. */
  lemma PackDependsOnNormal(uo: UserOperation)
    ensures Packed(Normal(uo)) == Packed(uo)
  {
    WordNilIsZero(uo.verificationGasLimit, uo.callGasLimit);
    WordNilIsZero(uo.maxPriorityFeePerGas, uo.maxFeePerGas);
    PaymasterDependsOnNormal(uo);
  }

  /** Two in-range operations pack alike exactly when they are the same up to what packing drops. */
  lemma PackInjective(a: UserOperation, b: UserOperation)
    requires GasInRange(a) && GasInRange(b)
    ensures Packed(a) == Packed(b) <==> Normal(a) == Normal(b)
  {
    PackInvertible(a);
    PackInvertible(b);
    PackDependsOnNormal(a);
    PackDependsOnNormal(b);
  }

  /** The left numbers fit 16 bytes, the right ones 32. */
  predicate Packable(uo: UserOperation) {
    && Magnitude(uo.verificationGasLimit) < TWO128 && Magnitude(uo.callGasLimit) < TWO256
    && Magnitude(uo.maxPriorityFeePerGas) < TWO128 && Magnitude(uo.maxFeePerGas) < TWO256
    && (uo.paymaster.Some? ==>
          && Magnitude(uo.paymasterVerificationGasLimit) < TWO128 && Magnitude(uo.paymasterPostOpGasLimit) < TWO128)
  }

  lemma WordWritten(left: Option<int>, right: Option<int>)
    ensures WordBytes(left, right).Some? <==> Magnitude(left) < TWO128 && Magnitude(right) < TWO256
  {
    ToBytesWidth(Magnitude(left), 16);
    ToBytesWidth(Magnitude(right), 32);
    Widths();
    hide Magnitude, ToBytes, Zeros, Pow256;
  }

  /** Packing panics exactly for numbers that are too wide. */
  lemma PackedExactly(uo: UserOperation)
    ensures Packed(uo).Some? <==> Packable(uo)
  {
    WordWritten(uo.verificationGasLimit, uo.callGasLimit);
    WordWritten(uo.maxPriorityFeePerGas, uo.maxFeePerGas);
    HalfReads(uo.paymasterVerificationGasLimit);
    HalfReads(uo.paymasterPostOpGasLimit);
    hide WordBytes, HalfBytes, Magnitude;
  }

  /** The packed operation, field by field, as the v0.7 layout has it. */
  ghost predicate FieldsPacked(uo: UserOperation, p: PackedUserOp) {
    && p.sender == uo.sender && p.callData == uo.callData && p.signature == uo.signature
    && p.nonce == Some(uo.nonce.GetOr(0)) && p.preVerificationGas == Some(uo.preVerificationGas.GetOr(0))
    && p.initCode ==
       (if uo.factory.Some? && uo.factoryData != [] then uo.factory.value + uo.factoryData else [])
    && |p.accountGasLimits| == 32 && |p.gasFees| == 32
    && FromBytes(p.accountGasLimits) == uo.verificationGasLimit.GetOr(0) * TWO128 + uo.callGasLimit.GetOr(0)
    && FromBytes(p.gasFees) == uo.maxPriorityFeePerGas.GetOr(0) * TWO128 + uo.maxFeePerGas.GetOr(0)
    && (uo.paymaster.None? ==> p.paymasterAndData == [])
    && (uo.paymaster.Some? ==>
          && |p.paymasterAndData| == 52 + |uo.paymasterData| && p.paymasterAndData[..20] == uo.paymaster.value
          && FromBytes(p.paymasterAndData[20..36]) == uo.paymasterVerificationGasLimit.GetOr(0)
          && FromBytes(p.paymasterAndData[36..52]) == uo.paymasterPostOpGasLimit.GetOr(0)
          && p.paymasterAndData[52..] == uo.paymasterData)
  }

  lemma PackedFields(uo: UserOperation)
    requires GasInRange(uo)
    ensures Packed(uo).Some? && FieldsPacked(uo, Packed(uo).value)
  {
    WordReads(uo.verificationGasLimit, uo.callGasLimit);
    WordReads(uo.maxPriorityFeePerGas, uo.maxFeePerGas);
    if uo.paymaster.Some? {
      PaymasterExact(uo);
      HalfReads(uo.paymasterVerificationGasLimit);
      HalfReads(uo.paymasterPostOpGasLimit);
    }
    hide WordBytes, HalfBytes, FromBytes;
  }

  // ---- the imperative packing ----

  /** copy(buf[end-len(bs):end], bs) */
  method CopyEndingAt(buf: array<Byte>, end: nat, bs: seq<Byte>)
    requires |bs| <= end <= buf.Length
    modifies buf
    ensures buf[..] == old(buf[..])[..end - |bs|] + bs + old(buf[..])[end..]
  {
    var start := end - |bs|;
    var i := 0;
    while i < |bs|
      invariant 0 <= i <= |bs|
      invariant buf[..] == old(buf[..])[..start] + bs[..i] + old(buf[..])[start + i..]
    {
      buf[start + i] := bs[i];
      i := i + 1;
    }
    assert bs[..|bs|] == bs;
  }

  /** make([]byte, n) */
  method Make(n: nat) returns (buf: array<Byte>)
    ensures fresh(buf) && buf[..] == Zeros(n)
  {
    buf := new Byte[n](i => 0);
    assert buf[..] == Zeros(n);
  }

  /** The bytes of a number, if it has one, ending at a position; false is the panic of the slice bound. */
  method PutNumber(buf: array<Byte>, end: nat, x: Option<int>) returns (ok: bool)
    requires end <= buf.Length
    modifies buf
    ensures ok <==> |MagnitudeBytes(x)| <= end
    ensures ok ==> buf[..] == old(buf[..])[..end - |MagnitudeBytes(x)|] + MagnitudeBytes(x) + old(buf[..])[end..]
  {
    ok := true;
    if x.Some? {
      var bytes := MagnitudeBytes(x);
      if |bytes| > end { return false; }
      CopyEndingAt(buf, end, bytes);
    } else {
      assert buf[..] == buf[..][..end] + [] + buf[..][end..];
    }
  }

  lemma LeftWritten(l: seq<Byte>)
    requires |l| <= 16
    ensures Zeros(32)[..16 - |l|] + l + Zeros(32)[16..] == Zeros(16 - |l|) + l + Zeros(16)
  {
    assert Zeros(32)[..16 - |l|] == Zeros(16 - |l|) && Zeros(32)[16..] == Zeros(16);
  }

  lemma WrittenAtEnd(word: seq<Byte>, r: seq<Byte>)
    requires |r| <= |word|
    ensures word[..|word| - |r|] + r + word[|word|..] == word[..|word| - |r|] + r
  {
  }

  /** accountGasLimits and gasFees: two numbers in one 32-byte buffer. */
  method PackWord(left: Option<int>, right: Option<int>) returns (word: Option<seq<Byte>>)
    ensures word == WordBytes(left, right)
  {
    hide Zeros, MagnitudeBytes;
    var buf := Make(32);
    var ok := PutNumber(buf, 16, left);
    if !ok { return None; }
    LeftWritten(MagnitudeBytes(left));
    ghost var written := buf[..];
    ok := PutNumber(buf, 32, right);
    if !ok { return None; }
    WrittenAtEnd(written, MagnitudeBytes(right));
    return Some(buf[..]);
  }

  method PackHalf(x: Option<int>) returns (half: Option<seq<Byte>>)
    ensures half == HalfBytes(x)
  {
    var buf := Make(16);
    var ok := PutNumber(buf, 16, x);
    if !ok { return None; }
    assert buf[..] == Zeros(16 - |MagnitudeBytes(x)|) + MagnitudeBytes(x);
    return Some(buf[..]);
  }

  method PackUserOp(uo: UserOperation) returns (packed: Option<PackedUserOp>)
    ensures packed == Packed(uo)
    ensures packed.Some? <==> Packable(uo)
    ensures GasInRange(uo) ==> packed.Some? && FieldsPacked(uo, packed.value)
  {
    hide FieldsPacked, Packable;
    PackedExactly(uo);
    if GasInRange(uo) { PackedFields(uo); }
    var nonce := if uo.nonce.Some? then uo.nonce.value else 0;
    var initCode: seq<Byte> := [];
    if uo.factory.Some? && |uo.factoryData| > 0 {
      initCode := initCode + uo.factory.value;
      initCode := initCode + uo.factoryData;
    }
    var accountGasLimits := PackWord(uo.verificationGasLimit, uo.callGasLimit);
    if accountGasLimits.None? { return None; }
    var preVerificationGas := if uo.preVerificationGas.Some? then uo.preVerificationGas.value else 0;
    var gasFees := PackWord(uo.maxPriorityFeePerGas, uo.maxFeePerGas);
    if gasFees.None? { return None; }
    var paymasterAndData: seq<Byte> := [];
    if uo.paymaster.Some? {
      paymasterAndData := paymasterAndData + uo.paymaster.value;
      var verificationLimit := PackHalf(uo.paymasterVerificationGasLimit);
      if verificationLimit.None? { return None; }
      paymasterAndData := paymasterAndData + verificationLimit.value;
      var postOpLimit := PackHalf(uo.paymasterPostOpGasLimit);
      if postOpLimit.None? { return None; }
      paymasterAndData := paymasterAndData + postOpLimit.value;
      paymasterAndData := paymasterAndData + uo.paymasterData;
      assert paymasterAndData == PaymasterBytes(uo).value;
    }
    assert initCode == InitCodeBytes(uo);
    return Some(PackedUserOp(uo.sender, Some(nonce), initCode, uo.callData, accountGasLimits.value,
                             Some(preVerificationGas), gasFees.value, paymasterAndData, uo.signature));
  }
}
