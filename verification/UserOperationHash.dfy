/**
 * GetUserOpHashV07 of erc4337/user_operation.go over an arbitrary hash function: the two-level
 * ABI pre-image, and what equal hashes say about the operations. Nothing is assumed of keccak:
 * either the operations agree or the two runs exhibit a collision.
 */
module UserOperationHash {
  import opened Wrappers
  import opened Bytes
  import opened UserOperations

  type Word = w: seq<Byte> | |w| == 32 witness Zeros(32)

  /** Keccak256, or any other function with 32-byte results. */
  type HashFunction = seq<Byte> -> Word

  /** 0x0000000071727De22E5E9d8BAf0edAc6f37da032 */
  const ENTRY_POINT_V07: Address :=
    [0x00, 0x00, 0x00, 0x00, 0x71, 0x72, 0x7D, 0xE2, 0x2E, 0x5E, 0x9D, 0x8B, 0xAF, 0x0E, 0xDA, 0xC6, 0xF3, 0x7D, 0xA0,
     0x32]

  /** ABI address: left-padded to a word. */
  function AddressWord(a: Address): (w: Word)
    ensures w[12..] == a
  {
    Zeros(12) + a
  }

  /** ABI uint256: the number modulo 2^256. */
  function UintWord(n: int): (w: Word)
    ensures FromBytes(w) == n % TWO256
  {
    Widths();
    Padded(n % TWO256, 32)
  }

  /** A packed operation as PackUserOp makes it. */
  predicate WellPacked(p: PackedUserOp) {
    |p.accountGasLimits| == 32 && |p.gasFees| == 32
  }

  /** The first ABI encoding: eight words. */
  function Inner(k: HashFunction, p: PackedUserOp): (bs: seq<Byte>)
    requires WellPacked(p)
    ensures |bs| == 256
  {
    AddressWord(p.sender) + UintWord(p.nonce.GetOr(0)) + k(p.initCode) + k(p.callData)
    + p.accountGasLimits + UintWord(p.preVerificationGas.GetOr(0)) + p.gasFees + k(p.paymasterAndData)
  }

  /** The second ABI encoding: three words. */
  function Outer(k: HashFunction, p: PackedUserOp, chainId: int): (bs: seq<Byte>)
    requires WellPacked(p)
    ensures |bs| == 96
  {
    k(Inner(k, p)) + AddressWord(ENTRY_POINT_V07) + UintWord(chainId)
  }

  function PackedHash(k: HashFunction, p: PackedUserOp, chainId: int): Word
    requires WellPacked(p)
  {
    k(Outer(k, p, chainId))
  }

  /** The hash to sign, or None where the packing panics. */
  function UserOpHash(k: HashFunction, uo: UserOperation, chainId: int): Option<Word> {
    PackInvertible(uo);
    if Packed(uo).None? then None else Some(PackedHash(k, Packed(uo).value, chainId))
  }

  predicate Collide(k: HashFunction, x: seq<Byte>, y: seq<Byte>) {
    x != y && k(x) == k(y)
  }

  /** One of the five hash calls of each side is a collision with its counterpart. */
  predicate Collision(k: HashFunction, p: PackedUserOp, c: int, q: PackedUserOp, d: int)
    requires WellPacked(p) && WellPacked(q)
  {
    || Collide(k, p.initCode, q.initCode)
    || Collide(k, p.callData, q.callData)
    || Collide(k, p.paymasterAndData, q.paymasterAndData)
    || Collide(k, Inner(k, p), Inner(k, q))
    || Collide(k, Outer(k, p, c), Outer(k, q, d))
  }

  /** Everything the hash covers: all packed fields but the signature, numbers as 256-bit words. */
  predicate SameSigned(p: PackedUserOp, c: int, q: PackedUserOp, d: int) {
    && p.sender == q.sender && p.initCode == q.initCode && p.callData == q.callData
    && p.accountGasLimits == q.accountGasLimits && p.gasFees == q.gasFees && p.paymasterAndData == q.paymasterAndData
    && p.nonce.GetOr(0) % TWO256 == q.nonce.GetOr(0) % TWO256
    && p.preVerificationGas.GetOr(0) % TWO256 == q.preVerificationGas.GetOr(0) % TWO256
    && c % TWO256 == d % TWO256
  }

  lemma UintWordInjective(m: int, n: int)
    ensures UintWord(m) == UintWord(n) <==> m % TWO256 == n % TWO256
  {
    if m % TWO256 == n % TWO256 {
      FromBytesInjective(UintWord(m), UintWord(n));
    }
  }

  lemma AddressWordInjective(a: Address, b: Address)
    requires AddressWord(a) == AddressWord(b)
    ensures a == b
  {
    assert AddressWord(a)[12..] == AddressWord(b)[12..];
  }

  /** The inner encoding is read back word by word. */
  lemma InnerWords(k: HashFunction, p: PackedUserOp)
    requires WellPacked(p)
    ensures var e := Inner(k, p);
            && e[0..32] == AddressWord(p.sender) && e[32..64] == UintWord(p.nonce.GetOr(0))
            && e[64..96] == k(p.initCode) && e[96..128] == k(p.callData)
            && e[128..160] == p.accountGasLimits && e[160..192] == UintWord(p.preVerificationGas.GetOr(0))
            && e[192..224] == p.gasFees && e[224..256] == k(p.paymasterAndData)
  {
  }

  lemma InnerBinds(k: HashFunction, p: PackedUserOp, q: PackedUserOp)
    requires WellPacked(p) && WellPacked(q) && Inner(k, p) == Inner(k, q)
    ensures p.sender == q.sender && p.accountGasLimits == q.accountGasLimits && p.gasFees == q.gasFees
    ensures p.nonce.GetOr(0) % TWO256 == q.nonce.GetOr(0) % TWO256
    ensures p.preVerificationGas.GetOr(0) % TWO256 == q.preVerificationGas.GetOr(0) % TWO256
    ensures k(p.initCode) == k(q.initCode) && k(p.callData) == k(q.callData)
    ensures k(p.paymasterAndData) == k(q.paymasterAndData)
  {
    InnerWords(k, p);
    InnerWords(k, q);
    AddressWordInjective(p.sender, q.sender);
    UintWordInjective(p.nonce.GetOr(0), q.nonce.GetOr(0));
    UintWordInjective(p.preVerificationGas.GetOr(0), q.preVerificationGas.GetOr(0));
  }

  lemma OuterWords(k: HashFunction, p: PackedUserOp, chainId: int)
    requires WellPacked(p)
    ensures var e := Outer(k, p, chainId);
            && e[0..32] == k(Inner(k, p)) && e[32..64][12..] == ENTRY_POINT_V07 && e[64..96] == UintWord(chainId)
  {
    hide Inner, UintWord;
    assert Outer(k, p, chainId)[32..64] == AddressWord(ENTRY_POINT_V07);
  }

  /** The 256 bytes that are hashed first, word by word. */
  ghost predicate InnerSpelled(k: HashFunction, p: PackedUserOp, e: seq<Byte>) {
    && |e| == 256
    && e[0..12] == Zeros(12) && e[12..32] == p.sender && FromBytes(e[32..64]) == p.nonce.GetOr(0) % TWO256
    && e[64..96] == k(p.initCode) && e[96..128] == k(p.callData) && e[128..160] == p.accountGasLimits
    && FromBytes(e[160..192]) == p.preVerificationGas.GetOr(0) % TWO256
    && e[192..224] == p.gasFees && e[224..256] == k(p.paymasterAndData)
  }

  /** The 96 bytes that are hashed last: the first hash, the v0.7 entry point and the chain id, each in a word. */
  ghost predicate OuterSpelled(first: Word, chainId: int, e: seq<Byte>) {
    && |e| == 96 && e[0..32] == first && e[32..44] == Zeros(12)
    && e[44..64] == [0x00, 0x00, 0x00, 0x00, 0x71, 0x72, 0x7D, 0xE2, 0x2E, 0x5E,
                     0x9D, 0x8B, 0xAF, 0x0E, 0xDA, 0xC6, 0xF3, 0x7D, 0xA0, 0x32]
    && FromBytes(e[64..96]) == chainId % TWO256
  }

  lemma AddressWordParts(a: Address)
    ensures AddressWord(a)[..12] == Zeros(12) && AddressWord(a)[12..] == a
  {
  }

  lemma InnerIsSpelled(k: HashFunction, p: PackedUserOp)
    requires WellPacked(p)
    ensures InnerSpelled(k, p, Inner(k, p))
  {
    InnerWords(k, p);
    AddressWordParts(p.sender);
    hide Inner, AddressWord, UintWord, Zeros;
    var e := Inner(k, p);
    assert e[0..12] == e[0..32][..12] && e[12..32] == e[0..32][12..];
  }

  lemma OuterIsSpelled(k: HashFunction, p: PackedUserOp, chainId: int)
    requires WellPacked(p)
    ensures OuterSpelled(k(Inner(k, p)), chainId, Outer(k, p, chainId))
  {
    OuterWords(k, p, chainId);
    AddressWordParts(ENTRY_POINT_V07);
    hide Inner, UintWord, Zeros;
    var e := Outer(k, p, chainId);
    assert e[32..64] == AddressWord(ENTRY_POINT_V07);
    assert e[32..44] == e[32..64][..12] && e[44..64] == e[32..64][12..];
  }

  /** The hash to sign is k of those 96 bytes, whose first word is k of those 256 bytes. */
  lemma HashSpelled(k: HashFunction, uo: UserOperation, chainId: int)
    ensures UserOpHash(k, uo, chainId).Some? <==> Packed(uo).Some?
    ensures Packed(uo).Some? ==>
              exists inner, outer ::
                && InnerSpelled(k, Packed(uo).value, inner) && OuterSpelled(k(inner), chainId, outer)
                && UserOpHash(k, uo, chainId) == Some(k(outer))
  {
    if Packed(uo).Some? {
      PackInvertible(uo);
      var p := Packed(uo).value;
      InnerIsSpelled(k, p);
      OuterIsSpelled(k, p, chainId);
      hide InnerSpelled, OuterSpelled, Inner, Outer, Packed;
    }
  }

  lemma OuterBinds(k: HashFunction, p: PackedUserOp, c: int, q: PackedUserOp, d: int)
    requires WellPacked(p) && WellPacked(q) && Outer(k, p, c) == Outer(k, q, d)
    ensures k(Inner(k, p)) == k(Inner(k, q)) && c % TWO256 == d % TWO256
  {
    assert Outer(k, p, c)[..32] == k(Inner(k, p)) && Outer(k, q, d)[..32] == k(Inner(k, q));
    assert Outer(k, p, c)[64..] == UintWord(c) && Outer(k, q, d)[64..] == UintWord(d);
    UintWordInjective(c, d);
  }

  lemma SameSignedSameHash(k: HashFunction, p: PackedUserOp, c: int, q: PackedUserOp, d: int)
    requires WellPacked(p) && WellPacked(q) && SameSigned(p, c, q, d)
    ensures PackedHash(k, p, c) == PackedHash(k, q, d)
  {
    UintWordInjective(p.nonce.GetOr(0), q.nonce.GetOr(0));
    UintWordInjective(p.preVerificationGas.GetOr(0), q.preVerificationGas.GetOr(0));
    UintWordInjective(c, d);
    assert Inner(k, p) == Inner(k, q);
  }

  /**
   * The hash binds what it covers: for any hash function, two hashes are equal exactly when the
   * covered fields agree, unless the two computations contain a collision of the function.
   */
  lemma HashBinding(k: HashFunction, p: PackedUserOp, c: int, q: PackedUserOp, d: int)
    requires WellPacked(p) && WellPacked(q)
    ensures SameSigned(p, c, q, d) ==> PackedHash(k, p, c) == PackedHash(k, q, d)
    ensures PackedHash(k, p, c) == PackedHash(k, q, d) ==> SameSigned(p, c, q, d) || Collision(k, p, c, q, d)
  {
    if SameSigned(p, c, q, d) {
      SameSignedSameHash(k, p, c, q, d);
    } else if PackedHash(k, p, c) == PackedHash(k, q, d) && Outer(k, p, c) == Outer(k, q, d) {
      OuterBinds(k, p, c, q, d);
      if Inner(k, p) == Inner(k, q) {
        InnerBinds(k, p, q);
      }
    }
  }

  predicate NumbersInRange(uo: UserOperation) {
    && GasInRange(uo)
    && 0 <= uo.nonce.GetOr(0) < TWO256 && 0 <= uo.preVerificationGas.GetOr(0) < TWO256
  }

  /** The signature goes nowhere but the signature field. */
  lemma SignatureOnlyCopied(uo: UserOperation, signature: seq<Byte>)
    ensures Packed(uo).None? ==> Packed(uo.(signature := signature)).None?
    ensures Packed(uo).Some? ==>
              Packed(uo.(signature := signature)) == Some(Packed(uo).value.(signature := signature))
  {
    hide WordBytes, HalfBytes;
  }

  lemma SignatureNotPackedElsewhere(a: UserOperation, b: UserOperation)
    requires Normal(a).(signature := []) == Normal(b).(signature := []) && Packed(a).Some?
    ensures Packed(b) == Some(Packed(a).value.(signature := b.signature))
  {
    PackDependsOnNormal(a);
    PackDependsOnNormal(b);
    assert Normal(b) == Normal(a).(signature := b.signature);
    SignatureOnlyCopied(Normal(a), b.signature);
  }

  lemma UnpackKeepsSignatureApart(p: PackedUserOp, q: PackedUserOp)
    requires WellPacked(p) && p.(signature := []) == q.(signature := [])
    ensures Unpack(p).(signature := []) == Unpack(q).(signature := [])
  {
  }

  lemma SmallResidues(m: int, n: int)
    requires 0 <= m < TWO256 && 0 <= n < TWO256 && m % TWO256 == n % TWO256
    ensures m == n
  {
  }

  lemma PackedNumbers(uo: UserOperation)
    requires Packed(uo).Some?
    ensures Packed(uo).value.nonce == Some(uo.nonce.GetOr(0))
    ensures Packed(uo).value.preVerificationGas == Some(uo.preVerificationGas.GetOr(0))
  {
  }

  /** In range, numbers that agree modulo 2^256 are the same. */
  lemma InRangeNumbersAgree(p: PackedUserOp, c: int, q: PackedUserOp, d: int)
    requires p.nonce.Some? && q.nonce.Some? && p.preVerificationGas.Some? && q.preVerificationGas.Some?
    requires 0 <= p.nonce.value < TWO256 && 0 <= q.nonce.value < TWO256
    requires 0 <= p.preVerificationGas.value < TWO256 && 0 <= q.preVerificationGas.value < TWO256
    requires 0 <= c < TWO256 && 0 <= d < TWO256 && SameSigned(p, c, q, d)
    ensures p.(signature := []) == q.(signature := []) && c == d
  {
    SmallResidues(p.nonce.value, q.nonce.value);
    SmallResidues(p.preVerificationGas.value, q.preVerificationGas.value);
    SmallResidues(c, d);
  }

  lemma SameSignedSameOperation(a: UserOperation, c: int, b: UserOperation, d: int)
    requires NumbersInRange(a) && NumbersInRange(b) && 0 <= c < TWO256 && 0 <= d < TWO256
    requires Packed(a).Some? && Packed(b).Some? && SameSigned(Packed(a).value, c, Packed(b).value, d)
    ensures Normal(a).(signature := []) == Normal(b).(signature := []) && c == d
  {
    PackedNumbers(a);
    PackedNumbers(b);
    InRangeNumbersAgree(Packed(a).value, c, Packed(b).value, d);
    PackInvertible(a);
    PackInvertible(b);
    UnpackKeepsSignatureApart(Packed(a).value, Packed(b).value);
  }

  lemma SameOperationSameSigned(a: UserOperation, b: UserOperation, c: int)
    requires Packed(a).Some? && Normal(a).(signature := []) == Normal(b).(signature := [])
    ensures Packed(b).Some? && SameSigned(Packed(a).value, c, Packed(b).value, c)
  {
    SignatureNotPackedElsewhere(a, b);
  }

  /**
   * For in-range operations and chain ids without a collision, equal hashes mean the same
   * operation on the same chain, up to the signature and to what packing drops.
   */
  lemma HashIdentifiesOperation(k: HashFunction, a: UserOperation, c: int, b: UserOperation, d: int)
    requires NumbersInRange(a) && NumbersInRange(b) && 0 <= c < TWO256 && 0 <= d < TWO256
    ensures Packed(a).Some? && Packed(b).Some? && WellPacked(Packed(a).value) && WellPacked(Packed(b).value)
    ensures !Collision(k, Packed(a).value, c, Packed(b).value, d) ==>
              (UserOpHash(k, a, c) == UserOpHash(k, b, d) <==>
               Normal(a).(signature := []) == Normal(b).(signature := []) && c == d)
  {
    PackInvertible(a);
    PackInvertible(b);
    var p, q := Packed(a).value, Packed(b).value;
    HashBinding(k, p, c, q, d);
    if SameSigned(p, c, q, d) {
      SameSignedSameOperation(a, c, b, d);
    }
    if Normal(a).(signature := []) == Normal(b).(signature := []) && c == d {
      SameOperationSameSigned(a, b, c);
    }
  }

  lemma SignatureNotEncoded(k: HashFunction, p: PackedUserOp, signature: seq<Byte>)
    requires WellPacked(p)
    ensures Inner(k, p.(signature := signature)) == Inner(k, p)
  {
    hide UintWord, AddressWord;
  }

  /** Replacing the signature after hashing leaves the hash: what was signed is what is sent. */
  lemma SignatureNotHashed(k: HashFunction, uo: UserOperation, signature: seq<Byte>, chainId: int)
    ensures UserOpHash(k, uo.(signature := signature), chainId) == UserOpHash(k, uo, chainId)
  {
    SignatureOnlyCopied(uo, signature);
    PackInvertible(uo);
    if Packed(uo).Some? {
      SignatureNotEncoded(k, Packed(uo).value, signature);
    }
    hide Inner, Packed;
  }
}
