/**
 * Which documents UnmarshalJSON (erc4337/user_operation.go) accepts, said of the characters of
 * their texts, and what this means for the operation shown in docs/scheduling.md.
 */
module UserOperationText {
  import opened Wrappers
  import opened HexText
  import opened UserOperationJson
  import Hex

  predicate HexFrom(s: string, n: nat) {
    forall i :: n <= i < |s| ==> IsHexDigit(s[i])
  }

  predicate Starts0x(s: string) {
    |s| >= 2 && s[0] == '0' && (s[1] == 'x' || s[1] == 'X')
  }

  /** Whole bytes after 0x or 0X, or nothing at all. */
  predicate BytesTextOk(s: string) {
    s == "" || (Starts0x(s) && |s| % 2 == 0 && HexFrom(s, 2))
  }

  predicate AddressTextOk(s: string) {
    Starts0x(s) && |s| == 42 && HexFrom(s, 2)
  }

  /** Empty, or digits after an optional 0x (not 0X) and then an optional sign; 0x alone is zero. */
  predicate NumberTextOk(s: string) {
    var start := if |s| >= 2 && s[0] == '0' && s[1] == 'x' then 2 else 0;
    |s| == start ||
    (var first := if s[start] == '-' || s[start] == '+' then start + 1 else start;
     first < |s| && HexFrom(s, first))
  }

  /** The number that such a text denotes. */
  function NumberOf(s: string): int
    requires NumberTextOk(s)
  {
    var start := if |s| >= 2 && s[0] == '0' && s[1] == 'x' then 2 else 0;
    if |s| == start then 0
    else if s[start] == '-' then 0 - TextValue(s[start + 1..])
    else if s[start] == '+' then TextValue(s[start + 1..])
    else TextValue(s[start..])
  }

  predicate BytesOk(field: Option<Json>) {
    field.None? || (field.value.JString? && BytesTextOk(field.value.text))
  }

  predicate AddressOk(field: Option<Json>) {
    field.None? || (field.value.JString? && AddressTextOk(field.value.text))
  }

  predicate AddressPointerOk(field: Option<Json>) {
    field.None? || field.value.JNull? || (field.value.JString? && AddressTextOk(field.value.text))
  }

  predicate NumberOk(field: Option<Json>) {
    field.None? || field.value.JNull? || (field.value.JString? && NumberTextOk(field.value.text))
  }

  predicate NumbersOk(doc: Document) {
    && NumberOk(doc.nonce) && NumberOk(doc.callGasLimit) && NumberOk(doc.verificationGasLimit)
    && NumberOk(doc.preVerificationGas) && NumberOk(doc.maxPriorityFeePerGas) && NumberOk(doc.maxFeePerGas)
    && NumberOk(doc.paymasterVerificationGasLimit) && NumberOk(doc.paymasterPostOpGasLimit)
  }

  predicate Readable(doc: Document) {
    && AddressOk(doc.sender) && AddressPointerOk(doc.factory) && AddressPointerOk(doc.paymaster)
    && BytesOk(doc.factoryData) && BytesOk(doc.callData) && BytesOk(doc.paymasterData) && BytesOk(doc.signature)
    && NumbersOk(doc)
  }

  // ---- the decoders, text by text ----

  /** The digits of a text are its first ones and those of the rest. */
  lemma Tail(s: string, n: nat)
    requires n <= |s|
    ensures HexFrom(s[n..], 0) <==> HexFrom(s, n)
    ensures HexFrom(s, 0) <==> (forall i :: 0 <= i < n ==> IsHexDigit(s[i])) && HexFrom(s, n)
  {
    if HexFrom(s[n..], 0) {
      forall i | n <= i < |s| ensures IsHexDigit(s[i]) {
        assert s[i] == s[n..][i - n];
      }
    }
  }

  lemma {:induction false} DecodeExactly(s: string)
    ensures Hex.Decode(s).Some? <==> |s| % 2 == 0 && HexFrom(s, 0)
    ensures Hex.Decode(s).Some? ==> 2 * |Hex.Decode(s).value| == |s|
  {
    if |s| >= 2 {
      DecodeExactly(s[2..]);
      Tail(s, 2);
    }
  }

  lemma {:induction false} DigitsExactly(s: string)
    ensures Hex.DigitsValue(s).Some? <==> HexFrom(s, 0)
  {
    if s != "" {
      var front := s[..|s| - 1];
      DigitsExactly(front);
      assert forall i :: 0 <= i < |front| ==> front[i] == s[i];
    }
  }

  lemma BytesTextExactly(s: string)
    ensures DecodeBytes(s).Some? <==> BytesTextOk(s)
    ensures DecodeBytes(s).Some? && |DecodeBytes(s).value| == 20 <==> AddressTextOk(s)
  {
    hide Hex.Decode, HexFrom;
    if Starts0x(s) {
      DecodeExactly(s[2..]);
      Tail(s, 2);
    }
  }

  /** parseHexBig accepts exactly these texts, and reads the number that they denote. */
  lemma NumberTextExactly(s: string)
    ensures Hex.ParseHexBig(s).Some? <==> NumberTextOk(s)
    ensures NumberTextOk(s) ==> Hex.ParseHexBig(s) == Some(NumberOf(s))
  {
    var start := if |s| >= 2 && s[0] == '0' && s[1] == 'x' then 2 else 0;
    assert "0x" <= s <==> start == 2;
    var body := s[start..];
    if body != "" {
      var signed := body[0] == '-' || body[0] == '+';
      var first := if signed then start + 1 else start;
      var digits := if signed then body[1..] else body;
      assert digits == s[first..];
      DigitsExactly(digits);
      Tail(s, first);
      if HexFrom(s, first) { DigitsRead(digits); }
      hide HexFrom, TextValue, Hex.DigitsValue;
    }
  }

  lemma BytesExactly(field: Option<Json>)
    ensures BytesField(field).Some? <==> BytesOk(field)
  {
    if field.Some? && field.value.JString? { BytesTextExactly(field.value.text); }
  }

  lemma AddressExactly(field: Option<Json>)
    ensures AddressField(field).Some? <==> AddressOk(field)
    ensures AddressPointerField(field).Some? <==> AddressPointerOk(field)
  {
    if field.Some? && field.value.JString? { BytesTextExactly(field.value.text); }
  }

  lemma NumberExactly(field: Option<Json>)
    ensures NumberField(field).Some? <==> NumberOk(field)
  {
    if field.Some? && field.value.JString? { NumberTextExactly(field.value.text); }
  }

  /** UnmarshalJSON accepts exactly the readable documents. */
  lemma DecodesExactly(doc: Document)
    ensures Unmarshal(doc).Some? <==> Readable(doc)
  {
    AddressExactly(doc.sender);
    AddressExactly(doc.factory);
    AddressExactly(doc.paymaster);
    BytesExactly(doc.factoryData);
    BytesExactly(doc.callData);
    BytesExactly(doc.paymasterData);
    BytesExactly(doc.signature);
    NumberExactly(doc.nonce);
    NumberExactly(doc.callGasLimit);
    NumberExactly(doc.verificationGasLimit);
    NumberExactly(doc.preVerificationGas);
    NumberExactly(doc.maxPriorityFeePerGas);
    NumberExactly(doc.maxFeePerGas);
    NumberExactly(doc.paymasterVerificationGasLimit);
    NumberExactly(doc.paymasterPostOpGasLimit);
    hide AddressField, AddressPointerField, BytesField, NumberField;
    hide AddressOk, AddressPointerOk, BytesOk, NumberOk;
  }

  // ---- the documented example ----

  const EXAMPLE_SENDER := "0x5a6b47F4131bf1feAFA56A05573314BcF44C9149"
  const EXAMPLE_FACTORY := "0xd703aaE79538628d27099B8c4f621bE4CCd142d5"
  const EXAMPLE_NONCE := "0x" + ("845ADB2C711129D4F3966735ED98A9" + "F09FC4CE5700000000000000000000")
  const SIGNATURE_PART_1 := "a6cc6589c8bd561cfd68d7b6b0757ef6"
  const SIGNATURE_PART_2 := "f208e7438782939938498eee7d703260"
  const SIGNATURE_PART_3 := "137856c840c491b3d415956265e81bf5"
  const SIGNATURE_PART_4 := "c2184a725be2abfc365f7536b6af525e"
  const SIGNATURE_PART_5 := "1c"
  const EXAMPLE_SIGNATURE :=
    "0x" + (SIGNATURE_PART_1 + (SIGNATURE_PART_2 + (SIGNATURE_PART_3 + (SIGNATURE_PART_4 + SIGNATURE_PART_5))))

  /** docs/scheduling.md:118-136; the two long texts that the document abbreviates are parameters. */
  function DocumentedExample(factoryData: string, callData: string): Document {
    Document(
      Some(JString(EXAMPLE_SENDER)), Some(JString(EXAMPLE_NONCE)), Some(JString(EXAMPLE_FACTORY)),
      Some(JString(factoryData)), Some(JString(callData)),
      Some(JString("0x13880")), Some(JString("0x60B01")), Some(JString("0xD3E3")),
      Some(JString("0x3B9ACA00")), Some(JString("0x7A5CF70D5")),
      Some(JString("0x")), Some(JString("0x0")), Some(JString("0x0")), Some(JNull),
      Some(JString(EXAMPLE_SIGNATURE)))
  }

  lemma ExampleAddresses()
    ensures AddressTextOk(EXAMPLE_SENDER) && AddressTextOk(EXAMPLE_FACTORY)
  {
  }

  lemma HexJoined(a: string, b: string)
    requires HexFrom(a, 0) && HexFrom(b, 0)
    ensures HexFrom(a + b, 0)
  {
  }

  lemma PrefixedHex(digits: string)
    requires digits != "" && HexFrom(digits, 0)
    ensures NumberTextOk("0x" + digits)
    ensures |digits| % 2 == 0 ==> BytesTextOk("0x" + digits)
  {
    var s := "0x" + digits;
    assert forall i :: 2 <= i < |s| ==> s[i] == digits[i - 2];
    assert s[0] == '0' && s[1] == 'x' && IsHexDigit(digits[0]);
  }

  lemma ExampleNonce()
    ensures NumberTextOk(EXAMPLE_NONCE)
  {
    var a, b := "845ADB2C711129D4F3966735ED98A9", "F09FC4CE5700000000000000000000";
    HexJoined(a, b);
    PrefixedHex(a + b);
  }

  lemma FirstParts()
    ensures HexFrom(SIGNATURE_PART_1, 0) && HexFrom(SIGNATURE_PART_2, 0)
    ensures |SIGNATURE_PART_1| == |SIGNATURE_PART_2| == 32
  {
  }

  lemma LastParts()
    ensures HexFrom(SIGNATURE_PART_3, 0) && HexFrom(SIGNATURE_PART_4, 0) && HexFrom(SIGNATURE_PART_5, 0)
    ensures |SIGNATURE_PART_3| == |SIGNATURE_PART_4| == 32 && |SIGNATURE_PART_5| == 2
  {
  }

  lemma JoinedParts(a: string, b: string, c: string, d: string, e: string)
    requires HexFrom(a, 0) && HexFrom(b, 0) && HexFrom(c, 0) && HexFrom(d, 0) && HexFrom(e, 0)
    requires |a| == |b| == |c| == |d| == 32 && |e| == 2
    ensures BytesTextOk("0x" + (a + (b + (c + (d + e)))))
  {
    HexJoined(d, e);
    HexJoined(c, d + e);
    HexJoined(b, c + (d + e));
    HexJoined(a, b + (c + (d + e)));
    PrefixedHex(a + (b + (c + (d + e))));
  }

  lemma ExampleSignature()
    ensures BytesTextOk(EXAMPLE_SIGNATURE)
  {
    hide BytesTextOk, HexFrom;
    FirstParts();
    LastParts();
    JoinedParts(SIGNATURE_PART_1, SIGNATURE_PART_2, SIGNATURE_PART_3, SIGNATURE_PART_4, SIGNATURE_PART_5);
  }

  lemma ExampleNumbers()
    ensures NumberTextOk("0x13880") && NumberTextOk("0x60B01") && NumberTextOk("0xD3E3")
    ensures NumberTextOk("0x3B9ACA00") && NumberTextOk("0x7A5CF70D5") && NumberTextOk("0x0")
  {
  }

  /** The example without the fields it gets wrong is readable as far as its long texts are. */
  lemma MendedExample(factoryData: string, callData: string)
    ensures Readable(DocumentedExample(factoryData, callData).(paymaster := None, paymasterData := None)) <==>
            BytesTextOk(factoryData) && BytesTextOk(callData)
  {
    hide AddressTextOk, NumberTextOk, BytesTextOk;
    ExampleAddresses();
    ExampleNonce();
    ExampleSignature();
    ExampleNumbers();
  }

  /**
   * The example has two fields that are refused, the paymaster 0x and the null paymasterData.
   * Mending one of them is not enough; with both left out it decodes, given its long texts.
   */
  lemma DocumentedExampleRefused(factoryData: string, callData: string, field: Option<Json>)
    ensures var doc := DocumentedExample(factoryData, callData);
            && Unmarshal(doc.(paymaster := field)).None? && Unmarshal(doc.(paymasterData := field)).None?
            && (Unmarshal(doc.(paymaster := None, paymasterData := None)).Some? <==>
                BytesTextOk(factoryData) && BytesTextOk(callData))
  {
    var doc := DocumentedExample(factoryData, callData);
    DecodesExactly(doc.(paymaster := field));
    DecodesExactly(doc.(paymasterData := field));
    DecodesExactly(doc.(paymaster := None, paymasterData := None));
    MendedExample(factoryData, callData);
    hide Unmarshal, NumbersOk, BytesTextOk;
    assert !AddressPointerOk(doc.paymaster) && !BytesOk(doc.paymasterData);
  }
}
