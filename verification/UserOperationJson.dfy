/**
 * The JSON forms of an operation (erc4337/user_operation.go). json.Marshal of a pointer uses the
 * custom MarshalJSON; of a value it falls back to the fields' own encoders; both decode through
 * UnmarshalJSON. A document is a map from field names; JSON syntax itself is not modelled.
 */
module UserOperationJson {
  import opened Wrappers
  import opened Bytes
  import opened UserOperations
  import opened UserOperationHash
  import Hex
  import HexText

  datatype Json = JNull | JString(text: string) | JOther

  /** A JSON object by the struct tags' names; None is an absent field. */
  datatype Document = Document(
    sender: Option<Json>,
    nonce: Option<Json>,
    factory: Option<Json>,
    factoryData: Option<Json>,
    callData: Option<Json>,
    callGasLimit: Option<Json>,
    verificationGasLimit: Option<Json>,
    preVerificationGas: Option<Json>,
    maxPriorityFeePerGas: Option<Json>,
    maxFeePerGas: Option<Json>,
    paymaster: Option<Json>,
    paymasterVerificationGasLimit: Option<Json>,
    paymasterPostOpGasLimit: Option<Json>,
    paymasterData: Option<Json>,
    signature: Option<Json>)

  // ---- field encoders ----

  /** hexutil.EncodeBig */
  function EncodeBig(n: int): string {
    if n < 0 then "-0x" + Hex.Digits(-n) else "0x" + Hex.Digits(n)
  }

  /** hexutil.Bytes and common.Address as text. */
  function EncodeBytes(bs: seq<Byte>): string {
    "0x" + Hex.Encode(bs)
  }

  function BytesText(bs: seq<Byte>): Option<Json> {
    Some(JString(EncodeBytes(bs)))
  }

  /** omitempty byte strings and pointers are left out when empty or nil. */
  function OmitEmptyBytes(bs: seq<Byte>): Option<Json> {
    if bs == [] then None else BytesText(bs)
  }

  function OmitNilAddress(a: Option<Address>): Option<Json> {
    if a.None? then None else BytesText(a.value)
  }

  /** A *hexutil.Big in the default encoding. */
  function DefaultNumber(x: Option<int>): Json {
    if x.None? then JNull else JString(EncodeBig(x.value))
  }

  /** A number in the custom encoding: nil is the empty string. */
  function CustomNumber(x: Option<int>): Json {
    if x.None? then JString("") else JString(Hex.Prefixed(x.value))
  }

  function OmitNilNumber(x: Option<int>, number: Option<int> -> Json): Option<Json> {
    if x.None? then None else Some(number(x))
  }

  /** The fields both encoders write alike, with the numbers written by number. */
  function Encode(uo: UserOperation, nonce: Json, number: Option<int> -> Json): Document {
    Document(
      BytesText(uo.sender), Some(nonce),
      OmitNilAddress(uo.factory), OmitEmptyBytes(uo.factoryData), BytesText(uo.callData),
      Some(number(uo.callGasLimit)), Some(number(uo.verificationGasLimit)), Some(number(uo.preVerificationGas)),
      Some(number(uo.maxPriorityFeePerGas)), Some(number(uo.maxFeePerGas)),
      OmitNilAddress(uo.paymaster),
      OmitNilNumber(uo.paymasterVerificationGasLimit, number), OmitNilNumber(uo.paymasterPostOpGasLimit, number),
      OmitEmptyBytes(uo.paymasterData), BytesText(uo.signature))
  }

  /** MarshalJSON: the nonce is padded to 32 bytes, and a longer one panics (None). */
  function MarshalCustom(uo: UserOperation): Option<Document> {
    if |MagnitudeBytes(uo.nonce)| > 32 then None
    else Some(Encode(uo, JString(Hex.Padded64(Magnitude(uo.nonce))), CustomNumber))
  }

  /** json.Marshal of an operation by value, as EnqueueJob and ToDBJob do. */
  function MarshalDefault(uo: UserOperation): Document {
    Encode(uo, DefaultNumber(uo.nonce), DefaultNumber)
  }

  // ---- the texts that are written, said of their characters ----

  /** A number of MarshalJSON: nil is the empty text. */
  ghost predicate NumberWritten(field: Option<Json>, x: Option<int>) {
    field.Some? && field.value.JString? &&
    if x.None? then field.value.text == "" else HexText.PrefixedText(field.value.text, x.value)
  }

  /** A number of the default encoding: nil is null. */
  ghost predicate DefaultWritten(field: Option<Json>, x: Option<int>) {
    field.Some? &&
    if x.None? then field.value.JNull? else field.value.JString? && HexText.SignedText(field.value.text, x.value)
  }

  ghost predicate BytesWritten(field: Option<Json>, bs: seq<Byte>) {
    field.Some? && field.value.JString? && HexText.BytesText(field.value.text, bs)
  }

  /** Everything but the numbers, which both encoders write alike; empty and nil optional fields are left out. */
  ghost predicate PlainWritten(uo: UserOperation, doc: Document) {
    && BytesWritten(doc.sender, uo.sender) && BytesWritten(doc.callData, uo.callData)
    && BytesWritten(doc.signature, uo.signature)
    && (if uo.factory.None? then doc.factory.None? else BytesWritten(doc.factory, uo.factory.value))
    && (if uo.paymaster.None? then doc.paymaster.None? else BytesWritten(doc.paymaster, uo.paymaster.value))
    && (if uo.factoryData == [] then doc.factoryData.None? else BytesWritten(doc.factoryData, uo.factoryData))
    && (if uo.paymasterData == [] then doc.paymasterData.None? else BytesWritten(doc.paymasterData, uo.paymasterData))
  }

  /** The document of MarshalJSON. */
  ghost predicate CustomWritten(uo: UserOperation, doc: Document) {
    && PlainWritten(uo, doc)
    && doc.nonce.Some? && doc.nonce.value.JString? && HexText.PaddedText(doc.nonce.value.text, Magnitude(uo.nonce))
    && NumberWritten(doc.callGasLimit, uo.callGasLimit)
    && NumberWritten(doc.verificationGasLimit, uo.verificationGasLimit)
    && NumberWritten(doc.preVerificationGas, uo.preVerificationGas)
    && NumberWritten(doc.maxPriorityFeePerGas, uo.maxPriorityFeePerGas)
    && NumberWritten(doc.maxFeePerGas, uo.maxFeePerGas)
    && (if uo.paymasterVerificationGasLimit.None? then doc.paymasterVerificationGasLimit.None?
        else NumberWritten(doc.paymasterVerificationGasLimit, uo.paymasterVerificationGasLimit))
    && (if uo.paymasterPostOpGasLimit.None? then doc.paymasterPostOpGasLimit.None?
        else NumberWritten(doc.paymasterPostOpGasLimit, uo.paymasterPostOpGasLimit))
  }

  /** The document of the default encoding. */
  ghost predicate DefaultDocument(uo: UserOperation, doc: Document) {
    && PlainWritten(uo, doc)
    && DefaultWritten(doc.nonce, uo.nonce) && DefaultWritten(doc.callGasLimit, uo.callGasLimit)
    && DefaultWritten(doc.verificationGasLimit, uo.verificationGasLimit)
    && DefaultWritten(doc.preVerificationGas, uo.preVerificationGas)
    && DefaultWritten(doc.maxPriorityFeePerGas, uo.maxPriorityFeePerGas)
    && DefaultWritten(doc.maxFeePerGas, uo.maxFeePerGas)
    && (if uo.paymasterVerificationGasLimit.None? then doc.paymasterVerificationGasLimit.None?
        else DefaultWritten(doc.paymasterVerificationGasLimit, uo.paymasterVerificationGasLimit))
    && (if uo.paymasterPostOpGasLimit.None? then doc.paymasterPostOpGasLimit.None?
        else DefaultWritten(doc.paymasterPostOpGasLimit, uo.paymasterPostOpGasLimit))
  }

  lemma CustomNumberText(x: Option<int>)
    ensures NumberWritten(Some(CustomNumber(x)), x)
  {
    if x.Some? { HexText.PrefixedIsText(x.value); }
  }

  lemma DefaultNumberText(x: Option<int>)
    ensures DefaultWritten(Some(DefaultNumber(x)), x)
  {
    if x.Some? {
      HexText.DigitsAreMinimal(if x.value < 0 then -x.value else x.value);
      hide HexText.MinimalDigits, Hex.Digits;
      var s := EncodeBig(x.value);
      if x.value < 0 {
        assert s[3..] == Hex.Digits(-x.value);
      } else {
        assert s[2..] == Hex.Digits(x.value);
      }
    }
  }

  lemma BytesAreText(bs: seq<Byte>)
    ensures BytesWritten(BytesText(bs), bs)
  {
    HexText.EncodedIsText(bs);
  }

  lemma PlainTexts(uo: UserOperation, nonce: Json, number: Option<int> -> Json)
    ensures PlainWritten(uo, Encode(uo, nonce, number))
  {
    hide BytesWritten;
    BytesAreText(uo.sender);
    BytesAreText(uo.callData);
    BytesAreText(uo.signature);
    BytesAreText(uo.factoryData);
    BytesAreText(uo.paymasterData);
    if uo.factory.Some? { BytesAreText(uo.factory.value); }
    if uo.paymaster.Some? { BytesAreText(uo.paymaster.value); }
    hide BytesText;
  }

  /** What MarshalJSON writes, field by field. */
  lemma CustomTexts(uo: UserOperation)
    requires MarshalCustom(uo).Some?
    ensures CustomWritten(uo, MarshalCustom(uo).value)
  {
    PlainTexts(uo, JString(Hex.Padded64(Magnitude(uo.nonce))), CustomNumber);
    ToBytesWidth(Magnitude(uo.nonce), 32);
    Widths();
    HexText.PaddedIsText(Magnitude(uo.nonce));
    CustomNumberText(uo.callGasLimit);
    CustomNumberText(uo.verificationGasLimit);
    CustomNumberText(uo.preVerificationGas);
    CustomNumberText(uo.maxPriorityFeePerGas);
    CustomNumberText(uo.maxFeePerGas);
    CustomNumberText(uo.paymasterVerificationGasLimit);
    CustomNumberText(uo.paymasterPostOpGasLimit);
    hide PlainWritten, NumberWritten, CustomNumber, HexText.PaddedText, Hex.Padded64;
  }

  /** What the default encoding writes, field by field. */
  lemma DefaultTexts(uo: UserOperation)
    ensures DefaultDocument(uo, MarshalDefault(uo))
  {
    PlainTexts(uo, DefaultNumber(uo.nonce), DefaultNumber);
    DefaultNumberText(uo.nonce);
    DefaultNumberText(uo.callGasLimit);
    DefaultNumberText(uo.verificationGasLimit);
    DefaultNumberText(uo.preVerificationGas);
    DefaultNumberText(uo.maxPriorityFeePerGas);
    DefaultNumberText(uo.maxFeePerGas);
    DefaultNumberText(uo.paymasterVerificationGasLimit);
    DefaultNumberText(uo.paymasterPostOpGasLimit);
    hide PlainWritten, DefaultWritten, DefaultNumber;
  }

  // ---- decoding ----

  /** hexutil's text check: the empty text is empty, anything else needs 0x and whole bytes. */
  function DecodeBytes(text: string): Option<seq<Byte>> {
    if text == "" then Some([])
    else if |text| >= 2 && text[0] == '0' && (text[1] == 'x' || text[1] == 'X') then Hex.Decode(text[2..])
    else None
  }

  /** A Go string field: absent and null leave it empty. */
  function TextField(field: Option<Json>): Option<string> {
    match field
    case None => Some("")
    case Some(JNull) => Some("")
    case Some(JString(text)) => Some(text)
    case Some(JOther) => None
  }

  /** A number of UnmarshalJSON: an empty string leaves the field nil. */
  function NumberField(field: Option<Json>): Option<Option<int>> {
    var text := TextField(field);
    if text.None? then None
    else if text.value == "" then Some(None)
    else
      var n := Hex.ParseHexBig(text.value);
      if n.None? then None else Some(Some(n.value))
  }

  /** A hexutil.Bytes field: absent is empty, null is refused. */
  function BytesField(field: Option<Json>): Option<seq<Byte>> {
    match field
    case None => Some([])
    case Some(JString(text)) => DecodeBytes(text)
    case Some(_) => None
  }

  function DecodeAddress(value: Json): Option<Address> {
    var bs := if value.JString? then DecodeBytes(value.text) else None;
    if bs.Some? && |bs.value| == 20 then Some(bs.value) else None
  }

  /** A common.Address field: absent is the zero address, null is refused. */
  function AddressField(field: Option<Json>): Option<Address> {
    if field.None? then Some(Zeros(20)) else DecodeAddress(field.value)
  }

  /** A *common.Address field: absent and null are nil. */
  function AddressPointerField(field: Option<Json>): Option<Option<Address>> {
    if field.None? || field.value.JNull? then Some(None)
    else
      var a := DecodeAddress(field.value);
      if a.None? then None else Some(Some(a.value))
  }

  /** UnmarshalJSON into a fresh operation; None is a decoding error. */
  function Unmarshal(doc: Document): Option<UserOperation> {
    var sender := AddressField(doc.sender);
    var nonce := NumberField(doc.nonce);
    var factory := AddressPointerField(doc.factory);
    var factoryData := BytesField(doc.factoryData);
    var callData := BytesField(doc.callData);
    var callGas := NumberField(doc.callGasLimit);
    var verificationGas := NumberField(doc.verificationGasLimit);
    var preGas := NumberField(doc.preVerificationGas);
    var priorityFee := NumberField(doc.maxPriorityFeePerGas);
    var maxFee := NumberField(doc.maxFeePerGas);
    var paymaster := AddressPointerField(doc.paymaster);
    var pmVerificationGas := NumberField(doc.paymasterVerificationGasLimit);
    var pmPostOpGas := NumberField(doc.paymasterPostOpGasLimit);
    var pmData := BytesField(doc.paymasterData);
    var signature := BytesField(doc.signature);
    if sender.None? || nonce.None? || factory.None? || factoryData.None? || callData.None? || callGas.None?
       || verificationGas.None? || preGas.None? || priorityFee.None? || maxFee.None? || paymaster.None?
       || pmVerificationGas.None? || pmPostOpGas.None? || pmData.None? || signature.None?
    then None
    else Some(UserOperation(
                sender.value, nonce.value, factory.value, factoryData.value, callData.value, callGas.value,
                verificationGas.value, preGas.value, priorityFee.value, maxFee.value, paymaster.value,
                pmVerificationGas.value, pmPostOpGas.value, pmData.value, signature.value))
  }

  // ---- round trips ----

  lemma BytesRoundTrip(bs: seq<Byte>)
    ensures DecodeBytes(EncodeBytes(bs)) == Some(bs)
  {
    Hex.EncodeDecode(bs);
    assert EncodeBytes(bs)[2..] == Hex.Encode(bs);
  }

  lemma {:induction false} DigitsStopAt(s: string, i: nat)
    requires i < |s| && Hex.DigitValue(s[i]).None?
    ensures Hex.DigitsValue(s).None?
  {
    if i < |s| - 1 {
      DigitsStopAt(s[..|s| - 1], i);
    }
  }

  /** parseHexBig reads hexutil's form of a number exactly when the number is not negative. */
  lemma EncodeBigParses(n: int)
    ensures Hex.ParseHexBig(EncodeBig(n)) == if n >= 0 then Some(n) else None
  {
    if n >= 0 {
      Hex.PrefixedRoundTrip(n);
    } else {
      var s := EncodeBig(n);
      assert s[0] == '-' && s[1..][1] == 'x';
      assert !("0x" <= s);
      DigitsStopAt(s[1..], 1);
    }
  }

  lemma BytesFieldsRoundTrip(bs: seq<Byte>)
    ensures BytesField(BytesText(bs)) == Some(bs) && BytesField(OmitEmptyBytes(bs)) == Some(bs)
    ensures |bs| == 20 ==> AddressField(BytesText(bs)) == Some(bs)
    ensures |bs| == 20 ==> AddressPointerField(BytesText(bs)) == Some(Some(bs))
  {
    BytesRoundTrip(bs);
  }

  lemma AddressPointerRoundTrip(a: Option<Address>)
    ensures AddressPointerField(OmitNilAddress(a)) == Some(a)
  {
    if a.Some? { BytesFieldsRoundTrip(a.value); }
  }

  /** Every field but the nonce and the numbers decodes to itself, whatever they are. */
  lemma PlainFieldsRoundTrip(uo: UserOperation, nonce: Json, number: Option<int> -> Json)
    ensures var d := Encode(uo, nonce, number);
            && AddressField(d.sender) == Some(uo.sender)
            && AddressPointerField(d.factory) == Some(uo.factory)
            && BytesField(d.factoryData) == Some(uo.factoryData)
            && BytesField(d.callData) == Some(uo.callData)
            && AddressPointerField(d.paymaster) == Some(uo.paymaster)
            && BytesField(d.paymasterData) == Some(uo.paymasterData)
            && BytesField(d.signature) == Some(uo.signature)
  {
    BytesFieldsRoundTrip(uo.sender);
    AddressPointerRoundTrip(uo.factory);
    BytesFieldsRoundTrip(uo.factoryData);
    BytesFieldsRoundTrip(uo.callData);
    AddressPointerRoundTrip(uo.paymaster);
    BytesFieldsRoundTrip(uo.paymasterData);
    BytesFieldsRoundTrip(uo.signature);
  }

  lemma CustomNumberRoundTrip(x: Option<int>)
    ensures NumberField(Some(CustomNumber(x))) == Some(x) && NumberField(OmitNilNumber(x, CustomNumber)) == Some(x)
  {
    if x.Some? { Hex.PrefixedRoundTrip(x.value); }
  }

  lemma CustomNumbersRoundTrip(uo: UserOperation, nonce: Json)
    ensures var d := Encode(uo, nonce, CustomNumber);
            && NumberField(d.callGasLimit) == Some(uo.callGasLimit)
            && NumberField(d.verificationGasLimit) == Some(uo.verificationGasLimit)
            && NumberField(d.preVerificationGas) == Some(uo.preVerificationGas)
            && NumberField(d.maxPriorityFeePerGas) == Some(uo.maxPriorityFeePerGas)
            && NumberField(d.maxFeePerGas) == Some(uo.maxFeePerGas)
            && NumberField(d.paymasterVerificationGasLimit) == Some(uo.paymasterVerificationGasLimit)
            && NumberField(d.paymasterPostOpGasLimit) == Some(uo.paymasterPostOpGasLimit)
  {
    CustomNumberRoundTrip(uo.callGasLimit);
    CustomNumberRoundTrip(uo.verificationGasLimit);
    CustomNumberRoundTrip(uo.preVerificationGas);
    CustomNumberRoundTrip(uo.maxPriorityFeePerGas);
    CustomNumberRoundTrip(uo.maxFeePerGas);
    CustomNumberRoundTrip(uo.paymasterVerificationGasLimit);
    CustomNumberRoundTrip(uo.paymasterPostOpGasLimit);
  }

  lemma NonceTextRoundTrip(n: nat)
    ensures NumberField(Some(JString(Hex.Padded64(n)))) == Some(Some(n))
  {
    Hex.PaddedRoundTrip(n);
  }

  lemma WordWidth(n: nat)
    ensures |ToBytes(n)| <= 32 <==> n < TWO256
  {
    ToBytesWidth(n, 32);
    Widths();
  }

  /**
   * The custom form exists exactly for nonces below 2^256 in magnitude and decodes to the same
   * operation with a nil nonce read as 0; a negative nonce comes back without its sign.
   */
  lemma CustomRoundTrip(uo: UserOperation)
    ensures MarshalCustom(uo).Some? <==> Magnitude(uo.nonce) < TWO256
    ensures MarshalCustom(uo).Some? ==>
              Unmarshal(MarshalCustom(uo).value) == Some(uo.(nonce := Some(Magnitude(uo.nonce))))
  {
    WordWidth(Magnitude(uo.nonce));
    var nonce := JString(Hex.Padded64(Magnitude(uo.nonce)));
    NonceTextRoundTrip(Magnitude(uo.nonce));
    PlainFieldsRoundTrip(uo, nonce, CustomNumber);
    CustomNumbersRoundTrip(uo, nonce);
  }

  /** The nonce of the custom form is always 0x and 64 digits. */
  lemma CustomNonceWidth(uo: UserOperation)
    requires MarshalCustom(uo).Some?
    ensures MarshalCustom(uo).value.nonce.Some? && MarshalCustom(uo).value.nonce.value.JString?
    ensures |MarshalCustom(uo).value.nonce.value.text| == 66
  {
    WordWidth(Magnitude(uo.nonce));
    Hex.PaddedLength(Magnitude(uo.nonce));
  }

  predicate NotNegative(x: Option<int>) {
    x.GetOr(0) >= 0
  }

  predicate NumbersNotNegative(uo: UserOperation) {
    && NotNegative(uo.nonce) && NotNegative(uo.callGasLimit) && NotNegative(uo.verificationGasLimit)
    && NotNegative(uo.preVerificationGas) && NotNegative(uo.maxPriorityFeePerGas) && NotNegative(uo.maxFeePerGas)
    && NotNegative(uo.paymasterVerificationGasLimit) && NotNegative(uo.paymasterPostOpGasLimit)
  }

  lemma DefaultNumberRoundTrip(x: Option<int>)
    ensures NumberField(Some(DefaultNumber(x))) == if NotNegative(x) then Some(x) else None
    ensures NumberField(OmitNilNumber(x, DefaultNumber)) == if NotNegative(x) then Some(x) else None
  {
    if x.Some? { EncodeBigParses(x.value); }
  }

  /** The default form decodes to the operation itself exactly when no number is negative, and else not at all. */
  lemma DefaultRoundTrip(uo: UserOperation)
    ensures Unmarshal(MarshalDefault(uo)) == if NumbersNotNegative(uo) then Some(uo) else None
  {
    PlainFieldsRoundTrip(uo, DefaultNumber(uo.nonce), DefaultNumber);
    DefaultNumberRoundTrip(uo.nonce);
    DefaultNumberRoundTrip(uo.callGasLimit);
    DefaultNumberRoundTrip(uo.verificationGasLimit);
    DefaultNumberRoundTrip(uo.preVerificationGas);
    DefaultNumberRoundTrip(uo.maxPriorityFeePerGas);
    DefaultNumberRoundTrip(uo.maxFeePerGas);
    DefaultNumberRoundTrip(uo.paymasterVerificationGasLimit);
    DefaultNumberRoundTrip(uo.paymasterPostOpGasLimit);
  }

  // ---- the imperative encoder and decoder ----

  /** The padded buffer holds the nonce's magnitude. */
  method PadNonce(nonce: int) returns (text: Option<string>)
    ensures text == if Magnitude(Some(nonce)) < TWO256 then Some(Hex.Padded64(Magnitude(Some(nonce)))) else None
  {
    var nonceBytes := MagnitudeBytes(Some(nonce));
    WordWidth(Magnitude(Some(nonce)));
    if |nonceBytes| > 32 { return None; }
    var paddedNonce := Make(32);
    CopyEndingAt(paddedNonce, 32, nonceBytes);
    assert paddedNonce[..] == Zeros(32 - |nonceBytes|) + nonceBytes;
    LeadingZeros(32 - |nonceBytes|, nonceBytes);
    return Some(Hex.Padded64(FromBytes(paddedNonce[..])));
  }

  /** One auxiliary string of MarshalJSON. */
  method FillNumber(x: Option<int>) returns (text: string)
    ensures CustomNumber(x) == JString(text) && (text == "" <==> x.None?)
  {
    text := "";
    if x.Some? { text := Hex.Prefixed(x.value); }
  }

  /** MarshalJSON: the auxiliary strings are filled one by one and shadow the embedded fields. */
  method MarshalJSON(uo: UserOperation) returns (doc: Option<Document>)
    ensures doc == MarshalCustom(uo)
    ensures doc.Some? <==> Magnitude(uo.nonce) < TWO256
    ensures doc.Some? ==> CustomWritten(uo, doc.value)
  {
    hide CustomWritten;
    if MarshalCustom(uo).Some? { CustomTexts(uo); }
    WordWidth(Magnitude(uo.nonce));
    var nonce := Hex.Padded64(0);
    if uo.nonce.Some? {
      var padded := PadNonce(uo.nonce.value);
      if padded.None? { return None; }
      nonce := padded.value;
    }
    var callGas := FillNumber(uo.callGasLimit);
    var verificationGas := FillNumber(uo.verificationGasLimit);
    var preGas := FillNumber(uo.preVerificationGas);
    var priorityFee := FillNumber(uo.maxPriorityFeePerGas);
    var maxFee := FillNumber(uo.maxFeePerGas);
    var pmVerificationGas := FillNumber(uo.paymasterVerificationGasLimit);
    var pmPostOpGas := FillNumber(uo.paymasterPostOpGasLimit);
    return Some(Document(
      BytesText(uo.sender), Some(JString(nonce)),
      OmitNilAddress(uo.factory), OmitEmptyBytes(uo.factoryData), BytesText(uo.callData),
      Some(JString(callGas)), Some(JString(verificationGas)), Some(JString(preGas)),
      Some(JString(priorityFee)), Some(JString(maxFee)),
      OmitNilAddress(uo.paymaster),
      if pmVerificationGas == "" then None else Some(JString(pmVerificationGas)),
      if pmPostOpGas == "" then None else Some(JString(pmPostOpGas)),
      OmitEmptyBytes(uo.paymasterData), BytesText(uo.signature)));
  }

  /** One number of UnmarshalJSON: a non-empty string is parsed, an empty one leaves the field nil. */
  method ParseNumber(field: Option<Json>) returns (n: Option<Option<int>>)
    ensures n == NumberField(field)
  {
    var text := TextField(field);
    if text.None? { return None; }
    n := Some(None);
    if text.value != "" {
      var parsed := Hex.ParseHexBig(text.value);
      n := if parsed.Some? then Some(parsed) else None;
    }
  }

  /** UnmarshalJSON: the plain fields first, then number after number into the receiver. */
  method UnmarshalJSON(doc: Document) returns (uo: Option<UserOperation>)
    ensures uo == Unmarshal(doc)
  {
    var sender, factory, factoryData := AddressField(doc.sender), AddressPointerField(doc.factory),
      BytesField(doc.factoryData);
    var callData, paymaster := BytesField(doc.callData), AddressPointerField(doc.paymaster);
    var pmData, signature := BytesField(doc.paymasterData), BytesField(doc.signature);
    if sender.None? || factory.None? || factoryData.None? || callData.None? || paymaster.None? || pmData.None?
      || signature.None? {
      return None;
    }
    var op := UserOperation(sender.value, None, factory.value, factoryData.value, callData.value, None, None, None,
                            None, None,
                            paymaster.value, None, None, pmData.value, signature.value);
    var n := ParseNumber(doc.nonce);
    if n.None? { return None; }
    op := op.(nonce := n.value);
    n := ParseNumber(doc.callGasLimit);
    if n.None? { return None; }
    op := op.(callGasLimit := n.value);
    n := ParseNumber(doc.verificationGasLimit);
    if n.None? { return None; }
    op := op.(verificationGasLimit := n.value);
    n := ParseNumber(doc.preVerificationGas);
    if n.None? { return None; }
    op := op.(preVerificationGas := n.value);
    n := ParseNumber(doc.maxPriorityFeePerGas);
    if n.None? { return None; }
    op := op.(maxPriorityFeePerGas := n.value);
    n := ParseNumber(doc.maxFeePerGas);
    if n.None? { return None; }
    op := op.(maxFeePerGas := n.value);
    n := ParseNumber(doc.paymasterVerificationGasLimit);
    if n.None? { return None; }
    op := op.(paymasterVerificationGasLimit := n.value);
    n := ParseNumber(doc.paymasterPostOpGasLimit);
    if n.None? { return None; }
    op := op.(paymasterPostOpGasLimit := n.value);
    return Some(op);
  }

  // ---- what storage does to an operation ----

  /** CreateJob, ToEntityJob, EnqueueJob, DequeueJob: through the table and the queue. */
  function ThroughStorage(uo: UserOperation): Option<UserOperation> {
    var stored := MarshalCustom(uo);
    var loaded := if stored.None? then None else Unmarshal(stored.value);
    if loaded.None? then None else Unmarshal(MarshalDefault(loaded.value))
  }

  /**
   * An operation comes out of the table and the queue as it went in, a nil nonce as 0, exactly
   * when no number is negative and the nonce is below 2^256.
   */
  lemma StorageRoundTrip(uo: UserOperation)
    ensures NumbersNotNegative(uo) && Magnitude(uo.nonce) < TWO256 <==>
            ThroughStorage(uo) == Some(uo.(nonce := Some(uo.nonce.GetOr(0))))
  {
    CustomRoundTrip(uo);
    if MarshalCustom(uo).Some? {
      DefaultRoundTrip(uo.(nonce := Some(Magnitude(uo.nonce))));
    }
  }

  /** So storage does not change what is packed, hashed and signed. */
  lemma StorageKeepsWhatIsSigned(k: HashFunction, uo: UserOperation, chainId: int)
    requires NumbersNotNegative(uo) && Magnitude(uo.nonce) < TWO256
    ensures ThroughStorage(uo).Some?
    ensures Packed(ThroughStorage(uo).value) == Packed(uo)
    ensures UserOpHash(k, ThroughStorage(uo).value, chainId) == UserOpHash(k, uo, chainId)
  {
    StorageRoundTrip(uo);
    var out := uo.(nonce := Some(uo.nonce.GetOr(0)));
    PackDependsOnNormal(uo);
    PackDependsOnNormal(out);
    assert Normal(out) == Normal(uo);
  }

  // ---- PackedUserOp ----

  datatype PackedDocument = PackedDocument(
    sender: Option<Json>, nonce: Option<Json>, initCode: Option<Json>, callData: Option<Json>,
    accountGasLimits: Option<Json>, preVerificationGas: Option<Json>, gasFees: Option<Json>,
    paymasterAndData: Option<Json>, signature: Option<Json>)

  function PackedNumber(x: Option<int>): Option<Json> {
    Some(JString(if x.None? then "0x0" else Hex.Prefixed(x.value)))
  }

  function MarshalPacked(p: PackedUserOp): PackedDocument {
    PackedDocument(
      BytesText(p.sender), PackedNumber(p.nonce), BytesText(p.initCode), BytesText(p.callData),
      BytesText(p.accountGasLimits), PackedNumber(p.preVerificationGas), BytesText(p.gasFees),
      BytesText(p.paymasterAndData), BytesText(p.signature))
  }

  /** What MarshalJSON of a packed operation writes, field by field; a nil number is 0x0. */
  lemma PackedTexts(p: PackedUserOp)
    ensures var d := MarshalPacked(p);
            && BytesWritten(d.sender, p.sender) && BytesWritten(d.initCode, p.initCode)
            && BytesWritten(d.callData, p.callData) && BytesWritten(d.accountGasLimits, p.accountGasLimits)
            && BytesWritten(d.gasFees, p.gasFees) && BytesWritten(d.paymasterAndData, p.paymasterAndData)
            && BytesWritten(d.signature, p.signature)
            && NumberWritten(d.nonce, Some(p.nonce.GetOr(0)))
            && NumberWritten(d.preVerificationGas, Some(p.preVerificationGas.GetOr(0)))
  {
    hide BytesWritten;
    BytesAreText(p.sender);
    BytesAreText(p.initCode);
    BytesAreText(p.callData);
    BytesAreText(p.accountGasLimits);
    BytesAreText(p.gasFees);
    BytesAreText(p.paymasterAndData);
    BytesAreText(p.signature);
    HexText.PrefixedIsText(p.nonce.GetOr(0));
    HexText.PrefixedIsText(p.preVerificationGas.GetOr(0));
    assert Hex.Prefixed(0) == "0x0";
    hide Hex.Prefixed, HexText.PrefixedText, BytesText;
  }

  function UnmarshalPacked(d: PackedDocument): Option<PackedUserOp> {
    var sender, nonce, initCode := AddressField(d.sender), NumberField(d.nonce), BytesField(d.initCode);
    var callData, limits, gas := BytesField(d.callData), BytesField(d.accountGasLimits),
      NumberField(d.preVerificationGas);
    var fees, paymaster, signature := BytesField(d.gasFees), BytesField(d.paymasterAndData), BytesField(d.signature);
    if sender.None? || nonce.None? || initCode.None? || callData.None? || limits.None? || gas.None? || fees.None?
       || paymaster.None? || signature.None? then None
    else Some(PackedUserOp(sender.value, nonce.value, initCode.value, callData.value, limits.value, gas.value,
                           fees.value, paymaster.value, signature.value))
  }

  lemma PackedNumberRoundTrip(x: Option<int>)
    ensures NumberField(PackedNumber(x)) == Some(Some(x.GetOr(0)))
  {
    Hex.PrefixedRoundTrip(x.GetOr(0));
    assert Hex.Prefixed(0) == "0x0";
  }

  /** Every packed operation survives its JSON form, nil numbers as zero. */
  lemma PackedRoundTrip(p: PackedUserOp)
    ensures UnmarshalPacked(MarshalPacked(p)) ==
            Some(p.(nonce := Some(p.nonce.GetOr(0)), preVerificationGas := Some(p.preVerificationGas.GetOr(0))))
  {
    PackedNumberRoundTrip(p.nonce);
    PackedNumberRoundTrip(p.preVerificationGas);
    BytesFieldsRoundTrip(p.sender);
    BytesFieldsRoundTrip(p.initCode);
    BytesFieldsRoundTrip(p.callData);
    BytesFieldsRoundTrip(p.accountGasLimits);
    BytesFieldsRoundTrip(p.gasFees);
    BytesFieldsRoundTrip(p.paymasterAndData);
    BytesFieldsRoundTrip(p.signature);
  }
}
