/** Hexadecimal text: fmt's %x and %064x of a big.Int, hex of byte strings, and their parsers. */
module Hex {
  import opened Wrappers
  import opened Bytes

  function DigitValue(c: char): (d: Option<int>)
    ensures d.Some? ==> 0 <= d.value < 16
  {
    if '0' <= c <= '9' then Some(c as int - '0' as int)
    else if 'a' <= c <= 'f' then Some(c as int - 'a' as int + 10)
    else if 'A' <= c <= 'F' then Some(c as int - 'A' as int + 10)
    else None
  }

  function Digit(d: int): (c: char)
    requires 0 <= d < 16
    ensures DigitValue(c) == Some(d)
    ensures c != 'x' && c != '-' && c != '+'
  {
    "0123456789abcdef"[d]
  }

  // ---- numbers ----

  /** %x of a natural: no leading zeros, "0" for zero. */
  function Digits(n: nat): (s: string)
    ensures s != ""
  {
    if n < 16 then [Digit(n)] else Digits(n / 16) + [Digit(n % 16)]
  }

  /** %x of a big.Int. */
  function FormatHex(n: int): string {
    if n < 0 then "-" + Digits(-n) else Digits(n)
  }

  /** The value of a run of digits, big.Int.SetString's scan in base 16. */
  function DigitsValue(s: string): Option<nat> {
    if s == "" then Some(0) else
      var front, last := DigitsValue(s[..|s| - 1]), DigitValue(s[|s| - 1]);
      if front.None? || last.None? then None else Some(front.value * 16 + last.value)
  }

  /** big.Int.SetString(s, 16): an optional sign, then one digit or more. */
  function SetString16(s: string): Option<int> {
    var signed := s != "" && (s[0] == '-' || s[0] == '+');
    var digits := if signed then s[1..] else s;
    if digits == "" || DigitsValue(digits).None? then None
    else
      var magnitude: int := DigitsValue(digits).value;
      Some(if signed && s[0] == '-' then -magnitude else magnitude)
  }

  /** The parseHexBig helper: "" and "0x" read as zero. */
  function ParseHexBig(s: string): Option<int> {
    var body := if "0x" <= s then s[2..] else s;
    if body == "" then Some(0) else SetString16(body)
  }

  function ZeroDigits(n: nat): (s: string)
    ensures |s| == n && forall i :: 0 <= i < n ==> s[i] == '0'
  {
    seq(n, i => '0')
  }

  /** 0x%x */
  function Prefixed(n: int): string {
    "0x" + FormatHex(n)
  }

  /** 0x%064x of a natural. */
  function Padded64(n: nat): string {
    "0x" + ZeroDigits(if |Digits(n)| < 64 then 64 - |Digits(n)| else 0) + Digits(n)
  }

  lemma {:induction false} DigitsRoundTrip(n: nat)
    ensures DigitsValue(Digits(n)) == Some(n)
    ensures Digits(n)[0] != '-' && Digits(n)[0] != '+' && Digits(n)[0] != 'x'
    ensures |Digits(n)| > 1 ==> Digits(n)[1] != 'x'
  {
    if n >= 16 {
      DigitsRoundTrip(n / 16);
      var s := Digits(n);
      assert s[..|s| - 1] == Digits(n / 16) && s[|s| - 1] == Digit(n % 16);
    } else {
      assert [Digit(n)][..0] == "";
    }
  }

  lemma {:induction false} LeadingZeroDigits(k: nat, s: string)
    ensures DigitsValue(ZeroDigits(k) + s) == DigitsValue(s)
  {
    if s == "" {
      assert ZeroDigits(k) + s == ZeroDigits(k);
      if k > 0 {
        LeadingZeroDigits(k - 1, "");
        assert ZeroDigits(k)[..k - 1] == ZeroDigits(k - 1) == ZeroDigits(k - 1) + "";
      }
    } else {
      var all := ZeroDigits(k) + s;
      assert all[..|all| - 1] == ZeroDigits(k) + s[..|s| - 1];
      LeadingZeroDigits(k, s[..|s| - 1]);
    }
  }

  lemma PrefixDropped(s: string)
    requires s != ""
    ensures ParseHexBig("0x" + s) == SetString16(s)
  {
    assert "0x" <= "0x" + s && ("0x" + s)[2..] == s;
  }

  lemma SetStringFormat(n: int)
    ensures FormatHex(n) != "" && SetString16(FormatHex(n)) == Some(n)
  {
    DigitsRoundTrip(if n < 0 then -n else n);
    if n < 0 {
      assert FormatHex(n)[1..] == Digits(-n);
    }
  }

  /** Printing any integer and parsing it back gives it back, sign included. */
  lemma PrefixedRoundTrip(n: int)
    ensures ParseHexBig(Prefixed(n)) == Some(n)
  {
    SetStringFormat(n);
    PrefixDropped(FormatHex(n));
  }

  lemma UnsignedDigits(s: string)
    requires s != "" && s[0] != '-' && s[0] != '+' && DigitsValue(s).Some?
    ensures SetString16(s) == Some(DigitsValue(s).value)
  {
  }

  lemma PaddedBody(n: nat, k: nat)
    ensures SetString16(ZeroDigits(k) + Digits(n)) == Some(n)
  {
    DigitsRoundTrip(n);
    LeadingZeroDigits(k, Digits(n));
    hide *;
    var body := ZeroDigits(k) + Digits(n);
    assert body[0] == if k > 0 then ZeroDigits(k)[0] else Digits(n)[0];
    UnsignedDigits(body);
  }

  lemma PaddedRoundTrip(n: nat)
    ensures ParseHexBig(Padded64(n)) == Some(n)
  {
    hide Digits, SetString16, ParseHexBig;
    var k := if |Digits(n)| < 64 then 64 - |Digits(n)| else 0;
    assert "0x" + ZeroDigits(k) + Digits(n) == "0x" + (ZeroDigits(k) + Digits(n));
    PaddedBody(n, k);
    PrefixDropped(ZeroDigits(k) + Digits(n));
  }

  function Pow16(k: nat): nat {
    if k == 0 then 1 else 16 * Pow16(k - 1)
  }

  lemma {:induction false} Pow16Positive(k: nat)
    ensures Pow16(k) >= 1
  {
    if k > 0 { Pow16Positive(k - 1); }
  }

  lemma {:induction false} DigitsWidth(n: nat, k: nat)
    requires k > 0
    ensures |Digits(n)| <= k <==> n < Pow16(k)
  {
    if n >= 16 && k > 1 {
      DigitsWidth(n / 16, k - 1);
    } else if k > 1 {
      Pow16Positive(k - 1);
    }
  }

  lemma {:induction false} Pow16Sum(a: nat, b: nat)
    ensures Pow16(a + b) == Pow16(a) * Pow16(b)
  {
    if a > 0 {
      Pow16Sum(a - 1, b);
      assert Pow16(a + b) == 16 * (Pow16(a - 1) * Pow16(b)) == (16 * Pow16(a - 1)) * Pow16(b);
    }
  }

  lemma Pow16At64()
    ensures Pow16(64) == TWO256
  {
    assert Pow16(2) == 0x100 && Pow16(4) == 0x1_0000;
    Pow16Sum(4, 4);
    Pow16Sum(8, 8);
    Pow16Sum(16, 16);
    Pow16Sum(32, 32);
  }

  /** The padded form has the fixed width of a 32-byte word exactly for the numbers that fit one. */
  lemma PaddedLength(n: nat)
    ensures |Padded64(n)| == 66 <==> n < TWO256
  {
    DigitsWidth(n, 64);
    Pow16At64();
  }

  // ---- byte strings ----

  /** hex.EncodeToString. */
  function Encode(bs: seq<Byte>): (s: string)
    ensures |s| == 2 * |bs|
  {
    if bs == [] then "" else [Digit(bs[0] / 16), Digit(bs[0] % 16)] + Encode(bs[1..])
  }

  /** Each byte is two digits, the higher one first. */
  lemma {:induction false} EncodeAt(bs: seq<Byte>, i: nat)
    requires i < |bs|
    ensures Encode(bs)[2 * i] == Digit(bs[i] / 16) && Encode(bs)[2 * i + 1] == Digit(bs[i] % 16)
  {
    hide Digit;
    if i > 0 {
      EncodeAt(bs[1..], i - 1);
      var rest := Encode(bs[1..]);
      assert Encode(bs)[2..] == rest;
      assert Encode(bs)[2 * i] == rest[2 * (i - 1)] && Encode(bs)[2 * i + 1] == rest[2 * (i - 1) + 1];
    }
  }

  /** hex.DecodeString: either case, an even number of digits. */
  function Decode(s: string): Option<seq<Byte>> {
    if s == "" then Some([])
    else if |s| == 1 then None
    else
      var hi, lo, rest := DigitValue(s[0]), DigitValue(s[1]), Decode(s[2..]);
      if hi.None? || lo.None? || rest.None? then None else Some([hi.value * 16 + lo.value] + rest.value)
  }

  lemma {:induction false} EncodeDecode(bs: seq<Byte>)
    ensures Decode(Encode(bs)) == Some(bs)
  {
    if bs != [] {
      EncodeDecode(bs[1..]);
      var s := Encode(bs);
      assert s[0] == Digit(bs[0] / 16) && s[1] == Digit(bs[0] % 16) && s[2..] == Encode(bs[1..]);
      assert bs == [bs[0]] + bs[1..];
    }
  }

  lemma {:induction false} EncodeConcat(a: seq<Byte>, b: seq<Byte>)
    ensures Encode(a + b) == Encode(a) + Encode(b)
  {
    if a == [] {
      assert a + b == b;
    } else {
      assert (a + b)[1..] == a[1..] + b;
      EncodeConcat(a[1..], b);
    }
  }

  lemma EncodeInjective(a: seq<Byte>, b: seq<Byte>)
    requires Encode(a) == Encode(b)
    ensures a == b
  {
    EncodeDecode(a);
    EncodeDecode(b);
  }
}
