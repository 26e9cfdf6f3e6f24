/** What hexadecimal texts are, said of their characters: the measure for what is written and read. */
module HexText {
  import opened Wrappers
  import opened Bytes
  import Hex

  predicate IsLowerDigit(c: char) {
    '0' <= c <= '9' || 'a' <= c <= 'f'
  }

  predicate IsHexDigit(c: char) {
    IsLowerDigit(c) || 'A' <= c <= 'F'
  }

  predicate AllLower(s: string) {
    forall i :: 0 <= i < |s| ==> IsLowerDigit(s[i])
  }

  /** The value of a digit of either case. */
  function CharValue(c: char): nat {
    if '0' <= c <= '9' then c as int - 48
    else if 'a' <= c <= 'f' then c as int - 87
    else if 'A' <= c <= 'F' then c as int - 55
    else 0
  }

  /** The number that a run of digits denotes, the highest digit first. */
  function TextValue(s: string): nat {
    if s == "" then 0 else TextValue(s[..|s| - 1]) * 16 + CharValue(s[|s| - 1])
  }

  /** Lower-case digits that denote n, without a zero in front unless n is zero. */
  predicate MinimalDigits(s: string, n: nat) {
    s != "" && AllLower(s) && (s[0] == '0' ==> s == "0") && TextValue(s) == n
  }

  /** 0x and the digits, with the sign of a negative number between them, as fmt writes it. */
  predicate PrefixedText(s: string, n: int) {
    if n >= 0 then |s| > 2 && s[0] == '0' && s[1] == 'x' && MinimalDigits(s[2..], n)
    else |s| > 3 && s[0] == '0' && s[1] == 'x' && s[2] == '-' && MinimalDigits(s[3..], -n)
  }

  /** The same with the sign in front, as hexutil writes it. */
  predicate SignedText(s: string, n: int) {
    if n >= 0 then PrefixedText(s, n)
    else |s| > 3 && s[0] == '-' && s[1] == '0' && s[2] == 'x' && MinimalDigits(s[3..], -n)
  }

  /** 0x and 64 digits that denote n. */
  predicate PaddedText(s: string, n: nat) {
    |s| == 66 && s[0] == '0' && s[1] == 'x' && AllLower(s[2..]) && TextValue(s[2..]) == n
  }

  /** 0x and two lower-case digits for each byte, the higher one first. */
  predicate BytesText(s: string, bs: seq<Byte>) {
    && |s| == 2 + 2 * |bs| && s[0] == '0' && s[1] == 'x' && AllLower(s[2..])
    && forall i {:trigger bs[i]} :: 0 <= i < |bs| ==> CharValue(s[2 + 2 * i]) * 16 + CharValue(s[3 + 2 * i]) == bs[i]
  }

  // ---- what is written ----

  lemma DigitIsLower(d: nat)
    requires d < 16
    ensures IsLowerDigit(Hex.Digit(d)) && CharValue(Hex.Digit(d)) == d && (Hex.Digit(d) == '0' <==> d == 0)
  {
    if d < 10 {
      assert "0123456789abcdef"[d] == '0' + d as char;
    }
  }

  lemma OneDigit(d: nat)
    requires d < 16
    ensures MinimalDigits([Hex.Digit(d)], d)
  {
    DigitIsLower(d);
    hide Hex.Digit, IsLowerDigit, CharValue;
    var s := [Hex.Digit(d)];
    assert s[..|s| - 1] == "" && TextValue(s[..|s| - 1]) == 0 && s[|s| - 1] == Hex.Digit(d);
    assert s[0] == '0' ==> s == "0";
  }

  lemma ZeroText()
    ensures TextValue("0") == 0
  {
    assert "0"[..0] == "";
  }

  lemma {:induction false} DigitsAreMinimal(n: nat)
    ensures MinimalDigits(Hex.Digits(n), n)
  {
    hide Hex.Digit, IsLowerDigit, CharValue;
    DigitIsLower(n % 16);
    if n < 16 {
      OneDigit(n);
    } else {
      DigitsAreMinimal(n / 16);
      var front, s := Hex.Digits(n / 16), Hex.Digits(n);
      assert s[..|s| - 1] == front && s[|s| - 1] == Hex.Digit(n % 16) && s[0] == front[0];
      if front[0] == '0' {
        assert TextValue("0"[..0]) == 0;
        ZeroText();
      }
    }
  }

  lemma {:induction false} LeadingZeros(k: nat, s: string)
    ensures TextValue(Hex.ZeroDigits(k) + s) == TextValue(s)
  {
    if s == "" {
      assert Hex.ZeroDigits(k) + s == Hex.ZeroDigits(k);
      if k > 0 {
        LeadingZeros(k - 1, "");
        assert Hex.ZeroDigits(k)[..k - 1] == Hex.ZeroDigits(k - 1) == Hex.ZeroDigits(k - 1) + "";
      }
    } else {
      var all := Hex.ZeroDigits(k) + s;
      assert all[..|all| - 1] == Hex.ZeroDigits(k) + s[..|s| - 1];
      LeadingZeros(k, s[..|s| - 1]);
    }
  }

  /** The form 0x%x. */
  lemma PrefixedIsText(n: int)
    ensures PrefixedText(Hex.Prefixed(n), n)
  {
    DigitsAreMinimal(if n < 0 then -n else n);
    hide MinimalDigits, Hex.Digits;
    var s := Hex.Prefixed(n);
    if n < 0 {
      assert s[3..] == Hex.Digits(-n);
    } else {
      assert s[2..] == Hex.Digits(n);
    }
  }

  /** The form 0x%064x. */
  lemma PaddedIsText(n: nat)
    requires n < TWO256
    ensures PaddedText(Hex.Padded64(n), n)
  {
    Hex.PaddedLength(n);
    DigitsAreMinimal(n);
    hide Hex.Digits, TextValue;
    var digits := Hex.Digits(n);
    var k := if |digits| < 64 then 64 - |digits| else 0;
    LeadingZeros(k, digits);
    assert Hex.Padded64(n)[2..] == Hex.ZeroDigits(k) + digits;
  }

  lemma {:induction false} EncodeIsLower(bs: seq<Byte>)
    ensures AllLower(Hex.Encode(bs))
  {
    if bs != [] {
      EncodeIsLower(bs[1..]);
      DigitIsLower(bs[0] / 16);
      DigitIsLower(bs[0] % 16);
      hide Hex.Digit, IsLowerDigit;
    }
  }

  /** 0x and the hexadecimal encoding of a byte string. */
  lemma EncodedIsText(bs: seq<Byte>)
    ensures BytesText("0x" + Hex.Encode(bs), bs)
  {
    EncodeIsLower(bs);
    var s, code := "0x" + Hex.Encode(bs), Hex.Encode(bs);
    assert s[2..] == code;
    forall i | 0 <= i < |bs| ensures CharValue(s[2 + 2 * i]) * 16 + CharValue(s[3 + 2 * i]) == bs[i] {
      Hex.EncodeAt(bs, i);
      DigitIsLower(bs[i] / 16);
      DigitIsLower(bs[i] % 16);
      hide Hex.Digit, CharValue, Hex.Encode;
      assert s[2 + 2 * i] == code[2 * i] && s[3 + 2 * i] == code[2 * i + 1];
    }
  }

  // ---- what is read ----

  lemma DigitReads(c: char)
    ensures Hex.DigitValue(c) == if IsHexDigit(c) then Some(CharValue(c)) else None
  {
  }

  lemma {:induction false} DigitsRead(s: string)
    requires forall i :: 0 <= i < |s| ==> IsHexDigit(s[i])
    ensures Hex.DigitsValue(s) == Some(TextValue(s))
  {
    hide IsHexDigit, CharValue, Hex.DigitValue;
    if s != "" {
      DigitsRead(s[..|s| - 1]);
      DigitReads(s[|s| - 1]);
    }
  }
}
