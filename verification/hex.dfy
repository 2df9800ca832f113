/**
 * JavaScript's `parseInt(s, 16)`, and the fixed-width hexadecimal encoding an
 * indexed `uint256` event argument takes inside a transaction receipt's topics.
 */
module Hex {
  import opened Wrappers
  import opened Text

  predicate IsHexDigit(c: char) {
    ('0' <= c <= '9') || ('a' <= c <= 'f') || ('A' <= c <= 'F')
  }

  predicate AllHexDigits(s: string) {
    forall i :: 0 <= i < |s| ==> IsHexDigit(s[i])
  }

  function DigitValue(c: char): (v: nat)
    requires IsHexDigit(c)
    ensures v < 16
  {
    if '0' <= c <= '9' then c as int - '0' as int
    else if 'a' <= c <= 'f' then c as int - 'a' as int + 10
    else c as int - 'A' as int + 10
  }

  /** The number a string of hex digits denotes, most significant digit first. */
  function Value(ds: string): nat
    requires AllHexDigits(ds)
  {
    if |ds| == 0 then 0 else Value(ds[..|ds| - 1]) * 16 + DigitValue(ds[|ds| - 1])
  }

  /** The longest prefix made of hex digits: where `parseInt` stops reading. */
  function DigitPrefix(s: string): (r: string)
    ensures r <= s
    ensures AllHexDigits(r)
    ensures |r| < |s| ==> !IsHexDigit(s[|r|])
  {
    if |s| > 0 && IsHexDigit(s[0]) then [s[0]] + DigitPrefix(s[1..]) else []
  }

  /** `parseInt(s, 16)`: leading whitespace, an optional sign, an optional `0x`/`0X`, then digits. */
  function ParseInt16(s: string): (r: IntParse)
    ensures |s| > 0 && AllHexDigits(s) ==> r == Int(Value(s))
    ensures r.Int? && r.value < 0 ==> |TrimStart(s)| > 0 && TrimStart(s)[0] == '-'
  {
    var t := TrimStart(s);
    var negative := |t| > 0 && t[0] == '-';
    var unsigned := if |t| > 0 && (t[0] == '-' || t[0] == '+') then t[1..] else t;
    var body := if |unsigned| >= 2 && unsigned[0] == '0' && (unsigned[1] == 'x' || unsigned[1] == 'X')
                then unsigned[2..] else unsigned;
    var digits := DigitPrefix(body);
    assert |s| > 0 && AllHexDigits(s) ==> digits == s by {
      if |s| > 0 && AllHexDigits(s) {
        TrimStartKeeps(s);
        DigitPrefixAll(s);
      }
    }
    if |digits| == 0 then NaN
    else if negative then Int(-(Value(digits) as int))
    else Int(Value(digits))
  }

  function Pow16(n: nat): (p: nat)
    ensures p >= 1
  {
    if n == 0 then 1 else 16 * Pow16(n - 1)
  }

  function HexDigit(v: nat): (c: char)
    requires v < 16
    ensures IsHexDigit(c) && DigitValue(c) == v
  {
    if v < 10 then ('0' as int + v) as char else ('a' as int + v - 10) as char
  }

  /** `n` written with exactly `width` lower-case hex digits, left-padded with zeros. */
  function Encode(n: nat, width: nat): (r: string)
    ensures |r| == width && AllHexDigits(r)
  {
    if width == 0 then [] else Encode(n / 16, width - 1) + [HexDigit(n % 16)]
  }

  /** Fixed-width encoding is exact for every number that fits the width. */
  lemma {:induction false} EncodeValue(n: nat, width: nat)
    requires n < Pow16(width)
    ensures Value(Encode(n, width)) == n
  {
    if width > 0 {
      var high := Encode(n / 16, width - 1);
      assert n / 16 < Pow16(width - 1) by {
        assert 16 * (n / 16) <= n < 16 * Pow16(width - 1);
      }
      EncodeValue(n / 16, width - 1);
      var r := high + [HexDigit(n % 16)];
      assert r[..|r| - 1] == high;
    }
  }

  /** `0x` followed by the 64 hex digits of a 32-byte word, as receipts carry indexed arguments. */
  function Topic(n: nat): string {
    "0x" + Encode(n, 64)
  }

  /** A string made only of hex digits is read to its end. */
  lemma {:induction false} DigitPrefixAll(e: string)
    requires AllHexDigits(e)
    ensures DigitPrefix(e) == e
  {
    if |e| > 0 {
      DigitPrefixAll(e[1..]);
      assert [e[0]] + e[1..] == e;
    }
  }

  /** An unsigned `0x` string with no leading whitespace is read from just after the prefix. */
  lemma ParseHexPrefix(t: string)
    requires TrimStart(t) == t && |t| >= 2 && t[0] == '0' && t[1] == 'x'
    ensures var d := DigitPrefix(t[2..]); ParseInt16(t) == if |d| == 0 then NaN else Int(Value(d))
  {
  }

  /** `parseInt("0x" + e, 16)` reads all of a non-empty string of hex digits `e`. */
  lemma ParsePrefixed(e: string)
    requires |e| > 0 && AllHexDigits(e)
    ensures ParseInt16("0x" + e) == Int(Value(e))
  {
    var t := "0x" + e;
    assert t[0] == '0' && t[1] == 'x' && t[2..] == e;
    TrimStartKeeps(t);
    ParseHexPrefix(t);
    DigitPrefixAll(e);
  }

  /** Reading a word-sized topic back with `parseInt(_, 16)` gives the number that was encoded. */
  lemma TopicRoundTrip(n: nat)
    requires n < Pow16(64)
    ensures ParseInt16(Topic(n)) == Int(n)
  {
    ParsePrefixed(Encode(n, 64));
    EncodeValue(n, 64);
  }
}
