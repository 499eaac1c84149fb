/**
  String helpers shared by the TypeScript and Python parts of the model:
  ASCII case mapping, decimal rendering of integers (`Number.prototype.toString`,
  Python `str()`), `padStart`, `endsWith`, and ECMAScript `trim` with its
  whitespace set.
 */
module Text {

  predicate IsUpperAscii(c: char) { 'A' <= c <= 'Z' }

  /** Lower-case mapping of one character, restricted to the ASCII letters. */
  function LowerChar(c: char): (r: char)
    ensures !IsUpperAscii(r)
    ensures !IsUpperAscii(c) ==> r == c
  {
    if IsUpperAscii(c) then (c as int + 32) as char else c
  }

  /** `str.lower()` / `String.prototype.toLowerCase()` on ASCII letters. */
  function Lower(s: string): (r: string)
    ensures |r| == |s|
    ensures forall i :: 0 <= i < |s| ==> r[i] == LowerChar(s[i])
  {
    seq(|s|, i requires 0 <= i < |s| => LowerChar(s[i]))
  }

  predicate IsDigit(c: char) { '0' <= c <= '9' }

  predicate AllDigits(s: string) { forall i :: 0 <= i < |s| ==> IsDigit(s[i]) }

  function DigitChar(d: nat): (c: char)
    requires d < 10
    ensures IsDigit(c) && c as int - '0' as int == d
  {
    (d + '0' as int) as char
  }

  /** Decimal rendering of a natural number, most significant digit first. */
  function NatToString(n: nat): (r: string)
    ensures |r| >= 1 && AllDigits(r)
    ensures n >= 10 <==> |r| >= 2
    ensures r[0] == '0' ==> n == 0
  {
    if n < 10 then [DigitChar(n)] else NatToString(n / 10) + [DigitChar(n % 10)]
  }

  /** Decimal rendering of an integer: a minus sign before negative numbers. */
  function IntToString(i: int): (r: string)
    ensures |r| >= 1
    ensures i >= 0 ==> r == NatToString(i)
    ensures i < 0 ==> r == "-" + NatToString(-i)
  {
    if i < 0 then "-" + NatToString(-i) else NatToString(i)
  }

  /** The number a string of decimal digits denotes: the inverse of NatToString. */
  function DigitsValue(s: string): nat
    requires AllDigits(s)
  {
    if s == [] then 0 else 10 * DigitsValue(s[..|s| - 1]) + (s[|s| - 1] as int - '0' as int)
  }

  lemma {:induction false} NatToStringRoundTrip(n: nat)
    ensures DigitsValue(NatToString(n)) == n
  {
    var r := NatToString(n);
    if n >= 10 {
      NatToStringRoundTrip(n / 10);
      assert r[..|r| - 1] == NatToString(n / 10);
    }
  }

  /** `s.padStart(2, "0")`. */
  function PadStart2(s: string): (r: string)
    ensures |s| >= 2 ==> r == s
    ensures |s| < 2 ==> |r| == 2 && r[2 - |s|..] == s
    ensures forall i :: 0 <= i < 2 - |s| ==> r[i] == '0'
  {
    if |s| >= 2 then s else if |s| == 1 then "0" + s else "00"
  }

  predicate EndsWith(s: string, suffix: string) {
    |suffix| <= |s| && s[|s| - |suffix|..] == suffix
  }

  predicate ContainsChar(s: string, c: char) { exists i :: 0 <= i < |s| && s[i] == c }

  /** The WhiteSpace and LineTerminator code points that `String.prototype.trim` removes. */
  predicate IsJsWhitespace(c: char) {
    var u := c as int;
    u == 0x09 || u == 0x0A || u == 0x0B || u == 0x0C || u == 0x0D || u == 0x20
    || u == 0xA0 || u == 0x1680 || (0x2000 <= u <= 0x200A)
    || u == 0x2028 || u == 0x2029 || u == 0x202F || u == 0x205F
    || u == 0x3000 || u == 0xFEFF
  }

  function TrimStart(s: string): (r: string)
    ensures |r| <= |s| && r == s[|s| - |r|..]
    ensures r != [] ==> !IsJsWhitespace(r[0])
    ensures forall i :: 0 <= i < |s| - |r| ==> IsJsWhitespace(s[i])
  {
    if s != [] && IsJsWhitespace(s[0]) then TrimStart(s[1..]) else s
  }

  function TrimEnd(s: string): (r: string)
    ensures |r| <= |s| && r == s[..|r|]
    ensures r != [] ==> !IsJsWhitespace(r[|r| - 1])
    ensures forall i :: |r| <= i < |s| ==> IsJsWhitespace(s[i])
  {
    if s != [] && IsJsWhitespace(s[|s| - 1]) then TrimEnd(s[..|s| - 1]) else s
  }

  /** `String.prototype.trim`. */
  function Trim(s: string): string {
    TrimEnd(TrimStart(s))
  }

  /** Trimming leaves nothing exactly when every character is whitespace. */
  lemma TrimEmpty(s: string)
    ensures Trim(s) == [] <==> forall i :: 0 <= i < |s| ==> IsJsWhitespace(s[i])
  {
    var t := TrimStart(s);
    if Trim(s) == [] {
      forall i | 0 <= i < |s| ensures IsJsWhitespace(s[i]) {
        if i >= |s| - |t| {
          assert s[i] == t[i - (|s| - |t|)];
        }
      }
    } else {
      var r := Trim(s);
      assert r[0] == t[0] == s[|s| - |t|];
    }
  }

  /** The `length` of a JavaScript string: code points above U+FFFF take two UTF-16 units. */
  function Utf16Length(s: string): (n: nat)
    ensures n >= |s|
  {
    if s == [] then 0 else Utf16Length(s[..|s| - 1]) + (if s[|s| - 1] as int > 0xFFFF then 2 else 1)
  }
}
