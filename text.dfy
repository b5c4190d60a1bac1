/**
 * JavaScript string primitives the application relies on, as functions on
 * `seq<char>`: the `\s` and `\w` character classes, `trim`, `substring(0, n)`,
 * `includes`, `padStart(2, '0')`, decimal and hexadecimal rendering and reading.
 */
module Text {

  /** JavaScript `\s`: the WhiteSpace and LineTerminator code points (ECMA-262). */
  predicate IsSpace(c: char) {
    var n := c as int;
    (9 <= n <= 13) || n == 32 || n == 0xA0 || n == 0x1680 || (0x2000 <= n <= 0x200A)
    || n == 0x2028 || n == 0x2029 || n == 0x202F || n == 0x205F || n == 0x3000 || n == 0xFEFF
  }

  /** The characters a regular-expression `.` does not match. */
  predicate IsLineTerminator(c: char) {
    c == '\n' || c == '\r' || c == '\U{2028}' || c == '\U{2029}'
  }

  lemma LineTerminatorIsSpace(c: char)
    ensures IsLineTerminator(c) ==> IsSpace(c)
  {
  }

  predicate IsDigit(c: char) { '0' <= c <= '9' }
  predicate IsUpper(c: char) { 'A' <= c <= 'Z' }
  predicate IsLower(c: char) { 'a' <= c <= 'z' }

  /** JavaScript `\w`. */
  predicate IsWordChar(c: char) { IsUpper(c) || IsLower(c) || IsDigit(c) || c == '_' }

  predicate NoSpace(s: string) { forall k | 0 <= k < |s| :: !IsSpace(s[k]) }
  predicate AllDigits(s: string) { forall k | 0 <= k < |s| :: IsDigit(s[k]) }
  predicate NoLineTerminator(s: string) { forall k | 0 <= k < |s| :: !IsLineTerminator(s[k]) }

  /** `s.substring(0, n)`: the first `n` characters, or all of `s` when it is shorter. */
  function Prefix(s: string, n: nat): (r: string)
    ensures |r| == if |s| < n then |s| else n
    ensures r <= s
  {
    if |s| <= n then s else s[..n]
  }

  /** `sub` occurs in `s` starting at index `i`. */
  predicate OccursAt(s: string, sub: string, i: int) {
    0 <= i && i + |sub| <= |s| && s[i..i + |sub|] == sub
  }

  /** `s.includes(sub)`. */
  predicate Contains(s: string, sub: string) {
    exists i | 0 <= i <= |s| :: OccursAt(s, sub, i)
  }

  lemma ContainsMiddle(x: string, sub: string, y: string)
    ensures Contains(x + sub + y, sub)
  {
    var s := x + sub + y;
    assert OccursAt(s, sub, |x|);
  }

  /** Text put after `s` keeps every occurrence in `s`. */
  lemma ContainsBefore(s: string, sub: string, y: string)
    requires Contains(s, sub)
    ensures Contains(s + y, sub)
  {
    var i :| 0 <= i <= |s| && OccursAt(s, sub, i);
    assert (s + y)[i..i + |sub|] == s[i..i + |sub|];
    assert OccursAt(s + y, sub, i);
  }

  /** Text put in front of `s` keeps every occurrence in `s`. */
  lemma ContainsAfter(x: string, s: string, sub: string)
    requires Contains(s, sub)
    ensures Contains(x + s, sub)
  {
    var i :| 0 <= i <= |s| && OccursAt(s, sub, i);
    assert (x + s)[|x| + i..|x| + i + |sub|] == s[i..i + |sub|];
    assert OccursAt(x + s, sub, |x| + i);
  }

  /** `s.trimStart()`. */
  function TrimStart(s: string): (r: string)
    ensures |r| <= |s| && r == s[|s| - |r|..]
    ensures r == [] || !IsSpace(r[0])
    ensures forall k | 0 <= k < |s| - |r| :: IsSpace(s[k])
  {
    if |s| > 0 && IsSpace(s[0]) then TrimStart(s[1..]) else s
  }

  /** A string that does not start with white space is its own `trimStart()`. */
  lemma TrimStartKeeps(s: string)
    requires s == [] || !IsSpace(s[0])
    ensures TrimStart(s) == s
  {
  }

  /** `s.trimEnd()`. */
  function TrimEnd(s: string): (r: string)
    ensures |r| <= |s| && r == s[..|r|]
    ensures r == [] || !IsSpace(r[|r| - 1])
    ensures forall k | |r| <= k < |s| :: IsSpace(s[k])
  {
    if |s| > 0 && IsSpace(s[|s| - 1]) then TrimEnd(s[..|s| - 1]) else s
  }

  /** `s.trim()`: a contiguous piece of `s` with no white space at either end. */
  function Trim(s: string): (r: string)
    ensures r == [] || (!IsSpace(r[0]) && !IsSpace(r[|r| - 1]))
    ensures exists a :: OccursAt(s, r, a)
  {
    var t := TrimStart(s);
    var r := TrimEnd(t);
    PieceOccurs(s, t, r);
    r
  }

  /** A prefix of a suffix of `s` occurs in `s` where the suffix starts. */
  lemma PieceOccurs(s: string, t: string, r: string)
    requires |t| <= |s| && t == s[|s| - |t|..]
    requires |r| <= |t| && r == t[..|r|]
    ensures OccursAt(s, r, |s| - |t|)
  {
    var i := |s| - |t|;
    forall k | 0 <= k < |r|
      ensures s[i..i + |r|][k] == r[k]
    {
      assert r[k] == t[k] == s[i + k];
    }
  }

  /** A string is blank (`!s.trim()`) exactly when every character is white space. */
  lemma TrimEmptyIffBlank(s: string)
    ensures Trim(s) == [] <==> forall k | 0 <= k < |s| :: IsSpace(s[k])
  {
    var t := TrimStart(s);
    if Trim(s) == [] {
      assert TrimEnd(t) == [];
      assert t == [];
    } else {
      var r := Trim(s);
      var a :| OccursAt(s, r, a);
      assert s[a] == r[0];
    }
  }

  function DigitChar(d: nat): (c: char)
    requires d < 10
    ensures IsDigit(c)
  {
    "0123456789"[d]
  }

  /** `n.toString()` for a non-negative integer. */
  function NatToString(n: nat): (r: string)
    ensures 0 < |r| && AllDigits(r)
    ensures |r| == 1 <==> n < 10
  {
    if n < 10 then [DigitChar(n)] else NatToString(n / 10) + [DigitChar(n % 10)]
  }

  /** `parseInt` of a string of decimal digits. */
  function DigitsValue(s: string): (n: nat)
    requires AllDigits(s)
  {
    if s == [] then 0 else DigitsValue(s[..|s| - 1]) * 10 + (s[|s| - 1] as int - '0' as int)
  }

  lemma {:induction false} DigitsValueOfNatToString(n: nat)
    ensures DigitsValue(NatToString(n)) == n
  {
    if n >= 10 {
      var r := NatToString(n);
      assert r[..|r| - 1] == NatToString(n / 10);
      DigitsValueOfNatToString(n / 10);
    }
  }

  predicate IsHexDigit(c: char) { IsDigit(c) || 'a' <= c <= 'f' || 'A' <= c <= 'F' }
  predicate AllHexDigits(s: string) { forall k | 0 <= k < |s| :: IsHexDigit(s[k]) }

  function HexDigitValue(c: char): (v: nat)
    requires IsHexDigit(c)
    ensures v < 16
  {
    if IsDigit(c) then c as int - '0' as int
    else if 'a' <= c <= 'f' then c as int - 'a' as int + 10
    else c as int - 'A' as int + 10
  }

  /** The lower-case hexadecimal digit for `d`. */
  function HexChar(d: nat): (c: char)
    requires d < 16
    ensures IsHexDigit(c) && HexDigitValue(c) == d
  {
    if d < 10 then ('0' as int + d) as char else ('a' as int + d - 10) as char
  }

  /** `parseInt(s, 16)` of a string of hexadecimal digits, either case. */
  function HexValue(s: string): (n: nat)
    requires AllHexDigits(s)
  {
    if s == [] then 0 else HexValue(s[..|s| - 1]) * 16 + HexDigitValue(s[|s| - 1])
  }

  function Pow16(k: nat): (p: nat)
    ensures p >= 1
  {
    if k == 0 then 1 else 16 * Pow16(k - 1)
  }

  /** `n` written as exactly `width` lower-case hexadecimal digits, zero-padded on the left. */
  function HexText(n: nat, width: nat): (r: string)
    ensures |r| == width && AllHexDigits(r)
  {
    if width == 0 then [] else HexText(n / 16, width - 1) + [HexChar(n % 16)]
  }

  /** A number that fits in `width` hexadecimal digits reads back from its text. */
  lemma {:induction false} HexValueOfHexText(n: nat, width: nat)
    requires n < Pow16(width)
    ensures HexValue(HexText(n, width)) == n
  {
    if width > 0 {
      var r := HexText(n, width);
      assert r[..|r| - 1] == HexText(n / 16, width - 1);
      assert n / 16 < Pow16(width - 1);
      HexValueOfHexText(n / 16, width - 1);
    }
  }

  /** `n.toString().padStart(2, '0')`: a leading zero for one-digit numbers, never a cut. */
  function PadTwo(n: nat): (r: string)
    ensures AllDigits(r) && |r| >= 2
    ensures n < 100 ==> |r| == 2
    ensures DigitsValue(r) == n
  {
    var d := NatToString(n);
    DigitsValueOfNatToString(n);
    if |d| >= 2 then d
    else
      var r := ['0'] + d;
      assert r[..|r| - 1] == ['0'];
      r
  }

  lemma {:induction false} NatToStringLength(n: nat)
    ensures n < 100 ==> |NatToString(n)| <= 2
  {
    if n >= 10 { NatToStringLength(n / 10); }
  }

  /** The number of occurrences of `c` in `s`. */
  function CountOf(s: string, c: char): (n: nat)
    ensures n <= |s|
  {
    if s == [] then 0 else CountOf(s[..|s| - 1], c) + (if s[|s| - 1] == c then 1 else 0)
  }

  /** `parts.join(sep)`. */
  function Join(parts: seq<string>, sep: string): string {
    if |parts| == 0 then ""
    else if |parts| == 1 then parts[0]
    else Join(parts[..|parts| - 1], sep) + sep + parts[|parts| - 1]
  }
}
