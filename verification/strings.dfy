/**
 * String operations the services rely on, with the semantics of the
 * languages they are written in: Python's `str.split`, `str.split(sep, 1)`,
 * `str.replace`, `str.startswith`/`endswith`, `in` on strings and `join`,
 * and JavaScript's `String(n)`/`parseInt`.  Strings are `seq<char>`.
 */
module Strings {
  import opened Wrappers

  /** Index of the first occurrence of `c` in `s`. */
  function IndexOf(s: string, c: char): (i: nat)
    requires c in s
    ensures i < |s| && s[i] == c
    ensures c !in s[..i]
  {
    if s[0] == c then 0
    else
      assert s == [s[0]] + s[1..];
      var j := IndexOf(s[1..], c);
      assert s[..1 + j] == [s[0]] + s[1..][..j];
      1 + j
  }

  /** Python `s.split(c)` for a one-character separator: the maximal pieces between separators. */
  function Split(s: string, c: char): (parts: seq<string>)
    ensures |parts| >= 1
    ensures forall k :: 0 <= k < |parts| ==> c !in parts[k]
    decreases |s|
  {
    if c !in s then [s]
    else
      var i := IndexOf(s, c);
      [s[..i]] + Split(s[i + 1..], c)
  }

  /** `sep.join(parts)` in Python, `parts.join(sep)` in TypeScript. */
  function Join(parts: seq<string>, sep: string): string
  {
    if |parts| == 0 then ""
    else if |parts| == 1 then parts[0]
    else parts[0] + sep + Join(parts[1..], sep)
  }

  /** Joining the pieces of a split with the separator gives back the string. */
  lemma {:induction false} JoinSplit(s: string, c: char)
    ensures Join(Split(s, c), [c]) == s
    decreases |s|
  {
    if c in s {
      var i := IndexOf(s, c);
      var rest := Split(s[i + 1..], c);
      assert Split(s, c) == [s[..i]] + rest;
      assert (([s[..i]] + rest)[1..]) == rest;
      JoinSplit(s[i + 1..], c);
      assert s == s[..i] + [c] + s[i + 1..];
    }
  }

  /** The first piece of a split ends at the first separator. */
  lemma SplitCons(a: string, b: string, c: char)
    requires c !in a
    ensures Split(a + [c] + b, c) == [a] + Split(b, c)
  {
    var s := a + [c] + b;
    assert s[|a|] == c;
    var i := IndexOf(s, c);
    assert s[..i + 1][|a|] == c;
    assert s[..i] == a[..i];
    assert i == |a|;
    assert s[..i] == a;
    assert s[i + 1..] == b;
  }

  /** Two separator-free pieces joined by the separator split back into those two. */
  lemma SplitPair(a: string, b: string, c: char)
    requires c !in a && c !in b
    ensures Split(a + [c] + b, c) == [a, b]
  {
    SplitCons(a, b, c);
  }

  /** Splitting a join of separator-free pieces gives back the pieces. */
  lemma {:induction false} SplitJoin(parts: seq<string>, c: char)
    requires |parts| >= 1
    requires forall k :: 0 <= k < |parts| ==> c !in parts[k]
    ensures Split(Join(parts, [c]), c) == parts
    decreases |parts|
  {
    if |parts| > 1 {
      var tail := Join(parts[1..], [c]);
      assert Join(parts, [c]) == parts[0] + [c] + tail;
      SplitCons(parts[0], tail, c);
      SplitJoin(parts[1..], c);
      assert parts == [parts[0]] + parts[1..];
    }
  }

  /** Python `s.split(c, 1)`: at most one cut, at the first separator. */
  function SplitOnce(s: string, c: char): (parts: seq<string>)
    ensures 1 <= |parts| <= 2
    ensures |parts| == 2 <==> c in s
    ensures |parts| == 1 ==> parts[0] == s
    ensures |parts| == 2 ==> c !in parts[0] && parts[0] + [c] + parts[1] == s
  {
    if c in s then
      var i := IndexOf(s, c);
      assert s == s[..i] + [c] + s[i + 1..];
      [s[..i], s[i + 1..]]
    else [s]
  }

  /** Cutting at the first separator of `a + [c] + b`, when `a` has none, gives back `a` and `b`. */
  lemma SplitOnceCons(a: string, b: string, c: char)
    requires c !in a
    ensures SplitOnce(a + [c] + b, c) == [a, b]
  {
    var s := a + [c] + b;
    assert s[|a|] == c;
    var i := IndexOf(s, c);
    assert s[..i + 1][|a|] == c;
    assert s[..i] == a[..i];
    assert i == |a|;
    assert s[..i] == a;
    assert s[i + 1..] == b;
  }

  /** The last piece of `Split(s, c)`: Python `s.split(c)[-1]`. */
  function LastSegment(s: string, c: char): string
  {
    var parts := Split(s, c);
    parts[|parts| - 1]
  }

  /** The last piece is the longest separator-free suffix of `s`. */
  lemma {:induction false} LastSegmentIsSuffix(s: string, c: char)
    ensures var r := LastSegment(s, c);
      && c !in r
      && |r| <= |s|
      && s[|s| - |r|..] == r
      && (|r| == |s| || s[|s| - |r| - 1] == c)
    decreases |s|
  {
    if c in s {
      var i := IndexOf(s, c);
      var rest := s[i + 1..];
      var tail := Split(rest, c);
      assert Split(s, c) == [s[..i]] + tail;
      assert LastSegment(s, c) == LastSegment(rest, c);
      LastSegmentIsSuffix(rest, c);
      var r := LastSegment(rest, c);
      assert s[|s| - |r|..] == rest[|rest| - |r|..];
      if |r| == |rest| {
        assert s[|s| - |r| - 1] == s[i];
      } else {
        assert s[|s| - |r| - 1] == rest[|rest| - |r| - 1];
      }
    }
  }

  /** Python `s.startswith(p)`. */
  predicate StartsWith(s: string, p: string)
  {
    |p| <= |s| && s[..|p|] == p
  }

  /** Python `s.endswith(p)`. */
  predicate EndsWith(s: string, p: string)
  {
    |p| <= |s| && s[|s| - |p|..] == p
  }

  /** `sub` occurs in `s` starting at index `i`. */
  predicate OccursAt(s: string, sub: string, i: nat)
  {
    i + |sub| <= |s| && s[i..i + |sub|] == sub
  }

  /** Python `sub in s`, TypeScript `s.includes(sub)`. */
  predicate Contains(s: string, sub: string)
  {
    exists i: nat :: i <= |s| && OccursAt(s, sub, i)
  }

  /** Python `s.replace(a, b)` for single characters. */
  function ReplaceChar(s: string, a: char, b: char): (r: string)
    ensures |r| == |s|
    ensures forall k :: 0 <= k < |s| && s[k] != a ==> r[k] == s[k]
    ensures a != b ==> a !in r
  {
    seq(|s|, k requires 0 <= k < |s| => if s[k] == a then b else s[k])
  }

  /** Number of occurrences of `c` in `s`. */
  function Count(s: string, c: char): (n: nat)
    ensures n <= |s|
    ensures n == 0 <==> c !in s
  {
    if |s| == 0 then 0 else (if s[0] == c then 1 else 0) + Count(s[1..], c)
  }

  /** Python `s.replace(c, "")`, TypeScript `s.replace(/c/g, "")`. */
  function RemoveChar(s: string, c: char): (r: string)
    ensures |r| == |s| - Count(s, c)
    ensures c !in r
    ensures forall x :: x != c ==> (x in r <==> x in s)
  {
    if |s| == 0 then ""
    else if s[0] == c then RemoveChar(s[1..], c)
    else [s[0]] + RemoveChar(s[1..], c)
  }

  /** Python `s[:n]`: the first `n` characters, or all of `s` when it is shorter. */
  function Truncate(s: string, n: nat): (r: string)
    ensures |r| <= n && |r| <= |s|
    ensures r == s[..|r|]
    ensures |s| <= n ==> r == s
  {
    if |s| <= n then s else s[..n]
  }

  /** ASCII lower-casing of one character. */
  function LowerChar(c: char): char
  {
    if 'A' <= c <= 'Z' then (c as int + 32) as char else c
  }

  /** Python `s.lower()` restricted to ASCII letters. */
  function Lower(s: string): (r: string)
    ensures |r| == |s|
  {
    seq(|s|, k requires 0 <= k < |s| => LowerChar(s[k]))
  }

  predicate IsDigit(c: char)
  {
    '0' <= c <= '9'
  }

  function DigitChar(d: nat): (c: char)
    requires d < 10
    ensures IsDigit(c)
  {
    ('0' as int + d) as char
  }

  function DigitValue(c: char): (d: nat)
    requires IsDigit(c)
    ensures d < 10
  {
    c as int - '0' as int
  }

  /** Decimal rendering of a natural number, without leading zeros. */
  function NatToString(n: nat): (r: string)
    ensures |r| >= 1
    ensures forall k :: 0 <= k < |r| ==> IsDigit(r[k])
    decreases n
  {
    if n < 10 then [DigitChar(n)] else NatToString(n / 10) + [DigitChar(n % 10)]
  }

  /** `k` zero digits. */
  function Zeros(k: nat): (r: string)
    ensures |r| == k
    ensures forall j :: 0 <= j < k ==> r[j] == '0'
  {
    seq(k, j => '0')
  }

  /** Decimal rendering padded with leading zeros to at least `width` digits (`%02d`, `%04d`). */
  function PadNat(n: nat, width: nat): (r: string)
    ensures |r| >= width
    ensures forall k :: 0 <= k < |r| ==> IsDigit(r[k])
  {
    var digits := NatToString(n);
    (if |digits| < width then Zeros(width - |digits|) else "") + digits
  }

  /** JavaScript `String(i)` for an integer. */
  function IntToString(i: int): string
  {
    if i < 0 then "-" + NatToString(-i) else NatToString(i)
  }

  /** Value of a string of decimal digits. */
  function DigitsValue(s: string): nat
    requires forall k :: 0 <= k < |s| ==> IsDigit(s[k])
  {
    if |s| == 0 then 0 else DigitsValue(s[..|s| - 1]) * 10 + DigitValue(s[|s| - 1])
  }

  /** Length of the longest prefix of `s` made of decimal digits. */
  function DigitPrefix(s: string): (n: nat)
    ensures n <= |s|
    ensures forall k :: 0 <= k < n ==> IsDigit(s[k])
    ensures n < |s| ==> !IsDigit(s[n])
  {
    if |s| == 0 || !IsDigit(s[0]) then 0 else 1 + DigitPrefix(s[1..])
  }

  /**
   * JavaScript `parseInt(s)` on an integer literal: an optional sign followed
   * by the longest run of digits; `None` stands for `NaN` (no digit at all).
   */
  function ParseInt(s: string): Option<int>
  {
    if |s| > 0 && (s[0] == '-' || s[0] == '+') then
      var body := s[1..];
      var n := DigitPrefix(body);
      if n == 0 then None
      else if s[0] == '-' then Some(-(DigitsValue(body[..n]) as int))
      else Some(DigitsValue(body[..n]))
    else
      var n := DigitPrefix(s);
      if n == 0 then None else Some(DigitsValue(s[..n]))
  }

  lemma {:induction false} NatToStringValue(n: nat)
    ensures DigitsValue(NatToString(n)) == n
    decreases n
  {
    if n >= 10 {
      var r := NatToString(n);
      NatToStringValue(n / 10);
      assert r[..|r| - 1] == NatToString(n / 10);
    }
  }

  /** `parseInt(String(i)) == i`: the rendering used for stored numbers reads back exactly. */
  lemma ParseIntToString(i: int)
    ensures ParseInt(IntToString(i)) == Some(i)
  {
    var digits := NatToString(if i < 0 then -i else i);
    NatToStringValue(if i < 0 then -i else i);
    assert DigitPrefix(digits) == |digits| by {
      DigitPrefixAll(digits);
    }
    assert digits[..|digits|] == digits;
    if i < 0 {
      assert IntToString(i)[1..] == digits;
    }
  }

  lemma {:induction false} DigitPrefixAll(s: string)
    requires forall k :: 0 <= k < |s| ==> IsDigit(s[k])
    ensures DigitPrefix(s) == |s|
    decreases |s|
  {
    if |s| > 0 {
      DigitPrefixAll(s[1..]);
    }
  }

  /** Lower-case hexadecimal digit. */
  function HexChar(d: nat): (c: char)
    requires d < 16
  {
    if d < 10 then ('0' as int + d) as char else ('a' as int + d - 10) as char
  }

  predicate IsHexChar(c: char)
  {
    ('0' <= c <= '9') || ('a' <= c <= 'f')
  }

  function HexValue(c: char): (d: nat)
    requires IsHexChar(c)
    ensures d < 16
  {
    if '0' <= c <= '9' then c as int - '0' as int else c as int - 'a' as int + 10
  }

  function Pow16(w: nat): (p: nat)
    ensures p >= 1
  {
    if w == 0 then 1 else 16 * Pow16(w - 1)
  }

  /** The last `width` lower-case hex digits of `n`, most significant first (`uuid.hex`). */
  function HexDigits(n: nat, width: nat): (r: string)
    ensures |r| == width
    ensures forall k :: 0 <= k < |r| ==> IsHexChar(r[k])
    decreases width
  {
    if width == 0 then "" else HexDigits(n / 16, width - 1) + [HexChar(n % 16)]
  }

  /** Value of a string of hex digits. */
  function HexStringValue(s: string): nat
    requires forall k :: 0 <= k < |s| ==> IsHexChar(s[k])
  {
    if |s| == 0 then 0 else HexStringValue(s[..|s| - 1]) * 16 + HexValue(s[|s| - 1])
  }

  lemma {:induction false} HexDigitsValue(n: nat, width: nat)
    requires n < Pow16(width)
    ensures HexStringValue(HexDigits(n, width)) == n
    decreases width
  {
    if width > 0 {
      var r := HexDigits(n, width);
      assert r[..|r| - 1] == HexDigits(n / 16, width - 1);
      HexDigitsValue(n / 16, width - 1);
      assert HexValue(HexChar(n % 16)) == n % 16;
    } else {
      assert n == 0;
    }
  }

  /** Distinct numbers below 16^width have distinct hex renderings. */
  lemma HexDigitsInjective(n: nat, m: nat, width: nat)
    requires n < Pow16(width) && m < Pow16(width)
    requires HexDigits(n, width) == HexDigits(m, width)
    ensures n == m
  {
    HexDigitsValue(n, width);
    HexDigitsValue(m, width);
  }
}
