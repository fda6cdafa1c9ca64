/** String operations the inventory code relies on, stated for Dafny's `string`
    (a sequence of Unicode scalar values, which is how Python counts a `str`). */
module Strings {

  function Min(a: int, b: int): int { if a <= b then a else b }

  function Max(a: int, b: int): int { if a <= b then b else a }

  /** Lower-casing of one character, for the ASCII letters only. */
  function LowerChar(c: char): char {
    if 'A' <= c <= 'Z' then (c as int + 32) as char else c
  }

  /** `s.lower()`, restricted to ASCII case mapping. */
  function Lower(s: string): (r: string)
    ensures |r| == |s|
    ensures forall i {:trigger r[i]} :: 0 <= i < |s| ==> r[i] == LowerChar(s[i])
  {
    if s == [] then [] else [LowerChar(s[0])] + Lower(s[1..])
  }

  /** `Lower(s)` is `t` when `t` is `s` lower-cased character by character. */
  lemma LowerIs(s: string, t: string)
    requires |s| == |t| && forall i :: 0 <= i < |s| ==> LowerChar(s[i]) == t[i]
    ensures Lower(s) == t
  {
    assert forall i :: 0 <= i < |s| ==> Lower(s)[i] == t[i];
  }

  /** `q` occurs in `s` starting at position `i`. */
  predicate OccursAt(q: string, s: string, i: int) {
    0 <= i && i + |q| <= |s| && s[i..i + |q|] == q
  }

  /** `q` occurs in `s` as a contiguous block of characters. */
  ghost predicate IsInfix(q: string, s: string) {
    exists i :: OccursAt(q, s, i)
  }

  /** Once `q` is known not to start `s`, it occurs in `s` iff it occurs in `s[1..]`. */
  lemma InfixShift(q: string, s: string)
    requires |q| <= |s| && s[..|q|] != q
    ensures IsInfix(q, s) <==> IsInfix(q, s[1..])
  {
    if IsInfix(q, s) {
      var i :| OccursAt(q, s, i);
      assert i != 0;
      assert s[1..][i - 1..i - 1 + |q|] == s[i..i + |q|];
      assert OccursAt(q, s[1..], i - 1);
    }
    if IsInfix(q, s[1..]) {
      var i :| OccursAt(q, s[1..], i);
      assert s[i + 1..i + 1 + |q|] == s[1..][i..i + |q|];
      assert OccursAt(q, s, i + 1);
    }
  }

  /** Python's `q in s` on strings. */
  function Contains(s: string, q: string): (b: bool)
    ensures b <==> IsInfix(q, s)
    decreases |s|
  {
    if |q| > |s| then false
    else if s[..|q|] == q then assert OccursAt(q, s, 0); true
    else InfixShift(q, s); Contains(s[1..], q)
  }

  /** A string with a character that `s` lacks does not occur in `s`. */
  lemma MissingChar(q: string, s: string, j: int)
    requires 0 <= j < |q|
    requires forall k :: 0 <= k < |s| ==> s[k] != q[j]
    ensures !IsInfix(q, s)
  {
    forall i | 0 <= i && i + |q| <= |s|
      ensures !OccursAt(q, s, i)
    {
      assert s[i..i + |q|][j] == s[i + j] != q[j];
    }
  }

  /** The empty string occurs in every string. */
  lemma ContainsEmpty(s: string)
    ensures Contains(s, "")
  {
    assert OccursAt("", s, 0);
  }

  /** The characters `str.isspace()` accepts: the ASCII controls TAB to CR,
      the separators 0x1C to 0x1F, SPACE, NEL, NO-BREAK SPACE and the Unicode
      space separators and line/paragraph separators. */
  predicate IsSpace(c: char) {
    || ('\t' <= c <= '\r')
    || ('\U{1c}' <= c <= '\U{1f}') || c == ' '
    || c == '\U{85}' || c == '\U{a0}' || c == '\U{1680}'
    || ('\U{2000}' <= c <= '\U{200a}')
    || c == '\U{2028}' || c == '\U{2029}' || c == '\U{202f}' || c == '\U{205f}' || c == '\U{3000}'
  }

  /** `s.lstrip()` */
  function TrimStart(s: string): string {
    if s != [] && IsSpace(s[0]) then TrimStart(s[1..]) else s
  }

  /** `s.rstrip()` */
  function TrimEnd(s: string): string {
    if s != [] && IsSpace(s[|s| - 1]) then TrimEnd(s[..|s| - 1]) else s
  }

  /** `s.strip()` */
  function Strip(s: string): string {
    TrimEnd(TrimStart(s))
  }

  /** `s.lstrip()` is the longest suffix of `s` that does not start with white space. */
  lemma {:induction false} TrimStartSpec(s: string)
    ensures var r := TrimStart(s);
      && |r| <= |s| && r == s[|s| - |r|..]
      && (forall k :: 0 <= k < |s| - |r| ==> IsSpace(s[k]))
      && (r != [] ==> !IsSpace(r[0]))
  {
    if s != [] && IsSpace(s[0]) {
      var t := s[1..];
      TrimStartSpec(t);
      var r := TrimStart(t);
      assert TrimStart(s) == r;
      assert t[|t| - |r|..] == s[|s| - |r|..];
      forall k | 0 <= k < |s| - |r|
        ensures IsSpace(s[k])
      {
        if k > 0 {
          assert s[k] == t[k - 1];
        }
      }
    }
  }

  /** `s.rstrip()` is the longest prefix of `s` that does not end with white space. */
  lemma {:induction false} TrimEndSpec(s: string)
    ensures var r := TrimEnd(s);
      && |r| <= |s| && r == s[..|r|]
      && (forall k :: |r| <= k < |s| ==> IsSpace(s[k]))
      && (r != [] ==> !IsSpace(r[|r| - 1]))
  {
    if s != [] && IsSpace(s[|s| - 1]) {
      var t := s[..|s| - 1];
      TrimEndSpec(t);
      var r := TrimEnd(t);
      assert TrimEnd(s) == r;
      assert t[..|r|] == s[..|r|];
      forall k | |r| <= k < |s|
        ensures IsSpace(s[k])
      {
        if k < |t| {
          assert s[k] == t[k];
        }
      }
    }
  }

  /** `s.strip()` is the block of `s` left once the white space at both ends
      is cut off: everything cut is white space, and the block neither starts
      nor ends with white space. */
  lemma StripSpec(s: string)
    ensures exists i, j :: StrippedAt(s, i, j)
  {
    TrimStartSpec(s);
    var t := TrimStart(s);
    TrimEndSpec(t);
    var i := |s| - |t|;
    var j := i + |TrimEnd(t)|;
    assert s[i..j] == TrimEnd(t);
    assert StrippedAt(s, i, j);
  }

  /** `Strip(s)` is `s[i..j]`, with only white space outside and none at its ends. */
  predicate StrippedAt(s: string, i: int, j: int) {
    && 0 <= i <= j <= |s| && Strip(s) == s[i..j]
    && (forall k :: 0 <= k < i ==> IsSpace(s[k]))
    && (forall k :: j <= k < |s| ==> IsSpace(s[k]))
    && (i < j ==> !IsSpace(s[i]) && !IsSpace(s[j - 1]))
  }

  /** A string without white space at its ends is its own `strip()`. */
  lemma StripKeeps(s: string)
    requires s != [] ==> !IsSpace(s[0]) && !IsSpace(s[|s| - 1])
    ensures Strip(s) == s
  {
  }

  /** `s[:n]`: the first `n` characters of `s`, or all of `s` if it is shorter. */
  function Take(s: string, n: nat): (r: string)
    ensures |r| == Min(|s|, n) && r == s[..|r|]
  {
    if |s| <= n then s else s[..n]
  }

  /** `" " * n` */
  function Spaces(n: nat): (r: string)
    ensures |r| == n
    ensures forall i :: 0 <= i < n ==> r[i] == ' '
  {
    seq(n, _ => ' ')
  }

  /** `f"{s:<width}"`: `s` left-aligned, filled with spaces up to `width`
      characters; a longer `s` is kept whole. */
  function PadRight(s: string, width: nat): (r: string)
    ensures |r| == Max(|s|, width)
    ensures r[..|s|] == s
    ensures forall i :: |s| <= i < |r| ==> r[i] == ' '
  {
    if |s| >= width then s else s + Spaces(width - |s|)
  }

  /** `f"{s:^width}"`: `s` centred in `width` characters; a longer `s` is kept whole. */
  function Center(s: string, width: nat): string {
    if |s| >= width then s
    else
      var fill := width - |s|;
      Spaces(fill / 2) + s + Spaces(fill - fill / 2)
  }

  /** Centring puts half the fill, rounded down, on the left and the rest on
      the right, as Python's format mini-language does. */
  lemma CenterSpec(s: string, width: nat)
    requires |s| < width
    ensures var r := Center(s, width);
            var left := (width - |s|) / 2;
      && |r| == width
      && r[left..left + |s|] == s
      && (forall i :: 0 <= i < left ==> r[i] == ' ')
      && (forall i :: left + |s| <= i < width ==> r[i] == ' ')
      && left <= width - |s| - left <= left + 1
  {
    var left := (width - |s|) / 2;
    var r := Center(s, width);
    assert r == Spaces(left) + s + Spaces(width - |s| - left);
    assert r[left..left + |s|] == s;
  }

  /** `s[:cut]` formatted with `:<width>`: a fixed-width column. */
  function Column(s: string, cut: nat, width: nat): (r: string)
    requires cut < width
    ensures |r| == width
    ensures r[..Min(|s|, cut)] == s[..Min(|s|, cut)]
    ensures forall i :: Min(|s|, cut) <= i < width ==> r[i] == ' '
  {
    PadRight(Take(s, cut), width)
  }

  /** The decimal digits of `n`, as `str(n)` writes them. */
  function Decimal(n: nat): (r: string)
    ensures |r| >= 1
    ensures forall i :: 0 <= i < |r| ==> '0' <= r[i] <= '9'
    ensures |r| > 1 ==> r[0] != '0'
    decreases n
  {
    if n < 10 then [DigitChar(n)] else Decimal(n / 10) + [DigitChar(n % 10)]
  }

  function DigitChar(d: nat): (c: char)
    requires d < 10
    ensures '0' <= c <= '9'
  {
    ('0' as int + d) as char
  }

  /** The number a string of decimal digits denotes. */
  function DigitsValue(s: string): nat
    requires forall i :: 0 <= i < |s| ==> '0' <= s[i] <= '9'
  {
    if s == [] then 0 else 10 * DigitsValue(s[..|s| - 1]) + (s[|s| - 1] as int - '0' as int)
  }

  /** Reading back the decimal digits of `n` gives `n`. */
  lemma {:induction false} DecimalRoundTrip(n: nat)
    ensures DigitsValue(Decimal(n)) == n
    decreases n
  {
    if n >= 10 {
      DecimalRoundTrip(n / 10);
      var s := Decimal(n);
      assert s[..|s| - 1] == Decimal(n / 10);
    }
  }
}
