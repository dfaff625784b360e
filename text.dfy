/**
 * The string operations the client relies on, with their ECMAScript meaning:
 * `String.prototype.trim`, `toLowerCase` (ASCII letters), the `<` operator on
 * strings, `Number.prototype.toString` on integers and the global `parseInt`
 * (no radix argument).
 */
module Text {
  import Lists

  /** ECMAScript WhiteSpace and LineTerminator code points (what `trim` and `parseInt` skip). */
  predicate IsWhitespace(c: char) {
    var u := c as int;
    u == 0x09 || u == 0x0A || u == 0x0B || u == 0x0C || u == 0x0D || u == 0x20 || u == 0xA0
    || u == 0x1680 || (0x2000 <= u <= 0x200A) || u == 0x2028 || u == 0x2029 || u == 0x202F
    || u == 0x205F || u == 0x3000 || u == 0xFEFF
  }

  /** A string that `trim()` turns into the falsy `""`. */
  predicate IsBlank(s: string) {
    forall i :: 0 <= i < |s| ==> IsWhitespace(s[i])
  }

  /** Drops leading white space; what is dropped is all white space. */
  function TrimStart(s: string): (r: string)
    ensures |r| <= |s| && r == s[|s| - |r|..]
    ensures r == [] || !IsWhitespace(r[0])
    ensures forall i :: 0 <= i < |s| - |r| ==> IsWhitespace(s[i])
  {
    if s != [] && IsWhitespace(s[0]) then TrimStart(s[1..]) else s
  }

  /** Drops trailing white space; what is dropped is all white space. */
  function TrimEnd(s: string): (r: string)
    ensures |r| <= |s| && r == s[..|r|]
    ensures r == [] || !IsWhitespace(r[|r| - 1])
    ensures forall i :: |r| <= i < |s| ==> IsWhitespace(s[i])
  {
    if s != [] && IsWhitespace(s[|s| - 1]) then TrimEnd(s[..|s| - 1]) else s
  }

  /**
   * `s.trim()`: the part of `s` between a leading and a trailing run of
   * white space; it neither starts nor ends with white space.
   */
  function Trim(s: string): (r: string)
    ensures |r| <= |TrimStart(s)|
    ensures r == [] || (!IsWhitespace(r[0]) && !IsWhitespace(r[|r| - 1]))
    ensures r == s[|s| - |TrimStart(s)|..|s| - |TrimStart(s)| + |r|]
    ensures forall i :: 0 <= i < |s| - |TrimStart(s)| ==> IsWhitespace(s[i])
    ensures forall i :: |s| - |TrimStart(s)| + |r| <= i < |s| ==> IsWhitespace(s[i])
  {
    TrimEndIn(s, |s| - |TrimStart(s)|, TrimStart(s));
    TrimEnd(TrimStart(s))
  }

  /** `TrimEnd` of a suffix `t == s[a..]`, placed back in `s`. */
  lemma TrimEndIn(s: string, a: nat, t: string)
    requires a <= |s| && t == s[a..]
    ensures var r := TrimEnd(t);
      r == s[a..a + |r|] && forall i :: a + |r| <= i < |s| ==> IsWhitespace(s[i])
  {
    var r := TrimEnd(t);
    assert r == t[..|r|];
    forall i | a + |r| <= i < |s|
      ensures IsWhitespace(s[i])
    {
      assert s[i] == t[i - a];
    }
  }

  /** `s.trim()` is falsy exactly when every character of `s` is white space. */
  lemma TrimEmptyIffBlank(s: string)
    ensures Trim(s) == [] <==> IsBlank(s)
  {
    var t := TrimStart(s);
    if Trim(s) == [] {
      assert t == [];
    }
  }

  /** ASCII upper case to lower case; other characters unchanged. */
  function LowerChar(c: char): (r: char)
    ensures !('A' <= r <= 'Z')
    ensures ('A' <= c <= 'Z') || r == c
    ensures 'A' <= c <= 'Z' ==> r as int == c as int + 32 && 'a' <= r <= 'z'
  {
    if 'A' <= c <= 'Z' then (c as int + 32) as char else c
  }

  /** `s.toLowerCase()` on the ASCII range. */
  function Lower(s: string): (r: string)
    ensures |r| == |s|
    ensures forall i :: 0 <= i < |s| ==> r[i] == LowerChar(s[i])
  {
    Lists.Map(s, LowerChar)
  }

  /** Lower-casing is idempotent and keeps the length. */
  lemma LowerIdempotent(s: string)
    ensures |Lower(s)| == |s|
    ensures Lower(Lower(s)) == Lower(s)
  {
  }

  // ---------------------------------------------------------------------------
  // The `<` operator on strings (code-unit lexicographic order)

  /** `a < b`: a proper prefix is less, and the first differing code unit decides. */
  predicate LexLess(a: string, b: string)
    ensures LexLess(a, b) ==> a != b
    ensures |a| < |b| && a == b[..|a|] ==> LexLess(a, b)
    ensures forall k :: 0 <= k < |a| && k < |b| && a[k] != b[k] && (forall j :: 0 <= j < k ==> a[j] == b[j]) ==>
      (LexLess(a, b) <==> a[k] < b[k])
    decreases |a|
  {
    if b == [] then false
    else if a == [] then true
    else if a[0] != b[0] then a[0] < b[0]
    else LexLess(a[1..], b[1..])
  }

  lemma {:induction false} LexIrreflexive(a: string)
    ensures !LexLess(a, a)
  {
    if a != [] {
      LexIrreflexive(a[1..]);
    }
  }

  lemma {:induction false} LexTransitive(a: string, b: string, c: string)
    requires LexLess(a, b) && LexLess(b, c)
    ensures LexLess(a, c)
    decreases |a|
  {
    if a != [] && a[0] == b[0] && b[0] == c[0] {
      LexTransitive(a[1..], b[1..], c[1..]);
    }
  }

  lemma {:induction false} LexTrichotomy(a: string, b: string)
    ensures a == b || LexLess(a, b) || LexLess(b, a)
    decreases |a|
  {
    if a != [] && b != [] && a[0] == b[0] {
      LexTrichotomy(a[1..], b[1..]);
      if a[1..] == b[1..] {
        assert a == [a[0]] + a[1..] && b == [b[0]] + b[1..];
      }
    }
  }

  lemma {:induction false} LexAsymmetric(a: string, b: string)
    requires LexLess(a, b)
    ensures !LexLess(b, a)
    decreases |a|
  {
    if a != [] && a[0] == b[0] {
      LexAsymmetric(a[1..], b[1..]);
    }
  }

  // ---------------------------------------------------------------------------
  // Numbers: integer `toString()` and `parseInt`

  /** A JavaScript number as this client uses it: an integer, or NaN. */
  datatype Num = Finite(n: int) | NaN

  /** `if (x)` on a number: NaN and 0 are falsy. */
  predicate Truthy(x: Num) {
    x.Finite? && x.n != 0
  }

  predicate IsDigit(c: char) {
    '0' <= c <= '9'
  }

  predicate IsHexDigit(c: char) {
    IsDigit(c) || 'a' <= c <= 'f' || 'A' <= c <= 'F'
  }

  function DigitChar(d: nat): (c: char)
    requires d < 10
    ensures IsDigit(c)
  {
    ('0' as int + d) as char
  }

  function DigitValue(c: char): (d: nat)
    requires IsHexDigit(c)
    ensures d < 16
    ensures IsDigit(c) ==> d < 10 && d == c as int - '0' as int
    ensures 'a' <= c <= 'f' ==> d == c as int - 'a' as int + 10
    ensures 'A' <= c <= 'F' ==> d == c as int - 'A' as int + 10
    ensures !IsDigit(c) ==> 10 <= d
  {
    if IsDigit(c) then c as int - '0' as int
    else if 'a' <= c <= 'f' then c as int - 'a' as int + 10
    else c as int - 'A' as int + 10
  }

  /** Decimal digits of `n`, most significant first, without leading zeros. */
  function NatToText(n: nat): (r: string)
    ensures |r| >= 1
    ensures forall i :: 0 <= i < |r| ==> IsDigit(r[i])
    ensures r[0] == '0' <==> n == 0
    ensures n == 0 ==> r == "0"
  {
    if n < 10 then [DigitChar(n)] else NatToText(n / 10) + [DigitChar(n % 10)]
  }

  /** `n.toString()` for an integer `n`. */
  function IntToText(n: int): (r: string)
    ensures |r| >= 1 && !IsWhitespace(r[0])
  {
    if n < 0 then "-" + NatToText(-n) else NatToText(n)
  }

  /** The value of a run of digits in the given radix. */
  function DigitsValue(ds: string, radix: nat): nat
    requires radix == 10 || radix == 16
    requires forall i :: 0 <= i < |ds| ==> IsHexDigit(ds[i])
  {
    if ds == [] then 0 else DigitsValue(ds[..|ds| - 1], radix) * radix + DigitValue(ds[|ds| - 1])
  }

  predicate IsRadixDigit(c: char, radix: nat) {
    if radix == 16 then IsHexDigit(c) else IsDigit(c)
  }

  /** The longest prefix of `s` made of digits of the radix. */
  function DigitRun(s: string, radix: nat): (r: string)
    ensures |r| <= |s| && r == s[..|r|]
    ensures forall i :: 0 <= i < |r| ==> IsRadixDigit(r[i], radix)
    ensures |r| < |s| ==> !IsRadixDigit(s[|r|], radix)
  {
    if s == [] || !IsRadixDigit(s[0], radix) then []
    else
      assert s == [s[0]] + s[1..];
      [s[0]] + DigitRun(s[1..], radix)
  }

  /** The magnitude `parseInt` reads after the sign: `0x`/`0X` switches to radix 16; no digit at all is NaN. */
  function ParseMagnitude(u: string): (r: Num)
    ensures r.Finite? ==> r.n >= 0
  {
    var hex := |u| >= 2 && u[0] == '0' && (u[1] == 'x' || u[1] == 'X');
    var radix := if hex then 16 else 10;
    var ds := DigitRun(if hex then u[2..] else u, radix);
    assert forall i :: 0 <= i < |ds| ==> IsHexDigit(ds[i]);
    if ds == [] then NaN else Finite(DigitsValue(ds, radix))
  }

  /**
   * `parseInt(s)`: skip leading white space, read an optional sign, then
   * the magnitude. Trailing text after the digits is ignored.
   */
  function ParseInt(s: string): (r: Num)
    ensures TrimStart(s) == [] ==> r.NaN?
    ensures r.Finite? && r.n < 0 ==> TrimStart(s)[0] == '-'
  {
    var t := TrimStart(s);
    var negative := |t| > 0 && t[0] == '-';
    var u := if |t| > 0 && (t[0] == '-' || t[0] == '+') then t[1..] else t;
    var m := ParseMagnitude(u);
    if m.NaN? then NaN else Finite(if negative then -m.n else m.n)
  }

  lemma {:induction false} NatToTextValue(n: nat)
    ensures DigitsValue(NatToText(n), 10) == n
  {
    if n >= 10 {
      var prefix := NatToText(n / 10);
      var r := prefix + [DigitChar(n % 10)];
      assert r[..|r| - 1] == prefix;
      NatToTextValue(n / 10);
    }
  }

  /** The decimal text of `n` reads back as `n`. */
  lemma MagnitudeOfText(n: nat)
    ensures ParseMagnitude(NatToText(n)) == Finite(n)
  {
    var u := NatToText(n);
    if |u| >= 2 {
      assert IsDigit(u[1]);
    }
    assert forall i :: 0 <= i < |u| ==> IsRadixDigit(u[i], 10);
    assert DigitRun(u, 10) == u;
    NatToTextValue(n);
  }

  /** `parseInt(n.toString())` gives back `n`, for every integer. */
  lemma ParseIntToText(n: int)
    ensures ParseInt(IntToText(n)) == Finite(n)
  {
    var m: nat := if n < 0 then -n else n;
    var digits := NatToText(m);
    var t := IntToText(n);
    assert TrimStart(t) == t;
    MagnitudeOfText(m);
    if n < 0 {
      assert t[1..] == digits;
    } else {
      assert t[0] != '-' && t[0] != '+' by { assert IsDigit(digits[0]); }
    }
  }
}
