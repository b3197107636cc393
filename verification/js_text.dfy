/** The JavaScript string and number primitives the dashboard's pure logic relies
    on, with the behaviour ECMAScript gives them: white space as `\s` and `trim`
    see it, `Number.prototype.toString` on integers, `padStart`, `parseInt`, the
    truncating remainder operator `%`, and `split`/`join` on one separator.

    Strings are sequences of Unicode scalar values; the UTF-16 code units of
    JavaScript strings are not modelled. */
module JsText {
  import opened Wrappers

  // ---------------------------------------------------------------------------
  // White space
  // ---------------------------------------------------------------------------

  /** The WhiteSpace and LineTerminator code points of ECMAScript sections 12.2
      and 12.3: the class `\s` of a regular expression and the characters
      `String.prototype.trim` removes. */
  predicate IsJsSpace(c: char) {
    || c == '\t' || c == '\n' || c == '\U{000B}' || c == '\U{000C}' || c == '\r'
    || c == ' ' || c == '\U{00A0}' || c == '\U{1680}'
    || ('\U{2000}' <= c <= '\U{200A}')
    || c == '\U{2028}' || c == '\U{2029}' || c == '\U{202F}' || c == '\U{205F}'
    || c == '\U{3000}' || c == '\U{FEFF}'
  }

  /** `s.trim()` is the empty string, i.e. `s.trim()` is falsy. */
  predicate IsBlank(s: string) {
    forall i :: 0 <= i < |s| ==> IsJsSpace(s[i])
  }

  predicate StartsWith(s: string, prefix: string) {
    |prefix| <= |s| && s[..|prefix|] == prefix
  }

  // ---------------------------------------------------------------------------
  // Digits
  // ---------------------------------------------------------------------------

  predicate IsDigit(c: char) {
    '0' <= c <= '9'
  }

  function DigitValue(c: char): nat
    requires IsDigit(c)
  {
    (c as int) - ('0' as int)
  }

  function DigitChar(d: nat): (c: char)
    requires d < 10
    ensures IsDigit(c) && DigitValue(c) == d
  {
    (('0' as int) + d) as char
  }

  /** The two bases `parseInt` chooses between when it is given no radix. */
  datatype Radix = Decimal | Hexadecimal {
    function Base(): nat {
      if Decimal? then 10 else 16
    }
  }

  predicate IsRadixDigit(c: char, radix: Radix) {
    || IsDigit(c)
    || (radix.Hexadecimal? && ('a' <= c <= 'f' || 'A' <= c <= 'F'))
  }

  function RadixDigitValue(c: char, radix: Radix): (v: nat)
    requires IsRadixDigit(c, radix)
    ensures v < radix.Base()
    ensures IsDigit(c) ==> v == DigitValue(c)
  {
    if IsDigit(c) then DigitValue(c)
    else if 'a' <= c <= 'f' then (c as int) - ('a' as int) + 10
    else (c as int) - ('A' as int) + 10
  }

  predicate AllDigits(s: string, radix: Radix) {
    forall i :: 0 <= i < |s| ==> IsRadixDigit(s[i], radix)
  }

  /** The number a string of digits denotes, most significant digit first. */
  function DigitsValue(s: string, radix: Radix): nat
    requires AllDigits(s, radix)
  {
    if |s| == 0 then 0
    else DigitsValue(s[..|s| - 1], radix) * radix.Base() + RadixDigitValue(s[|s| - 1], radix)
  }

  /** The length of the longest prefix of `s` made of digits of `radix`. */
  function RunLength(s: string, radix: Radix): (n: nat)
    ensures n <= |s|
    ensures AllDigits(s[..n], radix)
    ensures n < |s| ==> !IsRadixDigit(s[n], radix)
  {
    if |s| == 0 || !IsRadixDigit(s[0], radix) then 0
    else
      var n := 1 + RunLength(s[1..], radix);
      assert s[..n] == [s[0]] + s[1..][..n - 1];
      n
  }

  /** The value of two and of three decimal digits. */
  lemma TwoDigitsValue(s: string)
    requires |s| == 2 && AllDigits(s, Decimal)
    ensures DigitsValue(s, Decimal) == 10 * DigitValue(s[0]) + DigitValue(s[1])
  {
    var hi := s[..1];
    assert s[..|s| - 1] == hi;
    assert hi[..|hi| - 1] == [];
    assert DigitsValue(hi, Decimal) == RadixDigitValue(s[0], Decimal);
  }

  lemma ThreeDigitsValue(s: string)
    requires |s| == 3 && AllDigits(s, Decimal)
    ensures DigitsValue(s, Decimal) == 100 * DigitValue(s[0]) + 10 * DigitValue(s[1]) + DigitValue(s[2])
  {
    var hi := s[..2];
    assert s[..|s| - 1] == hi;
    TwoDigitsValue(hi);
  }

  // ---------------------------------------------------------------------------
  // Number to string
  // ---------------------------------------------------------------------------

  /** `d` spells `n` in decimal without leading zeros, as `toString` writes it. */
  predicate IsDecimal(d: string, n: nat) {
    && 1 <= |d|
    && AllDigits(d, Decimal)
    && DigitsValue(d, Decimal) == n
    && (|d| > 1 ==> d[0] != '0')
  }

  /** `n.toString()` for a non-negative integer: its decimal digits, without
      leading zeros. */
  function NatToString(n: nat): (s: string)
    ensures IsDecimal(s, n)
    ensures n < 10 <==> |s| == 1
    ensures 10 <= n < 100 ==> |s| == 2
  {
    if n < 10 then [DigitChar(n)]
    else
      var s := NatToString(n / 10) + [DigitChar(n % 10)];
      assert s[..|s| - 1] == NatToString(n / 10);
      s
  }

  /** `i.toString()` for any integer. */
  function IntToString(i: int): (s: string)
    ensures 1 <= |s|
    ensures s[0] == '-' <==> i < 0
    ensures i >= 0 ==> IsDecimal(s, i)
    ensures i < 0 ==> IsDecimal(s[1..], -i)
  {
    if i < 0 then "-" + NatToString(-i) else NatToString(i)
  }

  /** `s.padStart(2, '0')`. */
  function PadStart2(s: string): (r: string)
    ensures |r| == if |s| >= 2 then |s| else 2
    ensures r[|r| - |s|..] == s
    ensures forall i :: 0 <= i < |r| - |s| ==> r[i] == '0'
  {
    if |s| >= 2 then s else seq(2 - |s|, _ => '0') + s
  }

  // ---------------------------------------------------------------------------
  // Remainder
  // ---------------------------------------------------------------------------

  /** JavaScript's `a % 24` on integers: the remainder of division by 24
      truncated toward zero, which takes the sign of `a` (Dafny's own `%` is
      Euclidean). Every remainder in the dashboard's hour arithmetic is by 24. */
  function JsRem24(a: int): (r: int)
    ensures -24 < r < 24
    ensures (a - r) % 24 == 0
    ensures a >= 0 ==> r >= 0
    ensures a < 0 ==> r <= 0
  {
    if a >= 0 then a % 24 else -((-a) % 24)
  }

  // ---------------------------------------------------------------------------
  // parseInt
  // ---------------------------------------------------------------------------

  lemma DigitIsNotSpace(c: char)
    requires IsDigit(c) || c == '-' || c == '+'
    ensures !IsJsSpace(c)
  {
  }

  /** The number of white-space characters `s` starts with. */
  function LeadingSpaces(s: string): (k: nat)
    ensures k <= |s|
    ensures IsBlank(s[..k])
    ensures k < |s| ==> !IsJsSpace(s[k])
  {
    if |s| == 0 || !IsJsSpace(s[0]) then 0
    else
      var k := 1 + LeadingSpaces(s[1..]);
      assert s[..k] == [s[0]] + s[1..][..k - 1];
      k
  }

  /** `s` without its leading white space. */
  function SkipSpaces(s: string): string {
    s[LeadingSpaces(s)..]
  }

  /** The digits part of `parseInt`, after white space and sign: a `0x` or `0X`
      prefix selects base 16, and the longest run of digits that follows is read.
      `None` stands for `NaN`, the result when that run is empty. */
  function ParseUnsigned(u: string): Option<nat>
  {
    var hex := |u| >= 2 && u[0] == '0' && (u[1] == 'x' || u[1] == 'X');
    var radix := if hex then Hexadecimal else Decimal;
    var body := if hex then u[2..] else u;
    var n := RunLength(body, radix);
    if n == 0 then None else Some(DigitsValue(body[..n], radix))
  }

  /** `parseInt(s)` without a radix argument (section 19.2.5 of ECMA-262): leading
      white space is skipped, one `+` or `-` sign is accepted, and the rest is
      read by `ParseUnsigned`. `None` stands for `NaN`. Precision loss beyond
      2^53 is not modelled. */
  function ParseInt(s: string): (r: Option<int>)
    ensures |s| > 0 && '1' <= s[0] <= '9' ==> r.Some? && r.value >= 0
    ensures IsBlank(s) ==> r == None
  {
    var t := SkipSpaces(s);
    var signed := |t| > 0 && (t[0] == '-' || t[0] == '+');
    match ParseUnsigned(if signed then t[1..] else t)
    case None => None
    case Some(v) => var w: int := v; Some(if |t| > 0 && t[0] == '-' then -w else w)
  }

  lemma {:induction false} DigitsValuePrefix(ds: string, rest: string, radix: Radix)
    requires AllDigits(ds, radix)
    ensures (ds + rest)[..|ds|] == ds
    ensures RunLength(ds + rest, radix) >= |ds|
  {
    assert (ds + rest)[..|ds|] == ds;
    if |ds| > 0 {
      assert (ds + rest)[1..] == ds[1..] + rest;
      DigitsValuePrefix(ds[1..], rest, radix);
    }
  }

  /** A run of decimal digits followed by a non-digit is read in full. */
  lemma RunLengthOfLeadingDigits(ds: string, rest: string)
    requires AllDigits(ds, Decimal)
    requires |rest| == 0 || !IsDigit(rest[0])
    ensures RunLength(ds + rest, Decimal) == |ds|
    ensures (ds + rest)[..|ds|] == ds
  {
    DigitsValuePrefix(ds, rest, Decimal);
  }

  /** Leading decimal digits other than a lone `0` before `x` do not open a
      hexadecimal literal. */
  lemma NoHexPrefix(ds: string, rest: string)
    requires |ds| >= 1 && AllDigits(ds, Decimal)
    requires !(ds == "0" && |rest| > 0 && (rest[0] == 'x' || rest[0] == 'X'))
    ensures var s := ds + rest; !(|s| >= 2 && s[0] == '0' && (s[1] == 'x' || s[1] == 'X'))
  {
    var s := ds + rest;
    if |ds| >= 2 {
      assert s[1] == ds[1];
    } else if |rest| > 0 {
      assert s[1] == rest[0];
      assert ds == [ds[0]];
    }
  }

  lemma ParseUnsignedLeadingDigits(ds: string, rest: string)
    requires |ds| >= 1 && AllDigits(ds, Decimal)
    requires |rest| == 0 || !IsDigit(rest[0])
    requires !(ds == "0" && |rest| > 0 && (rest[0] == 'x' || rest[0] == 'X'))
    ensures ParseUnsigned(ds + rest) == Some(DigitsValue(ds, Decimal))
  {
    NoHexPrefix(ds, rest);
    RunLengthOfLeadingDigits(ds, rest);
  }

  /** `parseInt` reads exactly the leading decimal digits of a string: `"35g"`
      gives 35. The one exception it makes is a lone `0` followed by `x` or `X`,
      which starts a hexadecimal literal instead. */
  lemma ParseIntLeadingDigits(ds: string, rest: string)
    requires |ds| >= 1 && AllDigits(ds, Decimal)
    requires |rest| == 0 || !IsDigit(rest[0])
    requires !(ds == "0" && |rest| > 0 && (rest[0] == 'x' || rest[0] == 'X'))
    ensures ParseInt(ds + rest) == Some(DigitsValue(ds, Decimal))
  {
    assert (ds + rest)[0] == ds[0];
    ParseUnsignedLeadingDigits(ds, rest);
    ParseIntUnsigned(ds + rest, DigitsValue(ds, Decimal));
  }

  /** A string that starts with a digit has no white space to skip and no
      sign, so `parseInt` reads it as `ParseUnsigned` does. */
  lemma ParseIntUnsigned(s: string, v: nat)
    requires |s| > 0 && IsDigit(s[0]) && ParseUnsigned(s) == Some(v)
    ensures ParseInt(s) == Some(v)
  {
    DigitIsNotSpace(s[0]);
    assert LeadingSpaces(s) == 0;
    assert SkipSpaces(s) == s;
  }

  /** `parseInt` inverts `toString` on non-negative integers, whatever non-digit
      text follows (a lone `0` before `x` excepted, as above). */
  lemma ParseIntNatToString(n: nat, rest: string)
    requires |rest| == 0 || !IsDigit(rest[0])
    requires !(n == 0 && |rest| > 0 && (rest[0] == 'x' || rest[0] == 'X'))
    ensures ParseInt(NatToString(n) + rest) == Some(n)
  {
    ParseIntLeadingDigits(NatToString(n), rest);
  }

  /** `parseInt(i.toString()) === i` for every integer `i`. */
  lemma ParseIntIntToString(i: int)
    ensures ParseInt(IntToString(i)) == Some(i)
  {
    if i >= 0 {
      ParseIntNatToString(i, "");
      assert NatToString(i) + "" == NatToString(i);
    } else {
      var ds := NatToString(-i);
      var s := "-" + ds;
      DigitIsNotSpace(s[0]);
      assert LeadingSpaces(s) == 0;
      assert SkipSpaces(s) == s;
      assert s[1..] == ds;
      ParseUnsignedLeadingDigits(ds, "");
      assert ds + "" == ds;
    }
  }

  // ---------------------------------------------------------------------------
  // split / join
  // ---------------------------------------------------------------------------

  /** `parts.join(sep)` for a one-character separator. */
  function Join(parts: seq<string>, sep: char): string
    requires |parts| >= 1
  {
    if |parts| == 1 then parts[0] else parts[0] + [sep] + Join(parts[1..], sep)
  }

  /** `s.split(sep)` for a one-character separator: the maximal separator-free
      pieces, including empty ones, so that `""` gives `[""]`. */
  function Split(s: string, sep: char): (parts: seq<string>)
    ensures |parts| >= 1
    ensures forall i :: 0 <= i < |parts| ==> sep !in parts[i]
    ensures Join(parts, sep) == s
  {
    if |s| == 0 then [""]
    else
      var rest := Split(s[1..], sep);
      if s[0] == sep then
        var parts := [""] + rest;
        assert parts[1..] == rest;
        parts
      else
        var parts := [[s[0]] + rest[0]] + rest[1..];
        assert parts[1..] == rest[1..];
        assert s == [s[0]] + s[1..];
        parts
  }

  lemma {:induction false} SplitSeparatorFree(p: string, sep: char)
    requires sep !in p
    ensures Split(p, sep) == [p]
  {
    if |p| > 0 {
      assert sep !in p[1..];
      SplitSeparatorFree(p[1..], sep);
      assert p == [p[0]] + p[1..];
    }
  }

  lemma {:induction false} SplitAtSeparator(p: string, sep: char, t: string)
    requires sep !in p
    ensures Split(p + [sep] + t, sep) == [p] + Split(t, sep)
  {
    var s := p + [sep] + t;
    if |p| == 0 {
      assert s[1..] == t;
    } else {
      assert s[1..] == p[1..] + [sep] + t;
      assert sep !in p[1..];
      SplitAtSeparator(p[1..], sep, t);
      assert p == [p[0]] + p[1..];
    }
  }

  /** Splitting a join of separator-free pieces gives the pieces back. */
  lemma {:induction false} SplitJoin(parts: seq<string>, sep: char)
    requires |parts| >= 1
    requires forall i :: 0 <= i < |parts| ==> sep !in parts[i]
    ensures Split(Join(parts, sep), sep) == parts
  {
    if |parts| == 1 {
      SplitSeparatorFree(parts[0], sep);
    } else {
      SplitJoin(parts[1..], sep);
      SplitAtSeparator(parts[0], sep, Join(parts[1..], sep));
      assert parts == [parts[0]] + parts[1..];
    }
  }
}
