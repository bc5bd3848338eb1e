/**
 * The parts of PHP's value semantics that the agent's logic depends on:
 * loosely typed option values, `empty()` and truthiness, conversion to
 * string, `intval` of a decimal string, loose `==` against a switch label,
 * and the handful of byte-string functions the source calls (ASCII only,
 * as `strtoupper`/`strtolower` are since PHP 8.2).
 */
module Php {

  datatype Option<+T> = None | Some(value: T)

  /** A value that either came back normally or was thrown as an exception. */
  datatype Result<+T> = Ok(value: T) | Raised(message: string)

  /** A PHP value as found in an option array or a request parameter. */
  datatype Value =
    | Null
    | Bool(b: bool)
    | Int(i: int)
    | Str(s: string)
    | Arr(entries: seq<(string, Value)>)

  /** PHP `empty($v)`, equivalently `!$v`. */
  predicate Empty(v: Value) {
    match v
    case Null => true
    case Bool(b) => !b
    case Int(i) => i == 0
    case Str(s) => s == "" || s == "0"
    case Arr(e) => e == []
  }

  predicate Truthy(v: Value) {
    !Empty(v)
  }

  /** `(string)$v`; an array converts to "Array" (with a notice). */
  function ToPhpString(v: Value): string {
    match v
    case Null => ""
    case Bool(b) => if b then "1" else ""
    case Int(i) => DecimalString(i)
    case Str(s) => s
    case Arr(_) => "Array"
  }

  // ---------------------------------------------------------------------
  // Integers: `(string)$n` and `intval($s)` on a 64-bit build

  const IntMax: int := 0x7fff_ffff_ffff_ffff
  const IntMin: int := -0x8000_0000_0000_0000

  predicate IsDigit(c: char) {
    '0' <= c <= '9'
  }

  function DigitChar(d: nat): (c: char)
    requires d < 10
    ensures IsDigit(c)
  {
    ['0', '1', '2', '3', '4', '5', '6', '7', '8', '9'][d]
  }

  function DigitValue(c: char): nat {
    if IsDigit(c) then (c as int) - ('0' as int) else 0
  }

  /** Decimal digits of a natural number, most significant first, no leading zero. */
  function NatString(n: nat): (r: string)
    ensures r != []
    ensures forall i :: 0 <= i < |r| ==> IsDigit(r[i])
  {
    if n < 10 then [DigitChar(n)] else NatString(n / 10) + [DigitChar(n % 10)]
  }

  /** `(string)$n` for an integer. */
  function DecimalString(n: int): string {
    if n < 0 then "-" + NatString(-n) else NatString(n)
  }

  /** Whitespace that `intval` skips before the number. */
  predicate IsNumericSpace(c: char) {
    c == ' ' || c == '\t' || c == '\n' || c == '\r' || c == '\U{0B}' || c == '\U{0C}'
  }

  function SkipSpace(s: string): (r: string)
    ensures |r| <= |s| && r == s[|s| - |r|..]
  {
    if s != [] && IsNumericSpace(s[0]) then SkipSpace(s[1..]) else s
  }

  /** Number of leading decimal digits. */
  function DigitRun(s: string): (n: nat)
    ensures n <= |s|
  {
    if s != [] && IsDigit(s[0]) then 1 + DigitRun(s[1..]) else 0
  }

  /** Value of a string of decimal digits, read most significant first. */
  function DigitsValue(d: string): nat {
    if d == [] then 0 else 10 * DigitsValue(d[..|d| - 1]) + DigitValue(d[|d| - 1])
  }

  /** PHP saturates an out-of-range integer string at the platform bounds. */
  function Saturate(n: int): (r: int)
    ensures IntMin <= r <= IntMax
    ensures IntMin <= n <= IntMax ==> r == n
  {
    if n > IntMax then IntMax else if n < IntMin then IntMin else n
  }

  /**
   * `intval($s)`: leading whitespace, an optional sign, then the longest run
   * of decimal digits; anything after it is ignored, and no digits give 0.
   */
  function IntVal(s: string): int {
    var t := SkipSpace(s);
    if t != [] && (t[0] == '-' || t[0] == '+') then
      var rest := t[1..];
      var m: int := DigitsValue(rest[..DigitRun(rest)]);
      Saturate(if t[0] == '-' then -m else m)
    else
      Saturate(DigitsValue(t[..DigitRun(t)]))
  }

  lemma {:induction false} DigitRunOfDigits(s: string)
    requires forall i :: 0 <= i < |s| ==> IsDigit(s[i])
    ensures DigitRun(s) == |s|
  {
    if s != [] {
      DigitRunOfDigits(s[1..]);
    }
  }

  lemma {:induction false} NatStringValue(n: nat)
    ensures DigitsValue(NatString(n)) == n
  {
    var r := NatString(n);
    if n < 10 {
      assert r[..|r| - 1] == [];
    } else {
      NatStringValue(n / 10);
      assert r[..|r| - 1] == NatString(n / 10);
      assert DigitValue(r[|r| - 1]) == n % 10 by {
        assert r[|r| - 1] == DigitChar(n % 10);
      }
    }
  }

  /** A digit string is read back whole by the digit scan of `intval`. */
  lemma DigitsReadBack(n: nat)
    ensures var d := NatString(n); SkipSpace(d) == d && d[..DigitRun(d)] == d && DigitsValue(d) == n
  {
    var d := NatString(n);
    DigitRunOfDigits(d);
    NatStringValue(n);
    assert d[..|d|] == d;
    assert IsDigit(d[0]);
  }

  lemma IntValOfNegative(n: nat)
    requires 0 < n <= -IntMin
    ensures IntVal("-" + NatString(n)) == 0 - (n as int)
  {
    var d := NatString(n);
    DigitsReadBack(n);
    var s := "-" + d;
    assert s[0] == '-' && !IsNumericSpace(s[0]);
    assert SkipSpace(s) == s;
    assert s[1..] == d;
    var m: int := DigitsValue(d[..DigitRun(d)]);
    assert m == n;
    assert IntVal(s) == Saturate(-m);
  }

  lemma IntValOfNatural(n: nat)
    requires n <= IntMax
    ensures IntVal(NatString(n)) == n
  {
    var d := NatString(n);
    DigitsReadBack(n);
    assert IsDigit(d[0]);
  }

  /** `intval` reads back every integer that PHP prints, on a 64-bit build. */
  lemma IntValOfDecimal(n: int)
    requires IntMin <= n <= IntMax
    ensures IntVal(DecimalString(n)) == n
  {
    if n < 0 {
      IntValOfNegative(-n);
    } else {
      IntValOfNatural(n);
    }
  }

  /** Only 0 prints as a falsy string; every other integer prints truthy. */
  lemma DecimalStringTruthy(n: int)
    ensures Truthy(Str(DecimalString(n))) <==> n != 0
  {
    if 0 < n < 10 {
      assert DecimalString(n) == [DigitChar(n)];
      assert DigitChar(n) != '0';
    }
  }

  // ---------------------------------------------------------------------
  // Strings

  /** `strpos($s, $p) === 0`. */
  predicate StartsWith(s: string, p: string) {
    |p| <= |s| && s[..|p|] == p
  }

  /** `strpos($s, $p) !== false`. */
  predicate Contains(s: string, p: string)
    decreases |s|
  {
    StartsWith(s, p) || (s != [] && Contains(s[1..], p))
  }

  function UpperChar(c: char): char {
    if 'a' <= c <= 'z' then ((c as int) - 32) as char else c
  }

  function LowerChar(c: char): char {
    if 'A' <= c <= 'Z' then ((c as int) + 32) as char else c
  }

  /** `strtoupper`. */
  function Upper(s: string): (r: string)
    ensures |r| == |s|
  {
    seq(|s|, i requires 0 <= i < |s| => UpperChar(s[i]))
  }

  /** `strtolower`. */
  function Lower(s: string): (r: string)
    ensures |r| == |s|
  {
    seq(|s|, i requires 0 <= i < |s| => LowerChar(s[i]))
  }

  /** `str_replace($from, $to, $s)` with one-character search and replacement. */
  function ReplaceChar(s: string, from: char, to: char): (r: string)
    ensures |r| == |s|
  {
    seq(|s|, i requires 0 <= i < |s| => if s[i] == from then to else s[i])
  }

  /**
   * `str_replace($needle, $replacement, $s)`: every non-overlapping occurrence, left to
   * right; an empty needle leaves the subject unchanged.
   */
  function ReplaceAll(s: string, needle: string, replacement: string): string
    decreases |s|
  {
    if needle == [] || |s| < |needle| then s
    else if s[..|needle|] == needle then replacement + ReplaceAll(s[|needle|..], needle, replacement)
    else [s[0]] + ReplaceAll(s[1..], needle, replacement)
  }

  /** A subject without the needle comes back unchanged. */
  lemma {:induction false} ReplaceAllAbsent(s: string, needle: string, replacement: string)
    requires !Contains(s, needle)
    ensures ReplaceAll(s, needle, replacement) == s
    decreases |s|
  {
    if |s| >= |needle| {
      assert !StartsWith(s, needle);
      assert s != [];
      ReplaceAllAbsent(s[1..], needle, replacement);
      assert [s[0]] + s[1..] == s;
    }
  }

  /** A subject made of the needle and a rest without it: only the leading needle is replaced. */
  lemma ReplaceAllPrefix(needle: string, rest: string, replacement: string)
    requires !Contains(rest, needle)
    ensures ReplaceAll(needle + rest, needle, replacement) == replacement + rest
  {
    var s := needle + rest;
    assert needle != [] by { assert StartsWith(rest, []) ==> Contains(rest, []); }
    assert s[..|needle|] == needle && s[|needle|..] == rest;
    ReplaceAllAbsent(rest, needle, replacement);
  }

  /** `ltrim($s, $c)` for one character. */
  function LTrimChar(s: string, c: char): (r: string)
    ensures |r| <= |s| && r == s[|s| - |r|..]
    ensures r == [] || r[0] != c
  {
    if s != [] && s[0] == c then LTrimChar(s[1..], c) else s
  }

  /** The word separators of `ucwords`. */
  predicate IsWordSeparator(c: char) {
    c == ' ' || c == '\t' || c == '\r' || c == '\n' || c == '\U{0B}' || c == '\U{0C}'
  }

  /** `ucwords`: the first character and every character after a separator. */
  function Ucwords(s: string): (r: string)
    ensures |r| == |s|
  {
    seq(|s|, i requires 0 <= i < |s| =>
      if i == 0 || IsWordSeparator(s[i - 1]) then UpperChar(s[i]) else s[i])
  }

  /** `substr($s, 0, $n)` for $n >= 0. */
  function Prefix(s: string, n: nat): (r: string)
    ensures |r| == if |s| < n then |s| else n
    ensures r == s[..|r|]
  {
    if |s| < n then s else s[..n]
  }

  /**
   * `$v == $caseLabel` in PHP 8, for a label that is a non-numeric string, as
   * `switch` compares: a string must be equal, `true` matches any truthy
   * label, `null` matches only "", an integer is compared as its decimal
   * text, and an array matches nothing.
   */
  predicate LooseEqualsLabel(v: Value, caseLabel: string) {
    match v
    case Null => caseLabel == ""
    case Bool(b) => b == Truthy(Str(caseLabel))
    case Int(i) => DecimalString(i) == caseLabel
    case Str(s) => s == caseLabel
    case Arr(_) => false
  }

  // ---------------------------------------------------------------------
  // Ordered arrays with string keys

  /** `$a[$k]` on an ordered array: the value of the first entry with key k. */
  function Lookup<V>(a: seq<(string, V)>, k: string): (r: Option<V>)
    ensures r.None? <==> forall i :: 0 <= i < |a| ==> a[i].0 != k
    ensures r.Some? ==> exists i :: 0 <= i < |a| && a[i] == (k, r.value)
  {
    if a == [] then None else if a[0].0 == k then Some(a[0].1) else Lookup(a[1..], k)
  }

  /** `$a[$k] = $v`: an existing key keeps its position and takes the new value, a new key goes last. */
  function Put<V>(a: seq<(string, V)>, k: string, v: V): (r: seq<(string, V)>)
    ensures Lookup(r, k) == Some(v)
    ensures forall j :: j != k ==> Lookup(r, j) == Lookup(a, j)
  {
    if a == [] then [(k, v)]
    else if a[0].0 == k then [(k, v)] + a[1..]
    else [a[0]] + Put(a[1..], k, v)
  }
}
