/**
 * The few JavaScript built-ins the logger relies on, stated over Dafny values:
 * `Array.prototype.indexOf` and `String.prototype.indexOf` (one generic
 * function, since a string is a sequence of characters),
 * `String.prototype.lastIndexOf` for one character, `Array.prototype.slice`,
 * `parseInt` on decimal text, and the conversion of an integer to text in a
 * template literal.
 */
module JsBuiltins {

  datatype Option<T> = None | Some(value: T)

  function Min(a: int, b: int): int { if a <= b then a else b }

  /** `s.indexOf(x)`: the first position holding `x`, or -1 when there is none. */
  function IndexOf<T(==)>(s: seq<T>, x: T): (r: int)
    ensures -1 <= r < |s|
    ensures r == -1 <==> x !in s
    ensures 0 <= r ==> s[r] == x && x !in s[..r]
  {
    if |s| == 0 then -1
    else if s[0] == x then 0
    else
      var k := IndexOf(s[1..], x);
      if k == -1 then -1
      else
        assert s[..k + 1] == [s[0]] + s[1..][..k];
        k + 1
  }

  /** The first occurrence of `x` in `p + [x] + q` is just after `p` when `p` lacks it. */
  lemma IndexOfAfter<T>(p: seq<T>, x: T, q: seq<T>)
    requires x !in p
    ensures IndexOf(p + [x] + q, x) == |p|
  {
    var s := p + [x] + q;
    assert s[|p|] == x;
    assert s[..|p|] == p;
  }

  /** `indexOf` finds the first occurrence, wherever it is. */
  lemma IndexOfFirst<T>(s: seq<T>, x: T, i: int)
    requires 0 <= i < |s| && s[i] == x && x !in s[..i]
    ensures IndexOf(s, x) == i
  {
    assert s[i] == x;
  }

  /** Searching past a prefix that lacks `x`: the position shifts by the prefix's length. */
  lemma {:induction false} IndexOfSkip<T>(p: seq<T>, q: seq<T>, x: T)
    requires x !in p
    ensures IndexOf(p + q, x) == if x in q then |p| + IndexOf(q, x) else -1
  {
    if p == [] {
      assert p + q == q;
    } else {
      assert (p + q)[0] == p[0];
      assert (p + q)[1..] == p[1..] + q;
      IndexOfSkip(p[1..], q, x);
    }
  }

  /** `s.lastIndexOf(c)`: the last position holding `c`, or -1 when there is none. */
  function LastIndexOf(s: string, c: char): (r: int)
    ensures -1 <= r < |s|
    ensures r == -1 <==> c !in s
    ensures 0 <= r ==> s[r] == c && c !in s[r + 1..]
  {
    if |s| == 0 then -1
    else if s[|s| - 1] == c then |s| - 1
    else
      var k := LastIndexOf(s[..|s| - 1], c);
      assert s == s[..|s| - 1] + [s[|s| - 1]];
      if k == -1 then -1
      else
        assert s[k + 1..] == s[..|s| - 1][k + 1..] + [s[|s| - 1]];
        k
  }

  /** Position normalisation of `slice`: a negative index counts from the end, and both ends are clamped to the length. */
  function SliceIndex(k: int, len: nat): (r: nat)
    ensures r <= len
    ensures 0 <= k <= len ==> r == k
  {
    if k < 0 then (if len + k < 0 then 0 else len + k)
    else if k > len then len
    else k
  }

  /** `s.slice(start, end)` */
  function Slice<T>(s: seq<T>, start: int, end: int): (r: seq<T>)
    ensures |r| <= |s|
    ensures 0 <= start <= |s| && start <= end ==> r == s[start..Min(end, |s|)]
    ensures |s| <= start ==> r == []
  {
    var from, to := SliceIndex(start, |s|), SliceIndex(end, |s|);
    if from < to then s[from..to] else []
  }

  /** A slice that runs to or past the end is the suffix from its start. */
  lemma SliceToEnd<T>(s: seq<T>, start: int, end: int)
    requires 0 <= start <= |s| <= end
    ensures Slice(s, start, end) == s[start..]
  {
    assert Min(end, |s|) == |s|;
  }

  predicate IsDigit(c: char) { '0' <= c <= '9' }

  predicate AllDigits(s: string) { forall i :: 0 <= i < |s| ==> IsDigit(s[i]) }

  /** The length of the longest prefix of `s` made of decimal digits. */
  function DigitPrefixLength(s: string): (k: nat)
    ensures k <= |s|
    ensures AllDigits(s[..k])
    ensures k < |s| ==> !IsDigit(s[k])
  {
    if |s| == 0 || !IsDigit(s[0]) then 0
    else
      var k := DigitPrefixLength(s[1..]);
      assert s[..k + 1] == [s[0]] + s[1..][..k];
      k + 1
  }

  /** Digits followed by the end of the text or by a non-digit: the digit prefix is exactly those digits. */
  lemma {:induction false} DigitPrefixOf(ds: string, rest: string)
    requires AllDigits(ds)
    requires rest == [] || !IsDigit(rest[0])
    ensures DigitPrefixLength(ds + rest) == |ds|
  {
    if ds != [] {
      assert (ds + rest)[1..] == ds[1..] + rest;
      DigitPrefixOf(ds[1..], rest);
    }
  }

  function DigitValue(c: char): nat requires IsDigit(c) { (c as int) - ('0' as int) }

  function DigitChar(d: nat): (c: char)
    requires d < 10
    ensures IsDigit(c) && DigitValue(c) == d
  {
    ('0' as int + d) as char
  }

  /** The number a string of decimal digits denotes, most significant digit first. */
  function DecimalValue(ds: string): nat
    requires AllDigits(ds)
  {
    if |ds| == 0 then 0
    else DecimalValue(ds[..|ds| - 1]) * 10 + DigitValue(ds[|ds| - 1])
  }

  /** The text after the optional sign `-` or `+` that `parseInt` accepts. */
  function AfterSign(s: string): string
  {
    if |s| > 0 && (s[0] == '-' || s[0] == '+') then s[1..] else s
  }

  /**
   * `parseInt(s)` on decimal text: an optional sign, then the longest run of
   * decimal digits; `None` stands for NaN (no digit after the sign).
   */
  function ParseInt(s: string): (r: Option<int>)
    ensures r.Some? ==> |AfterSign(s)| > 0 && IsDigit(AfterSign(s)[0])
    ensures r.Some? && |s| > 0 && s[0] == '-' ==> r.value <= 0
    ensures r.Some? && !(|s| > 0 && s[0] == '-') ==> r.value >= 0
  {
    var body := AfterSign(s);
    var k := DigitPrefixLength(body);
    var magnitude: int := if k == 0 then 0 else DecimalValue(body[..k]);
    if k == 0 then None
    else if |s| > 0 && s[0] == '-' then Some(-magnitude)
    else Some(magnitude)
  }

  /** `${n}` for a non-negative integer: its shortest decimal text, which denotes `n`. */
  function NatToString(n: nat): (r: string)
    ensures |r| > 0 && AllDigits(r)
    ensures DecimalValue(r) == n
    ensures r[0] == '0' ==> r == "0"
  {
    if n < 10 then [DigitChar(n)]
    else
      var r := NatToString(n / 10) + [DigitChar(n % 10)];
      assert r[..|r| - 1] == NatToString(n / 10);
      r
  }

  /** `${i}` for an integer. */
  function IntToString(i: int): string
  {
    if i < 0 then "-" + NatToString(-i) else NatToString(i)
  }

  /** Unsigned digits followed by a non-digit or the end: `parseInt` reads the digits. */
  lemma ParseIntOfDigits(digits: string, rest: string)
    requires |digits| > 0 && AllDigits(digits)
    requires rest == [] || !IsDigit(rest[0])
    ensures ParseInt(digits + rest) == Some(DecimalValue(digits))
  {
    var s := digits + rest;
    assert s[0] == digits[0] && IsDigit(digits[0]);
    DigitPrefixOf(digits, rest);
    var k := DigitPrefixLength(s);
    assert k == |digits|;
    assert s[..k] == digits;
    assert DecimalValue(s[..k]) == DecimalValue(digits);
  }

  /** A minus sign before such digits: `parseInt` reads their negation. */
  lemma ParseIntOfNegatedDigits(s: string, digits: string, rest: string)
    requires |digits| > 0 && AllDigits(digits)
    requires rest == [] || !IsDigit(rest[0])
    requires |s| > 0 && s[0] == '-' && s[1..] == digits + rest
    ensures ParseInt(s) == Some(-(DecimalValue(digits) as int))
  {
    DigitPrefixOf(digits, rest);
    assert (digits + rest)[..|digits|] == digits;
  }

  /**
   * `parseInt` reads back what `${i}` wrote, also when the text goes on with
   * something that is not a digit (`parseInt("12 apples")` is 12).
   */
  lemma ParseIntOfIntToString(i: int, rest: string)
    requires rest == [] || !IsDigit(rest[0])
    ensures ParseInt(IntToString(i) + rest) == Some(i)
  {
    if i < 0 {
      var s := IntToString(i) + rest;
      assert s == "-" + (NatToString(-i) + rest);
      assert s[0] == '-' && s[1..] == NatToString(-i) + rest;
      ParseIntOfNegatedDigits(s, NatToString(-i), rest);
    } else {
      ParseIntOfDigits(NatToString(i), rest);
    }
  }

  /** `parseInt` gives NaN exactly when no digit follows the optional sign ("", "-", "+", "-x", "undefined"). */
  lemma ParseIntNaN(s: string)
    ensures ParseInt(s) == None <==> AfterSign(s) == [] || !IsDigit(AfterSign(s)[0])
  {
  }
}
