/**
 * Small building blocks shared by the pipeline modules: an Option type, the
 * string operations the TypeScript code takes from its runtime (trim,
 * toLowerCase, startsWith, endsWith), positional number formatting
 * (Number.prototype.toString(radix)) and decimal parsing (parseInt).
 */
module Basics {

  datatype Option<+T> = None | Some(value: T)

  /** A computation that either yields a value or throws an Error with a message. */
  datatype Result<+T> = Ok(value: T) | Err(message: string)

  /** The first present value of a sequence of alternatives tried in order
      (a chain of `if (x) return x;` fallbacks). */
  function FirstSome<T>(alternatives: seq<Option<T>>): (r: Option<T>)
    ensures r.None? <==> forall k :: 0 <= k < |alternatives| ==> alternatives[k].None?
    ensures r.Some? ==> exists k :: 0 <= k < |alternatives| && alternatives[k] == r &&
                          forall j :: 0 <= j < k ==> alternatives[j].None?
  {
    if alternatives == [] then None
    else if alternatives[0].Some? then alternatives[0]
    else
      var r := FirstSome(alternatives[1..]);
      assert forall k :: 1 <= k < |alternatives| ==> alternatives[k] == alternatives[1..][k - 1];
      r
  }

  /** The alternative that wins: the k-th, when it is present and every earlier one is absent. */
  lemma FirstSomeAt<T>(alternatives: seq<Option<T>>, k: nat)
    requires k < |alternatives| && alternatives[k].Some?
    requires forall j :: 0 <= j < k ==> alternatives[j].None?
    ensures FirstSome(alternatives) == alternatives[k]
  {
    var r := FirstSome(alternatives);
    var i :| 0 <= i < |alternatives| && alternatives[i] == r && forall j :: 0 <= j < i ==> alternatives[j].None?;
  }

  function Min(a: int, b: int): int {
    if a <= b then a else b
  }

  /** s.slice(0, n) for n >= 0: at most the first n characters. */
  function Take(s: string, n: nat): (r: string)
    ensures |r| == Min(n, |s|) && r == s[..|r|]
  {
    s[..Min(n, |s|)]
  }

  // ---------------------------------------------------------------------------
  // Characters

  /** The characters JavaScript's trim() and \s treat as white space
      (WhiteSpace and LineTerminator of ECMA-262). */
  predicate IsSpace(c: char) {
    var n := c as int;
    n == 0x09 || n == 0x0A || n == 0x0B || n == 0x0C || n == 0x0D || n == 0x20 ||
    n == 0xA0 || n == 0x1680 || (0x2000 <= n <= 0x200A) || n == 0x2028 || n == 0x2029 ||
    n == 0x202F || n == 0x205F || n == 0x3000 || n == 0xFEFF
  }

  predicate IsDigit(c: char) {
    '0' <= c <= '9'
  }

  function LowerChar(c: char): (r: char)
    ensures !('A' <= r <= 'Z')
    ensures ('A' <= c <= 'Z') || r == c
  {
    if 'A' <= c <= 'Z' then (c as int + 32) as char else c
  }

  function UpperChar(c: char): (r: char)
    ensures !('a' <= r <= 'z')
    ensures ('a' <= c <= 'z') || r == c
    ensures LowerChar(r) == LowerChar(c)
  {
    if 'a' <= c <= 'z' then (c as int - 32) as char else c
  }

  /** String.prototype.toLowerCase, for ASCII letters. */
  function Lower(s: string): (r: string)
    ensures |r| == |s|
  {
    seq(|s|, i requires 0 <= i < |s| => LowerChar(s[i]))
  }

  // ---------------------------------------------------------------------------
  // Prefixes, suffixes, trimming

  predicate StartsWith(s: string, prefix: string) {
    |prefix| <= |s| && s[..|prefix|] == prefix
  }

  predicate EndsWith(s: string, suffix: string) {
    |suffix| <= |s| && s[|s| - |suffix|..] == suffix
  }

  /** The leading white space removed; what is left is a suffix of s. */
  function TrimStart(s: string): (r: string)
    ensures |r| <= |s| && r == s[|s| - |r|..]
    ensures r == [] || !IsSpace(r[0])
    ensures forall i :: 0 <= i < |s| - |r| ==> IsSpace(s[i])
  {
    if |s| > 0 && IsSpace(s[0]) then TrimStart(s[1..]) else s
  }

  /** The trailing white space removed; what is left is a prefix of s. */
  function TrimEnd(s: string): (r: string)
    ensures |r| <= |s| && r == s[..|r|]
    ensures r == [] || !IsSpace(r[|r| - 1])
    ensures forall i :: |r| <= i < |s| ==> IsSpace(s[i])
  {
    if |s| > 0 && IsSpace(s[|s| - 1]) then TrimEnd(s[..|s| - 1]) else s
  }

  /** String.prototype.trim: the longest infix of s that neither starts nor
      ends with white space, obtained by removing only white space. */
  function Trim(s: string): (r: string)
    ensures |r| <= |s|
    ensures IsInfix(r, s)
    ensures IsTrimmed(r)
  {
    var t := TrimStart(s);
    var r := TrimEnd(t);
    var i := |s| - |t|;
    assert r == s[i..][..|r|];
    r
  }

  /** r occurs in s at some position. */
  predicate IsInfix(r: string, s: string) {
    exists i :: 0 <= i <= |s| - |r| && r == s[i..][..|r|]
  }

  /** Being an infix is transitive. */
  lemma InfixTransitive(a: string, b: string, c: string)
    requires IsInfix(a, b) && IsInfix(b, c)
    ensures IsInfix(a, c)
  {
    var i :| 0 <= i <= |b| - |a| && a == b[i..][..|a|];
    var j :| 0 <= j <= |c| - |b| && b == c[j..][..|b|];
    assert forall t :: 0 <= t < |a| ==> a[t] == b[i + t] == c[j + i + t];
    assert a == c[j + i..][..|a|];
  }

  lemma PrefixIsInfix(r: string, s: string)
    requires |r| <= |s| && r == s[..|r|]
    ensures IsInfix(r, s)
  {
    assert r == s[0..][..|r|];
  }

  lemma SuffixIsInfix(r: string, s: string)
    requires |r| <= |s| && r == s[|s| - |r|..]
    ensures IsInfix(r, s)
  {
    assert r == s[|s| - |r|..][..|r|];
  }

  predicate IsTrimmed(s: string) {
    s == [] || (!IsSpace(s[0]) && !IsSpace(s[|s| - 1]))
  }

  /** Every occurrence of character a replaced by b (s.replace(/a/g, b)). */
  function ReplaceChar(s: string, a: char, b: char): (r: string)
    ensures |r| == |s|
    ensures forall i :: 0 <= i < |s| ==> r[i] == (if s[i] == a then b else s[i])
  {
    seq(|s|, i requires 0 <= i < |s| => if s[i] == a then b else s[i])
  }

  // ---------------------------------------------------------------------------
  // Numbers as text

  /** The digit for d in radix 36: '0'..'9', then 'a'..'z' (lower case, as
      toString(radix) writes them). */
  function DigitChar(d: nat): char
    requires d < 36
  {
    if d < 10 then ('0' as int + d) as char else ('a' as int + d - 10) as char
  }

  /** The value of a digit character in radix 36, or 36 for any other character. */
  function DigitValue(c: char): (d: nat)
    ensures d <= 36
  {
    if '0' <= c <= '9' then c as int - '0' as int
    else if 'a' <= c <= 'z' then c as int - 'a' as int + 10
    else 36
  }

  lemma DigitCharValue(d: nat)
    requires d < 36
    ensures DigitValue(DigitChar(d)) == d
  {
  }

  /** Number.prototype.toString(radix) on a non-negative integer: the digits,
      most significant first, with no leading zero. */
  function Digits(n: nat, radix: nat): (r: string)
    requires 2 <= radix <= 36
    ensures |r| >= 1
    ensures forall i :: 0 <= i < |r| ==> DigitValue(r[i]) < radix
    ensures |r| > 1 ==> r[0] != '0'
  {
    if n < radix then
      DigitCharValue(n);
      [DigitChar(n)]
    else
      var q, d := n / radix, n % radix;
      assert q < n && d < radix && q >= 1 by { DivModFacts(n, radix); }
      var prefix := Digits(q, radix);
      DigitCharValue(d);
      var r := prefix + [DigitChar(d)];
      assert forall i :: 0 <= i < |prefix| ==> r[i] == prefix[i];
      r
  }

  lemma DivModFacts(n: nat, radix: nat)
    requires 2 <= radix <= n
    ensures n / radix < n && n % radix < radix && n / radix >= 1
    ensures n == (n / radix) * radix + n % radix
  {
  }

  function Pow(b: nat, k: nat): nat {
    if k == 0 then 1 else b * Pow(b, k - 1)
  }

  /** A number below radix^k has at most k digits. */
  lemma {:induction false} DigitsLength(n: nat, radix: nat, k: nat)
    requires 2 <= radix <= 36 && 1 <= k && n < Pow(radix, k)
    ensures |Digits(n, radix)| <= k
  {
    if n >= radix {
      DivModFacts(n, radix);
      var q := n / radix;
      var p := Pow(radix, k - 1);
      assert Pow(radix, k) == radix * p;
      MulMonotone(p, q, radix);
      assert q < p;
      assert k - 1 != 0 by { assert Pow(radix, 0) == 1; }
      DigitsLength(q, radix, k - 1);
    }
  }

  lemma MulMonotone(a: nat, b: nat, m: nat)
    ensures a <= b ==> a * m <= b * m
  {
  }

  /** The number a string of digits denotes in the given radix (left fold). */
  function DigitsValue(s: string, radix: nat): nat
    requires 2 <= radix <= 36
    requires forall i :: 0 <= i < |s| ==> DigitValue(s[i]) < radix
  {
    if s == [] then 0
    else DigitsValue(s[..|s| - 1], radix) * radix + DigitValue(s[|s| - 1])
  }

  /** Formatting and reading back in the same radix is the identity. */
  lemma {:induction false} DigitsRoundTrip(n: nat, radix: nat)
    requires 2 <= radix <= 36
    ensures DigitsValue(Digits(n, radix), radix) == n
  {
    var r := Digits(n, radix);
    if n < radix {
      DigitCharValue(n);
    } else {
      var q, d := n / radix, n % radix;
      DivModFacts(n, radix);
      DigitsRoundTrip(q, radix);
      DigitCharValue(d);
      assert r[..|r| - 1] == Digits(q, radix);
      assert r[|r| - 1] == DigitChar(d);
      calc {
        DigitsValue(r, radix);
        DigitsValue(Digits(q, radix), radix) * radix + d;
        q * radix + d;
      }
    }
  }

  /** Distinct numbers have distinct representations in one radix. */
  lemma DigitsInjective(m: nat, n: nat, radix: nat)
    requires 2 <= radix <= 36
    requires Digits(m, radix) == Digits(n, radix)
    ensures m == n
  {
    DigitsRoundTrip(m, radix);
    DigitsRoundTrip(n, radix);
  }

  /** `${i}` for an integer: decimal digits, with "-" for a negative value. */
  function DecimalString(i: int): (r: string)
    ensures |r| >= 1
  {
    if i < 0 then "-" + Digits(-i, 10) else Digits(i, 10)
  }

  // ---------------------------------------------------------------------------
  // parseInt(s, 10)

  /** The longest prefix of s made of decimal digits. */
  function LeadingDigits(s: string): (r: string)
    ensures |r| <= |s| && r == s[..|r|]
    ensures forall i :: 0 <= i < |r| ==> IsDigit(r[i])
    ensures |r| == |s| || !IsDigit(s[|r|])
  {
    if |s| > 0 && IsDigit(s[0]) then [s[0]] + LeadingDigits(s[1..]) else []
  }

  /** parseInt(s, 10): leading white space and one sign are skipped, then the
      longest run of decimal digits is read; None stands for NaN (no digit). */
  function ParseInt(s: string): (r: Option<int>)
    ensures r.None? <==> LeadingDigits(SkipSign(TrimStart(s))) == []
  {
    var t := TrimStart(s);
    var negative := |t| > 0 && t[0] == '-';
    var ds := LeadingDigits(SkipSign(t));
    if ds == [] then None
    else
      var v: int := DigitsValue(ds, 10);
      Some(if negative then -v else v)
  }

  function SkipSign(t: string): string {
    if |t| > 0 && (t[0] == '-' || t[0] == '+') then t[1..] else t
  }

  /** parseInt reads back what DecimalString writes for a natural number. */
  lemma ParseIntDecimal(n: nat)
    ensures ParseInt(Digits(n, 10)) == Some(n)
  {
    ParseIntDigitsThen(n, []);
    assert Digits(n, 10) + [] == Digits(n, 10);
  }

  /** parseInt stops at the first character that is not a digit, so text
      after the number does not change what it reads. */
  lemma ParseIntDigitsThen(n: nat, rest: string)
    requires rest == [] || !IsDigit(rest[0])
    ensures ParseInt(Digits(n, 10) + rest) == Some(n)
  {
    var d := Digits(n, 10);
    var s := d + rest;
    assert forall i :: 0 <= i < |d| ==> IsDigit(d[i]) by {
      forall i | 0 <= i < |d| ensures IsDigit(d[i]) {
        assert DigitValue(d[i]) < 10;
      }
    }
    AllDigitsLeading(d, rest);
    DigitsRoundTrip(n, 10);
    assert s[0] == d[0];
    assert !IsSpace(s[0]) by { assert IsDigit(d[0]); }
    assert TrimStart(s) == s;
    assert SkipSign(s) == s by { assert IsDigit(d[0]); }
  }

  lemma {:induction false} AllDigitsLeading(s: string, rest: string)
    requires forall i :: 0 <= i < |s| ==> IsDigit(s[i])
    requires rest == [] || !IsDigit(rest[0])
    ensures LeadingDigits(s + rest) == s
  {
    if |s| > 0 {
      AllDigitsLeading(s[1..], rest);
      assert (s + rest)[1..] == s[1..] + rest;
    } else {
      assert s + rest == rest;
    }
  }
}
