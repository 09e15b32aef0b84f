/** The JavaScript string operations the core relies on:
    `startsWith`, `endsWith`, `includes`, `slice`, `substring`,
    `toLowerCase`, `join`, `Number.prototype.toString` and `parseInt`,
    together with the truthiness rule for optional strings. */
module JsStrings {
  import opened Wrappers

  // ---------------------------------------------------------------------
  // startsWith / endsWith / includes

  predicate StartsWith(s: string, p: string) {
    |p| <= |s| && s[..|p|] == p
  }

  predicate EndsWith(s: string, p: string) {
    |p| <= |s| && s[|s| - |p|..] == p
  }

  /** `t` occurs in `s` starting at index `i`. */
  predicate OccursAt(s: string, t: string, i: int) {
    0 <= i && i + |t| <= |s| && s[i..i + |t|] == t
  }

  /** `s.includes(t)`. */
  predicate Includes(s: string, t: string) {
    exists i :: 0 <= i <= |s| - |t| && OccursAt(s, t, i)
  }

  /** Every string includes the empty string. */
  lemma IncludesEmpty(s: string)
    ensures Includes(s, "")
  {
    assert OccursAt(s, "", 0);
  }

  /** Inclusion is transitive: if `u` occurs inside `t` and `t` inside `s`,
      then `u` occurs inside `s`. */
  lemma IncludesTransitive(s: string, t: string, u: string)
    requires Includes(s, t) && Includes(t, u)
    ensures Includes(s, u)
  {
    var i :| 0 <= i <= |s| - |t| && OccursAt(s, t, i);
    var j :| 0 <= j <= |t| - |u| && OccursAt(t, u, j);
    assert s[i..i + |t|] == t;
    forall k | 0 <= k < |u|
      ensures s[i + j + k] == u[k]
    {
      assert s[i + j + k] == s[i..i + |t|][j + k] == t[j + k];
      assert t[j + k] == t[j..j + |u|][k];
    }
    assert s[i + j..i + j + |u|] == u;
    assert OccursAt(s, u, i + j);
  }

  /** `s.substring(0, n)` for a non-negative `n`. */
  function Prefix(s: string, n: nat): (r: string)
    ensures |r| == if n < |s| then n else |s|
    ensures StartsWith(s, r)
  {
    if n < |s| then s[..n] else s
  }

  // ---------------------------------------------------------------------
  // toLowerCase (ASCII letters only)

  predicate IsUpper(c: char) { 'A' <= c <= 'Z' }

  function LowerChar(c: char): (r: char)
    ensures !IsUpper(r)
    ensures !IsUpper(c) ==> r == c
  {
    if IsUpper(c) then (c as int + 32) as char else c
  }

  function ToLower(s: string): (r: string)
    ensures |r| == |s|
    ensures forall i :: 0 <= i < |s| ==> r[i] == LowerChar(s[i])
  {
    seq(|s|, i requires 0 <= i < |s| => LowerChar(s[i]))
  }

  /** Lower-casing twice is lower-casing once. */
  lemma ToLowerIdempotent(s: string)
    ensures ToLower(ToLower(s)) == ToLower(s)
  {
  }

  // ---------------------------------------------------------------------
  // Truthiness of an optional string: `null`, `undefined` and `""` are falsy.

  predicate Truthy(o: Option<string>) {
    o.Some? && o.value != ""
  }

  /** `o || ''`. */
  function OrEmpty(o: Option<string>): (r: string)
    ensures Truthy(o) ==> r == o.value
    ensures !Truthy(o) ==> r == ""
  {
    if o.Some? then o.value else ""
  }

  // ---------------------------------------------------------------------
  // Array.prototype.join

  function Join(parts: seq<string>, sep: string): (r: string)
  {
    if |parts| == 0 then ""
    else if |parts| == 1 then parts[0]
    else parts[0] + sep + Join(parts[1..], sep)
  }

  /** Joining one more part appends the separator and that part. */
  lemma {:induction false} JoinSnoc(parts: seq<string>, last: string, sep: string)
    requires |parts| > 0
    ensures Join(parts + [last], sep) == Join(parts, sep) + sep + last
  {
    if |parts| == 1 {
      assert (parts + [last])[1..] == [last];
    } else {
      assert (parts + [last])[1..] == parts[1..] + [last];
      JoinSnoc(parts[1..], last, sep);
    }
  }

  // ---------------------------------------------------------------------
  // Decimal rendering of integers (template literals, `toString()`)

  predicate IsDigit(c: char) { '0' <= c <= '9' }

  function DigitChar(d: nat): (c: char)
    requires d < 10
    ensures IsDigit(c)
  {
    ('0' as int + d) as char
  }

  function DigitValue(c: char): (d: nat)
    requires IsDigit(c)
    ensures d < 10 && DigitChar(d) == c
  {
    c as int - '0' as int
  }

  predicate AllDigits(s: string) {
    forall i :: 0 <= i < |s| ==> IsDigit(s[i])
  }

  /** The decimal digits of `n`, most significant first, without leading zeros. */
  function NatToDecimal(n: nat): (r: string)
    ensures |r| > 0 && AllDigits(r)
    ensures r[0] == '0' ==> n == 0
    decreases n
  {
    if n < 10 then [DigitChar(n)] else NatToDecimal(n / 10) + [DigitChar(n % 10)]
  }

  /** `String(i)` for an integer `i`. */
  function IntToString(i: int): (r: string)
    ensures |r| > 0
  {
    if i < 0 then "-" + NatToDecimal(-i) else NatToDecimal(i)
  }

  // ---------------------------------------------------------------------
  // parseInt with no radix, on decimal input

  /** A JavaScript number as far as the core needs it: an integer or NaN. */
  datatype JsNumber = Num(value: int) | NaN

  predicate IsSpace(c: char) { c == ' ' || c == '\t' || c == '\n' || c == '\r' }

  function TrimStart(s: string): (r: string)
    ensures |r| <= |s|
    ensures |r| > 0 ==> !IsSpace(r[0])
    ensures |s| > 0 && !IsSpace(s[0]) ==> r == s
  {
    if |s| > 0 && IsSpace(s[0]) then TrimStart(s[1..]) else s
  }

  /** The longest prefix of `s` made of decimal digits. */
  function LeadingDigits(s: string): (r: string)
    ensures StartsWith(s, r) && AllDigits(r)
    ensures |r| < |s| ==> !IsDigit(s[|r|])
  {
    if |s| > 0 && IsDigit(s[0]) then [s[0]] + LeadingDigits(s[1..]) else []
  }

  /** The value of a string of decimal digits. */
  function DigitsValue(ds: string): (v: nat)
    requires AllDigits(ds)
  {
    if |ds| == 0 then 0 else DigitsValue(ds[..|ds| - 1]) * 10 + DigitValue(ds[|ds| - 1])
  }

  /** `parseInt(s)`: skip leading white space, read an optional sign, then the
      longest run of decimal digits; NaN when there are no digits. */
  function ParseInt(s: string): (r: JsNumber)
  {
    var t := TrimStart(s);
    var negative := |t| > 0 && t[0] == '-';
    var unsigned := if |t| > 0 && (t[0] == '-' || t[0] == '+') then t[1..] else t;
    var ds := LeadingDigits(unsigned);
    if |ds| == 0 then NaN
    else
      var v: int := DigitsValue(ds);
      Num(if negative then -v else v)
  }

  lemma {:induction false} LeadingDigitsOfDigits(s: string)
    requires AllDigits(s)
    ensures LeadingDigits(s) == s
  {
    if |s| > 0 {
      LeadingDigitsOfDigits(s[1..]);
    }
  }

  lemma {:induction false} DigitsValueOfDecimal(n: nat)
    ensures DigitsValue(NatToDecimal(n)) == n
    decreases n
  {
    var r := NatToDecimal(n);
    if n >= 10 {
      assert r[..|r| - 1] == NatToDecimal(n / 10);
      DigitsValueOfDecimal(n / 10);
    }
  }

  /** `parseInt` reads back what `toString` wrote: the period selector's
      values are produced by `toString` and consumed by `parseInt`. */
  lemma ParseIntOfIntToString(i: int)
    ensures ParseInt(IntToString(i)) == Num(i)
  {
    if i < 0 {
      ParseIntOfNegative(-i);
    } else {
      ParseIntOfDecimal(i);
    }
  }

  lemma ParseIntOfDecimal(n: nat)
    ensures ParseInt(NatToDecimal(n)) == Num(n)
  {
    var d := NatToDecimal(n);
    assert IsDigit(d[0]);
    assert TrimStart(d) == d;
    LeadingDigitsOfDigits(d);
    DigitsValueOfDecimal(n);
  }

  lemma ParseIntOfNegative(n: nat)
    requires n > 0
    ensures ParseInt("-" + NatToDecimal(n)) == Num(0 - n)
  {
    var d := NatToDecimal(n);
    var t := "-" + d;
    assert TrimStart(t) == t;
    assert t[1..] == d;
    LeadingDigitsOfDigits(d);
    DigitsValueOfDecimal(n);
  }
}
