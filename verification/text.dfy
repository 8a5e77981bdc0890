/**
 Text helpers used by the rendering of notifications and by its inverse:
 the decimal form of the unsigned integers jack hands out (`{}` on a `u32`),
 and the prefix, suffix and separator operations a reader of the rendered
 lines needs.
 */
module Text {
  import opened Wrappers

  /** `u32`: the width of `jack::Frames` and `jack::PortId`. */
  type U32 = x: nat | x < 0x1_0000_0000

  predicate IsDigit(c: char) {
    '0' <= c <= '9'
  }

  predicate AllDigits(s: string) {
    forall i :: 0 <= i < |s| ==> IsDigit(s[i])
  }

  function DigitValue(c: char): nat
    requires IsDigit(c)
  {
    (c as int) - ('0' as int)
  }

  function DigitChar(d: nat): (c: char)
    requires d < 10
    ensures IsDigit(c) && DigitValue(c) == d
  {
    (('0' as int) + d) as char
  }

  /** The decimal text of `n`, as Rust's `Display` for unsigned integers
      writes it: at least one digit, and no leading zero unless `n` is 0. */
  function Decimal(n: nat): (s: string)
    ensures |s| >= 1 && AllDigits(s)
    ensures s[0] == '0' ==> n == 0
    ensures n < 10 <==> |s| == 1
  {
    if n < 10 then [DigitChar(n)] else Decimal(n / 10) + [DigitChar(n % 10)]
  }

  /** The number a string of digits denotes, most significant digit first. */
  function ValueOf(s: string): nat
    requires AllDigits(s)
  {
    if |s| == 0 then 0 else 10 * ValueOf(s[..|s| - 1]) + DigitValue(s[|s| - 1])
  }

  /** Reading back the decimal text of `n` gives `n`. */
  lemma {:induction false} ValueOfDecimal(n: nat)
    ensures ValueOf(Decimal(n)) == n
  {
    if n >= 10 {
      var s := Decimal(n);
      assert s[..|s| - 1] == Decimal(n / 10);
      ValueOfDecimal(n / 10);
    }
  }

  /** Different numbers have different decimal texts. */
  lemma DecimalInjective(m: nat, n: nat)
    requires Decimal(m) == Decimal(n)
    ensures m == n
  {
    ValueOfDecimal(m);
    ValueOfDecimal(n);
  }

  /** The length of the longest run of digits at the start of `s`. */
  function DigitRun(s: string): (k: nat)
    ensures k <= |s|
    ensures forall i :: 0 <= i < k ==> IsDigit(s[i])
    ensures k < |s| ==> !IsDigit(s[k])
  {
    if |s| == 0 || !IsDigit(s[0]) then 0 else 1 + DigitRun(s[1..])
  }

  /** The digit run of a string of digits followed by a non-digit is that
      string of digits. */
  lemma {:induction false} DigitRunOfDigits(d: string, rest: string)
    requires AllDigits(d)
    requires |rest| == 0 || !IsDigit(rest[0])
    ensures DigitRun(d + rest) == |d|
  {
    if |d| > 0 {
      assert (d + rest)[1..] == d[1..] + rest;
      DigitRunOfDigits(d[1..], rest);
    } else {
      assert d + rest == rest;
    }
  }

  /** Reads the number written at the start of `s`, returning it with the
      text after its last digit; `None` when `s` does not start with a digit. */
  function ReadNat(s: string): (r: Option<(nat, string)>)
    ensures r.None? <==> (|s| == 0 || !IsDigit(s[0]))
    ensures r.Some? ==> |r.value.1| < |s| && r.value.1 == s[|s| - |r.value.1|..]
  {
    var k := DigitRun(s);
    if k == 0 then None else Some((ValueOf(s[..k]), s[k..]))
  }

  /** The number is read back from its decimal text when the text after it
      does not continue with a digit. */
  lemma ReadNatDecimal(n: nat, rest: string)
    requires |rest| == 0 || !IsDigit(rest[0])
    ensures ReadNat(Decimal(n) + rest) == Some((n, rest))
  {
    var d := Decimal(n);
    var s := d + rest;
    var k := DigitRun(s);
    DigitRunOfDigits(d, rest);
    assert s[..k] == d;
    assert s[k..] == rest;
    ValueOfDecimal(n);
  }

  function StripPrefix(s: string, p: string): (r: Option<string>)
    ensures r.Some? <==> p <= s
    ensures r.Some? ==> s == p + r.value
  {
    if p <= s then Some(s[|p|..]) else None
  }

  lemma StripPrefixConcat(p: string, t: string)
    ensures StripPrefix(p + t, p) == Some(t)
  {
    assert (p + t)[|p|..] == t;
  }

  predicate EndsWith(s: string, q: string) {
    |q| <= |s| && s[|s| - |q|..] == q
  }

  function StripSuffix(s: string, q: string): (r: Option<string>)
    ensures r.Some? <==> EndsWith(s, q)
    ensures r.Some? ==> s == r.value + q
  {
    if EndsWith(s, q) then Some(s[..|s| - |q|]) else None
  }

  lemma StripSuffixConcat(t: string, q: string)
    ensures StripSuffix(t + q, q) == Some(t)
  {
    assert (t + q)[|t|..] == q;
    assert (t + q)[..|t|] == t;
  }

  /** `sep` occurs in `s` starting at index `i`. */
  predicate OccursAt(s: string, sep: string, i: nat) {
    i + |sep| <= |s| && s[i..i + |sep|] == sep
  }

  /** `s` contains `t` as a contiguous piece. */
  predicate Contains(s: string, t: string) {
    exists i: nat :: i <= |s| && OccursAt(s, t, i)
  }

  lemma ContainsSelf(t: string)
    ensures Contains(t, t)
  {
    assert OccursAt(t, t, 0);
  }

  lemma ContainsPrefix(p: string, s: string)
    requires p <= s
    ensures Contains(s, p)
  {
    assert s[0..|p|] == p;
    assert OccursAt(s, p, 0);
  }

  /** Text found in `s` is still found after something is appended. */
  lemma ContainsAppend(s: string, u: string, t: string)
    requires Contains(s, t)
    ensures Contains(s + u, t)
  {
    var i: nat :| i <= |s| && OccursAt(s, t, i);
    assert (s + u)[i..i + |t|] == s[i..i + |t|];
    assert OccursAt(s + u, t, i);
  }

  /** Text found in `s` is still found after something is prepended. */
  lemma ContainsPrepend(u: string, s: string, t: string)
    requires Contains(s, t)
    ensures Contains(u + s, t)
  {
    var i: nat :| i <= |s| && OccursAt(s, t, i);
    assert (u + s)[|u| + i..|u| + i + |t|] == s[i..i + |t|];
    assert OccursAt(u + s, t, |u| + i);
  }

  lemma PrefixExtends(p: string, a: string, b: string)
    requires p <= a
    ensures p <= a + b
  {
  }

  lemma SuffixExtends(q: string, a: string, b: string)
    requires EndsWith(b, q)
    ensures EndsWith(a + b, q)
  {
    assert (a + b)[|a + b| - |q|..] == b[|b| - |q|..];
  }

  /** `a` holds no occurrence of `sep`, not even one that runs on into a
      copy of `sep` written right after it; so in `a + sep + b` the first
      occurrence of `sep` is the one after `a`. */
  predicate SeparatorFree(a: string, sep: string) {
    forall j: nat :: j < |a| ==> !OccursAt(a + sep, sep, j)
  }

  /** An occurrence of `sep` that starts inside `a` ends, at the latest,
      inside the `sep` that follows `a`, so what comes after does not matter. */
  lemma OccursBeforeSeparator(a: string, sep: string, b: string)
    ensures forall j: nat :: j < |a| ==> (OccursAt(a + sep + b, sep, j) <==> OccursAt(a + sep, sep, j))
  {
    forall j: nat | j < |a|
      ensures OccursAt(a + sep + b, sep, j) <==> OccursAt(a + sep, sep, j)
    {
      assert (a + sep + b)[j..j + |sep|] == (a + sep)[j..j + |sep|];
    }
  }

  /** The first index at or after `i` where `sep` occurs in `s`. */
  function FindFrom(s: string, sep: string, i: nat): (r: Option<nat>)
    decreases |s| - i
    ensures r.Some? ==> i <= r.value && OccursAt(s, sep, r.value)
    ensures r.Some? ==> forall j: nat :: i <= j < r.value ==> !OccursAt(s, sep, j)
    ensures r.None? ==> forall j: nat :: i <= j ==> !OccursAt(s, sep, j)
  {
    if i + |sep| > |s| then None
    else if s[i..i + |sep|] == sep then Some(i)
    else FindFrom(s, sep, i + 1)
  }

  /** Splits `s` around the first occurrence of `sep`. */
  function SplitFirst(s: string, sep: string): (r: Option<(string, string)>)
    ensures r.Some? ==> s == r.value.0 + sep + r.value.1
    ensures r.Some? ==> SeparatorFree(r.value.0, sep)
    ensures r.None? ==> forall j: nat :: !OccursAt(s, sep, j)
  {
    match FindFrom(s, sep, 0)
    case None => None
    case Some(k) =>
      var a, b := s[..k], s[k + |sep|..];
      assert s == a + sep + b;
      OccursBeforeSeparator(a, sep, b);
      Some((a, b))
  }

  /** The split recovers both sides when the left one is separator-free. */
  lemma SplitFirstConcat(a: string, sep: string, b: string)
    requires SeparatorFree(a, sep)
    ensures SplitFirst(a + sep + b, sep) == Some((a, b))
  {
    var s := a + sep + b;
    assert s[|a|..|a| + |sep|] == sep;
    assert OccursAt(s, sep, |a|);
    OccursBeforeSeparator(a, sep, b);
    var k := FindFrom(s, sep, 0).value;
    assert k == |a|;
    assert s[..k] == a;
    assert s[k + |sep|..] == b;
  }
}
