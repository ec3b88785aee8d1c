/** The string operations the interpreters rely on: `toLowerCase` (ASCII
    only), `includes`, `startsWith`, the first run of digits found by
    `/(\d+)/`, `parseInt` of such a run, `Number.prototype.toString` for a
    natural number, and `split(c)[0]`. */
module Text {
  import opened Wrappers

  predicate IsUpper(c: char) { 'A' <= c <= 'Z' }

  predicate IsDigit(c: char) { '0' <= c <= '9' }

  function LowerChar(c: char): char {
    if IsUpper(c) then (c as int + 32) as char else c
  }

  /** `toLowerCase`, restricted to ASCII letters. */
  function Lower(s: string): (r: string)
    ensures |r| == |s|
    ensures forall i :: 0 <= i < |s| ==> r[i] == LowerChar(s[i])
  {
    if s == [] then [] else [LowerChar(s[0])] + Lower(s[1..])
  }

  lemma LowerHasNoUpper(s: string)
    ensures forall i :: 0 <= i < |Lower(s)| ==> !IsUpper(Lower(s)[i])
  {
  }

  lemma LowerIdempotent(s: string)
    ensures Lower(Lower(s)) == Lower(s)
  {
  }

  /** `s.startsWith(p)`. */
  predicate StartsWith(s: string, p: string) {
    |p| <= |s| && s[..|p|] == p
  }

  /** `s.includes(p)`: some suffix of `s` starts with `p`. */
  predicate Contains(s: string, p: string)
    decreases |s|
  {
    StartsWith(s, p) || (|s| > 0 && Contains(s[1..], p))
  }

  ghost predicate OccursAt(s: string, p: string, i: int) {
    0 <= i && i + |p| <= |s| && s[i..i + |p|] == p
  }

  /** An occurrence at any position is found by `Contains`. */
  lemma {:induction false} OccurrenceContained(s: string, p: string, i: int)
    requires OccursAt(s, p, i)
    ensures Contains(s, p)
    decreases i
  {
    if i > 0 {
      assert s[1..][i - 1..i - 1 + |p|] == s[i..i + |p|];
      OccurrenceContained(s[1..], p, i - 1);
    }
  }

  /** `Contains` agrees with the positional reading of `includes`. */
  lemma {:induction false} ContainsIffOccurs(s: string, p: string)
    ensures Contains(s, p) <==> exists i :: OccursAt(s, p, i)
    decreases |s|
  {
    if StartsWith(s, p) {
      assert OccursAt(s, p, 0);
    } else if |s| > 0 && Contains(s[1..], p) {
      ContainsIffOccurs(s[1..], p);
      var i :| OccursAt(s[1..], p, i);
      assert s[1..][i..i + |p|] == s[i + 1..i + 1 + |p|];
      assert OccursAt(s, p, i + 1);
    }
    forall i | OccursAt(s, p, i) ensures Contains(s, p) {
      OccurrenceContained(s, p, i);
    }
  }

  /** The word `p` is found wherever it is spelled out. */
  lemma ContainsWord(a: string, p: string, b: string)
    ensures Contains(a + p + b, p)
  {
    assert OccursAt(a + p + b, p, |a|) by {
      assert (a + p + b)[|a|..|a| + |p|] == p;
    }
    ContainsIffOccurs(a + p + b, p);
  }

  /** Everything before the first `c` (all of `s` when there is none):
      `s.split(c)[0]`. */
  function BeforeFirst(s: string, c: char): (r: string)
    ensures |r| <= |s| && r == s[..|r|]
    ensures c !in r
    ensures |r| == |s| || s[|r|] == c
  {
    if s == [] || s[0] == c then [] else [s[0]] + BeforeFirst(s[1..], c)
  }

  predicate AllDigits(s: string) {
    forall i :: 0 <= i < |s| ==> IsDigit(s[i])
  }

  /** The longest prefix of `s` made of digits. */
  function DigitPrefix(s: string): (r: string)
    ensures |r| <= |s| && r == s[..|r|]
    ensures AllDigits(r)
    ensures |r| == |s| || !IsDigit(s[|r|])
  {
    if s == [] || !IsDigit(s[0]) then [] else [s[0]] + DigitPrefix(s[1..])
  }

  /** The text matched by `/(\d+)/`: the first maximal run of ASCII digits. */
  function FirstDigitRun(s: string): (r: Option<string>)
    ensures r.Some? ==> r.value != [] && AllDigits(r.value)
    ensures r.None? <==> forall i :: 0 <= i < |s| ==> !IsDigit(s[i])
  {
    if s == [] then None
    else if IsDigit(s[0]) then Some(DigitPrefix(s))
    else FirstDigitRun(s[1..])
  }

  /** `r` is a maximal digit run of `s` starting at `i` with no digit before it. */
  ghost predicate FirstRunAt(s: string, i: int, r: string) {
    && 0 <= i && i + |r| <= |s|
    && s[i..i + |r|] == r
    && r != [] && AllDigits(r)
    && (forall j :: 0 <= j < i ==> !IsDigit(s[j]))
    && (i + |r| == |s| || !IsDigit(s[i + |r|]))
  }

  lemma {:induction false} FirstDigitRunIsFirst(s: string)
    ensures FirstDigitRun(s).Some? ==> exists i :: FirstRunAt(s, i, FirstDigitRun(s).value)
    decreases |s|
  {
    if s != [] {
      if IsDigit(s[0]) {
        assert FirstRunAt(s, 0, DigitPrefix(s));
      } else {
        FirstDigitRunIsFirst(s[1..]);
        if FirstDigitRun(s[1..]).Some? {
          var r := FirstDigitRun(s[1..]).value;
          var i :| FirstRunAt(s[1..], i, r);
          assert s[1..][i..i + |r|] == s[i + 1..i + 1 + |r|];
          assert FirstRunAt(s, i + 1, r);
        }
      }
    }
  }

  /** Text without digits in front of `s` does not change its first run. */
  lemma {:induction false} FirstDigitRunSkips(p: string, s: string)
    requires forall i :: 0 <= i < |p| ==> !IsDigit(p[i])
    ensures FirstDigitRun(p + s) == FirstDigitRun(s)
    decreases |p|
  {
    if p == [] {
      assert p + s == s;
    } else {
      assert (p + s)[0] == p[0];
      assert (p + s)[1..] == p[1..] + s;
      FirstDigitRunSkips(p[1..], s);
    }
  }

  /** A run of digits ended by a non-digit is the first run of the text it starts. */
  lemma {:induction false} FirstDigitRunOfRun(d: string, s: string)
    requires d != [] && AllDigits(d)
    requires s != [] && !IsDigit(s[0])
    ensures FirstDigitRun(d + s) == Some(d)
  {
    DigitPrefixOfRun(d, s);
  }

  /** The first run of `p + d + s`, for a digit-free `p` and a run `d`
      ended by a non-digit, is `d`. */
  lemma FirstDigitRunBetween(p: string, d: string, s: string)
    requires forall i :: 0 <= i < |p| ==> !IsDigit(p[i])
    requires d != [] && AllDigits(d)
    requires s != [] && !IsDigit(s[0])
    ensures FirstDigitRun(p + d + s) == Some(d)
  {
    assert p + d + s == p + (d + s);
    FirstDigitRunSkips(p, d + s);
    FirstDigitRunOfRun(d, s);
  }

  lemma {:induction false} DigitPrefixOfRun(d: string, s: string)
    requires AllDigits(d)
    requires s == [] || !IsDigit(s[0])
    ensures DigitPrefix(d + s) == d
    decreases |d|
  {
    if d != [] {
      assert (d + s)[1..] == d[1..] + s;
      DigitPrefixOfRun(d[1..], s);
    }
  }

  function DigitValue(c: char): nat
    requires IsDigit(c)
  {
    c as int - '0' as int
  }

  function DigitChar(d: nat): (c: char)
    requires d < 10
    ensures IsDigit(c) && DigitValue(c) == d
  {
    ('0' as int + d) as char
  }

  /** `parseInt` of a run of decimal digits. */
  function DigitsValue(s: string): nat
    requires AllDigits(s)
  {
    if s == [] then 0 else DigitsValue(s[..|s| - 1]) * 10 + DigitValue(s[|s| - 1])
  }

  /** `n.toString()` for a natural number. */
  function NatToString(n: nat): (r: string)
    ensures r != [] && AllDigits(r)
    ensures |r| > 1 ==> r[0] != '0'
  {
    if n < 10 then [DigitChar(n)] else NatToString(n / 10) + [DigitChar(n % 10)]
  }

  /** Reading back a rendered number gives the number. */
  lemma {:induction false} DigitsValueOfNatToString(n: nat)
    ensures DigitsValue(NatToString(n)) == n
  {
    var r := NatToString(n);
    if n >= 10 {
      DigitsValueOfNatToString(n / 10);
      assert r[..|r| - 1] == NatToString(n / 10);
    }
  }

  /** Distinct numbers render as distinct strings. */
  lemma NatToStringInjective(m: nat, n: nat)
    requires NatToString(m) == NatToString(n)
    ensures m == n
  {
    DigitsValueOfNatToString(m);
    DigitsValueOfNatToString(n);
  }
}
