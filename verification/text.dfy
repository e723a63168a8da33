/** The string operations the dashboard code calls: `toLowerCase`,
    `includes`, `split('-')[0]` and the decimal text of an integer
    (`Number.prototype.toString` and template literals). Characters are
    lower-cased in the ASCII range only. */
module Text {

  function LowerChar(c: char): char
  {
    if 'A' <= c <= 'Z' then (c as int + 32) as char else c
  }

  /** `s.toLowerCase()`: same length, every character lower-cased. */
  function ToLower(s: string): (r: string)
    ensures |r| == |s|
    ensures forall i :: 0 <= i < |s| ==> r[i] == LowerChar(s[i])
  {
    if s == [] then [] else [LowerChar(s[0])] + ToLower(s[1..])
  }

  /** Lower-casing twice is lower-casing once. */
  lemma ToLowerIdempotent(s: string)
    ensures ToLower(ToLower(s)) == ToLower(s)
  {
    var once := ToLower(s);
    assert forall i :: 0 <= i < |s| ==> ToLower(once)[i] == LowerChar(once[i]) == once[i];
  }

  predicate StartsWith(s: string, prefix: string)
  {
    |prefix| <= |s| && s[..|prefix|] == prefix
  }

  /** `s.includes(sub)`, written as a scan from the left. */
  predicate Contains(s: string, sub: string)
    decreases |s|
  {
    StartsWith(s, sub) || (s != [] && Contains(s[1..], sub))
  }

  /** `sub` occurs in `s` starting at offset `i`. */
  predicate OccursAt(s: string, sub: string, i: int)
  {
    0 <= i <= |s| - |sub| && s[i..i + |sub|] == sub
  }

  /** The scan finds `sub` exactly when `sub` occurs at some offset of `s`. */
  lemma {:induction false} ContainsIffOccurs(s: string, sub: string)
    ensures Contains(s, sub) <==> exists i :: OccursAt(s, sub, i)
    decreases |s|
  {
    if StartsWith(s, sub) {
      assert OccursAt(s, sub, 0);
    } else if s == [] {
    } else {
      ContainsIffOccurs(s[1..], sub);
      if exists i :: OccursAt(s, sub, i) {
        var i :| OccursAt(s, sub, i);
        assert i != 0;
        assert s[1..][i - 1..i - 1 + |sub|] == s[i..i + |sub|];
        assert OccursAt(s[1..], sub, i - 1);
      }
      if exists i :: OccursAt(s[1..], sub, i) {
        var i :| OccursAt(s[1..], sub, i);
        assert s[1..][i..i + |sub|] == s[i + 1..i + 1 + |sub|];
        assert OccursAt(s, sub, i + 1);
      }
    }
  }

  /** The empty string is included in every string. */
  lemma ContainsEmpty(s: string)
    ensures Contains(s, "")
  {
    assert StartsWith(s, "");
  }

  /** `s.split('-')[0]`: the longest prefix of `s` without a '-'. */
  function BeforeDash(s: string): (r: string)
    ensures |r| <= |s| && r == s[..|r|]
    ensures '-' !in r
    ensures |r| < |s| ==> s[|r|] == '-'
  {
    if s == [] || s[0] == '-' then [] else [s[0]] + BeforeDash(s[1..])
  }

  /** Whatever follows a '-' appended to `m` does not change `split('-')[0]`. */
  lemma {:induction false} BeforeDashIgnoresTail(m: string, tail: string)
    ensures BeforeDash(m + "-" + tail) == BeforeDash(m)
  {
    if m == [] {
    } else {
      assert (m + "-" + tail)[0] == m[0];
      assert (m + "-" + tail)[1..] == m[1..] + "-" + tail;
      BeforeDashIgnoresTail(m[1..], tail);
    }
  }

  /** A string without '-' is its own `split('-')[0]`. */
  lemma {:induction false} BeforeDashNoDash(s: string)
    requires '-' !in s
    ensures BeforeDash(s) == s
  {
    if s != [] {
      assert s[0] != '-' && '-' !in s[1..];
      BeforeDashNoDash(s[1..]);
    }
  }

  predicate IsDigit(c: char)
  {
    '0' <= c <= '9'
  }

  function DigitChar(d: nat): (c: char)
    requires d < 10
    ensures IsDigit(c)
  {
    ('0' as int + d) as char
  }

  /** Decimal text of a natural number, most significant digit first. */
  function NatToString(n: nat): (r: string)
    ensures |r| >= 1
    ensures forall i :: 0 <= i < |r| ==> IsDigit(r[i])
    decreases n
  {
    if n < 10 then [DigitChar(n)] else NatToString(n / 10) + [DigitChar(n % 10)]
  }

  function DigitValue(c: char): nat
    requires IsDigit(c)
  {
    c as int - '0' as int
  }

  /** The value of a string of decimal digits, read most significant first. */
  function DigitsValue(s: string): nat
    requires forall i :: 0 <= i < |s| ==> IsDigit(s[i])
  {
    if s == [] then 0 else DigitsValue(s[..|s| - 1]) * 10 + DigitValue(s[|s| - 1])
  }

  /** Reading back the decimal text of `n` gives `n`. */
  lemma {:induction false} NatToStringRoundTrip(n: nat)
    ensures DigitsValue(NatToString(n)) == n
    decreases n
  {
    if n >= 10 {
      var s := NatToString(n);
      assert s[..|s| - 1] == NatToString(n / 10);
      NatToStringRoundTrip(n / 10);
    }
  }

  /** `String(n)` for an integer: a '-' before the digits of a negative number. */
  function IntToString(n: int): (r: string)
    ensures |r| >= 1
    ensures n >= 0 ==> '-' !in r
    ensures n < 0 ==> r[0] == '-' && '-' !in r[1..]
  {
    if n < 0 then "-" + NatToString(-n) else NatToString(n)
  }

  /** Distinct non-negative integers have distinct decimal texts. */
  lemma IntToStringInjective(a: int, b: int)
    requires a >= 0 && b >= 0
    requires IntToString(a) == IntToString(b)
    ensures a == b
  {
    NatToStringRoundTrip(a);
    NatToStringRoundTrip(b);
  }

  /** In `m + "-" + d` with no '-' in `d`, the '-' at `|m|` is the last one. */
  lemma LastDash(m: string, d: string)
    requires '-' !in d
    ensures (m + "-" + d)[|m|] == '-'
    ensures forall i :: |m| < i < |m| + 1 + |d| ==> (m + "-" + d)[i] != '-'
  {
    forall i | |m| < i < |m| + 1 + |d|
      ensures (m + "-" + d)[i] != '-'
    {
      assert (m + "-" + d)[i] == d[i - |m| - 1];
    }
  }

  /** `m1 + "-" + d1 == m2 + "-" + d2` splits at the last '-' when neither
      `d1` nor `d2` holds one, so both halves agree. */
  lemma {:induction false} SplitAtLastDash(m1: string, d1: string, m2: string, d2: string)
    requires '-' !in d1 && '-' !in d2
    requires m1 + "-" + d1 == m2 + "-" + d2
    ensures m1 == m2 && d1 == d2
  {
    var s := m1 + "-" + d1;
    LastDash(m1, d1);
    LastDash(m2, d2);
    assert m1 == s[..|m1|] == m2;
    assert d1 == s[|m1| + 1..] == d2;
  }
}
