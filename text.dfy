/** String helpers the source takes from JavaScript: ASCII case mapping
    (`toUpperCase`, `toLowerCase`), `includes`, the digit test `/^\d+$/`,
    `Number(string)` and `String(number)` on integers. */
module Text {
  import opened Types

  function UpperChar(c: char): char {
    if 'a' <= c <= 'z' then (c as int - 32) as char else c
  }

  function LowerChar(c: char): char {
    if 'A' <= c <= 'Z' then (c as int + 32) as char else c
  }

  /** `s.toUpperCase()` on ASCII letters: the same letters, none of them lower case. */
  function Upper(s: string): (r: string)
    ensures |r| == |s|
    ensures forall i :: 0 <= i < |s| ==> SameIgnoringCase(r[i], s[i]) && !('a' <= r[i] <= 'z')
  {
    seq(|s|, i requires 0 <= i < |s| => UpperChar(s[i]))
  }

  /** `s.toLowerCase()` on ASCII letters: the same letters, none of them upper case. */
  function Lower(s: string): (r: string)
    ensures |r| == |s|
    ensures forall i :: 0 <= i < |s| ==> SameIgnoringCase(r[i], s[i]) && !('A' <= r[i] <= 'Z')
  {
    seq(|s|, i requires 0 <= i < |s| => LowerChar(s[i]))
  }

  /** `p` occurs in `s` at offset `i`. */
  predicate OccursAt(s: string, p: string, i: int)
    requires 0 <= i && i + |p| <= |s|
  {
    s[i..i + |p|] == p
  }

  /** `s.includes(p)`. */
  predicate Contains(s: string, p: string) {
    exists i :: 0 <= i && i + |p| <= |s| && OccursAt(s, p, i)
  }

  /** Two characters are the same letter when case is ignored. */
  predicate SameIgnoringCase(a: char, b: char) {
    LowerChar(a) == LowerChar(b)
  }

  /** `p` occurs in `s` at offset `i` when case is ignored. */
  predicate MatchesAtIgnoringCase(s: string, p: string, i: int)
    requires 0 <= i && i + |p| <= |s|
  {
    forall k :: 0 <= k < |p| ==> SameIgnoringCase(s[i + k], p[k])
  }

  /** A case-insensitive substring test, stated without any case mapping of
      the whole string. */
  predicate ContainsIgnoringCase(s: string, p: string) {
    exists i :: 0 <= i && i + |p| <= |s| && MatchesAtIgnoringCase(s, p, i)
  }

  lemma UpperAgreesWithLower(a: char, b: char)
    ensures UpperChar(a) == UpperChar(b) <==> SameIgnoringCase(a, b)
  {
  }

  /** Searching the upper-cased string for an upper-cased pattern is the
      case-insensitive search. */
  lemma {:induction false} UpperContainsIgnoresCase(s: string, p: string)
    ensures Contains(Upper(s), Upper(p)) <==> ContainsIgnoringCase(s, p)
  {
    var us, up := Upper(s), Upper(p);
    if Contains(us, up) {
      var i :| 0 <= i && i + |up| <= |us| && OccursAt(us, up, i);
      forall k | 0 <= k < |p| ensures SameIgnoringCase(s[i + k], p[k]) {
        assert us[i..i + |up|][k] == up[k];
        UpperAgreesWithLower(s[i + k], p[k]);
      }
      assert MatchesAtIgnoringCase(s, p, i);
    }
    if ContainsIgnoringCase(s, p) {
      var i :| 0 <= i && i + |p| <= |s| && MatchesAtIgnoringCase(s, p, i);
      forall k | 0 <= k < |p| ensures us[i..i + |p|][k] == up[k] {
        UpperAgreesWithLower(s[i + k], p[k]);
      }
      assert us[i..i + |up|] == up;
      assert OccursAt(us, up, i);
    }
  }

  /** Searching the lower-cased string for a lower-cased pattern is the
      case-insensitive search. */
  lemma {:induction false} LowerContainsIgnoresCase(s: string, p: string)
    ensures Contains(Lower(s), Lower(p)) <==> ContainsIgnoringCase(s, p)
  {
    var ls, lp := Lower(s), Lower(p);
    if Contains(ls, lp) {
      var i :| 0 <= i && i + |lp| <= |ls| && OccursAt(ls, lp, i);
      forall k | 0 <= k < |p| ensures SameIgnoringCase(s[i + k], p[k]) {
        assert ls[i..i + |lp|][k] == lp[k];
      }
      assert MatchesAtIgnoringCase(s, p, i);
    }
    if ContainsIgnoringCase(s, p) {
      var i :| 0 <= i && i + |p| <= |s| && MatchesAtIgnoringCase(s, p, i);
      forall k | 0 <= k < |p| ensures ls[i..i + |p|][k] == lp[k] {
      }
      assert ls[i..i + |lp|] == lp;
      assert OccursAt(ls, lp, i);
    }
  }

  /** Equality when case is ignored. */
  predicate EqualsIgnoringCase(a: string, b: string) {
    |a| == |b| && forall k :: 0 <= k < |a| ==> SameIgnoringCase(a[k], b[k])
  }

  /** Comparing upper-cased strings is comparing with case ignored. */
  lemma UpperEqualsIgnoresCase(a: string, b: string)
    ensures Upper(a) == Upper(b) <==> EqualsIgnoringCase(a, b)
  {
    if Upper(a) == Upper(b) {
      forall k | 0 <= k < |a| ensures SameIgnoringCase(a[k], b[k]) {
        assert Upper(a)[k] == Upper(b)[k];
        UpperAgreesWithLower(a[k], b[k]);
      }
    }
    if EqualsIgnoringCase(a, b) {
      forall k | 0 <= k < |a| ensures Upper(a)[k] == Upper(b)[k] {
        UpperAgreesWithLower(a[k], b[k]);
      }
    }
  }

  /** A string shorter than the pattern cannot contain it; in particular the
      empty string contains no non-empty pattern. */
  lemma ShortStringContainsNothing(s: string, p: string)
    requires |s| < |p|
    ensures !Contains(s, p) && !ContainsIgnoringCase(s, p)
  {
  }

  predicate IsDigit(c: char) {
    '0' <= c <= '9'
  }

  /** `/^\d+$/.test(s)`: one or more ASCII digits and nothing else. */
  predicate IsDigits(s: string) {
    |s| > 0 && forall i :: 0 <= i < |s| ==> IsDigit(s[i])
  }

  function DigitValue(c: char): nat
    requires IsDigit(c)
  {
    c as int - '0' as int
  }

  function DigitChar(d: nat): (c: char)
    requires d < 10
    ensures IsDigit(c) && DigitValue(c) == d
  {
    ('0' as int + d) as char
  }

  /** The decimal value of a digit string (no precision limit). */
  function DigitsValue(s: string): nat
    requires forall i :: 0 <= i < |s| ==> IsDigit(s[i])
  {
    if s == [] then 0 else DigitsValue(s[..|s| - 1]) * 10 + DigitValue(s[|s| - 1])
  }

  /** The shortest decimal spelling of a natural number. */
  function DecimalString(n: nat): (s: string)
    ensures IsDigits(s)
  {
    if n < 10 then [DigitChar(n)] else DecimalString(n / 10) + [DigitChar(n % 10)]
  }

  /** `String(n)` for an integer. */
  function IntString(n: int): (s: string)
    ensures |s| > 0
    ensures s[0] == '-' <==> n < 0
  {
    if n < 0 then "-" + DecimalString(-n) else DecimalString(n)
  }

  /** `Number(s)` for the integer spellings: the empty string is 0, an optional
      sign followed by digits is that integer, everything else is `NaN`. */
  function ToNumber(s: string): Number {
    if s == [] then Finite(0)
    else if IsDigits(s) then Finite(DigitsValue(s))
    else if s[0] == '-' && IsDigits(s[1..]) then Finite(-(DigitsValue(s[1..]) as int))
    else if s[0] == '+' && IsDigits(s[1..]) then Finite(DigitsValue(s[1..]))
    else NonFinite
  }

  /** Reading back the decimal spelling gives the number. */
  lemma {:induction false} DecimalRoundTrip(n: nat)
    ensures DigitsValue(DecimalString(n)) == n
  {
    if n >= 10 {
      var s := DecimalString(n);
      DecimalRoundTrip(n / 10);
      assert s[..|s| - 1] == DecimalString(n / 10);
    }
  }

  /** `Number(String(n)) == n` for every integer. */
  lemma IntStringRoundTrip(n: int)
    ensures ToNumber(IntString(n)) == Finite(n)
  {
    if n < 0 {
      DecimalRoundTrip(-n);
      var s := IntString(n);
      assert s[1..] == DecimalString(-n);
      assert !IsDigit(s[0]);
    } else {
      DecimalRoundTrip(n);
    }
  }
}
