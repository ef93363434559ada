/**
 * The few JavaScript built-ins that the client's routing relies on:
 * `Number(s)` on a fragment suffix, `String(n)` for the page links,
 * `s.substr(k)`, `s.indexOf(p)` and `===` on numbers.
 */
module JsText {

  /** A JavaScript number as far as the client produces one: an integer or NaN. */
  datatype Num = Int(value: int) | NaN

  /** `a === b` on numbers: NaN equals nothing, not even itself. */
  predicate StrictEquals(a: Num, b: Num)
    ensures StrictEquals(a, b) <==> a == b && !a.NaN?
  {
    a.Int? && b.Int? && a.value == b.value
  }

  predicate IsDigit(c: char)
  {
    '0' <= c <= '9'
  }

  predicate IsDigitString(s: string)
  {
    forall i :: 0 <= i < |s| ==> IsDigit(s[i])
  }

  /** Decimal value of a digit string, most significant digit first. */
  function DigitsValue(s: string): (n: nat)
    requires IsDigitString(s)
    ensures s == [] ==> n == 0
  {
    if s == [] then 0 else DigitsValue(s[..|s| - 1]) * 10 + (s[|s| - 1] - '0') as int
  }

  /**
   * `Number(s)`: a string of decimal digits denotes its value (the empty
   * string denotes 0); any other string is NaN.
   */
  function ToNumber(s: string): (r: Num)
    ensures r.Int? <==> IsDigitString(s)
    ensures r.Int? ==> r.value >= 0
    ensures s == [] ==> r == Int(0)
  {
    if IsDigitString(s) then Int(DigitsValue(s)) else NaN
  }

  function DigitChar(d: nat): (c: char)
    requires d < 10
    ensures IsDigit(c) && (c - '0') as int == d
  {
    ('0' as int + d) as char
  }

  /** `String(n)` for a non-negative integer: its shortest decimal spelling. */
  function NatToString(n: nat): (s: string)
    ensures |s| > 0 && IsDigitString(s)
    ensures s[0] == '0' <==> n == 0
    ensures n == 0 ==> s == "0"
  {
    if n < 10 then [DigitChar(n)] else NatToString(n / 10) + [DigitChar(n % 10)]
  }

  /** A digit string in the form `String` produces: no leading zero unless it is "0". */
  predicate IsCanonical(s: string)
  {
    |s| > 0 && IsDigitString(s) && (s[0] == '0' ==> |s| == 1)
  }

  /** `Number(String(n)) === n` for every non-negative integer. */
  lemma {:induction false} NumberOfString(n: nat)
    ensures ToNumber(NatToString(n)) == Int(n)
  {
    var s := NatToString(n);
    if n >= 10 {
      NumberOfString(n / 10);
      assert s[..|s| - 1] == NatToString(n / 10);
    }
  }

  /**
   * A leading zero does not change the value: `Number("0" + s) === Number(s)`.
   * With `StringOfNumber` this gives the value of every digit string, since
   * each is zeros followed by a canonical spelling (or zeros only, worth 0).
   */
  lemma {:induction false} LeadingZero(s: string)
    requires IsDigitString(s)
    ensures ToNumber("0" + s) == ToNumber(s)
  {
    var z := "0" + s;
    assert IsDigitString(z);
    if s != [] {
      assert z[..|z| - 1] == "0" + s[..|s| - 1];
      assert z[|z| - 1] == s[|s| - 1];
      LeadingZero(s[..|s| - 1]);
    } else {
      assert z[..|z| - 1] == [];
    }
  }

  /** `String(Number(s)) == s` for every canonical digit string. */
  lemma {:induction false} StringOfNumber(s: string)
    requires IsCanonical(s)
    ensures ToNumber(s).Int? && NatToString(ToNumber(s).value) == s
  {
    var n := DigitsValue(s);
    if |s| > 1 {
      var init := s[..|s| - 1];
      assert init[0] == s[0];
      StringOfNumber(init);
      var m := DigitsValue(init);
      assert m > 0;
      var d := (s[|s| - 1] - '0') as int;
      assert n == m * 10 + d && 0 <= d < 10;
      assert n / 10 == m && n % 10 == d;
      assert DigitChar(d) == s[|s| - 1];
      assert s == init + [s[|s| - 1]];
    } else {
      assert DigitsValue(s) == (s[0] - '0') as int;
      assert DigitChar(n) == s[0];
    }
  }

  /** `s.substr(start)`: the suffix from `start`, or "" when `start` is past the end. */
  function Substr(s: string, start: nat): (r: string)
    ensures start <= |s| ==> s == s[..start] + r
    ensures |s| <= start ==> r == []
  {
    if start <= |s| then s[start..] else []
  }

  /** `pat` occurs in `s` starting at index `i`. */
  predicate OccursAt(s: string, pat: string, i: int)
  {
    0 <= i && i + |pat| <= |s| && s[i..i + |pat|] == pat
  }

  ghost predicate Contains(s: string, pat: string)
  {
    exists i :: OccursAt(s, pat, i)
  }

  /** `s.indexOf(pat, from)`: the first occurrence at or after `from`, or -1. */
  function IndexOfFrom(s: string, pat: string, from: nat): (r: int)
    decreases |s| - from
    ensures r == -1 || from <= r
    ensures r >= 0 ==> OccursAt(s, pat, r)
    ensures r >= 0 ==> forall i :: from <= i < r ==> !OccursAt(s, pat, i)
    ensures r == -1 ==> forall i :: from <= i ==> !OccursAt(s, pat, i)
  {
    if from + |pat| > |s| then -1
    else if s[from..from + |pat|] == pat then from
    else IndexOfFrom(s, pat, from + 1)
  }

  /** `s.indexOf(pat)`: the first occurrence of `pat` in `s`, or -1. */
  function IndexOf(s: string, pat: string): (r: int)
    ensures r >= 0 <==> Contains(s, pat)
    ensures r >= 0 ==> OccursAt(s, pat, r) && forall i :: 0 <= i < r ==> !OccursAt(s, pat, i)
  {
    IndexOfFrom(s, pat, 0)
  }

  /** A string that has no `c` in it contains no pattern that starts with `c`. */
  lemma NotContainedWithoutFirstChar(s: string, pat: string)
    requires |pat| > 0
    requires forall i :: 0 <= i < |s| ==> s[i] != pat[0]
    ensures !Contains(s, pat)
  {
    forall i | 0 <= i && i + |pat| <= |s| ensures !OccursAt(s, pat, i) {
      assert s[i..i + |pat|][0] == s[i] != pat[0];
    }
  }
}
