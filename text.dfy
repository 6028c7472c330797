/** Operations on strings that the weather service relies on: ASCII lower-casing (standing for
    Python's `str.lower`), substring search (Python's `in` on strings) and the decimal rendering of
    a status code inside an f-string. */
module Text {

  predicate IsUpper(c: char) {
    'A' <= c <= 'Z'
  }

  /** Lower-case one character; only the ASCII letters A-Z change. */
  function LowerChar(c: char): char {
    if IsUpper(c) then (c as int + 32) as char else c
  }

  /** `s.lower()`, restricted to ASCII letters. */
  function Lower(s: string): (r: string)
    ensures |r| == |s|
    ensures forall i :: 0 <= i < |s| ==> r[i] == LowerChar(s[i])
    ensures forall i :: 0 <= i < |r| ==> !IsUpper(r[i])
  {
    if s == [] then [] else [LowerChar(s[0])] + Lower(s[1..])
  }

  /** Lower-casing twice is lower-casing once. */
  lemma LowerIdempotent(s: string)
    ensures Lower(Lower(s)) == Lower(s)
  {
    var once := Lower(s);
    var twice := Lower(once);
    assert |twice| == |once|;
    forall i | 0 <= i < |once| ensures twice[i] == once[i] {
      assert !IsUpper(once[i]);
    }
  }

  /** Lower-casing commutes with taking a slice. */
  lemma LowerSlice(s: string, i: nat, j: nat)
    requires i <= j <= |s|
    ensures Lower(s)[i..j] == Lower(s[i..j])
  {
    var whole, sub := Lower(s), s[i..j];
    var part := Lower(sub);
    forall k | 0 <= k < j - i ensures whole[i..j][k] == part[k] {
      assert sub[k] == s[i + k];
      assert part[k] == LowerChar(sub[k]);
      assert whole[i + k] == LowerChar(s[i + k]);
    }
    assert whole[i..j] == part;
  }

  /** `pat` occurs in `s` starting at position `i`. */
  ghost predicate OccursAt(s: string, pat: string, i: int) {
    0 <= i && i + |pat| <= |s| && s[i..i + |pat|] == pat
  }

  /** An occurrence past the first position is an occurrence in the tail, one place earlier. */
  lemma ShiftOccurrence(s: string, pat: string, i: int)
    requires s != [] && 1 <= i
    ensures OccursAt(s, pat, i) <==> OccursAt(s[1..], pat, i - 1)
  {
    if i + |pat| <= |s| {
      assert s[1..][i - 1..i - 1 + |pat|] == s[i..i + |pat|];
    }
  }

  /** The occurrences of `pat` in a non-empty `s`: at the start exactly when `pat` is a prefix,
      and elsewhere exactly where the tail has one, one place earlier. */
  lemma OccurrencesOfTail(s: string, pat: string)
    requires s != []
    ensures OccursAt(s, pat, 0) <==> pat <= s
    ensures forall i :: 1 <= i ==> (OccursAt(s, pat, i) <==> OccursAt(s[1..], pat, i - 1))
  {
    forall i | 1 <= i ensures OccursAt(s, pat, i) <==> OccursAt(s[1..], pat, i - 1) {
      ShiftOccurrence(s, pat, i);
    }
    if pat <= s {
      assert s[0..|pat|] == pat;
    }
  }

  /** When `pat` is not a prefix of a non-empty `s`, it occurs in `s` exactly when it occurs in
      the tail. */
  lemma OccursInTail(s: string, pat: string)
    requires s != [] && !(pat <= s)
    ensures (exists i :: OccursAt(s, pat, i)) <==> (exists j :: OccursAt(s[1..], pat, j))
  {
    OccurrencesOfTail(s, pat);
    if exists i :: OccursAt(s, pat, i) {
      var i :| OccursAt(s, pat, i);
      assert OccursAt(s[1..], pat, i - 1);
    }
    if exists j :: OccursAt(s[1..], pat, j) {
      var j :| OccursAt(s[1..], pat, j);
      assert OccursAt(s, pat, j + 1);
    }
  }

  /** `pat in s`: a left-to-right scan, true exactly when `pat` occurs somewhere in `s`. */
  function Contains(s: string, pat: string): (r: bool)
    ensures r <==> exists i :: OccursAt(s, pat, i)
    decreases |s|
  {
    if pat <= s then
      assert s[0..|pat|] == pat;
      assert OccursAt(s, pat, 0);
      true
    else if s == [] then false
    else
      OccursInTail(s, pat);
      Contains(s[1..], pat)
  }

  /** A pattern whose first two characters never stand side by side in `s` does not occur in it. */
  lemma AbsentWithoutLeadingPair(s: string, pat: string)
    requires |pat| >= 2
    requires forall i :: 0 <= i < |s| - 1 ==> s[i] != pat[0] || s[i + 1] != pat[1]
    ensures !Contains(s, pat)
  {
    forall i ensures !OccursAt(s, pat, i) {
      if 0 <= i && i + |pat| <= |s| {
        var window := s[i..i + |pat|];
        assert window[0] == s[i] && window[1] == s[i + 1];
      }
    }
  }

  /** An occurrence of `pat` in `s` is an occurrence of the lower-cased `pat` in the lower-cased `s`. */
  lemma LowerKeepsOccurrence(s: string, pat: string)
    requires Contains(s, pat)
    ensures Contains(Lower(s), Lower(pat))
  {
    var i :| OccursAt(s, pat, i);
    var ls, lp := Lower(s), Lower(pat);
    LowerSlice(s, i, i + |pat|);
    assert s[i..i + |pat|] == pat;
    assert ls[i..i + |lp|] == lp;
    assert OccursAt(ls, lp, i);
  }

  predicate IsDigits(s: string) {
    forall i :: 0 <= i < |s| ==> '0' <= s[i] <= '9'
  }

  function Digit(d: nat): char
    requires d < 10
  {
    ('0' as int + d) as char
  }

  /** The decimal rendering of a non-negative integer, as `str(n)` writes it. */
  function NatToDecimal(n: nat): (s: string)
    ensures s != [] && IsDigits(s)
    ensures s[0] == '0' ==> n == 0 && s == "0"
    decreases n
  {
    if n < 10 then [Digit(n)] else NatToDecimal(n / 10) + [Digit(n % 10)]
  }

  /** The number a string of decimal digits denotes. */
  function DecimalValue(s: string): nat
    requires IsDigits(s)
    decreases |s|
  {
    if s == [] then 0 else DecimalValue(s[..|s| - 1]) * 10 + (s[|s| - 1] as int - '0' as int)
  }

  /** Reading back the rendering of `n` gives `n`. */
  lemma {:induction false} DecimalRoundTrip(n: nat)
    ensures DecimalValue(NatToDecimal(n)) == n
    decreases n
  {
    if n >= 10 {
      var s := NatToDecimal(n);
      var prefix := NatToDecimal(n / 10);
      assert s[..|s| - 1] == prefix;
      DecimalRoundTrip(n / 10);
    }
  }
}
