/**
 * The few string operations the download script leans on, written out the way
 * Python's built-ins behave: `str.endswith`, `str.replace(pat, "")` and the
 * decimal rendering of a non-negative integer in an f-string.
 */
module Text {

  /** Python's `s.endswith(suffix)`. */
  predicate EndsWith(s: string, suffix: string) {
    |suffix| <= |s| && s[|s| - |suffix|..] == suffix
  }

  /** `pat` occurs in `s` starting at index `i`. */
  predicate OccursAt(s: string, pat: string, i: nat) {
    i + |pat| <= |s| && s[i..i + |pat|] == pat
  }

  /**
   * Python's `s.replace(pat, "")`: a single left-to-right pass that deletes
   * every non-overlapping occurrence of `pat`; what the deletions bring
   * together is not scanned again.
   */
  function RemoveAll(s: string, pat: string): (r: string)
    requires pat != []
    ensures |r| <= |s|
    ensures (forall i: nat :: !OccursAt(s, pat, i)) ==> r == s
    decreases |s|
  {
    if |s| >= |pat| && s[..|pat|] == pat then
      assert OccursAt(s, pat, 0);
      RemoveAll(s[|pat|..], pat)
    else if s == [] then
      []
    else
      assert forall i: nat :: OccursAt(s[1..], pat, i) ==> OccursAt(s, pat, i + 1);
      [s[0]] + RemoveAll(s[1..], pat)
  }

  /** A name without a dot loses exactly its trailing extension. */
  lemma {:induction false} RemoveTrailing(base: string, ext: string)
    requires ext != [] && ext[0] == '.' && '.' !in base
    ensures RemoveAll(base + ext, ext) == base
    decreases |base|
  {
    if base == [] {
      assert ([] + ext)[|ext|..] == [];
      assert RemoveAll([], ext) == [];
    } else {
      assert (base + ext)[..|ext|] != ext by {
        if |base + ext| >= |ext| { assert (base + ext)[0] == base[0]; }
      }
      assert (base + ext)[1..] == base[1..] + ext;
      RemoveTrailing(base[1..], ext);
    }
  }

  predicate IsDigit(c: char) { '0' <= c <= '9' }

  predicate AllDigits(s: string) { forall i :: 0 <= i < |s| ==> IsDigit(s[i]) }

  function DigitChar(d: nat): (c: char)
    requires d < 10
    ensures IsDigit(c) && (c as int) - ('0' as int) == d
  {
    ('0' as int + d) as char
  }

  /** The value of a string of decimal digits (the empty string reads as 0). */
  function ParseDecimal(s: string): nat
    requires AllDigits(s)
    decreases |s|
  {
    if s == [] then 0
    else 10 * ParseDecimal(s[..|s| - 1]) + ((s[|s| - 1] as int) - ('0' as int))
  }

  /**
   * Python's `f"{n}"` for a non-negative integer: the canonical decimal
   * numeral. It reads back as `n` and has no leading zero.
   */
  function Decimal(n: nat): (r: string)
    ensures |r| >= 1 && AllDigits(r)
    ensures ParseDecimal(r) == n
    ensures r[0] == '0' ==> r == "0"
    decreases n
  {
    if n < 10 then [DigitChar(n)]
    else
      var prefix := Decimal(n / 10);
      var r := prefix + [DigitChar(n % 10)];
      assert r[..|r| - 1] == prefix;
      r
  }

  /** Two numbers print alike only if they are equal. */
  lemma DecimalInjective(m: nat, n: nat)
    requires Decimal(m) == Decimal(n)
    ensures m == n
  {
    assert ParseDecimal(Decimal(m)) == m;
  }
}
