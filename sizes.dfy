/**
 * `human_size` (scripts/download-forms.py lines 229-234), the size shown
 * after a successful download, for its two integer branches.
 */
module Sizes {
  import opened Wrappers
  import opened Text

  const KiB: nat := 1024
  const MiB: nat := 1024 * 1024

  /** `t` is a decimal numeral followed by `unit`; `value` is what the numeral reads. */
  predicate ShowsAs(t: string, value: nat, unit: string) {
    |t| > |unit| && t[|t| - |unit|..] == unit &&
    var digits := t[..|t| - |unit|];
    AllDigits(digits) && ParseDecimal(digits) == value && (digits[0] == '0' ==> digits == "0")
  }

  /**
   * `human_size(n)`: below 1024 the exact byte count and "B"; below 1024*1024
   * the whole number of kibibytes, from 1 to 1023, and "KB". The third
   * branch formats a float and is not modelled: it gives None.
   */
  function HumanSize(n: nat): (r: Option<string>)
    ensures n < KiB ==> r.Some? && ShowsAs(r.value, n, "B")
    ensures KiB <= n < MiB ==>
      r.Some? && exists k: nat :: 1 <= k < KiB && k * KiB <= n < (k + 1) * KiB && ShowsAs(r.value, k, "KB")
    ensures r.Some? <==> n < MiB
  {
    if n < KiB then
      var d := Decimal(n);
      assert (d + "B")[..|d|] == d;
      Some(d + "B")
    else if n < MiB then
      var k := n / KiB;
      var d := Decimal(k);
      assert (d + "KB")[..|d|] == d;
      assert 1 <= k < KiB && k * KiB <= n < (k + 1) * KiB;
      assert ShowsAs(d + "KB", k, "KB");
      Some(d + "KB")
    else
      None
  }

  /** Different byte counts below 1024 never show alike. */
  lemma BytesDistinct(m: nat, n: nat)
    requires m < KiB && n < KiB && HumanSize(m) == HumanSize(n)
    ensures m == n
  {
    var t := HumanSize(m).value;
    assert ShowsAs(t, m, "B") && ShowsAs(t, n, "B");
  }

  /** A size in kibibytes shows as a different text from any byte count. */
  lemma UnitsDistinct(m: nat, n: nat)
    requires m < KiB <= n < MiB
    ensures HumanSize(m) != HumanSize(n)
  {
    var t := HumanSize(m).value;
    var u := HumanSize(n).value;
    var k: nat :| 1 <= k < KiB && k * KiB <= n < (k + 1) * KiB && ShowsAs(u, k, "KB");
    assert |t| >= 2 ==> IsDigit(t[|t| - 2]) by {
      if |t| >= 2 { assert t[|t| - 2] == t[..|t| - 1][|t| - 2]; }
    }
    assert u[|u| - 2] == 'K' && !IsDigit('K');
  }
}
