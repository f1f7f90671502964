/**
 * Detection of translated (non-English) form files by the language code at
 * the end of the file name: `LANG_SUFFIXES`, `should_skip` and the older,
 * unused `is_lang_variant` of scripts/download-forms.py.
 */
module LangFilter {
  import opened Text

  /** `LANG_SUFFIXES` (lines 26-30), in the order the set literal lists them. */
  const LangSuffixList: seq<string> := [
    "sp", "ru", "ko", "zhs", "zht", "ar", "bn", "cs", "de", "fa", "fr",
    "gj", "gu", "ht", "it", "ja", "km", "kr", "pa", "pl", "pt", "so",
    "tl", "ur", "vn", "vie", "cn"
  ]

  const LangSuffixes: set<string> := set s | s in LangSuffixList

  /**
   * One result of `sorted(LANG_SUFFIXES, key=len, reverse=True)`. Python's
   * set iteration order is not fixed, so neither is the order among codes of
   * equal length; `ScanOrderIrrelevant` shows the choice does not matter.
   */
  const LongestFirst: seq<string> := [
    "zhs", "zht", "vie",
    "sp", "ru", "ko", "ar", "bn", "cs", "de", "fa", "fr", "gj", "gu", "ht",
    "it", "ja", "km", "kr", "pa", "pl", "pt", "so", "tl", "ur", "vn", "cn"
  ]

  /** Every language code has two or three letters. */
  lemma SuffixLength(s: string)
    requires s in LangSuffixes
    ensures 2 <= |s| <= 3
  {
  }

  /** `LongestFirst` holds exactly the language codes. */
  lemma LongestFirstSameCodes()
    ensures forall s :: s in LongestFirst <==> s in LangSuffixes
  {
    assert forall s :: s in LongestFirst <==> s in LangSuffixList;
  }

  /** `LongestFirst` is ordered by decreasing length. */
  lemma LongestFirstOrdered()
    ensures forall i :: 0 <= i < |LongestFirst| - 1 ==> |LongestFirst[i]| >= |LongestFirst[i + 1]|
  {
  }

  /** The set literal lists 27 different codes, and `LongestFirst` holds each of them once. */
  lemma CodesDistinct()
    ensures |LangSuffixes| == |LangSuffixList| == |LongestFirst| == 27
  {
    assert forall i, j :: 0 <= i < j < |LangSuffixList| ==> LangSuffixList[i] != LangSuffixList[j];
    DistinctCard(LangSuffixList);
  }

  /** A list without repeats has as many elements as its set. */
  lemma {:induction false} DistinctCard(l: seq<string>)
    requires forall i, j :: 0 <= i < j < |l| ==> l[i] != l[j]
    ensures |set s | s in l| == |l|
  {
    if l != [] {
      DistinctCard(l[1..]);
      assert (set s | s in l) == {l[0]} + (set s | s in l[1..]);
      assert l[0] !in (set s | s in l[1..]);
    }
  }

  /** `fname.replace(".pdf", "")`. */
  function Base(fname: string): string {
    RemoveAll(fname, ".pdf")
  }

  /** The base of a plain file name is the name without its extension. */
  lemma BaseOfPlain(name: string)
    requires '.' !in name
    ensures Base(name + ".pdf") == name
  {
    RemoveTrailing(name, ".pdf");
  }

  // ---------------------------------------------------------------- should_skip

  /** The test `should_skip` applies to each code (line 212). */
  predicate SkipHit(base: string, suffix: string) {
    EndsWith(base, suffix) && |base| > |suffix| + 2
  }

  /** The loop of `should_skip`: true at the first code that hits, false when none does. */
  function ScanSkip(base: string, order: seq<string>): (r: bool)
    ensures r <==> exists i :: 0 <= i < |order| && SkipHit(base, order[i])
  {
    if order == [] then false
    else if SkipHit(base, order[0]) then true
    else
      var r := ScanSkip(base, order[1..]);
      assert forall i :: 1 <= i < |order| ==> order[i] == order[1..][i - 1];
      r
  }

  /** `should_skip(fname)`. */
  function ShouldSkip(fname: string): bool {
    ScanSkip(Base(fname), LongestFirst)
  }

  /** Any two scans over the same codes agree, whatever their order. */
  lemma ScanOrderIrrelevant(base: string, o1: seq<string>, o2: seq<string>)
    requires forall s :: s in o1 <==> s in o2
    ensures ScanSkip(base, o1) == ScanSkip(base, o2)
  {
    if ScanSkip(base, o1) {
      var i :| 0 <= i < |o1| && SkipHit(base, o1[i]);
      assert o1[i] in o2;
    }
    if ScanSkip(base, o2) {
      var i :| 0 <= i < |o2| && SkipHit(base, o2[i]);
      assert o2[i] in o1;
    }
  }

  /**
   * `should_skip(f)` holds exactly when the base ends in a language code and
   * is more than two characters longer than it.
   */
  lemma ShouldSkipSpec(fname: string)
    ensures ShouldSkip(fname) <==> exists s :: s in LangSuffixes && SkipHit(Base(fname), s)
  {
    LongestFirstSameCodes();
    if ShouldSkip(fname) {
      var i :| 0 <= i < |LongestFirst| && SkipHit(Base(fname), LongestFirst[i]);
      assert LongestFirst[i] in LangSuffixes;
    } else {
      forall s | s in LangSuffixes ensures !SkipHit(Base(fname), s) {
        assert s in LongestFirst;
        var i :| 0 <= i < |LongestFirst| && LongestFirst[i] == s;
      }
    }
  }

  /** For one code: a hit means the base's last two or three characters are that code. */
  lemma SkipHitByEnding(b: string, s: string)
    requires s in LangSuffixes && SkipHit(b, s)
    ensures (|b| > 4 && b[|b| - 2..] in LangSuffixes) || (|b| > 5 && b[|b| - 3..] in LangSuffixes)
  {
    SuffixLength(s);
    if |s| == 2 { assert b[|b| - 2..] == s; } else { assert b[|b| - 3..] == s; }
  }

  /**
   * Since every code has two or three letters, `should_skip` looks only at
   * the last two and the last three characters of the base.
   */
  lemma ShouldSkipByEnding(fname: string)
    ensures var b := Base(fname);
      ShouldSkip(fname) <==>
        (|b| > 4 && b[|b| - 2..] in LangSuffixes) || (|b| > 5 && b[|b| - 3..] in LangSuffixes)
  {
    var b := Base(fname);
    ShouldSkipSpec(fname);
    if |b| > 4 && b[|b| - 2..] in LangSuffixes { assert SkipHit(b, b[|b| - 2..]); }
    if |b| > 5 && b[|b| - 3..] in LangSuffixes { assert SkipHit(b, b[|b| - 3..]); }
    if ShouldSkip(fname) {
      var s :| s in LangSuffixes && SkipHit(b, s);
      SkipHitByEnding(b, s);
    }
  }

  /** A base of at most four characters is never skipped: the shortest code has two. */
  lemma ShortBaseKept(fname: string)
    requires |Base(fname)| <= 4
    ensures !ShouldSkip(fname)
  {
    ShouldSkipByEnding(fname);
  }

  /** A plain name whose last two or three characters are a code, with enough in front, is dropped. */
  lemma DroppedByCode(name: string, code: string)
    requires '.' !in name && code in LangSuffixes && EndsWith(name, code) && |name| > |code| + 2
    ensures ShouldSkip(name + ".pdf")
  {
    BaseOfPlain(name);
    ShouldSkipSpec(name + ".pdf");
    assert SkipHit(name, code);
  }

  /** A plain name is kept when neither its last two nor its last three characters are a code. */
  lemma KeptByEnding(name: string)
    requires '.' !in name
    requires |name| > 4 ==> name[|name| - 2..] !in LangSuffixes
    requires |name| > 5 ==> name[|name| - 3..] !in LangSuffixes
    ensures !ShouldSkip(name + ".pdf")
  {
    BaseOfPlain(name);
    ShouldSkipByEnding(name + ".pdf");
  }

  // ------------------------------------------------------------ is_lang_variant

  /**
   * The test `is_lang_variant` applies to each code (lines 198-201): the base
   * ends in it and either the root names a listed form or the root is not
   * empty.
   */
  predicate VariantHit(base: string, suffix: string, known: set<string>) {
    EndsWith(base, suffix) &&
    var root := base[..|base| - |suffix|];
    root + ".pdf" in known || root != []
  }

  /** The loop of `is_lang_variant`, over the set in some iteration order. */
  function ScanVariant(base: string, order: seq<string>, known: set<string>): (r: bool)
    ensures r <==> exists i :: 0 <= i < |order| && VariantHit(base, order[i], known)
  {
    if order == [] then false
    else if VariantHit(base, order[0], known) then true
    else
      var r := ScanVariant(base, order[1..], known);
      assert forall i :: 1 <= i < |order| ==> order[i] == order[1..][i - 1];
      r
  }

  /**
   * `is_lang_variant(fname)`, scanning the codes in their listed order;
   * `known` stands for `ALL_FORMS_SET`, the set of listed names.
   */
  function IsLangVariant(fname: string, known: set<string>): bool {
    ScanVariant(Base(fname), LangSuffixList, known)
  }

  /** For one code: with no bare extension listed, only a non-empty root counts. */
  lemma VariantHitSpec(base: string, suffix: string, known: set<string>)
    requires ".pdf" !in known
    ensures VariantHit(base, suffix, known) <==> EndsWith(base, suffix) && |base| > |suffix|
  {
    if EndsWith(base, suffix) {
      var root := base[..|base| - |suffix|];
      assert |root| == |base| - |suffix|;
      if root == [] {
        assert root + ".pdf" == ".pdf";
      }
    }
  }

  /**
   * The membership test in `is_lang_variant` never decides anything for a
   * set without the bare extension, as `ALL_FORMS_SET` is
   * (`FormList.NoBareExtension`): the predicate holds exactly when the base
   * ends in a code and its root is not empty.
   */
  lemma IsLangVariantSpec(fname: string, known: set<string>)
    requires ".pdf" !in known
    ensures IsLangVariant(fname, known) <==>
      exists s :: s in LangSuffixes && EndsWith(Base(fname), s) && |Base(fname)| > |s|
  {
    var base := Base(fname);
    if IsLangVariant(fname, known) {
      var i :| 0 <= i < |LangSuffixList| && VariantHit(base, LangSuffixList[i], known);
      var s := LangSuffixList[i];
      VariantHitSpec(base, s, known);
      assert s in LangSuffixes && EndsWith(base, s) && |base| > |s|;
    } else {
      forall s | s in LangSuffixes && EndsWith(base, s) ensures |base| <= |s| {
        var i :| 0 <= i < |LangSuffixList| && LangSuffixList[i] == s;
        assert !VariantHit(base, LangSuffixList[i], known);
        VariantHitSpec(base, s, known);
      }
    }
  }

  /** Every name `should_skip` drops, `is_lang_variant` flags, whatever the listed names. */
  lemma SkipImpliesVariant(fname: string, known: set<string>)
    requires ShouldSkip(fname)
    ensures IsLangVariant(fname, known)
  {
    ShouldSkipSpec(fname);
    var base := Base(fname);
    var s :| s in LangSuffixes && SkipHit(base, s);
    var i :| 0 <= i < |LangSuffixList| && LangSuffixList[i] == s;
    assert base[..|base| - |s|] != [];
    assert VariantHit(base, LangSuffixList[i], known);
  }

  /**
   * The converse fails: a base of three or four characters that ends in a
   * code is a variant to `is_lang_variant` but is kept by `should_skip`.
   */
  lemma ShortVariantKept(fname: string, s: string, known: set<string>)
    requires ".pdf" !in known
    requires s in LangSuffixes && EndsWith(Base(fname), s) && |s| < |Base(fname)| <= 4
    ensures IsLangVariant(fname, known) && !ShouldSkip(fname)
  {
    IsLangVariantSpec(fname, known);
    ShortBaseKept(fname);
  }
}
