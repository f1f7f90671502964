/**
 * The list of names the script sets out to fetch (line 239 of
 * scripts/download-forms.py): the entries of `ALL_FORMS` that `should_skip`
 * keeps, in their original order.
 */
module Selection {
  import opened Text
  import opened LangFilter

  /** `[f for f in forms if not should_skip(f)]`. */
  function Candidates(forms: seq<string>): (r: seq<string>)
    ensures |r| <= |forms|
    ensures forall x :: x in r <==> x in forms && !ShouldSkip(x)
  {
    if forms == [] then []
    else (if ShouldSkip(forms[0]) then [] else [forms[0]]) + Candidates(forms[1..])
  }

  /** `s` can be obtained from `t` by deleting elements. */
  predicate IsSubsequence(s: seq<string>, t: seq<string>)
    decreases |t|
  {
    if s == [] then true
    else if t == [] then false
    else (s[0] == t[0] && IsSubsequence(s[1..], t[1..])) || IsSubsequence(s, t[1..])
  }

  /** Filtering a concatenation filters each part, so the kept names stay in their order. */
  lemma {:induction false} CandidatesAppend(a: seq<string>, b: seq<string>)
    ensures Candidates(a + b) == Candidates(a) + Candidates(b)
  {
    if a != [] {
      assert (a + b)[1..] == a[1..] + b;
      CandidatesAppend(a[1..], b);
    } else {
      assert a + b == b;
    }
  }

  /** Each kept name appears as often as in the input; each skipped name not at all. */
  lemma {:induction false} CandidatesCounts(forms: seq<string>)
    ensures forall x :: multiset(Candidates(forms))[x] == if ShouldSkip(x) then 0 else multiset(forms)[x]
  {
    if forms != [] {
      CandidatesCounts(forms[1..]);
      assert forms == [forms[0]] + forms[1..];
      assert multiset(forms) == multiset{forms[0]} + multiset(forms[1..]);
    }
  }

  /** The kept names are a subsequence of the input. */
  lemma {:induction false} CandidatesSubsequence(forms: seq<string>)
    ensures IsSubsequence(Candidates(forms), forms)
  {
    if forms != [] {
      CandidatesSubsequence(forms[1..]);
      var rest := Candidates(forms[1..]);
      if !ShouldSkip(forms[0]) {
        assert Candidates(forms) == [forms[0]] + rest;
        assert ([forms[0]] + rest)[1..] == rest;
      } else {
        assert Candidates(forms) == rest;
      }
    }
  }

  /** Filtering the filtered list again changes nothing. */
  lemma {:induction false} CandidatesIdempotent(forms: seq<string>)
    ensures Candidates(Candidates(forms)) == Candidates(forms)
  {
    if forms != [] {
      CandidatesIdempotent(forms[1..]);
      var rest := Candidates(forms[1..]);
      if !ShouldSkip(forms[0]) {
        assert Candidates(forms) == [forms[0]] + rest;
        CandidatesAppend([forms[0]], rest);
        assert Candidates([forms[0]]) == [forms[0]] + Candidates([forms[0]][1..]);
        assert [forms[0]][1..] == [];
      } else {
        assert Candidates(forms) == rest;
      }
    }
  }

  // ------------------------------------------------------------ entries of the IRS list

  /** Form 1040 (listed, see `FormList.ListedF1040`) is selected for download: it ends in no language code. */
  lemma F1040Selected(forms: seq<string>)
    requires "f1040.pdf" in forms
    ensures "f1040.pdf" in Candidates(forms)
  {
    KeptByEnding("f1040");
    assert "f1040" + ".pdf" == "f1040.pdf";
  }

  /** `fw4p.pdf` (listed, see `FormList.ListedFW4P`) is selected for download: its base is too short to carry a code. */
  lemma FW4PSelected(forms: seq<string>)
    requires "fw4p.pdf" in forms
    ensures "fw4p.pdf" in Candidates(forms)
  {
    BaseOfPlain("fw4p");
    assert "fw4p" + ".pdf" == "fw4p.pdf";
    ShortBaseKept("fw4p.pdf");
  }

  /**
   * The rule goes by spelling alone, so an English form whose name ends in
   * a code is never selected. Schedule P of Form 5471 (`f5471sp.pdf`,
   * listed, see `FormList.ListedF5471SP`) ends in "sp"; `DroppedByCode`
   * gives the same for every such name.
   */
  lemma F5471SPNotSelected(forms: seq<string>)
    ensures "f5471sp.pdf" !in Candidates(forms)
  {
    DroppedByCode("f5471sp", "sp");
    assert "f5471sp" + ".pdf" == "f5471sp.pdf";
  }

  /** Likewise Schedule O of Form 1120 (`f1120so.pdf`, listed, see `FormList.ListedF1120SO`) ends in "so". */
  lemma F1120SONotSelected(forms: seq<string>)
    ensures "f1120so.pdf" !in Candidates(forms)
  {
    DroppedByCode("f1120so", "so");
    assert "f1120so" + ".pdf" == "f1120so.pdf";
  }
}
