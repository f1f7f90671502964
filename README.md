# IRS form downloader: selection and tally

This project models the core of `scripts/download-forms.py`, the script that
fetches the IRS's current-year form PDFs from `https://www.irs.gov/pub/irs-pdf`
into a local directory. The core is

- the list of language codes `LANG_SUFFIXES` and the two predicates that
  recognise a non-English variant from its file name. `should_skip` is the
  one the script uses. `is_lang_variant` is an older, unused test. Its
  lookup of the root in `ALL_FORMS_SET` never decides: a code counts
  whenever something is left before it;
- the list of names to fetch: the entries of `ALL_FORMS` that `should_skip`
  keeps, in list order;
- `download`: one GET request. On success the body is written to the
  destination and its length returned. A 404 returns nothing. Any other
  failure escapes;
- the loop of `main`. It skips names whose file already exists, downloads the
  others and counts `passed`, `skipped` and `failed`;
- the byte and kilobyte branches of `human_size`.

Modules:

- `Text`: `.pdf` removal (`str.replace`), suffix tests and decimal rendering.
- `LangFilter`: the codes and both predicates.
- `FormList`: the 744 literal names of `ALL_FORMS`.
- `Selection`: the filter at line 239.
- `Sizes`: `human_size`.
- `Downloader`: the file system as a class holding a map from paths to bytes;
  the server as a class with a fixed answer per URL and a log of the URLs
  asked for; `download`; the loop.

The loop is a method proved against `Replay`, a left fold of one iteration
(`Step`) over the names. The properties of `Replay` are proved as lemmas.

The filter goes by spelling alone. Reading `ShouldSkipByEnding` against the
list, it drops eight names: `f1120so`, `f5471so`, `f5471sp`, `f706so`, `f720cs`,
`f8038cpa`, `f8865so` and `f990so`. By the list's own naming (`f<form>s<letter>`
for schedules), these are English schedules and forms whose names happen to
end in a code. None of them is a translation. `Selection.F5471SPNotSelected`
and `Selection.F1120SONotSelected` prove this for two of them, with
`FormList.ListedF5471SP` and `FormList.ListedF1120SO` showing that they are
listed.

The module comment at the top of the script describes three filters. Only the
language filter exists in the code: nothing removes administrative forms or
year-stamped duplicates. The model follows the code.

## Model

| member | source | states |
|---|---|---|
| Text.EndsWith | scripts/download-forms.py:212 | `str.endswith`: the string is at least as long as the suffix and its last characters are the suffix |
| Text.RemoveAll | scripts/download-forms.py:196 | `str.replace(pat, "")` never lengthens a string and leaves it alone when `pat` does not occur |
| Text.RemoveTrailing | scripts/download-forms.py:209 | removing `.pdf` from a dot-free name followed by `.pdf` gives back the name |
| Text.Decimal | scripts/download-forms.py:231 | the decimal rendering of `n` is all digits, has no leading zero and parses back to `n` |
| Text.DecimalInjective | scripts/download-forms.py:231 | different numbers render differently |
| LangFilter.LangSuffixList | scripts/download-forms.py:26-30 | the 27 language codes, in the order the source lists them |
| LangFilter.LongestFirst | scripts/download-forms.py:211 | the order `should_skip` scans the codes in: the three-letter codes, then the two-letter ones |
| LangFilter.SkipHit | scripts/download-forms.py:212 | the per-code test of `should_skip`: the base ends in the code and is more than two characters longer |
| LangFilter.VariantHit | scripts/download-forms.py:198-201 | the per-code test of `is_lang_variant`: the base ends in the code and the root left is listed or non-empty |
| LangFilter.LangSuffixes | scripts/download-forms.py:26-30 | the set of the 27 language codes |
| LangFilter.Base | scripts/download-forms.py:209 | the base of a name: every `.pdf` removed, as `str.replace` does |
| LangFilter.ShouldSkip | scripts/download-forms.py:207-214 | `should_skip`: the longest-first scan over the codes, on the base |
| LangFilter.IsLangVariant | scripts/download-forms.py:194-203 | `is_lang_variant` over a given set of listed names, scanning the codes in listing order |
| FormList.AllForms | scripts/download-forms.py:33-192 | the 744 names of `ALL_FORMS`, in order |
| FormList.AllFormsSet | scripts/download-forms.py:205 | `ALL_FORMS_SET`: the names of `ALL_FORMS` |
| LangFilter.SuffixLength | scripts/download-forms.py:26-30 | every language code has two or three letters |
| LangFilter.CodesDistinct | scripts/download-forms.py:26-30 | the 27 listed codes are distinct, so the set has 27 members |
| LangFilter.LongestFirstSameCodes | scripts/download-forms.py:211 | the scan order of `should_skip` lists exactly the codes of the set |
| LangFilter.LongestFirstOrdered | scripts/download-forms.py:211 | that order is by non-increasing length |
| LangFilter.BaseOfPlain | scripts/download-forms.py:209 | the base of `name.pdf` is `name` for a dot-free name |
| LangFilter.ScanSkip | scripts/download-forms.py:211-214 | the early-return scan is true iff some code in the order is a suffix of the base with more than two characters before it |
| LangFilter.ScanOrderIrrelevant | scripts/download-forms.py:211 | any two orders listing the same codes give the same answer |
| LangFilter.ShouldSkipSpec | scripts/download-forms.py:207-214 | `should_skip(f)` iff the base ends in some code `s` and is longer than `len(s) + 2` |
| LangFilter.ShouldSkipByEnding | scripts/download-forms.py:207-214 | equivalently: a base of more than four characters whose last two are a code, or of more than five whose last three are a code |
| LangFilter.ShortBaseKept | scripts/download-forms.py:212 | a base of at most four characters is never skipped |
| LangFilter.DroppedByCode | scripts/download-forms.py:212-213 | a dot-free name ending in a code with more than two characters before it is skipped |
| LangFilter.KeptByEnding | scripts/download-forms.py:214 | a dot-free name whose last two or three characters are no code is kept |
| LangFilter.ScanVariant | scripts/download-forms.py:197-203 | the scan of `is_lang_variant` is true iff some code is a suffix whose root is listed or non-empty |
| LangFilter.VariantHitSpec | scripts/download-forms.py:199-202 | when the bare `.pdf` is not listed, a code hits iff it is a proper suffix |
| LangFilter.IsLangVariantSpec | scripts/download-forms.py:194-203 | `is_lang_variant(f)` iff the base ends in some code with a non-empty root; the set lookup never decides |
| LangFilter.SkipImpliesVariant | scripts/download-forms.py:194-214 | every name `should_skip` drops, `is_lang_variant` flags |
| LangFilter.ShortVariantKept | scripts/download-forms.py:194-214 | the converse fails: a short base ending in a code is a variant and is kept |
| FormList.NoBareExtension | scripts/download-forms.py:33-192 | `.pdf` alone is not in `ALL_FORMS_SET`, so `IsLangVariantSpec` applies to the real list |
| FormList.ListedExamples | scripts/download-forms.py:33-192 | `f1040.pdf`, `fw4p.pdf`, `f1120so.pdf` and `f5471sp.pdf` are listed |
| Selection.Candidates | scripts/download-forms.py:239 | the kept list is no longer than the input and holds exactly the input's names that `should_skip` keeps |
| Selection.CandidatesAppend | scripts/download-forms.py:239 | filtering a concatenation concatenates the filtered parts |
| Selection.CandidatesCounts | scripts/download-forms.py:239 | a kept name occurs in the result as often as in the input, a skipped one not at all |
| Selection.CandidatesSubsequence | scripts/download-forms.py:239 | the result is a subsequence of the input, so the order is kept |
| Selection.CandidatesIdempotent | scripts/download-forms.py:239 | filtering the result again changes nothing |
| Selection.F1040Selected | scripts/download-forms.py:239 | `f1040.pdf` is selected for download when listed |
| Selection.FW4PSelected | scripts/download-forms.py:239 | `fw4p.pdf` is selected for download when listed, its base being too short to carry a code |
| Selection.F5471SPNotSelected | scripts/download-forms.py:239 | `f5471sp.pdf`, Schedule P of Form 5471, is never selected: it ends in `sp` |
| Selection.F1120SONotSelected | scripts/download-forms.py:239 | `f1120so.pdf`, Schedule O of Form 1120, is never selected: it ends in `so` |
| Sizes.HumanSize | scripts/download-forms.py:229-234 | below 1024 the text is `n` in decimal then `B`; below 1024² it is `k` then `KB` for the unique `k` in 1..1023 with `k*1024 <= n < (k+1)*1024`; a result exists exactly below 1024² |
| Sizes.BytesDistinct | scripts/download-forms.py:230-231 | different byte counts below 1024 print differently |
| Sizes.UnitsDistinct | scripts/download-forms.py:230-233 | a `B` text is never a `KB` text |
| Downloader.BaseUrl | scripts/download-forms.py:23 | the server's base URL, `https://www.irs.gov/pub/irs-pdf` |
| Downloader.Url | scripts/download-forms.py:249 | the URL of a name: the base URL, a slash, the name |
| Downloader.DestPath | scripts/download-forms.py:248 | the destination of a name: the directory, a slash, the name |
| Downloader.FileSystem.Exists | scripts/download-forms.py:251 | `os.path.exists`: the path is among the files on disk |
| Downloader.FileSystem.WriteFile | scripts/download-forms.py:221-222 | writing a file sets that path to the data and leaves every other path as it was |
| Downloader.Server.Get | scripts/download-forms.py:219-220 | a request gets the server's fixed answer for the URL and appends the URL to the log |
| Downloader.UrlNameOfUrl | scripts/download-forms.py:249 | the name a URL is built from can be read back from it |
| Downloader.UrlOfUrlName | scripts/download-forms.py:249 | every form URL is the URL of the name it carries |
| Downloader.DestPathRoundTrip | scripts/download-forms.py:248 | a destination path determines its file name |
| Downloader.Download | scripts/download-forms.py:216-227 | exactly one request; on success the destination holds the body and the result is its length; on 404 the result is None and no file changes; otherwise the error escapes and no file changes |
| Downloader.Step | scripts/download-forms.py:247-262 | one iteration: after an exception nothing; an existing file is counted as skipped; otherwise one request, with a body saved and counted as passed, a 404 counted as failed, any other failure the exception |
| Downloader.Replay | scripts/download-forms.py:247-262 | the loop over a list of names: one `Step` per name in order, from the initial disk with all counters zero |
| Downloader.StepCountsOne | scripts/download-forms.py:251-262 | an iteration that ends normally adds one to exactly one counter |
| Downloader.StepExisting | scripts/download-forms.py:251-254 | a name whose file exists only increases `skipped`: no request and no file written |
| Downloader.StepFaults | scripts/download-forms.py:256 | an exception escapes from an iteration exactly when the name's file does not exist and the server fails with something other than 404 |
| Downloader.StepCountsVerdict | scripts/download-forms.py:251-262 | for a name not handled before, the counter that grows is the one its outcome names |
| Downloader.ReplayAccounted | scripts/download-forms.py:247-262 | after any prefix: old files unchanged, each new file is the destination of a handled name and holds the server's body, each request is for a handled name whose file did not exist, the counters add up |
| Downloader.ReplayStaysFaulted | scripts/download-forms.py:256 | after an exception nothing else happens |
| Downloader.ReplayTally | scripts/download-forms.py:243-262 | each counter is at most the number of names, and the sum equals it exactly when no exception escaped |
| Downloader.ReplayKeepsExisting | scripts/download-forms.py:251-254 | a file that existed before the run is neither removed nor rewritten |
| Downloader.ExistingNeverRequested | scripts/download-forms.py:251-254 | a name whose file existed before is never requested |
| Downloader.UndeliveredWritesNothing | scripts/download-forms.py:216-227 | a name the server does not deliver leaves no file |
| Downloader.DeliveredIsSaved | scripts/download-forms.py:219-223 | after a run without an exception, each delivered name's file holds exactly the body received |
| Downloader.ReplayFaultFree | scripts/download-forms.py:224-227 | the run finishes iff no name is missing on disk with a non-404 failure |
| Downloader.ReplayCounts | scripts/download-forms.py:251-262 | with distinct names, `skipped` counts names already on disk, `passed` those delivered and `failed` those answered 404 |
| Downloader.DownloadEach | scripts/download-forms.py:241-262 | the loop leaves the disk, the request log and the counters or the exception exactly as `Replay` says; the counters add up to the number of names |
| Downloader.DownloadAll | scripts/download-forms.py:236-265 | `main` handles exactly the names `should_skip` keeps, in order, with `DownloadEach`'s guarantees |

## Left out

- `scripts/scrape-metadata.py` is not part of this model. It drives a browser and has no logic of its own to state.
- Networking in `download`: the `urllib` request, its User-Agent header, the 30-second timeout and redirects. The server is a fixed answer per URL: the body, an HTTP status or a failed connection.
- A failed disk write is not modelled: `open`/`write` always succeed.
- `os.makedirs(DEST)` is not modelled: the destination directory is taken to exist.
- `os.path.join(DEST, fname)` is `dest + "/" + fname`. No listed name is an absolute path, and `dest` is taken to have no trailing slash (a year argument such as `2025/` would give one).
- The year argument and `DEST` (lines 20-22) are a parameter `dest`. The server's base URL is the constant at line 23.
- Console output: the progress lines, the `{fname:<50}` padding and the final summary line.
- Sizes.HumanSize: the megabyte branch (line 234) formats a float with one decimal. The model returns None there.
- Downloader.DownloadAll: `ALL_FORMS` is the parameter `forms`. The 744-name literal is `FormList.AllForms`, and the per-name facts about it are `FormList.Listed*`. Stating the loop over the literal directly costs too much proof effort.
- Which names of `ALL_FORMS` the filter drops is not proved for the whole list. It is proved for `f5471sp.pdf` and `f1120so.pdf`; for the other six named above, it follows from `LangFilter.DroppedByCode` one name at a time. Proving it for all 744 names at once is too large for the solver.
- That the entries of `ALL_FORMS` are distinct is not proved. `Downloader.ReplayCounts` takes distinctness as a precondition.
- The metadata-driven mode, with revision years and per-year directories, is not in this script and is not modelled.
