/**
 * The download loop of `main` and the `download` helper
 * (scripts/download-forms.py lines 216-227 and 236-265). The file system is
 * a map from paths to contents; the IRS file server is an oracle that
 * answers each URL with the file's bytes, an HTTP error status or a failed
 * connection, and keeps a log of the URLs it was asked for.
 */
module Downloader {
  import opened Wrappers
  import opened Selection

  newtype byte = x: int | 0 <= x < 256

  /** `BASE_URL` (line 23). */
  const BaseUrl: string := "https://www.irs.gov/pub/irs-pdf"

  /** `f"{BASE_URL}/{fname}"` (line 249). */
  function Url(fname: string): string {
    BaseUrl + "/" + fname
  }

  predicate IsFormUrl(url: string) {
    |url| > |BaseUrl| && url[..|BaseUrl| + 1] == BaseUrl + "/"
  }

  /** The file name a form URL asks for. */
  function UrlName(url: string): string
    requires IsFormUrl(url)
  {
    url[|BaseUrl| + 1..]
  }

  /** A URL names its file: `UrlName` undoes `Url`. */
  lemma UrlNameOfUrl(fname: string)
    ensures IsFormUrl(Url(fname)) && UrlName(Url(fname)) == fname
  {
    assert Url(fname)[..|BaseUrl| + 1] == BaseUrl + "/";
  }

  /** Every form URL is the URL of the name it carries: `Url` undoes `UrlName`. */
  lemma UrlOfUrlName(url: string)
    requires IsFormUrl(url)
    ensures Url(UrlName(url)) == url
  {
    assert url == url[..|BaseUrl| + 1] + url[|BaseUrl| + 1..];
  }

  /** `os.path.join(DEST, fname)` (line 248), for a name that is not an absolute path. */
  function DestPath(dest: string, fname: string): string {
    dest + "/" + fname
  }

  predicate Under(dest: string, path: string) {
    |path| > |dest| && path[..|dest| + 1] == dest + "/"
  }

  /** The file name a path under `dest` ends in. */
  function NameAt(dest: string, path: string): string
    requires Under(dest, path)
  {
    path[|dest| + 1..]
  }

  /** A destination path names its file. */
  lemma DestPathRoundTrip(dest: string, fname: string)
    ensures Under(dest, DestPath(dest, fname)) && NameAt(dest, DestPath(dest, fname)) == fname
  {
    assert DestPath(dest, fname)[..|dest| + 1] == dest + "/";
  }

  /** What the server does with one GET request. */
  datatype Response = Fetched(data: seq<byte>) | HttpError(code: int) | ConnectionError

  /** An exception that escapes `download` and ends the run. */
  datatype Fault = HttpFault(code: int) | ConnectionFault

  /** The local disk: the files that exist and what they hold. */
  class FileSystem {
    var files: map<string, seq<byte>>

    constructor (initial: map<string, seq<byte>>)
      ensures files == initial
    {
      files := initial;
    }

    /** `os.path.exists(path)`. */
    predicate Exists(path: string)
      reads this
    {
      path in files
    }

    /** `open(path, "wb").write(data)`. */
    method WriteFile(path: string, data: seq<byte>)
      modifies this
      ensures files == old(files)[path := data]
    {
      files := files[path := data];
    }
  }

  /** The file server: a fixed answer per URL, and the log of what was asked. */
  class Server {
    const respond: string -> Response
    var requested: seq<string>

    constructor (respond: string -> Response)
      ensures this.respond == respond && requested == []
    {
      this.respond := respond;
      requested := [];
    }

    /** `urllib.request.urlopen(req).read()`, or the error it raises. */
    method Get(url: string) returns (r: Response)
      modifies this
      ensures r == respond(url)
      ensures requested == old(requested) + [url]
    {
      r := respond(url);
      requested := requested + [url];
    }
  }

  /**
   * `download(url, dest_path)`: one request; on success the response is
   * written to `destPath` and its length returned; a 404 returns None and
   * writes nothing; any other failure escapes as an exception.
   */
  method Download(server: Server, fs: FileSystem, url: string, destPath: string)
    returns (r: Result<Option<nat>, Fault>)
    modifies server, fs
    ensures server.requested == old(server.requested) + [url]
    ensures match server.respond(url)
      case Fetched(data) => r == Ok(Some(|data|)) && fs.files == old(fs.files)[destPath := data]
      case HttpError(code) =>
        fs.files == old(fs.files) && r == if code == 404 then Ok(None) else Err(HttpFault(code))
      case ConnectionError => fs.files == old(fs.files) && r == Err(ConnectionFault)
  {
    var resp := server.Get(url);
    match resp {
      case Fetched(data) =>
        fs.WriteFile(destPath, data);
        r := Ok(Some(|data|));
      case HttpError(code) =>
        r := if code == 404 then Ok(None) else Err(HttpFault(code));
      case ConnectionError =>
        r := Err(ConnectionFault);
    }
  }

  // ------------------------------------------------------------ the run, as values

  /** `passed`, `skipped` and `failed` of `main`. */
  datatype Tally = Tally(passed: nat, skipped: nat, failed: nat) {
    function Total(): nat { passed + skipped + failed }
  }

  /** What a run starts from: `DEST`, the server's answers and the files already on disk. */
  datatype Setup = Setup(dest: string, respond: string -> Response, initial: map<string, seq<byte>>)

  /** The state of a run after some names: the disk, the URLs asked for, the counters, the escaped exception. */
  datatype RunState = RunState(
    files: map<string, seq<byte>>, requested: seq<string>, tally: Tally, fault: Option<Fault>)

  /** One iteration of the loop in `main` (lines 247-262); nothing happens after an exception. */
  function Step(su: Setup, st: RunState, fname: string): RunState {
    if st.fault.Some? then st
    else
      var path := DestPath(su.dest, fname);
      var url := Url(fname);
      if path in st.files then
        st.(tally := st.tally.(skipped := st.tally.skipped + 1))
      else
        var sent := st.requested + [url];
        match su.respond(url)
        case Fetched(data) =>
          RunState(st.files[path := data], sent, st.tally.(passed := st.tally.passed + 1), None)
        case HttpError(code) =>
          if code == 404 then st.(requested := sent, tally := st.tally.(failed := st.tally.failed + 1))
          else st.(requested := sent, fault := Some(HttpFault(code)))
        case ConnectionError =>
          st.(requested := sent, fault := Some(ConnectionFault))
  }

  /** The loop of `main` over `names`, one `Step` per name from the first. */
  function Replay(su: Setup, names: seq<string>): RunState
    decreases |names|
  {
    if names == [] then RunState(su.initial, [], Tally(0, 0, 0), None)
    else Step(su, Replay(su, names[..|names| - 1]), names[|names| - 1])
  }

  /** What happens to one name when it is the only one: the outcome `main` prints for it. */
  datatype Verdict = Present | Saved | Missing | Fatal

  function Classify(su: Setup, fname: string): Verdict {
    if DestPath(su.dest, fname) in su.initial then Present
    else match su.respond(Url(fname))
      case Fetched(_) => Saved
      case HttpError(code) => if code == 404 then Missing else Fatal
      case ConnectionError => Fatal
  }

  function CountVerdict(su: Setup, names: seq<string>, v: Verdict): nat
    decreases |names|
  {
    if names == [] then 0
    else CountVerdict(su, names[..|names| - 1], v) + if Classify(su, names[|names| - 1]) == v then 1 else 0
  }

  predicate Distinct(names: seq<string>) {
    forall i, j :: 0 <= i < j < |names| ==> names[i] != names[j]
  }

  /** Files on disk before the run are still there, unchanged. */
  ghost predicate KeepsInitial(su: Setup, run: RunState) {
    forall p :: p in su.initial ==> p in run.files && run.files[p] == su.initial[p]
  }

  /** Every new file is the destination of a listed name and holds what the server sent for it. */
  ghost predicate NewFilesDelivered(su: Setup, names: seq<string>, run: RunState) {
    forall p :: p in run.files && p !in su.initial ==>
      Under(su.dest, p) && NameAt(su.dest, p) in names &&
      su.respond(Url(NameAt(su.dest, p))) == Fetched(run.files[p])
  }

  /** Every URL asked for is that of a listed name whose file was not on disk before. */
  ghost predicate RequestsListed(su: Setup, names: seq<string>, run: RunState) {
    forall i :: 0 <= i < |run.requested| ==>
      IsFormUrl(run.requested[i]) && UrlName(run.requested[i]) in names &&
      DestPath(su.dest, UrlName(run.requested[i])) !in su.initial
  }

  /** The counters account for every name handled, and every request is a download, a 404 or the exception. */
  predicate Counted(handled: nat, run: RunState) {
    && (run.fault.None? ==> run.tally.Total() == handled)
    && (run.fault.Some? ==> run.tally.Total() < handled)
  }

  /** Every request is a download, a 404 or the exception. */
  predicate RequestsCounted(run: RunState) {
    |run.requested| == run.tally.passed + run.tally.failed + if run.fault.Some? then 1 else 0
  }

  /** What every prefix of the run keeps. */
  ghost predicate Accounted(su: Setup, names: seq<string>, run: RunState) {
    KeepsInitial(su, run) && NewFilesDelivered(su, names, run) &&
    RequestsListed(su, names, run) && Counted(|names|, run) && RequestsCounted(run)
  }

  /** The loop's next iteration is one more `Step`. */
  lemma ReplayNext(su: Setup, names: seq<string>, i: nat)
    requires i < |names|
    ensures Replay(su, names[..i + 1]) == Step(su, Replay(su, names[..i]), names[i])
  {
    assert names[..i + 1][..i] == names[..i];
  }

  lemma StepKeepsInitial(su: Setup, st: RunState, fname: string)
    requires KeepsInitial(su, st)
    ensures KeepsInitial(su, Step(su, st, fname))
  {
  }

  lemma StepNewFilesDelivered(su: Setup, names: seq<string>, st: RunState, fname: string)
    requires KeepsInitial(su, st) && NewFilesDelivered(su, names, st)
    ensures NewFilesDelivered(su, names + [fname], Step(su, st, fname))
  {
    DestPathRoundTrip(su.dest, fname);
    assert forall x :: x in names ==> x in names + [fname];
    assert fname in names + [fname];
  }

  lemma StepRequestsListed(su: Setup, names: seq<string>, st: RunState, fname: string)
    requires KeepsInitial(su, st) && RequestsListed(su, names, st)
    ensures RequestsListed(su, names + [fname], Step(su, st, fname))
  {
    UrlNameOfUrl(fname);
    assert forall x :: x in names ==> x in names + [fname];
    assert fname in names + [fname];
  }

  lemma StepCounted(su: Setup, handled: nat, st: RunState, fname: string)
    requires Counted(handled, st)
    ensures Counted(handled + 1, Step(su, st, fname))
  {
  }

  lemma {:induction false} ReplayKeepsInitial(su: Setup, names: seq<string>)
    ensures KeepsInitial(su, Replay(su, names))
    decreases |names|
  {
    if names != [] {
      var prefix := names[..|names| - 1];
      ReplayKeepsInitial(su, prefix);
      StepKeepsInitial(su, Replay(su, prefix), names[|names| - 1]);
    }
  }

  lemma {:induction false} ReplayNewFilesDelivered(su: Setup, names: seq<string>)
    ensures NewFilesDelivered(su, names, Replay(su, names))
    decreases |names|
  {
    if names != [] {
      var prefix := names[..|names| - 1];
      assert names == prefix + [names[|names| - 1]];
      ReplayKeepsInitial(su, prefix);
      ReplayNewFilesDelivered(su, prefix);
      StepNewFilesDelivered(su, prefix, Replay(su, prefix), names[|names| - 1]);
    }
  }

  lemma {:induction false} ReplayRequestsListed(su: Setup, names: seq<string>)
    ensures RequestsListed(su, names, Replay(su, names))
    decreases |names|
  {
    if names != [] {
      var prefix := names[..|names| - 1];
      assert names == prefix + [names[|names| - 1]];
      ReplayKeepsInitial(su, prefix);
      ReplayRequestsListed(su, prefix);
      StepRequestsListed(su, prefix, Replay(su, prefix), names[|names| - 1]);
    }
  }

  lemma StepRequestsCounted(su: Setup, st: RunState, fname: string)
    requires RequestsCounted(st)
    ensures RequestsCounted(Step(su, st, fname))
  {
  }

  lemma {:induction false} ReplayRequestsCounted(su: Setup, names: seq<string>)
    ensures RequestsCounted(Replay(su, names))
    decreases |names|
  {
    if names != [] {
      var prefix := names[..|names| - 1];
      ReplayRequestsCounted(su, prefix);
      StepRequestsCounted(su, Replay(su, prefix), names[|names| - 1]);
    }
  }

  lemma {:induction false} ReplayCounted(su: Setup, names: seq<string>)
    ensures Counted(|names|, Replay(su, names))
    decreases |names|
  {
    if names != [] {
      var prefix := names[..|names| - 1];
      var st := Replay(su, prefix);
      ReplayCounted(su, prefix);
      StepCounted(su, |prefix|, st, names[|names| - 1]);
      assert Replay(su, names) == Step(su, st, names[|names| - 1]);
      assert |names| == |prefix| + 1;
    }
  }

  lemma ReplayAccounted(su: Setup, names: seq<string>)
    ensures Accounted(su, names, Replay(su, names))
  {
    ReplayKeepsInitial(su, names);
    ReplayNewFilesDelivered(su, names);
    ReplayRequestsListed(su, names);
    ReplayCounted(su, names);
    ReplayRequestsCounted(su, names);
  }

  /** An iteration that ends normally adds one to exactly one counter. */
  lemma StepCountsOne(su: Setup, st: RunState, fname: string)
    requires st.fault.None? && Step(su, st, fname).fault.None?
    ensures var t := st.tally; var t' := Step(su, st, fname).tally;
      || t' == t.(passed := t.passed + 1)
      || t' == t.(skipped := t.skipped + 1)
      || t' == t.(failed := t.failed + 1)
  {
  }

  /** A name whose file exists is only counted as skipped: no request, no file written. */
  lemma StepExisting(su: Setup, st: RunState, fname: string)
    requires st.fault.None? && DestPath(su.dest, fname) in st.files
    ensures var next := Step(su, st, fname);
      && next.files == st.files && next.requested == st.requested && next.fault.None?
      && next.tally == st.tally.(skipped := st.tally.skipped + 1)
  {
  }

  /** An exception escapes from an iteration exactly when its name is fatal. */
  lemma StepFaults(su: Setup, names: seq<string>, st: RunState, fname: string)
    requires KeepsInitial(su, st) && NewFilesDelivered(su, names, st) && st.fault.None?
    ensures Step(su, st, fname).fault.None? <==> Classify(su, fname) != Fatal
  {
    DestPathRoundTrip(su.dest, fname);
  }

  /** For a name not handled before, an iteration adds one to the counter its verdict names. */
  lemma StepCountsVerdict(su: Setup, names: seq<string>, st: RunState, fname: string)
    requires KeepsInitial(su, st) && NewFilesDelivered(su, names, st) && st.fault.None?
    requires fname !in names && Step(su, st, fname).fault.None?
    ensures var t := st.tally; var v := Classify(su, fname);
      Step(su, st, fname).tally == Tally(
        t.passed + (if v == Saved then 1 else 0),
        t.skipped + (if v == Present then 1 else 0),
        t.failed + (if v == Missing then 1 else 0))
  {
    DestPathRoundTrip(su.dest, fname);
  }

  /** Once an exception has escaped, later names change nothing. */
  lemma {:induction false} ReplayStaysFaulted(su: Setup, names: seq<string>, k: nat)
    requires k <= |names| && Replay(su, names[..k]).fault.Some?
    ensures Replay(su, names) == Replay(su, names[..k])
    decreases |names|
  {
    if k < |names| {
      var prefix := names[..|names| - 1];
      assert prefix[..k] == names[..k];
      ReplayStaysFaulted(su, prefix, k);
    } else {
      assert names[..k] == names;
    }
  }

  /** Every name is counted once: the counters add up to the names handled. */
  lemma ReplayTally(su: Setup, names: seq<string>)
    ensures var run := Replay(su, names);
      && run.tally.passed <= |names| && run.tally.skipped <= |names| && run.tally.failed <= |names|
      && (run.fault.None? <==> run.tally.Total() == |names|)
  {
    ReplayAccounted(su, names);
  }

  /** Files that were on disk before the run are neither removed nor rewritten. */
  lemma ReplayKeepsExisting(su: Setup, names: seq<string>, path: string)
    requires path in su.initial
    ensures path in Replay(su, names).files && Replay(su, names).files[path] == su.initial[path]
  {
    ReplayAccounted(su, names);
  }

  /** A name whose destination already exists is never requested. */
  lemma ExistingNeverRequested(su: Setup, names: seq<string>, fname: string)
    requires DestPath(su.dest, fname) in su.initial
    ensures Url(fname) !in Replay(su, names).requested
  {
    ReplayAccounted(su, names);
    UrlNameOfUrl(fname);
  }

  /** A name the server does not deliver leaves no file at its destination. */
  lemma UndeliveredWritesNothing(su: Setup, names: seq<string>, fname: string)
    requires DestPath(su.dest, fname) !in su.initial && !su.respond(Url(fname)).Fetched?
    ensures DestPath(su.dest, fname) !in Replay(su, names).files
  {
    ReplayAccounted(su, names);
    DestPathRoundTrip(su.dest, fname);
  }

  /** After a run without an exception, every delivered name's file holds exactly the bytes received. */
  lemma {:induction false} DeliveredIsSaved(su: Setup, names: seq<string>, fname: string, data: seq<byte>)
    requires Replay(su, names).fault.None? && fname in names
    requires DestPath(su.dest, fname) !in su.initial && su.respond(Url(fname)) == Fetched(data)
    ensures DestPath(su.dest, fname) in Replay(su, names).files
    ensures Replay(su, names).files[DestPath(su.dest, fname)] == data
    decreases |names|
  {
    var prefix := names[..|names| - 1];
    var last := names[|names| - 1];
    ReplayAccounted(su, prefix);
    DestPathRoundTrip(su.dest, fname);
    assert Replay(su, prefix).fault.None?;
    if fname in prefix {
      DeliveredIsSaved(su, prefix, fname, data);
    }
  }

  /**
   * The run ends without an exception exactly when no listed name is fatal
   * on its own: its file absent and the server failing with something other
   * than 404.
   */
  lemma {:induction false} ReplayFaultFree(su: Setup, names: seq<string>)
    ensures Replay(su, names).fault.None? <==> forall f :: f in names ==> Classify(su, f) != Fatal
    decreases |names|
  {
    if names != [] {
      var prefix := names[..|names| - 1];
      var last := names[|names| - 1];
      assert names == prefix + [last];
      ReplayFaultFree(su, prefix);
      var st := Replay(su, prefix);
      if st.fault.None? {
        ReplayAccounted(su, prefix);
        StepFaults(su, prefix, st, last);
      }
    }
  }

  /**
   * With every name listed once and no exception, each counter is the
   * number of names of its kind: `skipped` the ones already on disk,
   * `passed` the ones delivered, `failed` the ones that got a 404.
   */
  lemma {:induction false} ReplayCounts(su: Setup, names: seq<string>)
    requires Distinct(names) && Replay(su, names).fault.None?
    ensures Replay(su, names).tally ==
      Tally(CountVerdict(su, names, Saved), CountVerdict(su, names, Present), CountVerdict(su, names, Missing))
    decreases |names|
  {
    if names != [] {
      var prefix := names[..|names| - 1];
      var last := names[|names| - 1];
      assert Distinct(prefix);
      assert last !in prefix;
      var st := Replay(su, prefix);
      assert st.fault.None?;
      ReplayAccounted(su, prefix);
      ReplayCounts(su, prefix);
      StepCountsVerdict(su, prefix, st, last);
    }
  }

  // ------------------------------------------------------------ the loop of main

  /**
   * The loop of `main` (lines 247-262) over the names left after filtering:
   * it skips those whose file exists, downloads the others, and ends with
   * the three counters, or with the exception that escaped `download`.
   */
  method DownloadEach(dest: string, toDownload: seq<string>, fs: FileSystem, server: Server)
    returns (r: Result<Tally, Fault>)
    modifies fs, server
    ensures var run := Replay(Setup(dest, server.respond, old(fs.files)), toDownload);
      && fs.files == run.files
      && server.requested == old(server.requested) + run.requested
      && r == if run.fault.Some? then Err(run.fault.value) else Ok(run.tally)
    ensures r.Ok? ==> r.value.Total() == |toDownload|
    ensures forall p :: p in old(fs.files) ==> p in fs.files && fs.files[p] == old(fs.files)[p]
  {
    ghost var su := Setup(dest, server.respond, fs.files);
    ghost var sent := server.requested;
    var passed, failed, skipped := 0, 0, 0;
    for i := 0 to |toDownload|
      invariant Replay(su, toDownload[..i]).files == fs.files
      invariant Replay(su, toDownload[..i]).tally == Tally(passed, skipped, failed)
      invariant Replay(su, toDownload[..i]).fault.None?
      invariant server.requested == sent + Replay(su, toDownload[..i]).requested
    {
      var fname := toDownload[i];
      var destPath := DestPath(dest, fname);
      var url := Url(fname);
      ReplayNext(su, toDownload, i);
      if fs.Exists(destPath) {
        skipped := skipped + 1;
      } else {
        var size := Download(server, fs, url, destPath);
        match size {
          case Err(e) =>
            ReplayStaysFaulted(su, toDownload, i + 1);
            ReplayKeepsInitial(su, toDownload);
            return Err(e);
          case Ok(Some(n)) =>
            passed := passed + 1;
          case Ok(None) =>
            failed := failed + 1;
        }
      }
    }
    assert toDownload[..|toDownload|] == toDownload;
    ReplayKeepsInitial(su, toDownload);
    ReplayCounted(su, toDownload);
    r := Ok(Tally(passed, skipped, failed));
  }

  /**
   * `main` without the metadata mode (lines 236-265) over `forms`, which
   * stands for `ALL_FORMS`: the names `should_skip` keeps, in list order,
   * each handled by one iteration of the loop.
   */
  method DownloadAll(dest: string, forms: seq<string>, fs: FileSystem, server: Server)
    returns (r: Result<Tally, Fault>)
    modifies fs, server
    ensures var run := Replay(Setup(dest, server.respond, old(fs.files)), Candidates(forms));
      && fs.files == run.files
      && server.requested == old(server.requested) + run.requested
      && r == if run.fault.Some? then Err(run.fault.value) else Ok(run.tally)
    ensures r.Ok? ==> r.value.Total() == |Candidates(forms)|
    ensures forall p :: p in old(fs.files) ==> p in fs.files && fs.files[p] == old(fs.files)[p]
  {
    var toDownload := Candidates(forms);
    r := DownloadEach(dest, toDownload, fs, server);
  }
}
