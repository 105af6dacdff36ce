/**
 * Downloading the replay files ("demos") of matches: where each file goes,
 * the retry loop of one download, the switch between a worker pool and
 * sequential downloads, the two ways of naming what to download (one event
 * id, or a lookup document on disk) and the dispatch between them.
 */
module DemoDownloading {
  import opened Wrappers
  import opened Records
  import opened Dicts
  import opened Io
  import opened Paths
  import opened Text
  import MatchGathering

  /** Politeness delay after each download, whatever its outcome. */
  const SleepBetweenRequests: real := 0.5
  /** Back-off after a refused download request. */
  const EmergencySleep: real := 60.0

  /** Fetching a URL at a request number: the retry loop of `_download_file`. */
  type Fetcher = (nat, string) -> Fetch

  // ---------------------------------------------------------------------
  // Where a replay is saved
  // ---------------------------------------------------------------------

  /** The directory the replays of an event go to: `<root>/demofiles/<event id>`. */
  function DemoDir(root: string, eventId: string): string
  {
    PathJoin(PathJoin(root, "demofiles"), eventId)
  }

  /** Where a replay is saved: `<event directory>/<demo id>.rar`. */
  function DemoPath(root: string, eventId: string, demoId: string): string
  {
    PathJoin(DemoDir(root, eventId), demoId) + ".rar"
  }

  /** What `PathJoin(dir, x)` puts before a relative `x`. */
  function JoinPrefix(dir: string): string
  {
    if |dir| == 0 || dir[|dir| - 1] == '/' then dir else dir + "/"
  }

  lemma PathJoinRelative(dir: string, x: string)
    requires |x| == 0 || x[0] != '/'
    ensures PathJoin(dir, x) == JoinPrefix(dir) + x
  {
  }

  /**
   * For a root and an event id that are plain relative or absolute names
   * (no trailing `/`), the replay goes to `<root>/demofiles/<event id>/<demo id>.rar`.
   */
  lemma DemoPathShape(root: string, eventId: string, demoId: string)
    requires |root| > 0 && root[|root| - 1] != '/'
    requires |eventId| > 0 && eventId[0] != '/' && eventId[|eventId| - 1] != '/'
    requires |demoId| == 0 || demoId[0] != '/'
    ensures DemoDir(root, eventId) == root + "/demofiles/" + eventId
    ensures DemoPath(root, eventId, demoId) == root + "/demofiles/" + eventId + "/" + demoId + ".rar"
  {
    var base := PathJoin(root, "demofiles");
    assert base == root + "/" + "demofiles";
    assert base[|base| - 1] == 's';
    var dir := PathJoin(base, eventId);
    assert dir == base + "/" + eventId;
    assert dir[|dir| - 1] == eventId[|eventId| - 1];
    PathJoinRelative(dir, demoId);
  }

  /**
   * Two replays of one event with different ids never share a file: the
   * destination determines the demo id.
   */
  lemma DemoPathsDistinct(root: string, eventId: string, a: string, b: string)
    requires |a| == 0 || a[0] != '/'
    requires |b| == 0 || b[0] != '/'
    ensures DemoPath(root, eventId, a) == DemoPath(root, eventId, b) <==> a == b
  {
    var pre := JoinPrefix(DemoDir(root, eventId));
    PathJoinRelative(DemoDir(root, eventId), a);
    PathJoinRelative(DemoDir(root, eventId), b);
    var pa, pb := pre + a + ".rar", pre + b + ".rar";
    if pa == pb {
      assert |a| == |b|;
      assert a == pa[|pre|..|pre| + |a|];
      assert b == pb[|pre|..|pre| + |b|];
    }
  }

  // ---------------------------------------------------------------------
  // One download
  // ---------------------------------------------------------------------

  /** What some downloads did: the actions and how many requests they made. */
  datatype Download = Download(trace: seq<Action>, requests: nat)

  /**
   * `_download_file` from request number `n`: make the event directory,
   * run the retry loop on the demo URL, save the file when the last
   * response was accepted, then the politeness delay.
   */
  function FileRun(fetch: Fetcher, n: nat, m: MatchRecord, eventId: string, root: string): Download
  {
    var f := fetch(n, m.demoUrl);
    var saved := if f.response.status == 200 then [Write(DemoPath(root, eventId, m.demoId), DemoArchive(m.demoUrl))] else [];
    Download([MakeDirs(DemoDir(root, eventId))] + f.trace + saved + [Sleep(SleepBetweenRequests)], f.attempts)
  }

  /**
   * One download requests the demo URL one to three times, each refused
   * attempt followed by the back-off sleep; the file is saved right after
   * an accepted attempt and not at all after three refused ones; and the
   * politeness delay comes last whatever the outcome.
   */
  lemma FileRunFacts(server: (nat, string) -> Response, n: nat, m: MatchRecord, eventId: string, root: string)
    ensures var d := FileRun(Retrier(server, EmergencySleep), n, m, eventId, root);
            var url := m.demoUrl;
      && 1 <= d.requests <= MaxAttempts
      && RequestUrls(d.trace) == Repeat(url, d.requests)
      && (forall j :: n <= j < n + d.requests - 1 ==> server(j, url).status != 200)
      && if server(n + d.requests - 1, url).status == 200 then
           d.trace == [MakeDirs(DemoDir(root, eventId))] + Failed(url, EmergencySleep, d.requests - 1)
                      + [Request(url), Write(DemoPath(root, eventId, m.demoId), DemoArchive(url)), Sleep(SleepBetweenRequests)]
         else
           d.requests == MaxAttempts
           && d.trace == [MakeDirs(DemoDir(root, eventId))] + Failed(url, EmergencySleep, MaxAttempts) + [Sleep(SleepBetweenRequests)]
  {
    RetrierFacts(server, n, m.demoUrl, EmergencySleep);
    RetrierRequestsOnlyItsUrl(server, EmergencySleep);
    FileRunShape(Retrier(server, EmergencySleep), server, n, m, eventId, root);
  }

  /** The same, for any retry loop that behaves as `_get_with_retries` does. */
  lemma FileRunShape(fetch: Fetcher, server: (nat, string) -> Response, n: nat, m: MatchRecord, eventId: string, root: string)
    requires RequestsOnlyItsUrl(fetch)
    requires var f := fetch(n, m.demoUrl);
             var url := m.demoUrl;
      && f.response == server(n + f.attempts - 1, url)
      && (forall j :: n <= j < n + f.attempts - 1 ==> server(j, url).status != 200)
      && (f.response.status == 200 || f.attempts == MaxAttempts)
      && f.trace == if f.response.status == 200 then Failed(url, EmergencySleep, f.attempts - 1) + [Request(url)]
                    else Failed(url, EmergencySleep, f.attempts)
    ensures var d := FileRun(fetch, n, m, eventId, root);
            var url := m.demoUrl;
      && 1 <= d.requests <= MaxAttempts
      && RequestUrls(d.trace) == Repeat(url, d.requests)
      && (forall j :: n <= j < n + d.requests - 1 ==> server(j, url).status != 200)
      && if server(n + d.requests - 1, url).status == 200 then
           d.trace == [MakeDirs(DemoDir(root, eventId))] + Failed(url, EmergencySleep, d.requests - 1)
                      + [Request(url), Write(DemoPath(root, eventId, m.demoId), DemoArchive(url)), Sleep(SleepBetweenRequests)]
         else
           d.requests == MaxAttempts
           && d.trace == [MakeDirs(DemoDir(root, eventId))] + Failed(url, EmergencySleep, MaxAttempts) + [Sleep(SleepBetweenRequests)]
  {
    var f := fetch(n, m.demoUrl);
    FileRunRequests(fetch, n, m, eventId, root);
    var failed := Failed(m.demoUrl, EmergencySleep, if f.response.status == 200 then f.attempts - 1 else f.attempts);
    FileRunTrace(fetch, n, m, eventId, root, failed);
  }

  /** The actions of a download, given those of its retry loop. */
  lemma FileRunTrace(fetch: Fetcher, n: nat, m: MatchRecord, eventId: string, root: string, failed: seq<Action>)
    requires var f := fetch(n, m.demoUrl);
      f.trace == if f.response.status == 200 then failed + [Request(m.demoUrl)] else failed
    ensures var d := FileRun(fetch, n, m, eventId, root);
            var made := MakeDirs(DemoDir(root, eventId));
      d.trace == if fetch(n, m.demoUrl).response.status == 200
                 then [made] + failed + [Request(m.demoUrl), Write(DemoPath(root, eventId, m.demoId), DemoArchive(m.demoUrl)), Sleep(SleepBetweenRequests)]
                 else [made] + failed + [Sleep(SleepBetweenRequests)]
  {
    var made, rest := MakeDirs(DemoDir(root, eventId)), Sleep(SleepBetweenRequests);
    if fetch(n, m.demoUrl).response.status == 200 {
      Regroup(made, failed, Request(m.demoUrl), Write(DemoPath(root, eventId, m.demoId), DemoArchive(m.demoUrl)), rest);
    } else {
      assert [made] + failed + [] == [made] + failed;
    }
  }

  /** Regrouping the actions of a successful download. */
  lemma Regroup<T>(m: T, b: seq<T>, x: T, y: T, z: T)
    ensures [m] + (b + [x]) + [y] + [z] == [m] + b + [x, y, z]
  {
    assert [m] + (b + [x]) + [y] + [z] == ([m] + b) + ([x] + [y] + [z]);
  }

  /** A download requests its demo URL once per attempt and nothing else. */
  lemma FileRunRequests(fetch: Fetcher, n: nat, m: MatchRecord, eventId: string, root: string)
    requires RequestsOnlyItsUrl(fetch)
    ensures var d := FileRun(fetch, n, m, eventId, root);
      1 <= d.requests <= MaxAttempts && RequestUrls(d.trace) == Repeat(m.demoUrl, d.requests)
  {
    var f := fetch(n, m.demoUrl);
    var saved := if f.response.status == 200 then [Write(DemoPath(root, eventId, m.demoId), DemoArchive(m.demoUrl))] else [];
    var head := [MakeDirs(DemoDir(root, eventId))];
    var tail := [Sleep(SleepBetweenRequests)];
    RequestUrlsConcat(head, f.trace);
    RequestUrlsConcat(head + f.trace, saved);
    RequestUrlsConcat(head + f.trace + saved, tail);
    assert RequestUrls(head) == [] && RequestUrls(saved) == [] && RequestUrls(tail) == [];
  }

  // ---------------------------------------------------------------------
  // The downloads of one event
  // ---------------------------------------------------------------------

  /** One download of a match from a request number. */
  type FileStep = (nat, MatchRecord) -> Download

  /** The downloads of one event into one root. */
  function FileRunner(fetch: Fetcher, eventId: string, root: string): FileStep
  {
    (n: nat, m: MatchRecord) => FileRun(fetch, n, m, eventId, root)
  }

  /** `file` is the download of `_download_file` for that event and root. */
  ghost predicate RunsFiles(file: FileStep, fetch: Fetcher, eventId: string, root: string)
  {
    forall n: nat, m: MatchRecord {:trigger FileRun(fetch, n, m, eventId, root)} :: file(n, m) == FileRun(fetch, n, m, eventId, root)
  }

  lemma FileRunnerRuns(fetch: Fetcher, eventId: string, root: string)
    ensures RunsFiles(FileRunner(fetch, eventId, root), fetch, eventId, root)
  {
  }

  /** Each download requests its demo URL one to three times and nothing else. */
  ghost predicate DownloadsOnce(file: FileStep)
  {
    forall n: nat, m: MatchRecord :: 1 <= file(n, m).requests <= MaxAttempts && RequestUrls(file(n, m).trace) == Repeat(m.demoUrl, file(n, m).requests)
  }

  lemma FileRunnerDownloadsOnce(fetch: Fetcher, eventId: string, root: string)
    requires RequestsOnlyItsUrl(fetch)
    ensures DownloadsOnce(FileRunner(fetch, eventId, root))
  {
    forall n: nat, m: MatchRecord
      ensures 1 <= FileRun(fetch, n, m, eventId, root).requests <= MaxAttempts
      ensures RequestUrls(FileRun(fetch, n, m, eventId, root).trace) == Repeat(m.demoUrl, FileRun(fetch, n, m, eventId, root).requests)
    {
      FileRunRequests(fetch, n, m, eventId, root);
    }
  }

  /** Downloading each of `ms` in turn from request number `n`: the `for match in matches` loop. */
  function SequentialRun(file: FileStep, n: nat, ms: seq<MatchRecord>): Download
    decreases |ms|
  {
    if |ms| == 0 then Download([], 0)
    else
      var d := file(n, ms[0]);
      var rest := SequentialRun(file, n + d.requests, ms[1..]);
      Download(d.trace + rest.trace, d.requests + rest.requests)
  }

  /** The demo URL of each match, in order. */
  function DemoUrls(ms: seq<MatchRecord>): (us: seq<string>)
    ensures |us| == |ms| && forall i :: 0 <= i < |ms| ==> us[i] == ms[i].demoUrl
  {
    seq(|ms|, i requires 0 <= i < |ms| => ms[i].demoUrl)
  }

  /**
   * `d` requests `urls` in order, the i-th `counts[i]` times (one to three),
   * nothing else, and counts each of those requests.
   */
  ghost predicate RequestsIn(d: Download, urls: seq<string>, counts: seq<nat>)
  {
    |counts| == |urls| && AttemptCounts(counts) && RequestUrls(d.trace) == Expand(urls, counts) && Requests(d.trace) == d.requests
  }

  /** `d` requests `urls` in order, one to three times each, and nothing else. */
  ghost predicate RequestsSome(d: Download, urls: seq<string>)
  {
    exists counts :: RequestsIn(d, urls, counts)
  }

  /** A run that requests a URL one to three times requests just that target. */
  lemma OneRequests(d: Download, u: string)
    requires 1 <= d.requests <= MaxAttempts && RequestUrls(d.trace) == Repeat(u, d.requests)
    ensures RequestsIn(d, [u], [d.requests])
  {
    assert Expand([u], [d.requests]) == Repeat(u, d.requests) + Expand([], []);
    assert Repeat(u, d.requests) + [] == Repeat(u, d.requests);
  }

  /** Two runs one after the other request the targets of the first and then those of the second. */
  lemma ConcatRequests(e: Download, rest: Download, here: seq<string>, later: seq<string>, mine: seq<nat>, more: seq<nat>)
    requires RequestsIn(e, here, mine) && RequestsIn(rest, later, more)
    ensures RequestsIn(Download(e.trace + rest.trace, e.requests + rest.requests), here + later, mine + more)
  {
    RequestUrlsConcat(e.trace, rest.trace);
    AttemptCountsConcat(mine, more);
    ExpandConcat(here, mine, later, more);
  }

  /** A run that requests its targets thus visits them. */
  lemma RequestsInVisits(d: Download, urls: seq<string>, counts: seq<nat>)
    requires RequestsIn(d, urls, counts)
    ensures Visits(RequestUrls(d.trace), urls)
  {
  }

  /**
   * Sequential downloads request the demo URL of each match, in order, as
   * many times as `counts` says (one to three each), and nothing else.
   */
  lemma {:induction false} SequentialRunRequests(file: FileStep, n: nat, ms: seq<MatchRecord>)
    returns (counts: seq<nat>)
    requires DownloadsOnce(file)
    ensures RequestsIn(SequentialRun(file, n, ms), DemoUrls(ms), counts)
    decreases |ms|
  {
    if |ms| == 0 {
      counts := [];
    } else {
      var d := file(n, ms[0]);
      var rest := SequentialRun(file, n + d.requests, ms[1..]);
      var more := SequentialRunRequests(file, n + d.requests, ms[1..]);
      OneRequests(d, ms[0].demoUrl);
      ConcatRequests(d, rest, [ms[0].demoUrl], DemoUrls(ms[1..]), [d.requests], more);
      assert DemoUrls(ms) == [ms[0].demoUrl] + DemoUrls(ms[1..]);
      counts := [d.requests] + more;
    }
  }

  // ---------------------------------------------------------------------
  // The download as written
  // ---------------------------------------------------------------------

  /** What `file.write(data)` raises: the file was opened in text mode and is handed `bytes`. */
  const WriteFault := TypeError("write() argument must be str, not bytes")

  /**
   * `_download_file` as it is written: an accepted response opens the
   * destination for writing, which leaves it empty, and the write of the
   * body's bytes raises; only `AssertionError` is caught, so the exception
   * leaves the function before the politeness delay. Three refused
   * attempts end it normally, after the delay.
   */
  function FileRunAsWritten(fetch: Fetcher, n: nat, m: MatchRecord, eventId: string, root: string): DownloadRun
  {
    var f := fetch(n, m.demoUrl);
    var made := [MakeDirs(DemoDir(root, eventId))];
    if f.response.status == 200 then
      DownloadRun(made + f.trace + [Write(DemoPath(root, eventId, m.demoId), EmptyFile)], f.attempts, Err(WriteFault))
    else
      DownloadRun(made + f.trace + [Sleep(SleepBetweenRequests)], f.attempts, Ok(()))
  }

  /** A download that may raise: it ends with `Err` when it raised. */
  type RaisingStep = (nat, MatchRecord) -> DownloadRun

  /** `FileRunAsWritten` for an event and a root, as a step. */
  function AsWrittenRunner(fetch: Fetcher, eventId: string, root: string): RaisingStep
  {
    (n: nat, m: MatchRecord) => FileRunAsWritten(fetch, n, m, eventId, root)
  }

  /** The `for match in matches` loop over a download that may raise: the first one that raises ends the batch with its error. */
  function SequentialRunAsWritten(step: RaisingStep, n: nat, ms: seq<MatchRecord>): DownloadRun
    decreases |ms|
  {
    if |ms| == 0 then DownloadRun([], 0, Ok(()))
    else
      var d := step(n, ms[0]);
      if d.outcome.Err? then d
      else
        var rest := SequentialRunAsWritten(step, n + d.requests, ms[1..]);
        DownloadRun(d.trace + rest.trace, d.requests + rest.requests, rest.outcome)
  }

  /** `step` does what `file` does whenever it does not raise. */
  ghost predicate AgreesUntilRaise(step: RaisingStep, file: FileStep)
  {
    forall n: nat, m: MatchRecord :: step(n, m).outcome.Ok? ==> file(n, m) == Download(step(n, m).trace, step(n, m).requests)
  }

  /**
   * An accepted download as written leaves an empty file and raises, with
   * no delay after it, where the intended download saves the replay and
   * then waits; a refused one is the same in both.
   */
  lemma AcceptedDownloadAsWritten(fetch: Fetcher, n: nat, m: MatchRecord, eventId: string, root: string)
    ensures var f := fetch(n, m.demoUrl);
            var asWritten := FileRunAsWritten(fetch, n, m, eventId, root);
            var intended := FileRun(fetch, n, m, eventId, root);
            var path := DemoPath(root, eventId, m.demoId);
      && (f.response.status == 200 ==>
            && asWritten.outcome == Err(WriteFault)
            && asWritten.trace[|asWritten.trace| - 1] == Write(path, EmptyFile)
            && intended.trace[|intended.trace| - 2..] == [Write(path, DemoArchive(m.demoUrl)), Sleep(SleepBetweenRequests)])
      && (f.response.status != 200 ==>
            asWritten == DownloadRun(intended.trace, intended.requests, Ok(())))
  {
    var f := fetch(n, m.demoUrl);
    if f.response.status != 200 {
      assert FileRun(fetch, n, m, eventId, root).trace == [MakeDirs(DemoDir(root, eventId))] + f.trace + [Sleep(SleepBetweenRequests)];
    }
  }

  /** Sequential downloads begin with the first one. */
  lemma SequentialRunFirst(file: FileStep, n: nat, ms: seq<MatchRecord>)
    requires |ms| > 0
    ensures var d := file(n, ms[0]);
            var rest := SequentialRun(file, n + d.requests, ms[1..]);
            SequentialRun(file, n, ms) == Download(d.trace + rest.trace, d.requests + rest.requests)
  {
  }

  /**
   * The batch `ms` from request `n` stops at download `k`: the `k` before
   * it went as the non-raising downloads would have, the `k`-th raises and
   * ends the batch with its error, and the batch succeeds only when `k` is
   * past the end, and then it is the non-raising run.
   */
  ghost predicate StopsAt(step: RaisingStep, file: FileStep, n: nat, ms: seq<MatchRecord>, k: nat)
  {
    && k <= |ms|
    && (SequentialRunAsWritten(step, n, ms).outcome.Ok? <==> k == |ms|)
    && (k == |ms| ==>
          var before := SequentialRun(file, n, ms);
          SequentialRunAsWritten(step, n, ms) == DownloadRun(before.trace, before.requests, Ok(())))
    && (k < |ms| ==>
          var before := SequentialRun(file, n, ms[..k]);
          var last := step(n + before.requests, ms[k]);
          && last.outcome.Err?
          && SequentialRunAsWritten(step, n, ms) == DownloadRun(before.trace + last.trace, before.requests + last.requests, last.outcome))
  }

  /** A batch whose first download raises stops there. */
  lemma StopsAtFirst(step: RaisingStep, file: FileStep, n: nat, ms: seq<MatchRecord>)
    requires |ms| > 0 && step(n, ms[0]).outcome.Err?
    ensures StopsAt(step, file, n, ms, 0)
  {
    var d := step(n, ms[0]);
    assert ms[..0] == [];
    var before := SequentialRun(file, n, ms[..0]);
    assert before == Download([], 0);
    assert before.trace + d.trace == d.trace;
  }

  /** A batch whose first download does not raise stops one later than the rest of it. */
  lemma StopsAfterFirst(step: RaisingStep, file: FileStep, n: nat, ms: seq<MatchRecord>, k: nat)
    requires AgreesUntilRaise(step, file)
    requires |ms| > 0 && step(n, ms[0]).outcome.Ok?
    requires StopsAt(step, file, n + step(n, ms[0]).requests, ms[1..], k)
    ensures StopsAt(step, file, n, ms, k + 1)
  {
    var d := step(n, ms[0]);
    assert file(n, ms[0]) == Download(d.trace, d.requests);
    var run := SequentialRunAsWritten(step, n, ms);
    var rest := SequentialRunAsWritten(step, n + d.requests, ms[1..]);
    assert run == DownloadRun(d.trace + rest.trace, d.requests + rest.requests, rest.outcome);
    if k == |ms[1..]| {
      SequentialRunFirst(file, n, ms);
    } else {
      var pre := ms[..k + 1];
      assert |pre| > 0 && pre[0] == ms[0] && pre[1..] == ms[1..][..k];
      var before' := SequentialRun(file, n + d.requests, ms[1..][..k]);
      SequentialRunFirst(file, n, pre);
      assert ms[k + 1] == ms[1..][k];
      var last := step(n + d.requests + before'.requests, ms[1..][k]);
      MatchGathering.AppendAssoc(d.trace, before'.trace, last.trace);
    }
  }

  /**
   * A sequential batch of downloads that may raise stops at the first one
   * that does: the `k` before it went as the non-raising downloads would
   * have, the `k`-th raises, and nothing after it runs. The batch succeeds
   * only when nothing raised, and then it is the non-raising run.
   */
  lemma {:induction false} SequentialAsWrittenStops(step: RaisingStep, file: FileStep, n: nat, ms: seq<MatchRecord>)
    returns (k: nat)
    requires AgreesUntilRaise(step, file)
    ensures k <= |ms|
    ensures SequentialRunAsWritten(step, n, ms).outcome.Ok? <==> k == |ms|
    ensures k == |ms| ==>
      var before := SequentialRun(file, n, ms);
      SequentialRunAsWritten(step, n, ms) == DownloadRun(before.trace, before.requests, Ok(()))
    ensures k < |ms| ==>
      var before := SequentialRun(file, n, ms[..k]);
      var last := step(n + before.requests, ms[k]);
      && last.outcome.Err?
      && SequentialRunAsWritten(step, n, ms) == DownloadRun(before.trace + last.trace, before.requests + last.requests, last.outcome)
    decreases |ms|
  {
    if |ms| == 0 {
      k := 0;
    } else if step(n, ms[0]).outcome.Err? {
      k := 0;
      StopsAtFirst(step, file, n, ms);
    } else {
      var k' := SequentialAsWrittenStops(step, file, n + step(n, ms[0]).requests, ms[1..]);
      StopsAfterFirst(step, file, n, ms, k');
      k := k' + 1;
    }
  }

  /** The download as written does what the intended one does whenever it does not raise. */
  lemma AsWrittenRunnerAgrees(fetch: Fetcher, eventId: string, root: string)
    ensures AgreesUntilRaise(AsWrittenRunner(fetch, eventId, root), FileRunner(fetch, eventId, root))
  {
    var step := AsWrittenRunner(fetch, eventId, root);
    var file := FileRunner(fetch, eventId, root);
    forall n: nat, m: MatchRecord | step(n, m).outcome.Ok?
      ensures file(n, m) == Download(step(n, m).trace, step(n, m).requests)
    {
      AcceptedDownloadAsWritten(fetch, n, m, eventId, root);
    }
  }

  /** The download as written raises exactly when its response was accepted, and its last act is then the empty file. */
  lemma AsWrittenRaises(fetch: Fetcher, n: nat, m: MatchRecord, eventId: string, root: string)
    ensures var run := AsWrittenRunner(fetch, eventId, root)(n, m);
      && (run.outcome.Err? <==> fetch(n, m.demoUrl).response.status == 200)
      && (run.outcome.Err? ==>
            run.outcome == Err(WriteFault) && run.trace[|run.trace| - 1] == Write(DemoPath(root, eventId, m.demoId), EmptyFile))
  {
  }

  /** The number of workers and whether a pool is used. */
  datatype Gate = Gate(workers: int, parallel: bool)

  /**
   * `cpu_count = os.cpu_count() - 1; if cpu_count <= 1: multiprocessing = False`:
   * a pool is used only when asked for and there are at least two workers
   * to give it, and then it has one worker fewer than there are CPUs.
   */
  function PoolGate(cpuCount: int, multiprocessing: bool): (g: Gate)
    ensures g.workers == cpuCount - 1
    ensures g.parallel ==> multiprocessing && g.workers >= 2
    ensures multiprocessing && cpuCount >= 3 ==> g.parallel
  {
    var workers := cpuCount - 1;
    Gate(workers, if workers <= 1 then false else multiprocessing)
  }

  /** `zip(matches, repeat(event_id), repeat(output_file))`: one task per match, in order. */
  function Tasks(ms: seq<MatchRecord>, eventId: string, root: string): (ts: seq<Task>)
    ensures |ts| == |ms| && forall i :: 0 <= i < |ms| ==> ts[i] == Task(ms[i], eventId, root)
  {
    seq(|ms|, i requires 0 <= i < |ms| => Task(ms[i], eventId, root))
  }

  /** The matches of one event: handed to a pool, or downloaded in turn. */
  function BatchRun(fetch: Fetcher, n: nat, ms: seq<MatchRecord>, eventId: string, root: string, g: Gate): Download
  {
    if g.parallel then Download([RunPool(g.workers, Tasks(ms, eventId, root))], 0)
    else SequentialRun(FileRunner(fetch, eventId, root), n, ms)
  }

  /** What a download mode did: its actions, how many requests it made, and how it ended. */
  datatype DownloadRun = DownloadRun(trace: seq<Action>, requests: nat, outcome: Result<(), Fault>)

  /** What single-event mode does once the matches of the event are known. */
  function AfterListing(listing: MatchGathering.MatchesRun, fetch: Fetcher, n: nat, eventId: string, root: string, g: Gate): DownloadRun
  {
    if listing.outcome.Err? then DownloadRun(listing.trace, listing.requests, Err(listing.outcome.error))
    else
      var d := BatchRun(fetch, n + listing.requests, listing.records, eventId, root, g);
      DownloadRun(listing.trace + d.trace, listing.requests + d.requests, Ok(()))
  }

  /** `_download_for_single_event` from request number `n`, with the root `root`. */
  function SingleEventRun(w: World, n: nat, eventId: string, root: string, multiprocessing: bool): DownloadRun
  {
    AfterListing(MatchGathering.MatchesFor(w, n, eventId), Retrier(w.server, EmergencySleep), n, eventId, root,
                 PoolGate(w.cpuCount, multiprocessing))
  }

  /** With a pool, the matches found go to the pool as one task each, in order. */
  lemma AfterListingPool(listing: MatchGathering.MatchesRun, fetch: Fetcher, n: nat, eventId: string, root: string, g: Gate)
    requires listing.outcome.Ok? && g.parallel
    ensures AfterListing(listing, fetch, n, eventId, root, g)
         == DownloadRun(listing.trace + [RunPool(g.workers, Tasks(listing.records, eventId, root))], listing.requests, Ok(()))
  {
  }

  /** Without a pool, the demo URL of each match found is requested in turn after the gathering. */
  lemma AfterListingSequential(listing: MatchGathering.MatchesRun, fetch: Fetcher, n: nat, eventId: string, root: string, g: Gate)
    requires listing.outcome.Ok? && !g.parallel && RequestsOnlyItsUrl(fetch)
    ensures var run := AfterListing(listing, fetch, n, eventId, root, g);
            var before := RequestUrls(listing.trace);
      && |before| <= |RequestUrls(run.trace)|
      && RequestUrls(run.trace)[..|before|] == before
      && Visits(RequestUrls(run.trace)[|before|..], DemoUrls(listing.records))
  {
    var file := FileRunner(fetch, eventId, root);
    FileRunnerDownloadsOnce(fetch, eventId, root);
    var d := SequentialRun(file, n + listing.requests, listing.records);
    var counts := SequentialRunRequests(file, n + listing.requests, listing.records);
    assert AfterListing(listing, fetch, n, eventId, root, g).trace == listing.trace + d.trace;
    VisitsAfter(listing.trace, d, DemoUrls(listing.records), counts);
  }

  /** What a trace requests after a prefix is what its second part requests. */
  lemma VisitsAfter(t: seq<Action>, d: Download, urls: seq<string>, counts: seq<nat>)
    requires RequestsIn(d, urls, counts)
    ensures var all := RequestUrls(t + d.trace);
            var before := RequestUrls(t);
      && |before| <= |all| && all[..|before|] == before && Visits(all[|before|..], urls)
  {
    RequestUrlsConcat(t, d.trace);
    var all := RequestUrls(t + d.trace);
    assert all[|RequestUrls(t)|..] == RequestUrls(d.trace);
  }

  /**
   * Single-event mode first gathers the event's matches; if that fails,
   * nothing is downloaded. Otherwise, without a pool, the replay of each
   * match found is requested in order, one to three times each, after the
   * requests of the gathering; with a pool, the pool gets one task per
   * match, in order, and nothing else happens.
   */
  lemma SingleEventDownloads(w: World, n: nat, eventId: string, root: string, multiprocessing: bool)
    ensures var run := SingleEventRun(w, n, eventId, root, multiprocessing);
            var listing := MatchGathering.MatchesFor(w, n, eventId);
            var g := PoolGate(w.cpuCount, multiprocessing);
            var before := RequestUrls(listing.trace);
      && (listing.outcome.Err? ==> run == DownloadRun(listing.trace, listing.requests, Err(listing.outcome.error)))
      && (listing.outcome.Ok? && g.parallel ==>
            run == DownloadRun(listing.trace + [RunPool(w.cpuCount - 1, Tasks(listing.records, eventId, root))], listing.requests, Ok(())))
      && (listing.outcome.Ok? && !g.parallel ==>
            && run.outcome == Ok(())
            && |before| <= |RequestUrls(run.trace)|
            && RequestUrls(run.trace)[..|before|] == before
            && Visits(RequestUrls(run.trace)[|before|..], DemoUrls(listing.records)))
  {
    var listing := MatchGathering.MatchesFor(w, n, eventId);
    var g := PoolGate(w.cpuCount, multiprocessing);
    var fetch := Retrier(w.server, EmergencySleep);
    if listing.outcome.Ok? {
      if g.parallel {
        AfterListingPool(listing, fetch, n, eventId, root, g);
      } else {
        RetrierRequestsOnlyItsUrl(w.server, EmergencySleep);
        AfterListingSequential(listing, fetch, n, eventId, root, g);
      }
    }
  }

  // ---------------------------------------------------------------------
  // The downloads of a lookup document
  // ---------------------------------------------------------------------

  /**
   * `json.load(open(event_file))`: the lookup document saved at the path,
   * or the error of a missing file or of a file that is not a lookup document.
   */
  function LookupFile(disk: map<string, File>, eventFile: string): (r: Result<Lookup, Fault>)
    ensures r.Ok? <==> eventFile in disk && disk[eventFile].LookupJson?
    ensures r.Ok? ==> r.value == disk[eventFile].lookup
    ensures eventFile !in disk ==> r == Err(FileNotFound(eventFile))
  {
    if eventFile !in disk then Err(FileNotFound(eventFile))
    else match disk[eventFile]
      case LookupJson(lookup) => Ok(lookup)
      case DemoArchive(_) => Err(JsonDecodeError(eventFile))
      case EmptyFile => Err(JsonDecodeError(eventFile))
  }

  /** The matches to download for one event of the document, if it is not skipped. */
  function ReadyOf(item: (string, EventEntry)): seq<(string, seq<MatchRecord>)>
  {
    match item.1.matches
    case None => []
    case Some(ms) => if |ms| == 0 then [] else [(item.0, ms)]
  }

  /** One event of the document: skipped without matches, else its batch of downloads. */
  function EventRun(fetch: Fetcher, n: nat, item: (string, EventEntry), root: string, g: Gate): Download
  {
    if ReadyOf(item) == [] then Download([], 0) else BatchRun(fetch, n, item.1.matches.value, item.0, root, g)
  }

  /** One event of the document from a request number. */
  type EventStep = (nat, (string, EventEntry)) -> Download

  function EventRunner(fetch: Fetcher, root: string, g: Gate): EventStep
  {
    (n: nat, item: (string, EventEntry)) => EventRun(fetch, n, item, root, g)
  }

  /** `event` is the body of the loop of `_download_for_multiple_events`. */
  ghost predicate RunsEvents(event: EventStep, fetch: Fetcher, root: string, g: Gate)
  {
    forall n: nat, item: (string, EventEntry) {:trigger EventRun(fetch, n, item, root, g)} :: event(n, item) == EventRun(fetch, n, item, root, g)
  }

  lemma EventRunnerRuns(fetch: Fetcher, root: string, g: Gate)
    ensures RunsEvents(EventRunner(fetch, root, g), fetch, root, g)
  {
  }

  /** The loop over `event_data.items()`, from request number `n`. */
  function EventsRun(event: EventStep, n: nat, items: seq<(string, EventEntry)>): Download
    decreases |items|
  {
    if |items| == 0 then Download([], 0)
    else
      var e := event(n, items[0]);
      var rest := EventsRun(event, n + e.requests, items[1..]);
      Download(e.trace + rest.trace, e.requests + rest.requests)
  }

  /** The events that have matches to download, with those matches, in document order. */
  function Ready(items: seq<(string, EventEntry)>): seq<(string, seq<MatchRecord>)>
    decreases |items|
  {
    if |items| == 0 then [] else ReadyOf(items[0]) + Ready(items[1..])
  }

  /**
   * The skip rule: an event is downloaded exactly when its `matches` is
   * present and not empty, and the events kept are in document order.
   */
  lemma {:induction false} ReadyMembers(items: seq<(string, EventEntry)>, r: (string, seq<MatchRecord>))
    ensures |Ready(items)| <= |items|
    ensures r in Ready(items) <==> |r.1| > 0 && exists i :: 0 <= i < |items| && items[i].0 == r.0 && items[i].1.matches == Some(r.1)
    decreases |items|
  {
    if |items| > 0 {
      ReadyMembers(items[1..], r);
      if r in Ready(items[1..]) {
        var i :| 0 <= i < |items[1..]| && items[1..][i].0 == r.0 && items[1..][i].1.matches == Some(r.1);
        assert items[i + 1] == items[1..][i];
      }
      if |r.1| > 0 && (exists i :: 0 <= i < |items| && items[i].0 == r.0 && items[i].1.matches == Some(r.1)) {
        var i :| 0 <= i < |items| && items[i].0 == r.0 && items[i].1.matches == Some(r.1);
        if i > 0 {
          assert items[1..][i - 1] == items[i];
        }
      }
    }
  }

  /**
   * The events kept stay in document order: keeping from two stretches of
   * the document one after the other is keeping from each in turn, and a
   * single item gives its own event or nothing.
   */
  lemma {:induction false} ReadyConcat(a: seq<(string, EventEntry)>, b: seq<(string, EventEntry)>)
    ensures Ready(a + b) == Ready(a) + Ready(b)
    ensures |a| == 1 ==> Ready(a) == ReadyOf(a[0])
    decreases |a|
  {
    if |a| == 0 {
      assert a + b == b;
    } else {
      assert (a + b)[0] == a[0] && (a + b)[1..] == a[1..] + b;
      ReadyConcat(a[1..], b);
      MatchGathering.AppendAssoc(ReadyOf(a[0]), Ready(a[1..]), Ready(b));
      if |a| == 1 {
        assert a[1..] == [];
      }
    }
  }

  /** With a pool: one pool run per event that has matches, in document order. */
  function PoolRuns(ready: seq<(string, seq<MatchRecord>)>, root: string, workers: int): (t: seq<Action>)
    ensures |t| == |ready| && forall i :: 0 <= i < |ready| ==> t[i] == RunPool(workers, Tasks(ready[i].1, ready[i].0, root))
  {
    seq(|ready|, i requires 0 <= i < |ready| => RunPool(workers, Tasks(ready[i].1, ready[i].0, root)))
  }

  /** Without a pool: the demo URLs of all the matches of the events kept, event after event. */
  function ReadyUrls(ready: seq<(string, seq<MatchRecord>)>): seq<string>
    decreases |ready|
  {
    if |ready| == 0 then [] else DemoUrls(ready[0].1) + ReadyUrls(ready[1..])
  }

  /** With a pool, one event is its pool run or nothing. */
  lemma EventRunPool(fetch: Fetcher, n: nat, item: (string, EventEntry), root: string, g: Gate)
    requires g.parallel
    ensures EventRun(fetch, n, item, root, g) == Download(PoolRuns(ReadyOf(item), root, g.workers), 0)
  {
    if ReadyOf(item) != [] {
      var runs := PoolRuns(ReadyOf(item), root, g.workers);
      assert runs == [RunPool(g.workers, Tasks(item.1.matches.value, item.0, root))];
    }
  }

  lemma PoolRunsConcat(a: seq<(string, seq<MatchRecord>)>, b: seq<(string, seq<MatchRecord>)>, root: string, workers: int)
    ensures PoolRuns(a + b, root, workers) == PoolRuns(a, root, workers) + PoolRuns(b, root, workers)
  {
    var x, y, z := PoolRuns(a + b, root, workers), PoolRuns(a, root, workers), PoolRuns(b, root, workers);
    assert forall i :: 0 <= i < |x| ==> x[i] == (y + z)[i] by {
      forall i | 0 <= i < |x| ensures x[i] == (y + z)[i] {
        if i < |a| {
          assert (a + b)[i] == a[i];
        } else {
          assert (a + b)[i] == b[i - |a|];
        }
      }
    }
  }

  /** With a pool, the loop hands each event with matches to a pool, in order, and requests nothing. */
  lemma {:induction false} EventsRunPools(event: EventStep, fetch: Fetcher, n: nat, items: seq<(string, EventEntry)>, root: string, g: Gate)
    requires g.parallel && RunsEvents(event, fetch, root, g)
    ensures EventsRun(event, n, items) == Download(PoolRuns(Ready(items), root, g.workers), 0)
    decreases |items|
  {
    if |items| > 0 {
      EventRunPool(fetch, n, items[0], root, g);
      EventsRunPools(event, fetch, n, items[1..], root, g);
      PoolRunsConcat(ReadyOf(items[0]), Ready(items[1..]), root, g.workers);
    }
  }

  /** Without a pool, one event requests the demo URL of each of its matches in turn, or nothing. */
  lemma EventRunRequests(fetch: Fetcher, n: nat, item: (string, EventEntry), root: string, g: Gate)
    returns (counts: seq<nat>)
    requires !g.parallel && RequestsOnlyItsUrl(fetch)
    ensures RequestsIn(EventRun(fetch, n, item, root, g), ReadyUrls(ReadyOf(item)), counts)
  {
    if ReadyOf(item) == [] {
      counts := [];
    } else {
      var ms := item.1.matches.value;
      FileRunnerDownloadsOnce(fetch, item.0, root);
      assert EventRun(fetch, n, item, root, g) == SequentialRun(FileRunner(fetch, item.0, root), n, ms);
      counts := SequentialRunRequests(FileRunner(fetch, item.0, root), n, ms);
      var ready := ReadyOf(item);
      assert ready == [(item.0, ms)] && ready[0].1 == ms && ready[1..] == [];
      assert ReadyUrls(ready) == DemoUrls(ms) + ReadyUrls([]);
      assert DemoUrls(ms) + [] == DemoUrls(ms);
    }
  }

  /** Each event requests the demo URLs of its matches in turn, one to three times each, or nothing when skipped. */
  ghost predicate VisitsEach(event: EventStep)
  {
    forall n: nat, item: (string, EventEntry) {:trigger RequestsSome(event(n, item), ReadyUrls(ReadyOf(item)))} ::
      RequestsSome(event(n, item), ReadyUrls(ReadyOf(item)))
  }

  lemma EventRunnerVisitsEach(fetch: Fetcher, root: string, g: Gate)
    requires !g.parallel && RequestsOnlyItsUrl(fetch)
    ensures VisitsEach(EventRunner(fetch, root, g))
  {
    var event := EventRunner(fetch, root, g);
    EventRunnerRuns(fetch, root, g);
    forall n: nat, item: (string, EventEntry)
      ensures RequestsSome(event(n, item), ReadyUrls(ReadyOf(item)))
    {
      var counts := EventRunRequests(fetch, n, item, root, g);
      assert event(n, item) == EventRun(fetch, n, item, root, g);
      assert RequestsIn(event(n, item), ReadyUrls(ReadyOf(item)), counts);
    }
  }

  lemma ReadyUrlsConcat(a: seq<(string, seq<MatchRecord>)>, b: seq<(string, seq<MatchRecord>)>)
    requires |a| <= 1
    ensures ReadyUrls(a + b) == ReadyUrls(a) + ReadyUrls(b)
  {
    if |a| == 1 {
      assert (a + b)[0] == a[0] && (a + b)[1..] == b && a[1..] == [];
    } else {
      assert a + b == b;
    }
  }

  /** The counts one event's requests come in. */
  lemma EventRequests(event: EventStep, n: nat, item: (string, EventEntry)) returns (counts: seq<nat>)
    requires VisitsEach(event)
    ensures RequestsIn(event(n, item), ReadyUrls(ReadyOf(item)), counts)
  {
    assert RequestsSome(event(n, item), ReadyUrls(ReadyOf(item)));
    counts :| RequestsIn(event(n, item), ReadyUrls(ReadyOf(item)), counts);
  }

  /** The loop over the events is the first event and then the loop over the rest. */
  lemma EventsRunFront(event: EventStep, n: nat, items: seq<(string, EventEntry)>)
    requires |items| > 0
    ensures var e := event(n, items[0]);
            var rest := EventsRun(event, n + e.requests, items[1..]);
      && EventsRun(event, n, items) == Download(e.trace + rest.trace, e.requests + rest.requests)
      && ReadyUrls(Ready(items)) == ReadyUrls(ReadyOf(items[0])) + ReadyUrls(Ready(items[1..]))
  {
    ReadyUrlsConcat(ReadyOf(items[0]), Ready(items[1..]));
  }

  /**
   * Without a pool, the loop requests the demo URL of every match of every
   * event kept, event after event and match after match, one to three
   * times each, and nothing else.
   */
  lemma {:induction false} EventsRunRequests(event: EventStep, n: nat, items: seq<(string, EventEntry)>)
    returns (counts: seq<nat>)
    requires VisitsEach(event)
    ensures RequestsIn(EventsRun(event, n, items), ReadyUrls(Ready(items)), counts)
    decreases |items|
  {
    if |items| == 0 {
      counts := [];
    } else {
      var e := event(n, items[0]);
      var here := ReadyUrls(ReadyOf(items[0]));
      var mine := EventRequests(event, n, items[0]);
      var rest := EventsRun(event, n + e.requests, items[1..]);
      var more := EventsRunRequests(event, n + e.requests, items[1..]);
      EventsRunFront(event, n, items);
      ConcatRequests(e, rest, here, ReadyUrls(Ready(items[1..])), mine, more);
      counts := mine + more;
    }
  }

  /** `_download_for_multiple_events` from request number `n`, on the files `disk`. */
  function MultiEventRun(w: World, n: nat, disk: map<string, File>, eventFile: string, root: string, multiprocessing: bool): DownloadRun
  {
    match LookupFile(disk, eventFile)
    case Err(e) => DownloadRun([], 0, Err(e))
    case Ok(lookup) =>
      var d := EventsRun(EventRunner(Retrier(w.server, EmergencySleep), root, PoolGate(w.cpuCount, multiprocessing)), n, Items(lookup));
      DownloadRun(d.trace, d.requests, Ok(()))
  }

  /**
   * Multi-event mode fails, doing nothing, when the lookup file is missing
   * or holds something else; otherwise it downloads the events of the
   * document that have matches, in document order: a pool run each, or
   * the demo URL of each of their matches requested in turn.
   */
  lemma MultiEventDownloads(w: World, n: nat, disk: map<string, File>, eventFile: string, root: string, multiprocessing: bool)
    ensures var run := MultiEventRun(w, n, disk, eventFile, root, multiprocessing);
            var file := LookupFile(disk, eventFile);
            var g := PoolGate(w.cpuCount, multiprocessing);
      && (file.Err? ==> run == DownloadRun([], 0, Err(file.error)))
      && (file.Ok? && g.parallel ==>
            run == DownloadRun(PoolRuns(Ready(Items(file.value)), root, w.cpuCount - 1), 0, Ok(())))
      && (file.Ok? && !g.parallel ==>
            run.outcome == Ok(()) && Visits(RequestUrls(run.trace), ReadyUrls(Ready(Items(file.value)))))
  {
    var file := LookupFile(disk, eventFile);
    var g := PoolGate(w.cpuCount, multiprocessing);
    if file.Ok? {
      var fetch := Retrier(w.server, EmergencySleep);
      EventRunnerRuns(fetch, root, g);
      if g.parallel {
        EventsRunPools(EventRunner(fetch, root, g), fetch, n, Items(file.value), root, g);
      } else {
        RetrierRequestsOnlyItsUrl(w.server, EmergencySleep);
        EventRunnerVisitsEach(fetch, root, g);
        var counts := EventsRunRequests(EventRunner(fetch, root, g), n, Items(file.value));
        RequestsInVisits(EventsRun(EventRunner(fetch, root, g), n, Items(file.value)), ReadyUrls(Ready(Items(file.value))), counts);
      }
    }
  }

  /** A lookup document written to a path is what multi-event mode then reads from it. */
  lemma LookupFileAfterWrite(disk: map<string, File>, t: seq<Action>, path: string, lookup: Lookup)
    ensures LookupFile(Disk(disk, t + [Write(path, LookupJson(lookup))]), path) == Ok(lookup)
  {
    DiskWrite(disk, t, path, LookupJson(lookup));
  }

  // ---------------------------------------------------------------------
  // Dispatch
  // ---------------------------------------------------------------------

  /** The arguments of `download_demos`, with its defaults; the event id is the text `int()` is applied to. */
  datatype Options = Options(eventId: Option<string> := None, eventFile: Option<string> := None, outputFile: Option<string> := None,
                             multiprocessing: bool := false)

  /** The message `download_demos` raises when it is given nothing to download. */
  const NothingToDownload := "EITHER AN EVENT ID OR LOOKUP FILE MUST BE PROVIDED!"

  /**
   * `download_demos` as it is written: `path` is only bound when no output
   * directory is given, so naming one ends in `UnboundLocalError` (after
   * `int(event_id)` in single-event mode).
   */
  function DispatchAsWritten(w: World, n: nat, disk: map<string, File>, o: Options): DownloadRun
  {
    if o.eventId.Some? then
      match ParseInt(o.eventId.value)
      case None => DownloadRun([], 0, Err(ValueError(o.eventId.value)))
      case Some(id) =>
        if o.outputFile.Some? then DownloadRun([], 0, Err(UnboundLocalError("path")))
        else SingleEventRun(w, n, IntToString(id), w.cwd, o.multiprocessing)
    else if o.eventFile.Some? then
      if o.outputFile.Some? then DownloadRun([], 0, Err(UnboundLocalError("path")))
      else MultiEventRun(w, n, disk, o.eventFile.value, w.cwd, o.multiprocessing)
    else DownloadRun([], 0, Err(UsageError(NothingToDownload)))
  }

  /** The output directory of a run: the one given, else the working directory. */
  function Root(w: World, o: Options): string
  {
    if o.outputFile.None? then w.cwd else o.outputFile.value
  }

  /**
   * `download_demos` as intended: the replays go under the output
   * directory when one is given and under the working directory otherwise.
   */
  function Dispatch(w: World, n: nat, disk: map<string, File>, o: Options): DownloadRun
  {
    if o.eventId.Some? then
      match ParseInt(o.eventId.value)
      case None => DownloadRun([], 0, Err(ValueError(o.eventId.value)))
      case Some(id) => SingleEventRun(w, n, IntToString(id), Root(w, o), o.multiprocessing)
    else if o.eventFile.Some? then MultiEventRun(w, n, disk, o.eventFile.value, Root(w, o), o.multiprocessing)
    else DownloadRun([], 0, Err(UsageError(NothingToDownload)))
  }

  /**
   * With an output directory and something to download, the code as
   * written stops with `UnboundLocalError` before doing anything, where
   * the intended dispatch downloads into that directory.
   */
  lemma UnboundPathAsWritten(w: World, n: nat, disk: map<string, File>, o: Options)
    requires o.outputFile.Some?
    requires o.eventId.Some? ==> ParseInt(o.eventId.value).Some?
    requires o.eventId.Some? || o.eventFile.Some?
    ensures DispatchAsWritten(w, n, disk, o) == DownloadRun([], 0, Err(UnboundLocalError("path")))
    ensures o.eventId.Some? ==>
      Dispatch(w, n, disk, o) == SingleEventRun(w, n, IntToString(ParseInt(o.eventId.value).value), o.outputFile.value, o.multiprocessing)
    ensures o.eventId.None? ==>
      Dispatch(w, n, disk, o) == MultiEventRun(w, n, disk, o.eventFile.value, o.outputFile.value, o.multiprocessing)
  {
  }

  /** Without an output directory the code as written does what is intended. */
  lemma DispatchAsWrittenWithoutOutput(w: World, n: nat, disk: map<string, File>, o: Options)
    requires o.outputFile.None?
    ensures DispatchAsWritten(w, n, disk, o) == Dispatch(w, n, disk, o)
  {
  }

  /**
   * An event id takes precedence over a lookup file; with neither,
   * `download_demos` raises before doing anything; the event id is read
   * with `int()`, and text that is not a number raises `ValueError`.
   */
  lemma DispatchChoices(w: World, n: nat, disk: map<string, File>, o: Options)
    ensures o.eventId.Some? ==> Dispatch(w, n, disk, o) == Dispatch(w, n, disk, o.(eventFile := None))
    ensures o.eventId.Some? && ParseInt(o.eventId.value).None? ==>
      Dispatch(w, n, disk, o) == DownloadRun([], 0, Err(ValueError(o.eventId.value)))
    ensures o.eventId.None? && o.eventFile.Some? ==>
      Dispatch(w, n, disk, o) == MultiEventRun(w, n, disk, o.eventFile.value, Root(w, o), o.multiprocessing)
    ensures o.eventId.None? && o.eventFile.None? ==>
      Dispatch(w, n, disk, o) == DownloadRun([], 0, Err(UsageError(NothingToDownload)))
  {
  }

  /** The id of a number given as an event id is its decimal text, which `int()` reads back. */
  lemma DispatchEventId(w: World, n: nat, disk: map<string, File>, o: Options, id: int)
    requires o.eventId == Some(IntToString(id))
    ensures Dispatch(w, n, disk, o) == SingleEventRun(w, n, IntToString(id), Root(w, o), o.multiprocessing)
  {
    ParseIntRoundTrip(id);
  }

  // ---------------------------------------------------------------------
  // The downloader
  // ---------------------------------------------------------------------

  /** A loop at trace `t` and request `n`, with the downloads `rest` still to do, reaches its goal. */
  ghost predicate Resumes(t: seq<Action>, n: nat, rest: Download, goalTrace: seq<Action>, goalRequests: nat)
  {
    t + rest.trace == goalTrace && n + rest.requests == goalRequests
  }

  /** One more download keeps the loop on course to its goal. */
  lemma SequentialNext(file: FileStep, fetch: Fetcher, eventId: string, root: string, n: nat, ms: seq<MatchRecord>, i: nat,
                       t: seq<Action>, t': seq<Action>, n': nat, goalTrace: seq<Action>, goalRequests: nat)
    requires RunsFiles(file, fetch, eventId, root)
    requires i < |ms| && Resumes(t, n, SequentialRun(file, n, ms[i..]), goalTrace, goalRequests)
    requires var d := FileRun(fetch, n, ms[i], eventId, root); t' == t + d.trace && n' == n + d.requests
    ensures Resumes(t', n', SequentialRun(file, n', ms[i + 1..]), goalTrace, goalRequests)
  {
    var d := file(n, ms[i]);
    assert d == FileRun(fetch, n, ms[i], eventId, root);
    var rest := SequentialRun(file, n', ms[i + 1..]);
    SequentialRunFront(file, n, ms, i);
    MatchGathering.AppendAssoc(t, d.trace, rest.trace);
  }

  /** The downloads from the i-th match on are the i-th download and then those after it. */
  lemma SequentialRunFront(file: FileStep, n: nat, ms: seq<MatchRecord>, i: nat)
    requires i < |ms|
    ensures var d := file(n, ms[i]);
            var rest := SequentialRun(file, n + d.requests, ms[i + 1..]);
      SequentialRun(file, n, ms[i..]) == Download(d.trace + rest.trace, d.requests + rest.requests)
  {
    assert ms[i..][0] == ms[i] && ms[i..][1..] == ms[i + 1..];
  }

  /** One more event keeps the loop on course to its goal. */
  lemma EventsNext(event: EventStep, n: nat, items: seq<(string, EventEntry)>, i: nat, t: seq<Action>, goalTrace: seq<Action>, goalRequests: nat)
    requires i < |items| && Resumes(t, n, EventsRun(event, n, items[i..]), goalTrace, goalRequests)
    ensures var e := event(n, items[i]);
      Resumes(t + e.trace, n + e.requests, EventsRun(event, n + e.requests, items[i + 1..]), goalTrace, goalRequests)
  {
    var e := event(n, items[i]);
    assert items[i..][0] == items[i] && items[i..][1..] == items[i + 1..];
    MatchGathering.AppendAssoc(t, e.trace, EventsRun(event, n + e.requests, items[i + 1..]).trace);
  }

  /** Downloading the matches gathered completes the single-event run. */
  lemma ListedThen(listing: MatchGathering.MatchesRun, fetch: Fetcher, n0: nat, eventId: string, root: string, g: Gate,
                   ms: seq<MatchRecord>, t0: seq<Action>, t1: seq<Action>, n1: nat, t: seq<Action>, n: nat)
    requires listing.outcome.Ok? && ms == [] + listing.records
    requires t1 == t0 + listing.trace && n1 == n0 + listing.requests
    requires var d := BatchRun(fetch, n1, ms, eventId, root, g); t == t1 + d.trace && n == n1 + d.requests
    ensures var run := AfterListing(listing, fetch, n0, eventId, root, g);
      t == t0 + run.trace && n == n0 + run.requests && run.outcome == Ok(())
  {
    assert ms == listing.records;
    var d := BatchRun(fetch, n1, ms, eventId, root, g);
    MatchGathering.AppendAssoc(t0, listing.trace, d.trace);
  }

  /** The downloader holds no state of its own; all it does is to the world. */
  class DemoDownloader {

    constructor ()
    {
    }

    /**
     * `_download_file`: the retry loop is the shared one, and the file is
     * written after it when its last response was accepted, which is
     * where the loop breaks after writing.
     */
    method DownloadFile(env: Env, m: MatchRecord, eventId: string, root: string, ghost fetch: Fetcher)
      requires Retries(fetch, env.world.server, EmergencySleep)
      modifies env
      ensures var d := FileRun(fetch, old(env.requests), m, eventId, root);
        env.trace == old(env.trace) + d.trace && env.requests == old(env.requests) + d.requests
    {
      ghost var f := fetch(env.requests, m.demoUrl);
      assert f == Retry(env.world.server, env.requests, m.demoUrl, EmergencySleep);
      var path := PathJoin(PathJoin(root, "demofiles"), eventId);
      env.MakeDirectory(path);
      ghost var made := env.trace;
      var r := RetryGet(env, m.demoUrl, EmergencySleep);
      ghost var fetched := env.trace;
      assert fetched == made + f.trace && r == f.response;
      ghost var saved: seq<Action> := [];
      if r.status == 200 {
        var fileLocation := PathJoin(path, m.demoId) + ".rar";
        env.WriteFile(fileLocation, DemoArchive(m.demoUrl));
        saved := [Write(fileLocation, DemoArchive(m.demoUrl))];
      }
      assert env.trace == fetched + saved;
      env.Pause(SleepBetweenRequests);
      ghost var step := [MakeDirs(path)] + f.trace + saved + [Sleep(SleepBetweenRequests)];
      assert env.trace == old(env.trace) + step by {
        MatchGathering.AppendAssoc(old(env.trace), [MakeDirs(path)], f.trace);
        MatchGathering.AppendAssoc(old(env.trace), [MakeDirs(path)] + f.trace, saved);
        MatchGathering.AppendAssoc(old(env.trace), [MakeDirs(path)] + f.trace + saved, [Sleep(SleepBetweenRequests)]);
      }
    }

    /** `for match in matches: self._download_file(match, event_id, output_file)`. */
    method DownloadSequentially(env: Env, ms: seq<MatchRecord>, eventId: string, root: string, ghost fetch: Fetcher, ghost file: FileStep)
      requires Retries(fetch, env.world.server, EmergencySleep) && RunsFiles(file, fetch, eventId, root)
      modifies env
      ensures var d := SequentialRun(file, old(env.requests), ms);
        env.trace == old(env.trace) + d.trace && env.requests == old(env.requests) + d.requests
    {
      ghost var goal := SequentialRun(file, env.requests, ms);
      ghost var goalTrace, goalRequests := env.trace + goal.trace, env.requests + goal.requests;
      var i := 0;
      while i < |ms|
        invariant 0 <= i <= |ms|
        invariant Resumes(env.trace, env.requests, SequentialRun(file, env.requests, ms[i..]), goalTrace, goalRequests)
      {
        ghost var t, n := env.trace, env.requests;
        DownloadFile(env, ms[i], eventId, root, fetch);
        SequentialNext(file, fetch, eventId, root, n, ms, i, t, env.trace, env.requests, goalTrace, goalRequests);
        i := i + 1;
      }
      assert env.trace + [] == env.trace;
    }

    /** The matches of one event handed to a pool of `g.workers`, or downloaded in turn. */
    method DownloadBatch(env: Env, ms: seq<MatchRecord>, eventId: string, root: string, g: Gate, ghost fetch: Fetcher)
      requires Retries(fetch, env.world.server, EmergencySleep)
      modifies env
      ensures var d := BatchRun(fetch, old(env.requests), ms, eventId, root, g);
        env.trace == old(env.trace) + d.trace && env.requests == old(env.requests) + d.requests
    {
      if g.parallel {
        env.StartPool(g.workers, Tasks(ms, eventId, root));
      } else {
        FileRunnerRuns(fetch, eventId, root);
        DownloadSequentially(env, ms, eventId, root, fetch, FileRunner(fetch, eventId, root));
      }
    }

    /** `cpu_count = os.cpu_count() - 1; if cpu_count <= 1: multiprocessing = False`. */
    method ChoosePool(env: Env, multiprocessing: bool) returns (g: Gate)
      ensures g == PoolGate(env.world.cpuCount, multiprocessing)
    {
      var cpuCount := env.world.cpuCount;
      cpuCount := cpuCount - 1;
      var parallel := multiprocessing;
      if cpuCount <= 1 {
        parallel := false;
      }
      g := Gate(cpuCount, parallel);
    }

    /** `_download_for_single_event`. */
    method DownloadForSingleEvent(env: Env, eventId: string, root: string, multiprocessing: bool)
      returns (res: Result<(), Fault>)
      modifies env
      ensures var run := SingleEventRun(env.world, old(env.requests), eventId, root, multiprocessing);
        env.trace == old(env.trace) + run.trace && env.requests == old(env.requests) + run.requests && res == run.outcome
    {
      var g := ChoosePool(env, multiprocessing);
      ghost var listing := MatchGathering.MatchesFor(env.world, env.requests, eventId);
      var matchFinder := new MatchGathering.MatchGatherer(eventId);
      var matches := matchFinder.GetMatchesForEvent(env);
      RetrierRetries(env.world.server, EmergencySleep);
      res := DownloadListed(env, matches, eventId, root, g, listing, old(env.trace), old(env.requests), Retrier(env.world.server, EmergencySleep));
    }

    /** The part of `_download_for_single_event` after the matches were gathered. */
    method DownloadListed(env: Env, matches: Result<seq<MatchRecord>, Fault>, eventId: string, root: string, g: Gate,
                          ghost listing: MatchGathering.MatchesRun, ghost t0: seq<Action>, ghost n0: nat, ghost fetch: Fetcher)
      returns (res: Result<(), Fault>)
      requires Retries(fetch, env.world.server, EmergencySleep)
      requires env.trace == t0 + listing.trace && env.requests == n0 + listing.requests
      requires matches == if listing.outcome.Ok? then Ok([] + listing.records) else Err(listing.outcome.error)
      modifies env
      ensures var run := AfterListing(listing, fetch, n0, eventId, root, g);
        env.trace == t0 + run.trace && env.requests == n0 + run.requests && res == run.outcome
    {
      if matches.Err? {
        return Err(matches.error);
      }
      ghost var t1, n1 := env.trace, env.requests;
      DownloadBatch(env, matches.value, eventId, root, g, fetch);
      ListedThen(listing, fetch, n0, eventId, root, g, matches.value, t0, t1, n1, env.trace, env.requests);
      res := Ok(());
    }

    /** One item of `event_data.items()`: skipped without matches, else handed on. */
    method DownloadEvent(env: Env, item: (string, EventEntry), root: string, g: Gate, ghost fetch: Fetcher)
      requires Retries(fetch, env.world.server, EmergencySleep)
      modifies env
      ensures var e := EventRun(fetch, old(env.requests), item, root, g);
        env.trace == old(env.trace) + e.trace && env.requests == old(env.requests) + e.requests
    {
      var eventId := item.0;
      var matches := item.1.matches;
      if matches.None? || |matches.value| == 0 {
        assert ReadyOf(item) == [];
        assert old(env.trace) + [] == env.trace;
        return;
      }
      assert ReadyOf(item) != [];
      DownloadBatch(env, matches.value, eventId, root, g, fetch);
    }

    /** The loop over `event_data.items()` of `_download_for_multiple_events`. */
    method DownloadEvents(env: Env, items: seq<(string, EventEntry)>, root: string, g: Gate, ghost fetch: Fetcher, ghost event: EventStep)
      requires Retries(fetch, env.world.server, EmergencySleep) && RunsEvents(event, fetch, root, g)
      modifies env
      ensures var d := EventsRun(event, old(env.requests), items);
        env.trace == old(env.trace) + d.trace && env.requests == old(env.requests) + d.requests
    {
      ghost var goal := EventsRun(event, env.requests, items);
      ghost var goalTrace, goalRequests := env.trace + goal.trace, env.requests + goal.requests;
      var i := 0;
      while i < |items|
        invariant 0 <= i <= |items|
        invariant Resumes(env.trace, env.requests, EventsRun(event, env.requests, items[i..]), goalTrace, goalRequests)
      {
        EventsNext(event, env.requests, items, i, env.trace, goalTrace, goalRequests);
        DownloadEvent(env, items[i], root, g, fetch);
        i := i + 1;
      }
      assert env.trace + [] == env.trace;
    }

    /** `_download_for_multiple_events`. */
    method DownloadForMultipleEvents(env: Env, eventFile: string, root: string, multiprocessing: bool)
      returns (res: Result<(), Fault>)
      modifies env
      ensures var run := MultiEventRun(env.world, old(env.requests), Disk(env.world.disk, old(env.trace)), eventFile, root, multiprocessing);
        env.trace == old(env.trace) + run.trace && env.requests == old(env.requests) + run.requests && res == run.outcome
    {
      var g := ChoosePool(env, multiprocessing);
      var file := env.Read(eventFile);
      if file.None? {
        assert env.trace + [] == env.trace;
        return Err(FileNotFound(eventFile));
      }
      if !file.value.LookupJson? {
        assert env.trace + [] == env.trace;
        return Err(JsonDecodeError(eventFile));
      }
      RetrierRetries(env.world.server, EmergencySleep);
      EventRunnerRuns(Retrier(env.world.server, EmergencySleep), root, g);
      DownloadEvents(env, Items(file.value.lookup), root, g, Retrier(env.world.server, EmergencySleep),
                     EventRunner(Retrier(env.world.server, EmergencySleep), root, g));
      res := Ok(());
    }

    /** `download_demos`, with the output directory used when one is given. */
    method DownloadDemos(env: Env, o: Options) returns (res: Result<(), Fault>)
      modifies env
      ensures var run := Dispatch(env.world, old(env.requests), Disk(env.world.disk, old(env.trace)), o);
        env.trace == old(env.trace) + run.trace && env.requests == old(env.requests) + run.requests && res == run.outcome
    {
      var path := if o.outputFile.None? then env.world.cwd else o.outputFile.value;
      if o.eventId.Some? {
        var eventId := ParseInt(o.eventId.value);
        if eventId.None? {
          assert env.trace + [] == env.trace;
          return Err(ValueError(o.eventId.value));
        }
        res := DownloadForSingleEvent(env, IntToString(eventId.value), path, o.multiprocessing);
      } else if o.eventFile.Some? {
        res := DownloadForMultipleEvents(env, o.eventFile.value, path, o.multiprocessing);
      } else {
        assert env.trace + [] == env.trace;
        return Err(UsageError(NothingToDownload));
      }
    }
  }
}
