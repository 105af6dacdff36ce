/**
 * `MatchGatherer`: for one event, read the results listing, then fetch
 * every match page and turn it into a match record with its replay link.
 */
module MatchGathering {
  import opened Wrappers
  import opened Text
  import opened Records
  import opened Io

  const Site := "https://www.hltv.org"
  /** Politeness delay after each match page. */
  const SleepBetweenRequests: real := 0.5
  /** Back-off after a blocked request. */
  const EmergencySleep: real := 60.0
  /** A team name the site shows that is not a team. */
  const Placeholder := "9z"

  /** Concatenation is associative, stated for the proofs that regroup traces and strings. */
  lemma AppendAssoc<T>(a: seq<T>, b: seq<T>, c: seq<T>)
    ensures (a + b) + c == a + (b + c)
  {
  }

  /** The results listing of an event, restricted to matches with a replay. */
  function ResultsUrl(eventId: string): string
  {
    Site + "/results?content=demo&event=" + eventId
  }

  /** One match page URL per result block, in page order. */
  function MatchUrls(hrefs: seq<string>): (urls: seq<string>)
    ensures |urls| == |hrefs|
    ensures forall i :: 0 <= i < |hrefs| ==> urls[i] == Site + "/" + hrefs[i]
  {
    seq(|hrefs|, i requires 0 <= i < |hrefs| => Site + "/" + hrefs[i])
  }

  /**
   * The team names with every placeholder dropped: nothing else is removed
   * or added, and the order is kept (see `RemovePlaceholderConcat`).
   */
  function RemovePlaceholder(names: seq<string>): (teams: seq<string>)
    ensures Placeholder !in teams
    ensures |teams| <= |names|
    ensures forall t :: t != Placeholder ==> multiset(teams)[t] == multiset(names)[t]
    decreases |names|
  {
    if |names| == 0 then []
    else
      assert names == [names[0]] + names[1..];
      (if names[0] == Placeholder then [] else [names[0]]) + RemovePlaceholder(names[1..])
  }

  /** Filtering a concatenation filters each part and keeps them in order. */
  lemma {:induction false} RemovePlaceholderConcat(a: seq<string>, b: seq<string>)
    ensures RemovePlaceholder(a + b) == RemovePlaceholder(a) + RemovePlaceholder(b)
    decreases |a|
  {
    if |a| == 0 {
      assert a + b == b;
    } else {
      assert (a + b)[0] == a[0] && (a + b)[1..] == a[1..] + b;
      RemovePlaceholderConcat(a[1..], b);
      var head := if a[0] == Placeholder then [] else [a[0]];
      AppendAssoc(head, RemovePlaceholder(a[1..]), RemovePlaceholder(b));
    }
  }

  /** An `href` that is a string containing `demo`. */
  predicate IsDemoLink(a: Option<string>)
  {
    a.Some? && Contains(a.value, "demo")
  }

  /** The first demo link among the page's links, if any (see `FirstDemoLinkIsFirst`). */
  function FirstDemoLink(anchors: seq<Option<string>>): Option<string>
    decreases |anchors|
  {
    if |anchors| == 0 then None
    else if IsDemoLink(anchors[0]) then anchors[0]
    else FirstDemoLink(anchors[1..])
  }

  /** The link found is a demo link with none before it; none is found only when there is none. */
  lemma {:induction false} FirstDemoLinkIsFirst(anchors: seq<Option<string>>)
    ensures var link := FirstDemoLink(anchors);
      && (link.Some? ==> exists i :: 0 <= i < |anchors| && anchors[i] == link && IsDemoLink(anchors[i])
                                    && forall j :: 0 <= j < i ==> !IsDemoLink(anchors[j]))
      && (link.None? ==> forall i :: 0 <= i < |anchors| ==> !IsDemoLink(anchors[i]))
    decreases |anchors|
  {
    if |anchors| > 0 && !IsDemoLink(anchors[0]) {
      FirstDemoLinkIsFirst(anchors[1..]);
      assert forall i :: 1 <= i < |anchors| ==> anchors[i] == anchors[1..][i - 1];
      var link := FirstDemoLink(anchors[1..]);
      if link.Some? {
        var i :| 0 <= i < |anchors[1..]| && anchors[1..][i] == link && IsDemoLink(anchors[1..][i])
                 && forall j :: 0 <= j < i ==> !IsDemoLink(anchors[1..][j]);
        assert anchors[i + 1] == link && forall j :: 0 <= j < i + 1 ==> !IsDemoLink(anchors[j]);
      }
    }
  }

  /** The `for uri in hrefs: if isinstance(uri, str) and 'demo' in uri: ...; break` search. */
  method FindDemoLink(anchors: seq<Option<string>>) returns (link: Option<string>)
    ensures link == FirstDemoLink(anchors)
  {
    link := None;
    var i := 0;
    while i < |anchors|
      invariant 0 <= i <= |anchors|
      invariant FirstDemoLink(anchors) == FirstDemoLink(anchors[i..])
    {
      assert anchors[i..][1..] == anchors[i + 1..];
      if IsDemoLink(anchors[i]) {
        link := anchors[i];
        break;
      }
      i := i + 1;
    }
  }

  /** The replay link of a match page: the site prefix and the page's own first demo link. */
  function DemoUrl(anchors: seq<Option<string>>, matchUrl: string): Result<string, Fault>
  {
    match FirstDemoLink(anchors)
    case Some(h) => Ok(Site + h)
    case None => Err(NoDemoLink(matchUrl))
  }

  /**
   * There is a replay link exactly when some link of the page is a demo
   * link, and then it is the site prefix and one of them.
   */
  lemma DemoUrlFromPage(anchors: seq<Option<string>>, matchUrl: string)
    ensures DemoUrl(anchors, matchUrl).Ok? <==> exists i :: 0 <= i < |anchors| && IsDemoLink(anchors[i])
    ensures DemoUrl(anchors, matchUrl).Ok? ==>
              exists i :: 0 <= i < |anchors| && IsDemoLink(anchors[i]) && DemoUrl(anchors, matchUrl).value == Site + anchors[i].value
    ensures DemoUrl(anchors, matchUrl).Err? ==> DemoUrl(anchors, matchUrl).error == NoDemoLink(matchUrl)
  {
    FirstDemoLinkIsFirst(anchors);
  }

  /**
   * The link as the source computes it: `demo_url` is a variable of the
   * whole loop, so a page without a demo link reuses the previous match's
   * (already prefixed) link, or finds it unbound on the first match.
   */
  function DemoUrlAsWritten(anchors: seq<Option<string>>, carried: Option<string>): (r: Result<string, Fault>)
    ensures FirstDemoLink(anchors).None? && carried.Some? ==> r == Ok(Site + carried.value)
  {
    match FirstDemoLink(anchors)
    case Some(h) => Ok(Site + h)
    case None => if carried.Some? then Ok(Site + carried.value) else Err(UnboundLocalError("demo_url"))
  }

  /** The replay id: segment 5 of the link split at `/`. */
  function DemoId(demoUrl: string): (r: Result<string, Fault>)
    ensures r.Ok? <==> |Split(demoUrl, '/')| > 5
    ensures r.Ok? ==> r.value == Split(demoUrl, '/')[5] && '/' !in r.value
  {
    var segments := Split(demoUrl, '/');
    if |segments| > 5 then Ok(segments[5]) else Err(IndexError("demo_url.split('/')[5]"))
  }

  /** A record whose `demo_id` is the segment 5 of its own `demo_url`. */
  predicate DemoConsistent(m: MatchRecord)
  {
    var segments := Split(m.demoUrl, '/');
    |segments| > 5 && m.demoId == segments[5]
  }

  /** The site prefix cut at each `/`. */
  const SiteParts: seq<string> := ["https:", "", "www.hltv.org"]

  lemma SiteJoin()
    ensures Site == Join(SiteParts, '/')
  {
    assert SiteParts[1..][1..] == ["www.hltv.org"];
  }

  lemma DownloadPath()
    ensures "/download/demo/" == "/" + "download" + "/" + "demo" + "/"
  {
    var s, t := "/download/demo/", "/" + "download" + "/" + "demo" + "/";
    assert |s| == |t| == 15;
    forall i | 0 <= i < 15
      ensures s[i] == t[i]
    {
    }
  }

  /** A download link `/download/demo/<id>` is a separator followed by its three parts. */
  lemma DownloadJoin(id: string)
    ensures "/download/demo/" + id == "/" + Join(["download", "demo", id], '/')
  {
    var d := ["download", "demo", id];
    assert d[1..] == ["demo", id] && d[1..][1..] == [id];
    assert Join(d[1..][1..], '/') == id;
    assert Join(d[1..], '/') == "demo" + "/" + id;
    assert Join(d, '/') == "download" + "/" + ("demo" + "/" + id);
    DownloadPath();
    AppendAssoc("/" + "download" + "/", "demo" + "/", id);
    AppendAssoc("/" + "download", "/", "demo" + "/" + id);
    AppendAssoc("/", "download", "/" + ("demo" + "/" + id));
    AppendAssoc("/", "download" + "/", "demo" + "/" + id);
    AppendAssoc("download", "/", "demo" + "/" + id);
  }

  /** Splitting a prefix and a `/`-led tail, each given by its parts. */
  lemma SplitJoined(head: string, headParts: seq<string>, tail: string, tailParts: seq<string>)
    requires |headParts| >= 1 && |tailParts| >= 1
    requires head == Join(headParts, '/') && tail == "/" + Join(tailParts, '/')
    requires forall i :: 0 <= i < |headParts + tailParts| ==> '/' !in (headParts + tailParts)[i]
    ensures head + tail == Join(headParts + tailParts, '/')
    ensures Split(head + tail, '/') == headParts + tailParts
  {
    JoinAppend(headParts, tailParts, '/');
    AppendAssoc(head, "/", Join(tailParts, '/'));
    SplitJoin(headParts + tailParts, '/');
  }

  /** The segments of a download link from the site. */
  lemma DownloadLinkSegments(id: string)
    requires '/' !in id
    ensures Site + "/download/demo/" + id == Join(SiteParts + ["download", "demo", id], '/')
    ensures Split(Site + "/download/demo/" + id, '/') == SiteParts + ["download", "demo", id]
  {
    var d := ["download", "demo", id];
    SiteJoin();
    DownloadJoin(id);
    AppendAssoc(Site, "/download/demo/", id);
    NoSeparatorInParts(id);
    assert SiteParts + d == ["https:", "", "www.hltv.org", "download", "demo", id];
    SplitJoined(Site, SiteParts, "/download/demo/" + id, d);
  }

  /** None of the fixed segments of the site's links holds a `/`. */
  lemma NoSeparatorInParts(id: string)
    requires '/' !in id
    ensures var p := ["https:", "", "www.hltv.org", "download", "demo", id];
            forall i :: 0 <= i < |p| ==> '/' !in p[i]
  {
    assert '/' !in "https:";
    assert '/' !in "www.hltv.org";
    assert '/' !in "download";
    assert '/' !in "demo";
  }

  /** For the site's download links `/download/demo/<id>` the replay id is `<id>`. */
  lemma DemoIdOfDownloadLink(id: string)
    requires '/' !in id
    ensures DemoId(Site + "/download/demo/" + id) == Ok(id)
  {
    DownloadLinkSegments(id);
  }

  /** Splitting two joined strings glued together, each given by its parts. */
  lemma SplitMerged(head: string, headParts: seq<string>, tail: string, tailParts: seq<string>)
    requires |headParts| >= 1 && |tailParts| >= 1
    requires head == Join(headParts, '/') && tail == Join(tailParts, '/')
    requires var merged := headParts[..|headParts| - 1] + [headParts[|headParts| - 1] + tailParts[0]] + tailParts[1..];
             forall i :: 0 <= i < |merged| ==> '/' !in merged[i]
    ensures Split(head + tail, '/') == headParts[..|headParts| - 1] + [headParts[|headParts| - 1] + tailParts[0]] + tailParts[1..]
  {
    JoinMerge(headParts, tailParts, '/');
    SplitJoin(headParts[..|headParts| - 1] + [headParts[|headParts| - 1] + tailParts[0]] + tailParts[1..], '/');
  }

  /** None of the segments of a doubled link holds a `/`. */
  lemma NoSeparatorInDoubledParts(id: string)
    requires '/' !in id
    ensures var p := ["https:", "", "www.hltv.org" + "https:", "", "www.hltv.org", "download", "demo", id];
            forall i :: 0 <= i < |p| ==> '/' !in p[i]
  {
    assert '/' !in "https:";
    assert '/' !in "www.hltv.org";
    assert '/' !in "www.hltv.org" + "https:";
    assert '/' !in "download";
    assert '/' !in "demo";
  }

  lemma ListSlices<T>(a: T, b: T, c: T, d: T, e: T, f: T)
    ensures var p := [a, b, c];
      && p[..2] == [a, b] && p[2] == c && (p + [d, e, f])[0] == a && (p + [d, e, f])[1..] == [b, c, d, e, f]
  {
  }

  lemma ListShape<T>(a: T, b: T, c: T, d: T, e: T, f: T, g: T, h: T)
    ensures [a, b] + [c] + [d, e, f, g, h] == [a, b, c, d, e, f, g, h]
  {
  }

  /** The segments of a download link prefixed twice with the site. */
  lemma DoubledLinkSegments(id: string)
    requires '/' !in id
    ensures Split(Site + (Site + "/download/demo/" + id), '/')
            == ["https:", "", "www.hltv.org" + "https:", "", "www.hltv.org", "download", "demo", id]
  {
    var link := SiteParts + ["download", "demo", id];
    DownloadLinkSegments(id);
    SiteJoin();
    NoSeparatorInDoubledParts(id);
    ListSlices("https:", "", "www.hltv.org", "download", "demo", id);
    ListShape("https:", "", "www.hltv.org" + "https:", "", "www.hltv.org", "download", "demo", id);
    SplitMerged(Site, SiteParts, Site + "/download/demo/" + id, link);
  }

  /**
   * A page without a demo link, read after a match whose link was
   * `/download/demo/<id>`, gets that match's link prefixed a second time
   * and the replay id `download`, whereas the intended `DemoUrl` reports
   * the missing link.
   */
  lemma StaleDemoUrlAsWritten(id: string, matchUrl: string)
    requires '/' !in id
    ensures var stale := DemoUrlAsWritten([], Some(Site + "/download/demo/" + id));
            && stale == Ok(Site + (Site + "/download/demo/" + id))
            && DemoId(stale.value) == Ok("download")
            && DemoUrl([], matchUrl) == Err(NoDemoLink(matchUrl))
  {
    DoubledLinkSegments(id);
  }

  /**
   * One match page as a record: the teams without the placeholder, the
   * formatted time, the page's URL, and a replay id taken from the very
   * link stored with it.
   */
  function ExtractMatch(doc: Document, matchUrl: string, formatDateTime: int -> string): (r: Result<MatchRecord, Fault>)
    ensures r.Ok? ==> doc.teamNames.Some? && doc.matchTime.Some? && doc.matchTime.value.Some?
    ensures r.Ok? ==> r.value.matchUrl == matchUrl && r.value.teams == RemovePlaceholder(doc.teamNames.value)
    ensures r.Ok? ==> ParseInt(doc.matchTime.value.value).Some? && r.value.dateTime == formatDateTime(ParseInt(doc.matchTime.value.value).value)
    ensures r.Ok? ==> DemoConsistent(r.value) && DemoUrl(doc.anchors, matchUrl) == Ok(r.value.demoUrl)
    ensures doc.teamNames.Some? && doc.matchTime.None? ==> r == Err(AttributeError("timeAndEvent"))
    ensures doc.teamNames.Some? && doc.matchTime == Some(None) ==> r == Err(TypeError("int(None)"))
    ensures (doc.teamNames.Some? && doc.matchTime.Some? && doc.matchTime.value.Some? && ParseInt(doc.matchTime.value.value).Some? && DemoUrl(doc.anchors, matchUrl).Ok?
             && |Split(DemoUrl(doc.anchors, matchUrl).value, '/')| > 5) ==> r.Ok?
  {
    match doc.teamNames
    case None => Err(AttributeError("teamsBox"))
    case Some(names) =>
      match doc.matchTime
      case None => Err(AttributeError("timeAndEvent"))
      case Some(None) => Err(TypeError("int(None)"))
      case Some(Some(time)) =>
        match ParseInt(time)
        case None => Err(ValueError(time))
        case Some(millis) =>
          match DemoUrl(doc.anchors, matchUrl)
          case Err(e) => Err(e)
          case Ok(demoUrl) =>
            match DemoId(demoUrl)
            case Err(e) => Err(e)
            case Ok(demoId) => Ok(MatchRecord("match", RemovePlaceholder(names), formatDateTime(millis), matchUrl, demoId, demoUrl))
  }

  /** What fetching the match pages did: the actions, the records made, how it ended, and how many requests it made. */
  datatype MatchesRun = MatchesRun(trace: seq<Action>, records: seq<MatchRecord>, outcome: Result<(), Fault>, requests: nat)

  /** Fetching a page at a request number: the retry loop of `get_matches_for_event`. */
  type PageFetcher = (nat, string) -> Fetch

  /** Reading one match page (its document and URL) into a record, or the error that ends the loop. */
  type PageParser = (Document, string) -> Result<MatchRecord, Fault>

  /** The parser of `get_matches_for_event`, with the world's date formatting. */
  function MatchPageParser(w: World): PageParser
  {
    (doc: Document, matchUrl: string) => ExtractMatch(doc, matchUrl, w.formatDateTime)
  }

  /** `parse` is `ExtractMatch` with the world's date formatting. */
  ghost predicate ParsesMatchPages(parse: PageParser, w: World)
  {
    forall doc: Document, matchUrl: string {:trigger ExtractMatch(doc, matchUrl, w.formatDateTime)} ::
      parse(doc, matchUrl) == ExtractMatch(doc, matchUrl, w.formatDateTime)
  }

  lemma MatchPageParserParses(w: World)
    ensures ParsesMatchPages(MatchPageParser(w), w)
  {
  }

  /**
   * The loop over the match pages from request number `n`: each page is
   * fetched, followed by the politeness delay, then parsed; a page that
   * cannot be parsed ends the loop with its error.
   */
  function MatchLoop(fetch: PageFetcher, parse: PageParser, n: nat, urls: seq<string>): MatchesRun
    decreases |urls|
  {
    if |urls| == 0 then MatchesRun([], [], Ok(()), 0)
    else
      var f := fetch(n, urls[0]);
      var step := f.trace + [Sleep(SleepBetweenRequests)];
      match parse(f.response.doc, urls[0])
      case Err(e) => MatchesRun(step, [], Err(e), f.attempts)
      case Ok(m) =>
        var rest := MatchLoop(fetch, parse, n + f.attempts, urls[1..]);
        MatchesRun(step + rest.trace, [m] + rest.records, rest.outcome, f.attempts + rest.requests)
  }

  /**
   * `t`, `n` and `ms` are the trace, request count and records so far; running
   * the loop over the remaining `urls` from there reaches `goal`.
   */
  ghost predicate Resumes(fetch: PageFetcher, parse: PageParser, urls: seq<string>, n: nat,
                          t: seq<Action>, ms: seq<MatchRecord>, goal: MatchesRun)
  {
    var rest := MatchLoop(fetch, parse, n, urls);
    && t + rest.trace == goal.trace && n + rest.requests == goal.requests
    && ms + rest.records == goal.records && rest.outcome == goal.outcome
  }

  /** A page that parses moves the loop one URL on towards the same goal. */
  lemma ResumeNext(fetch: PageFetcher, parse: PageParser, urls: seq<string>, n: nat,
                   t: seq<Action>, ms: seq<MatchRecord>, goal: MatchesRun)
    requires |urls| > 0 && Resumes(fetch, parse, urls, n, t, ms, goal)
    requires parse(fetch(n, urls[0]).response.doc, urls[0]).Ok?
    ensures var f := fetch(n, urls[0]);
      Resumes(fetch, parse, urls[1..], n + f.attempts, t + (f.trace + [Sleep(SleepBetweenRequests)]),
              ms + [parse(f.response.doc, urls[0]).value], goal)
  {
    var f := fetch(n, urls[0]);
    var step := f.trace + [Sleep(SleepBetweenRequests)];
    var next := MatchLoop(fetch, parse, n + f.attempts, urls[1..]);
    AppendAssoc(t, step, next.trace);
    AppendAssoc(ms, [parse(f.response.doc, urls[0]).value], next.records);
  }

  /** A page that does not parse ends the loop there, at the goal. */
  lemma ResumeStops(fetch: PageFetcher, parse: PageParser, urls: seq<string>, n: nat,
                    t: seq<Action>, ms: seq<MatchRecord>, goal: MatchesRun)
    requires |urls| > 0 && Resumes(fetch, parse, urls, n, t, ms, goal)
    requires parse(fetch(n, urls[0]).response.doc, urls[0]).Err?
    ensures var f := fetch(n, urls[0]);
      && t + (f.trace + [Sleep(SleepBetweenRequests)]) == goal.trace && n + f.attempts == goal.requests
      && ms == goal.records && goal.outcome == Err(parse(f.response.doc, urls[0]).error)
  {
  }

  /** The match pages an event's results listing links to, when it is request number `n`. */
  function ListedMatches(w: World, n: nat, eventId: string): seq<string>
  {
    MatchUrls(w.server(n, ResultsUrl(eventId)).doc.resultHrefs)
  }

  /**
   * `get_matches_for_event` from request number `n`: one request for the
   * listing (no retry, status not checked), then the loop over its matches.
   */
  function MatchesFor(w: World, n: nat, eventId: string): MatchesRun
  {
    var loop := MatchLoop(Retrier(w.server, EmergencySleep), MatchPageParser(w), n + 1, ListedMatches(w, n, eventId));
    MatchesRun([Request(ResultsUrl(eventId))] + loop.trace, loop.records, loop.outcome, 1 + loop.requests)
  }

  /** A record fit to be stored for the match page at `matchUrl`. */
  predicate WellFormedRecord(m: MatchRecord, matchUrl: string)
  {
    m.matchUrl == matchUrl && DemoConsistent(m) && Placeholder !in m.teams
  }

  /** Every record `parse` makes is fit to be stored for its page. */
  ghost predicate MakesWellFormedRecords(parse: PageParser)
  {
    forall doc: Document, matchUrl: string :: parse(doc, matchUrl).Ok? ==> WellFormedRecord(parse(doc, matchUrl).value, matchUrl)
  }

  /** Every record the match parser makes is well formed for its page. */
  lemma MatchPageParserWellFormed(w: World)
    ensures MakesWellFormedRecords(MatchPageParser(w))
  {
    forall doc: Document, matchUrl: string | MatchPageParser(w)(doc, matchUrl).Ok?
      ensures WellFormedRecord(MatchPageParser(w)(doc, matchUrl).value, matchUrl)
    {
      var r := ExtractMatch(doc, matchUrl, w.formatDateTime);
      assert r.Ok? ==> WellFormedRecord(r.value, matchUrl);
    }
  }

  /**
   * With a parser whose records are well formed, the loop makes one record
   * per match page, in order, each well formed for its own URL; it reaches
   * every page unless a page ends it.
   */
  lemma {:induction false} MatchLoopRecords(fetch: PageFetcher, parse: PageParser, n: nat, urls: seq<string>)
    requires MakesWellFormedRecords(parse)
    ensures var run := MatchLoop(fetch, parse, n, urls);
      && (if run.outcome.Ok? then |run.records| == |urls| else |run.records| < |urls|)
      && forall i :: 0 <= i < |run.records| ==> WellFormedRecord(run.records[i], urls[i])
    decreases |urls|
  {
    if |urls| > 0 {
      var f := fetch(n, urls[0]);
      match parse(f.response.doc, urls[0])
      case Err(e) =>
      case Ok(m) =>
        MatchLoopRecords(fetch, parse, n + f.attempts, urls[1..]);
    }
  }

  /** The requests of one page: one to three for its URL, the delay adding none. */
  lemma PageRequests(f: Fetch, url: string)
    requires RequestUrls(f.trace) == Repeat(url, f.attempts)
    ensures RequestUrls(f.trace + [Sleep(SleepBetweenRequests)]) == Repeat(url, f.attempts)
  {
    RequestUrlsConcat(f.trace, [Sleep(SleepBetweenRequests)]);
    assert RequestUrls([Sleep(SleepBetweenRequests)]) == [];
  }

  /** How many pages a run reached: all of them, or up to and including the one that ended it. */
  function Reached(run: MatchesRun, urls: seq<string>): nat
  {
    if run.outcome.Ok? then |urls| else |run.records| + 1
  }

  /**
   * The run's trace requests each page it reached, in order, as many times
   * as `counts` says, each one to three times, and `requests` counts them.
   */
  ghost predicate RequestsPages(run: MatchesRun, urls: seq<string>, counts: seq<nat>)
  {
    && Reached(run, urls) <= |urls| && |counts| == Reached(run, urls) && AttemptCounts(counts)
    && RequestUrls(run.trace) == Expand(urls[..Reached(run, urls)], counts)
    && Requests(run.trace) == run.requests
  }

  /** A page that does not parse ends the loop, having requested only itself. */
  lemma RequestsPagesStops(urls: seq<string>, f: Fetch, e: Fault)
    requires |urls| > 0 && 1 <= f.attempts <= MaxAttempts && RequestUrls(f.trace) == Repeat(urls[0], f.attempts)
    ensures RequestsPages(MatchesRun(f.trace + [Sleep(SleepBetweenRequests)], [], Err(e), f.attempts), urls, [f.attempts])
  {
    PageRequests(f, urls[0]);
    ExpandCons(urls, 0, f.attempts, []);
    assert urls[1..][..0] == [] && [f.attempts] + [] == [f.attempts];
  }

  /** A page that parses, followed by the rest of the loop. */
  lemma RequestsPagesNext(urls: seq<string>, f: Fetch, m: MatchRecord, rest: MatchesRun, more: seq<nat>)
    requires |urls| > 0 && 1 <= f.attempts <= MaxAttempts && RequestUrls(f.trace) == Repeat(urls[0], f.attempts)
    requires RequestsPages(rest, urls[1..], more)
    ensures var step := f.trace + [Sleep(SleepBetweenRequests)];
      RequestsPages(MatchesRun(step + rest.trace, [m] + rest.records, rest.outcome, f.attempts + rest.requests),
                    urls, [f.attempts] + more)
  {
    var step := f.trace + [Sleep(SleepBetweenRequests)];
    PageRequests(f, urls[0]);
    RequestUrlsConcat(step, rest.trace);
    ExpandCons(urls, |more|, f.attempts, more);
  }

  /**
   * With a fetcher that requests only its page, one to three times, the
   * loop requests each page it reaches, in order, as many times as
   * `counts` says; `requests` counts them.
   */
  lemma {:induction false} MatchLoopRequests(fetch: PageFetcher, parse: PageParser, n: nat, urls: seq<string>)
    returns (counts: seq<nat>)
    requires RequestsOnlyItsUrl(fetch)
    ensures RequestsPages(MatchLoop(fetch, parse, n, urls), urls, counts)
    decreases |urls|
  {
    if |urls| == 0 {
      counts := [];
      assert urls[..0] == [];
    } else {
      var f := fetch(n, urls[0]);
      match parse(f.response.doc, urls[0])
      case Err(e) =>
        RequestsPagesStops(urls, f, e);
        counts := [f.attempts];
      case Ok(m) =>
        var more := MatchLoopRequests(fetch, parse, n + f.attempts, urls[1..]);
        RequestsPagesNext(urls, f, m, MatchLoop(fetch, parse, n + f.attempts, urls[1..]), more);
        counts := [f.attempts] + more;
    }
  }

  /**
   * The listing is requested first and exactly once; then each listed match
   * page is requested one to three times, in listing order, up to the
   * first page that cannot be parsed.
   */
  lemma MatchesForRequests(w: World, n: nat, eventId: string)
    ensures var run := MatchesFor(w, n, eventId);
            var urls := ListedMatches(w, n, eventId);
      && Reached(run, urls) <= |urls|
      && RequestUrls(run.trace)[0] == ResultsUrl(eventId)
      && Visits(RequestUrls(run.trace)[1..], urls[..Reached(run, urls)])
      && Requests(run.trace) == run.requests
  {
    var fetch := Retrier(w.server, EmergencySleep);
    var urls := ListedMatches(w, n, eventId);
    var loop := MatchLoop(fetch, MatchPageParser(w), n + 1, urls);
    RetrierRequestsOnlyItsUrl(w.server, EmergencySleep);
    var counts := MatchLoopRequests(fetch, MatchPageParser(w), n + 1, urls);
    RequestUrlsConcat([Request(ResultsUrl(eventId))], loop.trace);
    assert RequestUrls([Request(ResultsUrl(eventId))]) == [ResultsUrl(eventId)];
    assert RequestUrls(MatchesFor(w, n, eventId).trace)[1..] == RequestUrls(loop.trace);
  }

  /**
   * The records of a run are one per listed match page, in listing order,
   * each for its own page, with a replay id consistent with its link and
   * no placeholder team; all listed pages have one when the run succeeds.
   */
  lemma MatchesForRecords(w: World, n: nat, eventId: string)
    ensures var run := MatchesFor(w, n, eventId);
            var urls := ListedMatches(w, n, eventId);
      && (if run.outcome.Ok? then |run.records| == |urls| else |run.records| < |urls|)
      && forall i :: 0 <= i < |run.records| ==> WellFormedRecord(run.records[i], urls[i])
  {
    MatchPageParserWellFormed(w);
    MatchLoopRecords(Retrier(w.server, EmergencySleep), MatchPageParser(w), n + 1, ListedMatches(w, n, eventId));
  }


  /**
   * One turn of the loop over match pages: the page fetched with the retry
   * loop, the politeness delay, and the page parsed.
   */
  method FetchMatchPage(env: Env, matchUrl: string, ghost fetch: PageFetcher, ghost parse: PageParser)
    returns (parsed: Result<MatchRecord, Fault>)
    requires Retries(fetch, env.world.server, EmergencySleep) && ParsesMatchPages(parse, env.world)
    modifies env
    ensures var f := fetch(old(env.requests), matchUrl);
      && env.trace == old(env.trace) + (f.trace + [Sleep(SleepBetweenRequests)])
      && env.requests == old(env.requests) + f.attempts
      && parsed == parse(f.response.doc, matchUrl)
  {
    var page := RetryGet(env, matchUrl, EmergencySleep);
    env.Pause(SleepBetweenRequests);
    parsed := ParseMatchPage(page.doc, matchUrl, env.world.formatDateTime);
  }

  /** A gatherer for one event: its id never changes, and its list of matches only grows. */
  class MatchGatherer {
    const eventId: string
    var matches: seq<MatchRecord>

    constructor (eventId: string)
      ensures this.eventId == eventId && matches == []
    {
      this.eventId := eventId;
      matches := [];
    }

    /**
     * `get_matches_for_event`: appends one record per listed match, in
     * order, to `matches` (keeping what was there) and returns the list; a
     * page that cannot be parsed raises, after the records before it were
     * appended.
     */
    method GetMatchesForEvent(env: Env) returns (res: Result<seq<MatchRecord>, Fault>)
      modifies this, env
      ensures var run := MatchesFor(env.world, old(env.requests), eventId);
        && env.trace == old(env.trace) + run.trace && env.requests == old(env.requests) + run.requests
        && matches == old(matches) + run.records
        && res == if run.outcome.Ok? then Ok(matches) else Err(run.outcome.error)
    {
      var listing := env.Get(ResultsUrl(eventId));
      var matchUrls := MatchUrls(listing.doc.resultHrefs);
      ghost var listed := env.trace;
      RetrierRetries(env.world.server, EmergencySleep);
      MatchPageParserParses(env.world);
      res := GatherPages(env, matchUrls, Retrier(env.world.server, EmergencySleep), MatchPageParser(env.world));
      AppendAssoc(old(env.trace), [Request(ResultsUrl(eventId))], env.trace[|listed|..]);
    }

    /** The loop over the match pages of `get_matches_for_event`. */
    method GatherPages(env: Env, matchUrls: seq<string>, ghost fetch: PageFetcher, ghost parse: PageParser)
      returns (res: Result<seq<MatchRecord>, Fault>)
      requires Retries(fetch, env.world.server, EmergencySleep) && ParsesMatchPages(parse, env.world)
      modifies this, env
      ensures var run := MatchLoop(fetch, parse, old(env.requests), matchUrls);
        && env.trace == old(env.trace) + run.trace && env.requests == old(env.requests) + run.requests
        && matches == old(matches) + run.records
        && res == if run.outcome.Ok? then Ok(matches) else Err(run.outcome.error)
    {
      ghost var full := MatchLoop(fetch, parse, env.requests, matchUrls);
      ghost var goal := MatchesRun(env.trace + full.trace, matches + full.records, full.outcome, env.requests + full.requests);
      assert matchUrls[0..] == matchUrls;
      var i := 0;
      while i < |matchUrls|
        invariant 0 <= i <= |matchUrls|
        invariant Resumes(fetch, parse, matchUrls[i..], env.requests, env.trace, matches, goal)
      {
        var stop := GatherPageStep(env, matchUrls[i..], fetch, parse, goal);
        if stop.Some? {
          return Err(stop.value);
        }
        assert matchUrls[i..][1..] == matchUrls[i + 1..];
        i := i + 1;
      }
      res := Ok(matches);
    }

    /**
     * One turn of the loop over the match pages: the page `urls[0]` is
     * fetched and parsed and its record appended. `stop` holds the error
     * that ended the loop, or nothing when it goes on with the next page.
     */
    method GatherPageStep(env: Env, urls: seq<string>, ghost fetch: PageFetcher, ghost parse: PageParser, ghost goal: MatchesRun)
      returns (stop: Option<Fault>)
      requires Retries(fetch, env.world.server, EmergencySleep) && ParsesMatchPages(parse, env.world)
      requires |urls| > 0 && Resumes(fetch, parse, urls, env.requests, env.trace, matches, goal)
      modifies this, env
      ensures stop.Some? ==>
        env.trace == goal.trace && env.requests == goal.requests && matches == goal.records && goal.outcome == Err(stop.value)
      ensures stop.None? ==> Resumes(fetch, parse, urls[1..], env.requests, env.trace, matches, goal)
    {
      ghost var n, t := env.requests, env.trace;
      var parsed := FetchMatchPage(env, urls[0], fetch, parse);
      if parsed.Err? {
        ResumeStops(fetch, parse, urls, n, t, matches, goal);
        return Some(parsed.error);
      }
      ResumeNext(fetch, parse, urls, n, t, matches, goal);
      matches := matches + [parsed.value];
      stop := None;
    }
  }

  /**
   * The body of the loop over match pages in `get_matches_for_event`: the
   * team names, the time, the first demo link and the replay id, failing
   * at the first of them the page lacks.
   */
  method ParseMatchPage(doc: Document, matchUrl: string, formatDateTime: int -> string)
    returns (r: Result<MatchRecord, Fault>)
    ensures r == ExtractMatch(doc, matchUrl, formatDateTime)
  {
    if doc.teamNames.None? {
      return Err(AttributeError("teamsBox"));
    }
    var teams := RemovePlaceholder(doc.teamNames.value);
    if doc.matchTime.None? {
      return Err(AttributeError("timeAndEvent"));
    }
    if doc.matchTime.value.None? {
      return Err(TypeError("int(None)"));
    }
    var millis := ParseInt(doc.matchTime.value.value);
    if millis.None? {
      return Err(ValueError(doc.matchTime.value.value));
    }
    var date := formatDateTime(millis.value);
    var link := FindDemoLink(doc.anchors);
    if link.None? {
      return Err(NoDemoLink(matchUrl));
    }
    var demoUrl := Site + link.value;
    var segments := Split(demoUrl, '/');
    if |segments| <= 5 {
      return Err(IndexError("demo_url.split('/')[5]"));
    }
    r := Ok(MatchRecord("match", teams, date, matchUrl, segments[5], demoUrl));
  }
}
