/**
 * `EventGatherer`: walks the event archive page by page, storing every
 * event under its id, then (optionally) adds the matches of every stored
 * event, and writes the lookup document.
 */
module EventGathering {
  import opened Wrappers
  import opened Records
  import opened Dicts
  import opened Io
  import opened EventTypes
  import opened EventPages
  import MatchGathering

  /** The politeness delay between two archive pages, in seconds. */
  const SleepBetweenRequests: real := 0.1

  /** The back-off after a refused archive request, in seconds. */
  const EmergencySleep: real := 60.0

  // ---------------------------------------------------------------------
  // Storing the events of one archive page
  // ---------------------------------------------------------------------

  /** Reading one event block into the entry stored for it, or the error that ends the page. */
  type EventReader = EventBlock -> Result<EventEntry, Fault>

  /** The reader of `_extract_events`, with the world's day formatting. */
  function EventReaderOf(formatDay: int -> string): EventReader
  {
    (block: EventBlock) => ExtractEvent(block, formatDay)
  }

  /** `read` is `ExtractEvent` with the day formatting `formatDay`. */
  ghost predicate ReadsEvents(read: EventReader, formatDay: int -> string)
  {
    forall block: EventBlock {:trigger ExtractEvent(block, formatDay)} :: read(block) == ExtractEvent(block, formatDay)
  }

  lemma EventReaderOfReads(formatDay: int -> string)
    ensures ReadsEvents(EventReaderOf(formatDay), formatDay)
  {
  }

  /** What storing a page's events did: the lookup afterwards, and whether a block failed to be read. */
  datatype Stored = Stored(events: Lookup, outcome: Result<(), Fault>)

  /**
   * The loop of `_extract_events`: the blocks read in page order, each
   * stored under its id; a block that cannot be read raises, with the
   * events before it already stored.
   */
  function StoreEvents(d: Lookup, blocks: seq<EventBlock>, read: EventReader): (s: Stored)
    ensures d.Valid() ==> s.events.Valid()
    decreases |blocks|
  {
    if |blocks| == 0 then Stored(d, Ok(()))
    else
      match read(blocks[0])
      case Err(e) => Stored(d, Err(e))
      case Ok(entry) => StoreEvents(Put(d, entry.eventData.eventId, entry), blocks[1..], read)
  }

  /** Reading every block of a page, in order, without storing anything: the entries, or the first error. */
  function ReadAll(blocks: seq<EventBlock>, read: EventReader): Result<seq<EventEntry>, Fault>
    decreases |blocks|
  {
    if |blocks| == 0 then Ok([])
    else
      match read(blocks[0])
      case Err(e) => Err(e)
      case Ok(entry) =>
        match ReadAll(blocks[1..], read)
        case Err(e) => Err(e)
        case Ok(rest) => Ok([entry] + rest)
  }

  /** Each entry paired with its event id, the key it is stored under. */
  function Keyed(entries: seq<EventEntry>): seq<(string, EventEntry)>
    decreases |entries|
  {
    if |entries| == 0 then [] else [(entries[0].eventData.eventId, entries[0])] + Keyed(entries[1..])
  }

  /**
   * Storing a page is assigning its entries, keyed by id, one after the
   * other; it fails exactly when a block cannot be read, with that error.
   */
  lemma {:induction false} StoreEventsIsPutAll(d: Lookup, blocks: seq<EventBlock>, read: EventReader)
    requires d.Valid()
    ensures var s := StoreEvents(d, blocks, read);
            var all := ReadAll(blocks, read);
      && (s.outcome.Ok? <==> all.Ok?)
      && (all.Err? ==> s.outcome == Err(all.error))
      && (all.Ok? ==> s.events == PutAll(d, Keyed(all.value)))
    decreases |blocks|
  {
    if |blocks| == 0 {
      assert Keyed([]) == [];
    } else {
      match read(blocks[0])
      case Err(e) =>
      case Ok(entry) =>
        var k := entry.eventData.eventId;
        StoreEventsIsPutAll(Put(d, k, entry), blocks[1..], read);
        var rest := ReadAll(blocks[1..], read);
        if rest.Ok? {
          assert ([entry] + rest.value)[1..] == rest.value;
          PutAllCons(d, k, entry, Keyed(rest.value));
        }
    }
  }

  /**
   * After a page whose blocks all read, exactly the old events and the
   * page's ids are present; an id of the page holds the last entry the page
   * gave it (an event met again is overwritten, not listed twice), every
   * other event is as it was, and the old ids keep their order at the front.
   */
  lemma StoredEvents(d: Lookup, blocks: seq<EventBlock>, read: EventReader, id: string)
    requires d.Valid() && ReadAll(blocks, read).Ok?
    ensures var s := StoreEvents(d, blocks, read);
            var kvs := Keyed(ReadAll(blocks, read).value);
      && s.outcome.Ok?
      && (id in s.events.at <==> id in d.at || Assigns(kvs, id))
      && (id in s.events.at ==> s.events.at[id] == if Assigns(kvs, id) then LastValue(kvs, id) else d.at[id])
      && |s.events.keys| >= |d.keys| && s.events.keys[..|d.keys|] == d.keys
  {
    var kvs := Keyed(ReadAll(blocks, read).value);
    StoreEventsIsPutAll(d, blocks, read);
    PutAllKeys(d, kvs);
    if id in d.at || Assigns(kvs, id) {
      PutAllValues(d, kvs, id);
    }
  }

  /** Storing the blocks of one page into a lookup. */
  type PageStore = (Lookup, seq<EventBlock>) -> Stored

  /** The storing of `_extract_events`, with the reader `read`. */
  function StoreWith(read: EventReader): PageStore
  {
    (d: Lookup, blocks: seq<EventBlock>) => StoreEvents(d, blocks, read)
  }

  /** `store` takes every lookup that lists each key once to one that does too. */
  ghost predicate KeepsValid(store: PageStore)
  {
    forall d: Lookup, blocks: seq<EventBlock> {:trigger store(d, blocks)} :: d.Valid() ==> store(d, blocks).events.Valid()
  }

  /** `store` is `StoreEvents` with the reader `read`. */
  ghost predicate StoresWith(store: PageStore, read: EventReader)
  {
    forall d: Lookup, blocks: seq<EventBlock> {:trigger StoreEvents(d, blocks, read)} ::
      store(d, blocks) == StoreEvents(d, blocks, read)
  }

  lemma StoreWithStores(read: EventReader)
    ensures KeepsValid(StoreWith(read)) && StoresWith(StoreWith(read), read)
  {
  }

  // ---------------------------------------------------------------------
  // Walking the archive
  // ---------------------------------------------------------------------

  /** What the archive is searched for: the first and last day and the event type. */
  datatype Query = Query(start: string, end: string, eventType: EventType)

  /** The archive page at `offset` for a query. */
  function QueryUrl(q: Query, offset: nat): string
  {
    ArchiveUrl(q.start, q.end, q.eventType, offset)
  }

  /** The URL of the archive page at each offset. */
  type PageUrl = nat -> string

  /** The pages of the archive search `q`. */
  function PagesOf(q: Query): PageUrl
  {
    (offset: nat) => QueryUrl(q, offset)
  }

  /** `pageUrl` gives the pages of the archive search `q`. */
  ghost predicate ListsPages(pageUrl: PageUrl, q: Query)
  {
    forall offset: nat {:trigger QueryUrl(q, offset)} :: pageUrl(offset) == QueryUrl(q, offset)
  }

  lemma PagesOfLists(q: Query)
    ensures ListsPages(PagesOf(q), q)
  {
  }

  /** One archive page read: the offset it was requested at and how many event blocks it held. */
  datatype Page = Page(offset: nat, blocks: nat)

  /** What walking the archive did: the actions, the lookup, how it ended, its requests and the pages read. */
  datatype ArchiveRun = ArchiveRun(trace: seq<Action>, events: Lookup, outcome: Result<(), Fault>, requests: nat, pages: seq<Page>)

  /**
   * The `while True` loop of `get_events_lookup` from request number `n`:
   * the page at `offset` is fetched with the retry loop and its events
   * stored; a page with fewer than `PageSize` blocks ends the walk,
   * otherwise the offset moves on by `PageSize` after the politeness
   * delay. A block that cannot be read ends the walk with its error. At
   * most `fuel` pages are read.
   */
  function ArchiveFrom(fetch: MatchGathering.PageFetcher, store: PageStore, pageUrl: PageUrl, n: nat, offset: nat,
                       d: Lookup, fuel: nat): ArchiveRun
    decreases fuel
  {
    if fuel == 0 then ArchiveRun([], d, Err(PageBudgetExhausted), 0, [])
    else
      var f := fetch(n, pageUrl(offset));
      var blocks := f.response.doc.eventBlocks;
      var s := store(d, blocks);
      var page := Page(offset, |blocks|);
      if s.outcome.Err? || |blocks| < PageSize then ArchiveRun(f.trace, s.events, s.outcome, f.attempts, [page])
      else
        var rest := ArchiveFrom(fetch, store, pageUrl, n + f.attempts, offset + PageSize, s.events, fuel - 1);
        ArchiveRun(f.trace + [Sleep(SleepBetweenRequests)] + rest.trace, rest.events, rest.outcome,
                   f.attempts + rest.requests, [page] + rest.pages)
  }

  /** Walking the archive with a store that keeps lookups valid keeps the lookup valid. */
  lemma {:induction false} ArchiveKeepsValid(fetch: MatchGathering.PageFetcher, store: PageStore, pageUrl: PageUrl, n: nat,
                                             offset: nat, d: Lookup, fuel: nat)
    requires d.Valid() && KeepsValid(store)
    ensures ArchiveFrom(fetch, store, pageUrl, n, offset, d, fuel).events.Valid()
    decreases fuel
  {
    if fuel > 0 {
      var f := fetch(n, pageUrl(offset));
      var s := store(d, f.response.doc.eventBlocks);
      if !(s.outcome.Err? || |f.response.doc.eventBlocks| < PageSize) {
        ArchiveKeepsValid(fetch, store, pageUrl, n + f.attempts, offset + PageSize, s.events, fuel - 1);
      }
    }
  }

  /**
   * The pages of a walk from `offset`: no more than `fuel`, at least one
   * when any may be read, at offsets `offset`, `offset + PageSize`, ... in
   * order; every page but the last was full, and a walk that succeeds
   * ended on a page that was not.
   */
  ghost predicate Paged(run: ArchiveRun, offset: nat, fuel: nat)
  {
    && |run.pages| <= fuel
    && (fuel > 0 ==> |run.pages| > 0)
    && (forall k :: 0 <= k < |run.pages| ==> run.pages[k].offset == offset + PageSize * k)
    && (forall k :: 0 <= k < |run.pages| - 1 ==> run.pages[k].blocks >= PageSize)
    && (run.outcome.Ok? ==> |run.pages| > 0 && run.pages[|run.pages| - 1].blocks < PageSize)
  }

  /** A walk that ends on its first page. */
  lemma PagedStops(page: Page, offset: nat, fuel: nat, t: seq<Action>, d: Lookup, outcome: Result<(), Fault>, requests: nat)
    requires fuel > 0 && page.offset == offset
    requires outcome.Ok? ==> page.blocks < PageSize
    ensures Paged(ArchiveRun(t, d, outcome, requests, [page]), offset, fuel)
  {
  }

  /** A full first page, then the walk from the next offset. */
  lemma PagedNext(page: Page, offset: nat, fuel: nat, rest: ArchiveRun, t: seq<Action>, requests: nat)
    requires fuel > 0 && page.offset == offset && page.blocks >= PageSize
    requires Paged(rest, offset + PageSize, fuel - 1)
    ensures Paged(ArchiveRun(t, rest.events, rest.outcome, requests, [page] + rest.pages), offset, fuel)
  {
    var pages := [page] + rest.pages;
    forall k | 0 < k < |pages|
      ensures pages[k] == rest.pages[k - 1]
    {
    }
  }

  /** Every walk reads the pages `Paged` describes. */
  lemma {:induction false} ArchivePaging(fetch: MatchGathering.PageFetcher, store: PageStore, pageUrl: PageUrl, n: nat,
                                         offset: nat, d: Lookup, fuel: nat)
    ensures Paged(ArchiveFrom(fetch, store, pageUrl, n, offset, d, fuel), offset, fuel)
    decreases fuel
  {
    if fuel > 0 {
      var f := fetch(n, pageUrl(offset));
      var blocks := f.response.doc.eventBlocks;
      var s := store(d, blocks);
      var page := Page(offset, |blocks|);
      if s.outcome.Err? || |blocks| < PageSize {
        assert ArchiveFrom(fetch, store, pageUrl, n, offset, d, fuel) == ArchiveRun(f.trace, s.events, s.outcome, f.attempts, [page]);
        PagedStops(page, offset, fuel, f.trace, s.events, s.outcome, f.attempts);
      } else {
        var rest := ArchiveFrom(fetch, store, pageUrl, n + f.attempts, offset + PageSize, s.events, fuel - 1);
        ArchivePaging(fetch, store, pageUrl, n + f.attempts, offset + PageSize, s.events, fuel - 1);
        assert ArchiveFrom(fetch, store, pageUrl, n, offset, d, fuel)
            == ArchiveRun(f.trace + [Sleep(SleepBetweenRequests)] + rest.trace, rest.events, rest.outcome,
                          f.attempts + rest.requests, [page] + rest.pages);
        PagedNext(page, offset, fuel, rest, f.trace + [Sleep(SleepBetweenRequests)] + rest.trace, f.attempts + rest.requests);
      }
    }
  }

  /** The URLs of the pages read, in order. */
  function PageUrls(pageUrl: PageUrl, pages: seq<Page>): (urls: seq<string>)
    ensures |urls| == |pages|
    decreases |pages|
  {
    if |pages| == 0 then [] else [pageUrl(pages[0].offset)] + PageUrls(pageUrl, pages[1..])
  }

  /**
   * The walk's trace requests the URL of each page it read, in order, as
   * many times as `counts` says, each one to three times; `requests`
   * counts them.
   */
  ghost predicate RequestsArchive(run: ArchiveRun, pageUrl: PageUrl, counts: seq<nat>)
  {
    && |counts| == |run.pages| && AttemptCounts(counts)
    && RequestUrls(run.trace) == Expand(PageUrls(pageUrl, run.pages), counts)
    && Requests(run.trace) == run.requests
  }

  /** A walk that ends on its first page requests only that page. */
  lemma RequestsArchiveStops(pageUrl: PageUrl, page: Page, f: Fetch, d: Lookup, outcome: Result<(), Fault>)
    requires 1 <= f.attempts <= MaxAttempts && RequestUrls(f.trace) == Repeat(pageUrl(page.offset), f.attempts)
    ensures RequestsArchive(ArchiveRun(f.trace, d, outcome, f.attempts, [page]), pageUrl, [f.attempts])
  {
    assert [page][1..] == [];
    ExpandFront(pageUrl(page.offset), f.attempts, [], []);
    AttemptCountsFront(f.attempts, []);
  }

  /** A first page, the delay, then the rest of the walk. */
  lemma RequestsArchiveNext(pageUrl: PageUrl, page: Page, f: Fetch, rest: ArchiveRun, more: seq<nat>)
    requires 1 <= f.attempts <= MaxAttempts && RequestUrls(f.trace) == Repeat(pageUrl(page.offset), f.attempts)
    requires RequestsArchive(rest, pageUrl, more)
    ensures var step := f.trace + [Sleep(SleepBetweenRequests)];
      RequestsArchive(ArchiveRun(step + rest.trace, rest.events, rest.outcome, f.attempts + rest.requests, [page] + rest.pages),
                      pageUrl, [f.attempts] + more)
  {
    var step := f.trace + [Sleep(SleepBetweenRequests)];
    var u := pageUrl(page.offset);
    assert RequestUrls(step + rest.trace) == Repeat(u, f.attempts) + RequestUrls(rest.trace) by {
      PauseRequestsNothing(f.trace, SleepBetweenRequests);
      RequestUrlsConcat(step, rest.trace);
    }
    assert PageUrls(pageUrl, [page] + rest.pages) == [u] + PageUrls(pageUrl, rest.pages) by {
      assert ([page] + rest.pages)[1..] == rest.pages;
    }
    ExpandFront(u, f.attempts, PageUrls(pageUrl, rest.pages), more);
    AttemptCountsFront(f.attempts, more);
  }

  /**
   * With a fetcher that requests only its page, one to three times, a
   * walk requests the URL of each page it reads, in order, and nothing else.
   */
  lemma {:induction false} ArchiveRequests(fetch: MatchGathering.PageFetcher, store: PageStore, pageUrl: PageUrl, n: nat,
                                           offset: nat, d: Lookup, fuel: nat) returns (counts: seq<nat>)
    requires RequestsOnlyItsUrl(fetch)
    ensures RequestsArchive(ArchiveFrom(fetch, store, pageUrl, n, offset, d, fuel), pageUrl, counts)
    decreases fuel
  {
    if fuel == 0 {
      counts := [];
      assert PageUrls(pageUrl, []) == [];
    } else {
      var f := fetch(n, pageUrl(offset));
      var blocks := f.response.doc.eventBlocks;
      var s := store(d, blocks);
      var page := Page(offset, |blocks|);
      if s.outcome.Err? || |blocks| < PageSize {
        assert ArchiveFrom(fetch, store, pageUrl, n, offset, d, fuel) == ArchiveRun(f.trace, s.events, s.outcome, f.attempts, [page]);
        RequestsArchiveStops(pageUrl, page, f, s.events, s.outcome);
        counts := [f.attempts];
      } else {
        var rest := ArchiveFrom(fetch, store, pageUrl, n + f.attempts, offset + PageSize, s.events, fuel - 1);
        var more := ArchiveRequests(fetch, store, pageUrl, n + f.attempts, offset + PageSize, s.events, fuel - 1);
        assert ArchiveFrom(fetch, store, pageUrl, n, offset, d, fuel)
            == ArchiveRun(f.trace + [Sleep(SleepBetweenRequests)] + rest.trace, rest.events, rest.outcome,
                          f.attempts + rest.requests, [page] + rest.pages);
        RequestsArchiveNext(pageUrl, page, f, rest, more);
        counts := [f.attempts] + more;
      }
    }
  }

  /**
   * `t`, `n` and `d` are the trace, request count and lookup so far;
   * walking on from `offset` with `fuel` pages left reaches `goal`.
   */
  ghost predicate ArchiveResumes(fetch: MatchGathering.PageFetcher, store: PageStore, pageUrl: PageUrl, n: nat, offset: nat,
                                 d: Lookup, fuel: nat, t: seq<Action>, goal: ArchiveRun)
  {
    var rest := ArchiveFrom(fetch, store, pageUrl, n, offset, d, fuel);
       t + rest.trace == goal.trace && n + rest.requests == goal.requests
       && rest.events == goal.events && rest.outcome == goal.outcome
  }

  /** A full page whose events all read moves the walk one page on towards the same goal. */
  lemma ArchiveNext(fetch: MatchGathering.PageFetcher, store: PageStore, pageUrl: PageUrl, n: nat, offset: nat,
                    d: Lookup, fuel: nat, t: seq<Action>, goal: ArchiveRun,
                    n': nat, offset': nat, d': Lookup, fuel': nat, t': seq<Action>)
    requires fuel > 0 && ArchiveResumes(fetch, store, pageUrl, n, offset, d, fuel, t, goal)
    requires var blocks := fetch(n, pageUrl(offset)).response.doc.eventBlocks;
      store(d, blocks).outcome.Ok? && |blocks| >= PageSize
    requires var f := fetch(n, pageUrl(offset));
      && n' == n + f.attempts && offset' == offset + PageSize && d' == store(d, f.response.doc.eventBlocks).events
      && fuel' == fuel - 1 && t' == t + f.trace + [Sleep(SleepBetweenRequests)]
    ensures ArchiveResumes(fetch, store, pageUrl, n', offset', d', fuel', t', goal)
  {
    var f := fetch(n, pageUrl(offset));
    var s := store(d, f.response.doc.eventBlocks);
    var step := f.trace + [Sleep(SleepBetweenRequests)];
    var rest := ArchiveFrom(fetch, store, pageUrl, n + f.attempts, offset + PageSize, s.events, fuel - 1);
    var full := ArchiveFrom(fetch, store, pageUrl, n, offset, d, fuel);
    assert full.trace == step + rest.trace && full.requests == f.attempts + rest.requests;
    assert full.events == rest.events && full.outcome == rest.outcome;
    MatchGathering.AppendAssoc(t, step, rest.trace);
    MatchGathering.AppendAssoc(t, f.trace, [Sleep(SleepBetweenRequests)]);
  }

  /** A short page, or a block that cannot be read, ends the walk there, at the goal. */
  lemma ArchiveStops(fetch: MatchGathering.PageFetcher, store: PageStore, pageUrl: PageUrl, n: nat, offset: nat,
                     d: Lookup, fuel: nat, t: seq<Action>, goal: ArchiveRun)
    requires fuel > 0 && ArchiveResumes(fetch, store, pageUrl, n, offset, d, fuel, t, goal)
    requires var blocks := fetch(n, pageUrl(offset)).response.doc.eventBlocks;
      store(d, blocks).outcome.Err? || |blocks| < PageSize
    ensures var f := fetch(n, pageUrl(offset));
            var s := store(d, f.response.doc.eventBlocks);
      && t + f.trace == goal.trace && n + f.attempts == goal.requests
      && s.events == goal.events && s.outcome == goal.outcome
  {
  }

  // ---------------------------------------------------------------------
  // Adding the matches
  // ---------------------------------------------------------------------

  /** Gathering an event's matches from a request number: `get_matches_for_event` of a fresh gatherer. */
  type MatchSource = (nat, string) -> MatchGathering.MatchesRun

  /** The match gathering of the world. */
  function MatchSourceOf(w: World): MatchSource
  {
    (n: nat, id: string) => MatchGathering.MatchesFor(w, n, id)
  }

  /** `gather` is `MatchesFor` in the world `w`. */
  ghost predicate GathersMatches(gather: MatchSource, w: World)
  {
    forall n: nat, id: string {:trigger MatchGathering.MatchesFor(w, n, id)} :: gather(n, id) == MatchGathering.MatchesFor(w, n, id)
  }

  lemma MatchSourceOfGathers(w: World)
    ensures GathersMatches(MatchSourceOf(w), w)
  {
  }

  /** What a part of `get_events_lookup` did: the actions, the lookup, how it ended, and its requests. */
  datatype Run = Run(trace: seq<Action>, events: Lookup, outcome: Result<(), Fault>, requests: nat)

  /** Every id of `ids` is a stored event. */
  predicate AllStored(d: Lookup, ids: seq<string>)
  {
    forall i :: 0 <= i < |ids| ==> ids[i] in d.at
  }

  /** The event `id` with the matches `ms`. */
  function WithMatches(d: Lookup, id: string, ms: seq<MatchRecord>): Lookup
    requires id in d.at
  {
    Put(d, id, d.at[id].(matches := Some(ms)))
  }

  /** Setting matches keeps every stored event stored. */
  lemma WithMatchesKeepsStored(d: Lookup, id: string, ms: seq<MatchRecord>, ids: seq<string>)
    requires id in d.at && AllStored(d, ids)
    ensures AllStored(WithMatches(d, id, ms), ids)
  {
  }

  /** The ids after the first are stored too. */
  lemma AllStoredTail(d: Lookup, ids: seq<string>)
    requires |ids| > 0 && AllStored(d, ids)
    ensures ids[0] in d.at && AllStored(d, ids[1..])
  {
    forall i | 0 <= i < |ids[1..]| ensures ids[1..][i] in d.at {
      assert ids[1..][i] == ids[i + 1];
    }
  }

  /**
   * The loop over the stored events from request number `n`: a fresh
   * `MatchGatherer` per event, whose matches become the event's `matches`;
   * an event whose matches cannot be gathered ends the loop with its error.
   */
  function MatchPhase(gather: MatchSource, n: nat, d: Lookup, ids: seq<string>): Run
    requires AllStored(d, ids)
    decreases |ids|
  {
    if |ids| == 0 then Run([], d, Ok(()), 0)
    else
      AllStoredTail(d, ids);
      var m := gather(n, ids[0]);
      if m.outcome.Err? then Run(m.trace, d, m.outcome, m.requests)
      else
        var d' := WithMatches(d, ids[0], m.records);
        WithMatchesKeepsStored(d, ids[0], m.records, ids[1..]);
        var rest := MatchPhase(gather, n + m.requests, d', ids[1..]);
        Run(m.trace + rest.trace, rest.events, rest.outcome, m.requests + rest.requests)
  }

  /** Entry `k` of `after` is entry `k` of `before` with at most its matches changed. */
  predicate SameEvent(before: Lookup, after: Lookup, k: string)
    requires k in before.at && k in after.at
  {
    after.at[k] == before.at[k].(matches := after.at[k].matches)
  }

  /** Setting the matches of stored events keeps the lookup valid. */
  lemma {:induction false} MatchPhaseKeepsValid(gather: MatchSource, n: nat, d: Lookup, ids: seq<string>)
    requires d.Valid() && AllStored(d, ids)
    ensures MatchPhase(gather, n, d, ids).events.Valid()
    decreases |ids|
  {
    if |ids| > 0 {
      AllStoredTail(d, ids);
      var m := gather(n, ids[0]);
      if m.outcome.Ok? {
        var d' := WithMatches(d, ids[0], m.records);
        WithMatchesKeepsStored(d, ids[0], m.records, ids[1..]);
        MatchPhaseKeepsValid(gather, n + m.requests, d', ids[1..]);
      }
    }
  }

  /** What the loop over the stored events keeps of the entry `k`, for the ids `ids` it visits. */
  ghost predicate KeepsEntry(d: Lookup, run: Run, ids: seq<string>, k: string)
  {
    && run.events.keys == d.keys
    && (k in run.events.at <==> k in d.at)
    && (k in d.at ==> SameEvent(d, run.events, k))
    && (k in d.at && k !in ids ==> run.events.at[k] == d.at[k])
    && (run.outcome.Ok? && k in d.at && k in ids ==> run.events.at[k].matches.Some?)
  }

  /** An id is the first one or among the rest. */
  lemma InTail(ids: seq<string>, k: string)
    requires |ids| > 0
    ensures k in ids <==> k == ids[0] || k in ids[1..]
  {
    if k in ids && k != ids[0] {
      var i :| 0 <= i < |ids| && ids[i] == k;
      assert ids[1..][i - 1] == k;
    }
  }

  /** One event's matches set, then the rest of the loop. */
  lemma KeepsEntryNext(d: Lookup, ids: seq<string>, m: MatchGathering.MatchesRun, rest: Run, k: string)
    requires |ids| > 0 && ids[0] in d.at
    requires KeepsEntry(WithMatches(d, ids[0], m.records), rest, ids[1..], k)
    ensures KeepsEntry(d, Run(m.trace + rest.trace, rest.events, rest.outcome, m.requests + rest.requests), ids, k)
  {
    InTail(ids, k);
  }

  /**
   * The loop over the stored events keeps the same events in the same
   * order and changes nothing but their matches; the events it did not
   * visit are untouched, and when it succeeds every visited event has its
   * matches.
   */
  lemma {:induction false} MatchPhaseEntries(gather: MatchSource, n: nat, d: Lookup, ids: seq<string>, k: string)
    requires AllStored(d, ids)
    ensures KeepsEntry(d, MatchPhase(gather, n, d, ids), ids, k)
    decreases |ids|
  {
    if |ids| > 0 {
      AllStoredTail(d, ids);
      var m := gather(n, ids[0]);
      if m.outcome.Ok? {
        var d' := WithMatches(d, ids[0], m.records);
        WithMatchesKeepsStored(d, ids[0], m.records, ids[1..]);
        MatchPhaseEntries(gather, n + m.requests, d', ids[1..], k);
        KeepsEntryNext(d, ids, m, MatchPhase(gather, n + m.requests, d', ids[1..]), k);
      }
    }
  }

  /**
   * `t`, `n` and `d` are the trace, request count and lookup so far; the
   * loop over the remaining `ids` from there reaches `goal`.
   */
  ghost predicate PhaseResumes(gather: MatchSource, n: nat, d: Lookup, ids: seq<string>, t: seq<Action>, goal: Run)
  {
    && AllStored(d, ids)
    && var rest := MatchPhase(gather, n, d, ids);
       t + rest.trace == goal.trace && n + rest.requests == goal.requests
       && rest.events == goal.events && rest.outcome == goal.outcome
  }

  /** An event whose matches were gathered moves the loop one event on towards the same goal. */
  lemma PhaseNext(gather: MatchSource, n: nat, d: Lookup, ids: seq<string>, t: seq<Action>, goal: Run)
    requires |ids| > 0 && PhaseResumes(gather, n, d, ids, t, goal)
    requires gather(n, ids[0]).outcome.Ok?
    ensures ids[0] in d.at
    ensures var m := gather(n, ids[0]);
      PhaseResumes(gather, n + m.requests, WithMatches(d, ids[0], m.records), ids[1..], t + m.trace, goal)
  {
    AllStoredTail(d, ids);
    var m := gather(n, ids[0]);
    var d' := WithMatches(d, ids[0], m.records);
    WithMatchesKeepsStored(d, ids[0], m.records, ids[1..]);
    var rest := MatchPhase(gather, n + m.requests, d', ids[1..]);
    MatchGathering.AppendAssoc(t, m.trace, rest.trace);
  }

  /** An event whose matches cannot be gathered ends the loop there, at the goal. */
  lemma PhaseStops(gather: MatchSource, n: nat, d: Lookup, ids: seq<string>, t: seq<Action>, goal: Run)
    requires |ids| > 0 && PhaseResumes(gather, n, d, ids, t, goal)
    requires gather(n, ids[0]).outcome.Err?
    ensures var m := gather(n, ids[0]);
      && t + m.trace == goal.trace && n + m.requests == goal.requests
      && d == goal.events && m.outcome == goal.outcome
  {
  }

  // ---------------------------------------------------------------------
  // The whole of `get_events_lookup`
  // ---------------------------------------------------------------------

  /**
   * What follows the archive walk from request number `n` with the lookup
   * `d`: the matches of every stored event when asked for, then the lookup
   * written to `location`; an error while gathering matches ends it and
   * nothing is written.
   */
  function Completion(gather: MatchSource, location: string, n: nat, d: Lookup, getMatches: bool): Run
    requires AllStored(d, d.keys)
  {
    var phase := if getMatches then MatchPhase(gather, n, d, d.keys) else Run([], d, Ok(()), 0);
    if phase.outcome.Err? then phase
    else Run(phase.trace + [Write(location, LookupJson(phase.events))], phase.events, Ok(()), phase.requests)
  }

  /**
   * `get_events_lookup` from request number `n` over the lookup `d`, with
   * the archive pages `pageUrl` fetched by `fetch` and stored by `store`,
   * and matches gathered by `gather`: the archive walk, then (when asked
   * for) the matches of every stored event, then the lookup written to
   * `location`; the first error ends the run and nothing is written.
   */
  function EventsLookup(fetch: MatchGathering.PageFetcher, store: PageStore, gather: MatchSource, pageUrl: PageUrl,
                        location: string, n: nat, d: Lookup, getMatches: bool, maxPages: nat): Run
    requires d.Valid() && KeepsValid(store)
  {
    ArchiveKeepsValid(fetch, store, pageUrl, n, 0, d, maxPages);
    AfterWalk(ArchiveFrom(fetch, store, pageUrl, n, 0, d, maxPages), gather, location, n, getMatches)
  }

  /**
   * The run of `get_events_lookup` from request number `n` whose archive
   * walk was `archive`: a walk that failed ends it, otherwise the
   * completion follows.
   */
  function AfterWalk(archive: ArchiveRun, gather: MatchSource, location: string, n: nat, getMatches: bool): Run
    requires AllStored(archive.events, archive.events.keys)
  {
    if archive.outcome.Err? then Run(archive.trace, archive.events, archive.outcome, archive.requests)
    else
      var rest := Completion(gather, location, n + archive.requests, archive.events, getMatches);
      Run(archive.trace + rest.trace, rest.events, rest.outcome, archive.requests + rest.requests)
  }

  /** The lookup the completion ends with is valid. */
  lemma CompletionValid(gather: MatchSource, location: string, n: nat, d: Lookup, getMatches: bool)
    requires d.Valid()
    ensures Completion(gather, location, n, d, getMatches).events.Valid()
  {
    if getMatches {
      MatchPhaseKeepsValid(gather, n, d, d.keys);
    }
  }

  /** The two ways a run goes on from its walk. */
  lemma AfterWalkSteps(archive: ArchiveRun, gather: MatchSource, location: string, n: nat, getMatches: bool)
    requires AllStored(archive.events, archive.events.keys)
    ensures var run := AfterWalk(archive, gather, location, n, getMatches);
            var rest := Completion(gather, location, n + archive.requests, archive.events, getMatches);
      run == if archive.outcome.Err? then Run(archive.trace, archive.events, archive.outcome, archive.requests)
             else Run(archive.trace + rest.trace, rest.events, rest.outcome, archive.requests + rest.requests)
  {
  }

  /** The lookup a run ends with is valid. */
  lemma AfterWalkValid(archive: ArchiveRun, gather: MatchSource, location: string, n: nat, getMatches: bool)
    requires archive.events.Valid()
    ensures AfterWalk(archive, gather, location, n, getMatches).events.Valid()
  {
    AfterWalkSteps(archive, gather, location, n, getMatches);
    if archive.outcome.Ok? {
      CompletionValid(gather, location, n + archive.requests, archive.events, getMatches);
    }
  }

  /** The lookup a run ends with is valid. */
  lemma EventsLookupValid(fetch: MatchGathering.PageFetcher, store: PageStore, gather: MatchSource, pageUrl: PageUrl,
                          location: string, n: nat, d: Lookup, getMatches: bool, maxPages: nat)
    requires d.Valid() && KeepsValid(store)
    ensures EventsLookup(fetch, store, gather, pageUrl, location, n, d, getMatches, maxPages).events.Valid()
  {
    var archive := ArchiveFrom(fetch, store, pageUrl, n, 0, d, maxPages);
    ArchiveKeepsValid(fetch, store, pageUrl, n, 0, d, maxPages);
    AfterWalkValid(archive, gather, location, n, getMatches);
  }

  /** A completion that succeeds ends by writing its lookup to `location`. */
  lemma CompletionSaves(gather: MatchSource, location: string, n: nat, d: Lookup, getMatches: bool,
                        disk: map<string, File>, before: seq<Action>)
    requires AllStored(d, d.keys)
    ensures var run := Completion(gather, location, n, d, getMatches);
            var files := Disk(disk, before + run.trace);
      run.outcome.Ok? ==> location in files && files[location] == LookupJson(run.events)
  {
    var phase := if getMatches then MatchPhase(gather, n, d, d.keys) else Run([], d, Ok(()), 0);
    if phase.outcome.Ok? {
      var file := LookupJson(phase.events);
      MatchGathering.AppendAssoc(before, phase.trace, [Write(location, file)]);
      DiskWrite(disk, before + phase.trace, location, file);
    }
  }

  /** A run that succeeds after its walk leaves its lookup on disk at `location`. */
  lemma AfterWalkSaves(archive: ArchiveRun, gather: MatchSource, location: string, n: nat, getMatches: bool,
                       disk: map<string, File>, before: seq<Action>)
    requires AllStored(archive.events, archive.events.keys)
    ensures var run := AfterWalk(archive, gather, location, n, getMatches);
            var files := Disk(disk, before + run.trace);
      run.outcome.Ok? ==> location in files && files[location] == LookupJson(run.events)
  {
    if archive.outcome.Ok? {
      var rest := Completion(gather, location, n + archive.requests, archive.events, getMatches);
      CompletionSaves(gather, location, n + archive.requests, archive.events, getMatches, disk, before + archive.trace);
      MatchGathering.AppendAssoc(before, archive.trace, rest.trace);
    }
  }

  /**
   * A run that succeeds leaves its lookup on disk at `location`, whatever
   * was on disk and whatever was done before it.
   */
  lemma EventsLookupSaves(fetch: MatchGathering.PageFetcher, store: PageStore, gather: MatchSource, pageUrl: PageUrl,
                          location: string, n: nat, d: Lookup, getMatches: bool, maxPages: nat,
                          disk: map<string, File>, before: seq<Action>)
    requires d.Valid() && KeepsValid(store)
    ensures var run := EventsLookup(fetch, store, gather, pageUrl, location, n, d, getMatches, maxPages);
            var files := Disk(disk, before + run.trace);
      run.outcome.Ok? ==> location in files && files[location] == LookupJson(run.events)
  {
    ArchiveKeepsValid(fetch, store, pageUrl, n, 0, d, maxPages);
    AfterWalkSaves(ArchiveFrom(fetch, store, pageUrl, n, 0, d, maxPages), gather, location, n, getMatches, disk, before);
  }

  /**
   * A completion with match data that succeeds keeps the events it started
   * with, in the same order and otherwise as they were, each with its
   * matches.
   */
  lemma CompletionMatches(gather: MatchSource, location: string, n: nat, d: Lookup, k: string)
    requires d.Valid()
    ensures var run := Completion(gather, location, n, d, true);
      run.outcome.Ok? ==>
        && run.events.keys == d.keys
        && (k in run.events.at <==> k in d.at)
        && (k in d.at ==> SameEvent(d, run.events, k) && run.events.at[k].matches.Some?)
  {
    MatchPhaseEntries(gather, n, d, d.keys, k);
    assert k in d.at ==> k in d.keys;
  }

  /** A run with match data that succeeds after its walk keeps the walk's events, each with its matches. */
  lemma AfterWalkMatches(archive: ArchiveRun, gather: MatchSource, location: string, n: nat, k: string)
    requires archive.events.Valid()
    ensures var run := AfterWalk(archive, gather, location, n, true);
      run.outcome.Ok? ==>
        && run.events.keys == archive.events.keys
        && (k in run.events.at <==> k in archive.events.at)
        && (k in archive.events.at ==> SameEvent(archive.events, run.events, k) && run.events.at[k].matches.Some?)
  {
    if archive.outcome.Ok? {
      CompletionMatches(gather, location, n + archive.requests, archive.events, k);
    }
  }

  /**
   * A run with match data that succeeds keeps the events the walk found,
   * in the same order and otherwise as found, each with its matches.
   */
  lemma EventsLookupMatches(fetch: MatchGathering.PageFetcher, store: PageStore, gather: MatchSource, pageUrl: PageUrl,
                            location: string, n: nat, d: Lookup, maxPages: nat, k: string)
    requires d.Valid() && KeepsValid(store)
    ensures var archive := ArchiveFrom(fetch, store, pageUrl, n, 0, d, maxPages);
            var run := EventsLookup(fetch, store, gather, pageUrl, location, n, d, true, maxPages);
      run.outcome.Ok? ==>
        && run.events.keys == archive.events.keys
        && (k in run.events.at <==> k in archive.events.at)
        && (k in archive.events.at ==> SameEvent(archive.events, run.events, k) && run.events.at[k].matches.Some?)
  {
    ArchiveKeepsValid(fetch, store, pageUrl, n, 0, d, maxPages);
    AfterWalkMatches(ArchiveFrom(fetch, store, pageUrl, n, 0, d, maxPages), gather, location, n, k);
  }

  // ---------------------------------------------------------------------
  // The gatherer
  // ---------------------------------------------------------------------

  /** One archive page requested with the retry loop. */
  method FetchArchivePage(env: Env, q: Query, offset: nat, ghost fetch: MatchGathering.PageFetcher, ghost pageUrl: PageUrl)
    returns (r: Response)
    requires Retries(fetch, env.world.server, EmergencySleep) && ListsPages(pageUrl, q)
    modifies env
    ensures var f := fetch(old(env.requests), pageUrl(offset));
      env.trace == old(env.trace) + f.trace && env.requests == old(env.requests) + f.attempts && r == f.response
  {
    r := RetryGet(env, QueryUrl(q, offset), EmergencySleep);
  }

  /** The matches of the event `id`, gathered by a fresh `MatchGatherer`. */
  method GatherEventMatches(env: Env, id: string, ghost gather: MatchSource) returns (res: Result<seq<MatchRecord>, Fault>)
    requires GathersMatches(gather, env.world)
    modifies env
    ensures var m := gather(old(env.requests), id);
      && env.trace == old(env.trace) + m.trace && env.requests == old(env.requests) + m.requests
      && res == if m.outcome.Ok? then Ok(m.records) else Err(m.outcome.error)
  {
    ghost var run := MatchGathering.MatchesFor(env.world, env.requests, id);
    var gatherer := new MatchGathering.MatchGatherer(id);
    res := gatherer.GetMatchesForEvent(env);
    assert [] + run.records == run.records;
  }

  /** The gatherer of events: its lookup only gains events and matches. */
  class EventGatherer {
    var events: Lookup

    constructor ()
      ensures events == Empty()
    {
      events := Empty();
    }

    /**
     * `_extract_events`: stores the events of an archive page and reports
     * whether it was the last page, that is whether it held fewer than
     * `PageSize` blocks.
     */
    method ExtractEvents(response: Response, formatDay: int -> string, ghost read: EventReader) returns (done: Result<bool, Fault>)
      requires ReadsEvents(read, formatDay)
      modifies this
      ensures var s := StoreEvents(old(events), response.doc.eventBlocks, read);
        && events == s.events
        && done == if s.outcome.Ok? then Ok(|response.doc.eventBlocks| < PageSize) else Err(s.outcome.error)
    {
      var blocks := response.doc.eventBlocks;
      assert blocks[0..] == blocks;
      var i := 0;
      while i < |blocks|
        invariant 0 <= i <= |blocks|
        invariant StoreEvents(events, blocks[i..], read) == StoreEvents(old(events), blocks, read)
      {
        assert blocks[i..][0] == blocks[i] && blocks[i..][1..] == blocks[i + 1..];
        var extracted := ExtractEvent(blocks[i], formatDay);
        if extracted.Err? {
          return Err(extracted.error);
        }
        events := Put(events, extracted.value.eventData.eventId, extracted.value);
        i := i + 1;
      }
      done := Ok(|blocks| < PageSize);
    }

    /**
     * One turn of the archive walk: the page at `offset` requested with the
     * retry loop, then its events stored; `done` says whether it was the
     * last page.
     */
    method ReadArchivePage(env: Env, q: Query, offset: nat, ghost fetch: MatchGathering.PageFetcher,
                           ghost store: PageStore, ghost read: EventReader, ghost pageUrl: PageUrl)
      returns (done: Result<bool, Fault>)
      requires Retries(fetch, env.world.server, EmergencySleep) && ListsPages(pageUrl, q)
      requires StoresWith(store, read) && ReadsEvents(read, env.world.formatDay)
      modifies this, env
      ensures var f := fetch(old(env.requests), pageUrl(offset));
              var s := store(old(events), f.response.doc.eventBlocks);
        && env.trace == old(env.trace) + f.trace && env.requests == old(env.requests) + f.attempts
        && events == s.events
        && done == if s.outcome.Ok? then Ok(|f.response.doc.eventBlocks| < PageSize) else Err(s.outcome.error)
    {
      var r := FetchArchivePage(env, q, offset, fetch, pageUrl);
      done := ExtractEvents(r, env.world.formatDay, read);
    }

    /**
     * One turn of the `while True` loop of `get_events_lookup` with `fuel`
     * pages still allowed: the page at `offset` is read, and unless it was
     * the last one the politeness delay follows. `stop` holds how the walk
     * ended, or nothing when it goes on at the next offset.
     */
    method WalkStep(env: Env, q: Query, offset: nat, fuel: nat, ghost fetch: MatchGathering.PageFetcher,
                    ghost store: PageStore, ghost read: EventReader, ghost pageUrl: PageUrl, ghost goal: ArchiveRun)
      returns (stop: Option<Result<(), Fault>>)
      requires Retries(fetch, env.world.server, EmergencySleep) && ListsPages(pageUrl, q)
      requires StoresWith(store, read) && ReadsEvents(read, env.world.formatDay)
      requires fuel > 0 && ArchiveResumes(fetch, store, pageUrl, env.requests, offset, events, fuel, env.trace, goal)
      modifies this, env
      ensures stop.Some? ==>
        env.trace == goal.trace && env.requests == goal.requests && events == goal.events && stop.value == goal.outcome
      ensures stop.None? ==>
        ArchiveResumes(fetch, store, pageUrl, env.requests, offset + PageSize, events, fuel - 1, env.trace, goal)
    {
      ghost var n, t, d := env.requests, env.trace, events;
      ghost var f := fetch(n, pageUrl(offset));
      var done := ReadArchivePage(env, q, offset, fetch, store, read, pageUrl);
      if done.Err? || done.value {
        ArchiveStops(fetch, store, pageUrl, n, offset, d, fuel, t, goal);
        ghost var s := store(d, f.response.doc.eventBlocks);
        assert if s.outcome.Ok? then s.outcome.value == () else done == Err(s.outcome.error);
        return Some(if done.Err? then Err(done.error) else Ok(()));
      }
      env.Pause(SleepBetweenRequests);
      ArchiveNext(fetch, store, pageUrl, n, offset, d, fuel, t, goal, env.requests, offset + PageSize, events, fuel - 1, env.trace);
      stop := None;
    }

    /** The `while True` loop of `get_events_lookup`, reading at most `maxPages` pages. */
    method WalkArchive(env: Env, q: Query, maxPages: nat, ghost fetch: MatchGathering.PageFetcher,
                       ghost store: PageStore, ghost read: EventReader, ghost pageUrl: PageUrl)
      returns (res: Result<(), Fault>)
      requires Retries(fetch, env.world.server, EmergencySleep) && ListsPages(pageUrl, q)
      requires StoresWith(store, read) && ReadsEvents(read, env.world.formatDay)
      modifies this, env
      ensures var run := ArchiveFrom(fetch, store, pageUrl, old(env.requests), 0, old(events), maxPages);
        && env.trace == old(env.trace) + run.trace && env.requests == old(env.requests) + run.requests
        && events == run.events && res == run.outcome
    {
      ghost var full := ArchiveFrom(fetch, store, pageUrl, env.requests, 0, events, maxPages);
      ghost var goal := ArchiveRun(env.trace + full.trace, full.events, full.outcome, env.requests + full.requests, full.pages);
      var offset: nat := 0;
      var pages: nat := 0;
      while pages < maxPages
        invariant pages <= maxPages
        invariant ArchiveResumes(fetch, store, pageUrl, env.requests, offset, events, maxPages - pages, env.trace, goal)
        decreases maxPages - pages
      {
        var stop := WalkStep(env, q, offset, maxPages - pages, fetch, store, read, pageUrl, goal);
        if stop.Some? {
          return stop.value;
        }
        offset := offset + PageSize;
        pages := pages + 1;
      }
      res := Err(PageBudgetExhausted);
    }

    /**
     * One turn of the loop over the stored events: the matches of the event
     * `ids[0]` are gathered and set. `stop` holds how the loop ended, or
     * nothing when it goes on with the next event.
     */
    method GatherStep(env: Env, ids: seq<string>, ghost gather: MatchSource, ghost goal: Run)
      returns (stop: Option<Result<(), Fault>>)
      requires |ids| > 0 && GathersMatches(gather, env.world)
      requires PhaseResumes(gather, env.requests, events, ids, env.trace, goal)
      modifies this, env
      ensures stop.Some? ==>
        env.trace == goal.trace && env.requests == goal.requests && events == goal.events && stop.value == goal.outcome
      ensures stop.None? ==> PhaseResumes(gather, env.requests, events, ids[1..], env.trace, goal)
    {
      var id := ids[0];
      ghost var n, t := env.requests, env.trace;
      var matches := GatherEventMatches(env, id, gather);
      if matches.Err? {
        PhaseStops(gather, n, events, ids, t, goal);
        return Some(Err(matches.error));
      }
      PhaseNext(gather, n, events, ids, t, goal);
      events := WithMatches(events, id, matches.value);
      stop := None;
    }

    /** The loop over the stored events of `get_events_lookup`. */
    method GatherMatches(env: Env, ids: seq<string>, ghost gather: MatchSource) returns (res: Result<(), Fault>)
      requires AllStored(events, ids) && GathersMatches(gather, env.world)
      modifies this, env
      ensures var run := MatchPhase(gather, old(env.requests), old(events), ids);
        && env.trace == old(env.trace) + run.trace && env.requests == old(env.requests) + run.requests
        && events == run.events && res == run.outcome
    {
      ghost var full := MatchPhase(gather, env.requests, events, ids);
      ghost var goal := Run(env.trace + full.trace, full.events, full.outcome, env.requests + full.requests);
      assert ids[0..] == ids;
      var i := 0;
      while i < |ids|
        invariant 0 <= i <= |ids|
        invariant PhaseResumes(gather, env.requests, events, ids[i..], env.trace, goal)
      {
        var stop := GatherStep(env, ids[i..], gather, goal);
        if stop.Some? {
          return stop.value;
        }
        assert ids[i..][1..] == ids[i + 1..];
        i := i + 1;
      }
      res := Ok(());
    }

    /**
     * The body of `get_events_lookup` for the search `q`: walks the
     * archive, adds the matches when asked to, and writes the lookup to
     * `location`.
     */
    method RunEventsLookup(env: Env, q: Query, location: string, getMatches: bool, maxPages: nat,
                           ghost fetch: MatchGathering.PageFetcher, ghost store: PageStore, ghost read: EventReader,
                           ghost pageUrl: PageUrl, ghost gather: MatchSource)
      returns (res: Result<(), Fault>)
      requires Retries(fetch, env.world.server, EmergencySleep) && ListsPages(pageUrl, q)
      requires StoresWith(store, read) && ReadsEvents(read, env.world.formatDay) && GathersMatches(gather, env.world)
      requires var walked := ArchiveFrom(fetch, store, pageUrl, env.requests, 0, events, maxPages).events;
        AllStored(walked, walked.keys)
      modifies this, env
      ensures var archive := ArchiveFrom(fetch, store, pageUrl, old(env.requests), 0, old(events), maxPages);
              var run := AfterWalk(archive, gather, location, old(env.requests), getMatches);
        && env.trace == old(env.trace) + run.trace && env.requests == old(env.requests) + run.requests
        && events == run.events && res == run.outcome
    {
      ghost var t0, n, d := env.trace, env.requests, events;
      ghost var archive := ArchiveFrom(fetch, store, pageUrl, n, 0, d, maxPages);
      res := WalkArchive(env, q, maxPages, fetch, store, read, pageUrl);
      assert env.trace == t0 + archive.trace && env.requests == n + archive.requests;
      assert events == archive.events && res == archive.outcome;
      AfterWalkSteps(archive, gather, location, n, getMatches);
      if res.Err? {
        return;
      }
      ghost var rest := Completion(gather, location, n + archive.requests, archive.events, getMatches);
      res := CompleteLookup(env, location, getMatches, gather);
      MatchGathering.AppendAssoc(t0, archive.trace, rest.trace);
    }

    /** What `get_events_lookup` does after the archive walk. */
    method CompleteLookup(env: Env, location: string, getMatches: bool, ghost gather: MatchSource)
      returns (res: Result<(), Fault>)
      requires AllStored(events, events.keys) && GathersMatches(gather, env.world)
      modifies this, env
      ensures var run := Completion(gather, location, old(env.requests), old(events), getMatches);
        && env.trace == old(env.trace) + run.trace && env.requests == old(env.requests) + run.requests
        && events == run.events && res == run.outcome
    {
      ghost var t0 := env.trace;
      res := Ok(());
      if getMatches {
        res := GatherMatches(env, events.keys, gather);
        if res.Err? {
          return;
        }
      } else {
        assert env.trace == t0 + [];
      }
      assert res.value == ();
      ghost var t1 := env.trace;
      env.WriteFile(location, LookupJson(events));
      MatchGathering.AppendAssoc(t0, t1[|t0|..], [Write(location, LookupJson(events))]);
    }

    /**
     * `get_events_lookup`: walks the archive, adds the matches when asked
     * to, and writes the lookup to `event_lookup__<start>__<end>__<type>.json`
     * in `storagePath`, or in the working directory without one. The
     * defaults are those of `get_events_lookup`; `maxPages` bounds the walk.
     */
    method GetEventsLookup(env: Env, maxPages: nat, start: string := "2021-04-22", end: string := "2022-04-22", t: EventType := ONLINE,
                           getMatches: bool := true, storagePath: Option<string> := None) returns (res: Result<(), Fault>)
      requires events.Valid()
      modifies this, env
      ensures var run := EventsLookup(Retrier(env.world.server, EmergencySleep), StoreWith(EventReaderOf(env.world.formatDay)),
                                      MatchSourceOf(env.world), PagesOf(Query(start, end, t)),
                                      LookupLocation(env.world.cwd, storagePath, start, end, t),
                                      old(env.requests), old(events), getMatches, maxPages);
        && env.trace == old(env.trace) + run.trace && env.requests == old(env.requests) + run.requests
        && events == run.events && res == run.outcome
    {
      var q := Query(start, end, t);
      RetrierRetries(env.world.server, EmergencySleep);
      EventReaderOfReads(env.world.formatDay);
      MatchSourceOfGathers(env.world);
      StoreWithStores(EventReaderOf(env.world.formatDay));
      PagesOfLists(q);
      ArchiveKeepsValid(Retrier(env.world.server, EmergencySleep), StoreWith(EventReaderOf(env.world.formatDay)),
                        PagesOf(q), env.requests, 0, events, maxPages);
      var location := LookupLocation(env.world.cwd, storagePath, start, end, t);
      res := RunEventsLookup(env, q, location, getMatches, maxPages, Retrier(env.world.server, EmergencySleep),
                             StoreWith(EventReaderOf(env.world.formatDay)), EventReaderOf(env.world.formatDay),
                             PagesOf(q), MatchSourceOf(env.world));
    }
  }
}
