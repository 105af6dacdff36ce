# goscrape pipeline, modelled in Dafny

goscrape scrapes the CS:GO site hltv.org in three stages.

1. `EventGatherer` walks the events archive for a date range and an event type, page by page. It stores every event block it reads under its event id. When asked, it gathers the matches of each stored event. It then writes the whole lookup document as `event_lookup__<start>__<end>__<type>.json`.
2. `MatchGatherer` reads the results listing of one event and fetches every match page. It turns each page into a match record: the teams without the placeholder `9z`, the date, and the replay ("demo") link and id.
3. `DemoDownloader` downloads the replay of every match into `<root>/demofiles/<event id>/<demo id>.rar`. The matches come either from one event id or from a lookup document on disk. The downloads are handed to a worker pool or done one after the other.

`EventType` names the six kinds of event the archive can be filtered by.

Every call site requests a URL in the same retry loop. It makes up to three attempts, stops at the first status 200, and sleeps 60 seconds after each refused attempt. After three refusals it carries on with the last response.

## How the model works

- **The world.** Everything the program gets from outside is a parameter, the `Io.World`:
  - the HTTP server, a function from the request number and the URL to a response whose document is already parsed;
  - the local date formatting;
  - the working directory and `os.cpu_count()`;
  - the files on disk before the run.
- **The effects.** `Io.Env` is a class that holds the world, the trace of actions so far (requests, sleeps, directories made, files written, pool runs) and the number of requests made.
- **Modules.** Each source class is a module of the same name (`MatchGathering`, `EventGathering`, `DemoDownloading`).
  - Its class has the source's state: the `matches` list of a `MatchGatherer`, and the ordered `events` dictionary of an `EventGatherer`.
  - Its methods carry the source's loops. Each method is proved equal to a pure function of the world and the old state, such as `MatchGathering.MatchesFor`, `EventGathering.EventsLookup` or `DemoDownloading.Dispatch`.
  - The lemmas about those functions state what the program promises: which URLs are requested and in what order, what gets stored and written, and when a run fails.
- **Python dictionaries.** A `dict` is an insertion-ordered `Dicts.Dict`.
- **Python built-ins.** The string built-ins the code relies on (`split`, `strip`, `replace`, `int`, `str`, `urllib.parse.quote`, `os.path.join`) are written out in `Text`, `Quoting` and `Paths`, with their own round-trip lemmas.

## Model

| member | source | states |
|---|---|---|
| EventTypes.Str | src/pipe/EventType.py:15-16 | `str()` of a member is its name; it equals its value only for ALL, MAJOR and ONLINE |
| EventTypes.FromValue | src/pipe/EventType.py:8-13 | `EventType(v)` finds the member whose value is `v`; it fails only when no member has that value |
| EventTypes.FromName | src/pipe/EventType.py:8-13 | `EventType[n]` finds the member named `n`; it fails only when no member has that name |
| EventTypes.MembersAreComplete | src/pipe/EventType.py:8-13 | there are exactly six members, each listed once |
| EventTypes.ValuesAreDistinct | src/pipe/EventType.py:8-13 | two members share a value only if they are the same member |
| EventTypes.NamesAreDistinct | src/pipe/EventType.py:8-13 | two members share a name only if they are the same member |
| EventTypes.LookupsRoundTrip | src/pipe/EventType.py:8-13 | looking a member up by its value or by its name gives it back |
| Text.Split | src/pipe/EventGatherer.py:44 | `s.split(sep)` gives at least one part, no part holds `sep`, and the parts joined with `sep` are `s` |
| Text.SplitJoin | src/pipe/MatchGatherer.py:85 | splitting what was joined gives back the parts, provided no part holds the separator |
| Text.Strip | src/pipe/EventGatherer.py:54 | the stripped text is no longer than the input and neither starts nor ends with whitespace |
| Text.StripIsBlock | src/pipe/EventGatherer.py:62 | what `strip()` keeps is one contiguous block of the input, with only whitespace before and after it |
| Text.StripIdempotent | src/pipe/EventGatherer.py:62 | stripping twice is the same as stripping once |
| Text.ReplaceChar | src/pipe/EventGatherer.py:62 | after `replace(c, repl)` no `c` is left when `repl` has none; a one-character `repl` changes exactly the positions that held `c`; an empty `repl` keeps every other character |
| Text.ReplaceCharRoundTrip | src/pipe/EventGatherer.py:160 | replacing `a` by `b` is undone by replacing `b` by `a`, provided `b` did not occur before |
| Text.ParseIntRoundTrip | src/pipe/DemoDownloader.py:140 | `int(str(n)) == n` for every integer |
| Text.IntToString | src/pipe/EventGatherer.py:30-32 | `str(n)` is non-empty, made of digits and `-`, and holds no `/` |
| Quoting.Quote | src/pipe/EventGatherer.py:30-32 | what `quote` produces is at least as long as its input and holds only unreserved characters, `/` and `%` |
| Quoting.QuoteIdentity | src/pipe/EventGatherer.py:30-32 | `quote` changes nothing exactly when every character is unreserved or `/` |
| Quoting.QuoteHasNoDelimiters | src/pipe/EventGatherer.py:30-32 | a quoted value never holds `?`, `&` or `=`, so it cannot break the query string |
| Paths.PathJoin | src/pipe/DemoDownloader.py:28 | `os.path.join(a, b)` ends with `b`, and is `a/b` for a relative `b` and an `a` that does not end in `/` |
| Dicts.Put | src/pipe/EventGatherer.py:93-94 | `d[k] = v` sets `k` to `v` and keeps every other entry; a present key keeps its place, a new key goes last, and no key is listed twice |
| Dicts.PutAllKeys | src/pipe/EventGatherer.py:89-94 | after a run of assignments, exactly the old keys and the assigned ones are present, and the old keys keep their order at the front |
| Dicts.PutAllValues | src/pipe/EventGatherer.py:89-94 | after a run of assignments, each key holds the value it was last assigned, or its old value if it was not assigned |
| Dicts.PutAllIdempotent | src/pipe/EventGatherer.py:89-94 | replaying the same assignments over their own result changes nothing |
| Dicts.Items | src/pipe/DemoDownloader.py:98 | `d.items()` lists each key with its value, in key order |
| Io.RetryFrom | src/pipe/MatchGatherer.py:47-58 | the retry loop makes between one attempt and the number of attempts allowed |
| Io.RetryFacts | src/pipe/MatchGatherer.py:47-58 | the loop keeps the response of its last attempt, every earlier attempt was refused, it stops early only on status 200, and it sleeps after each refused attempt and after nothing else |
| Io.RetryDetermined | src/pipe/EventGatherer.py:120-132 | the converse of `RetryFacts`: attempts whose earlier responses were refused, ending at a status 200 or at the last attempt allowed, are exactly what the retry loop does |
| Io.RetryRequests | src/pipe/DemoDownloader.py:32-55 | a retry loop requests its URL once per attempt and nothing else |
| Io.RetryGet | src/pipe/MatchGatherer.py:47-58 | the `while attempts < 3` loop changes the trace and the request count exactly as `Retry` says, and returns its response |
| Io.Env.Get | src/pipe/MatchGatherer.py:38 | `requests.get` adds one request to the trace, and its response is the server's answer to that request number |
| Io.Env.Pause | src/pipe/MatchGatherer.py:61 | `time.sleep` adds one sleep and requests nothing |
| Io.Env.MakeDirectory | src/pipe/DemoDownloader.py:29 | `mkdir(parents=True, exist_ok=True)` adds one directory action and requests nothing |
| Io.Env.WriteFile | src/pipe/EventGatherer.py:162-163 | writing a file adds one write action and requests nothing |
| Io.Env.StartPool | src/pipe/DemoDownloader.py:72-73 | handing tasks to a pool adds one pool run with its workers and tasks, and requests nothing |
| Io.Env.Read | src/pipe/DemoDownloader.py:91-92 | opening a file finds it exactly when it is on disk after the trace so far, and returns what was last written there |
| Io.DiskWrite | src/pipe/EventGatherer.py:162-163 | a write is the last word on its path |
| EventPages.ArchiveUrlAsWritten | src/pipe/EventGatherer.py:28-32 | the archive URL is the URL of the source's two format strings, one per branch on `ALL` |
| EventPages.ArchiveParamsShape | src/pipe/EventGatherer.py:29-32 | the `eventType` parameter is present exactly when the type is not `ALL`, and then it carries the type's value |
| EventPages.ArchiveParamsPlain | src/pipe/EventGatherer.py:30-32 | for dates made of digits and dashes, quoting leaves the dates, the offset and the type value unchanged |
| EventPages.ArchiveUrlParses | src/pipe/EventGatherer.py:28-32 | reading the archive URL back gives the archive page and exactly the parameters put in, in order |
| EventPages.ReadHref | src/pipe/EventGatherer.py:43-48 | the href is readable exactly when it is present and has at least four `/` segments; the id is segment 2, the encoded name segment 3, and the URL is the site followed by the href |
| EventPages.EventPathFields | src/pipe/EventGatherer.py:43-48 | an href `/events/<id>/<name>` reads back as that id and that name |
| EventPages.ReadOverview | src/pipe/EventGatherer.py:50-57 | the overview is readable exactly when there is a first row with at least four cells; the name is the first cell stripped |
| EventPages.ReadDetails | src/pipe/EventGatherer.py:59-64 | the details are readable exactly when the nested spans the code indexes are there; the location is stripped and holds no `\|` |
| EventPages.Day | src/pipe/EventGatherer.py:70-73 | a date marker gives a day exactly when it is present and its `data-unix` parses as an integer, and the day is that instant formatted |
| EventPages.ExtractEvent | src/pipe/EventGatherer.py:42-87 | an event record has entity `event` and no matches yet |
| EventPages.ExtractEventFields | src/pipe/EventGatherer.py:43-84 | the id and encoded name come from the href and the URL is the site plus the href; the name and location are stripped, and the location holds no `\|` |
| EventPages.ExtractEventDates | src/pipe/EventGatherer.py:63-73 | the start date is read from the first marker, and the end date from the second, or from the first again when there is only one |
| EventPages.ExtractEventSucceeds | src/pipe/EventGatherer.py:42-87 | a block can be read exactly when every piece the code reads is there and both markers are numbers |
| EventPages.LookupFileNameShape | src/pipe/EventGatherer.py:160 | the lookup file name has no `-` left from the dates and ends with the type's value and `.json`, for every type |
| EventPages.LookupLocation | src/pipe/EventGatherer.py:157-170 | the lookup goes into the storage path, or into the working directory without one, and ends with the lookup file name either way |
| EventGathering.StoreEvents | src/pipe/EventGatherer.py:89-94 | storing a page's events keeps the lookup well formed (each event id listed once) |
| EventGathering.StoreEventsIsPutAll | src/pipe/EventGatherer.py:89-94 | storing a page is assigning its entries one after the other, keyed by id; it fails exactly when a block cannot be read, with that block's error |
| EventGathering.StoredEvents | src/pipe/EventGatherer.py:89-94 | after a page, exactly the old events and the page's ids are present; an id of the page holds the last entry the page gave it, every other event is unchanged, and the old ids keep their order |
| EventGathering.EventGatherer.ExtractEvents | src/pipe/EventGatherer.py:36-99 | `_extract_events` leaves the lookup as `StoreEvents` says, and reports the last page exactly when the page held fewer than 50 blocks |
| EventGathering.ArchiveKeepsValid | src/pipe/EventGatherer.py:118-139 | walking the archive keeps the lookup well formed |
| EventGathering.ArchivePaging | src/pipe/EventGatherer.py:118-139 | the walk reads pages at offsets 0, 50, 100, … in order; every page but the last was full; a walk that succeeds ended on a page that was not full |
| EventGathering.ArchiveRequests | src/pipe/EventGatherer.py:118-139 | the walk requests the URL of each page it reads, in order, one to three times each, and nothing else |
| EventGathering.EventGatherer.WalkArchive | src/pipe/EventGatherer.py:118-139 | the `while True` loop changes the trace, the request count and the lookup exactly as `ArchiveFrom` says |
| EventGathering.MatchPhaseKeepsValid | src/pipe/EventGatherer.py:143-152 | setting the matches of the stored events keeps the lookup well formed |
| EventGathering.MatchPhaseEntries | src/pipe/EventGatherer.py:143-152 | the match loop keeps the same events in the same order and changes nothing but their matches; events it did not reach are untouched; when it succeeds, every event it visited has its matches |
| EventGathering.EventGatherer.GatherMatches | src/pipe/EventGatherer.py:143-152 | the loop over the stored events changes the state exactly as `MatchPhase` says |
| EventGathering.CompletionSaves | src/pipe/EventGatherer.py:156-176 | a completion that succeeds ends by writing its lookup to its location |
| EventGathering.EventsLookupValid | src/pipe/EventGatherer.py:101-176 | the lookup a run ends with is well formed |
| EventGathering.EventsLookupSaves | src/pipe/EventGatherer.py:101-176 | a run that succeeds leaves its lookup on disk at its location, whatever was on disk before |
| EventGathering.EventsLookupMatches | src/pipe/EventGatherer.py:101-176 | a run with match gathering that succeeds keeps the events the walk found, in order and otherwise unchanged, each with its matches |
| EventGathering.EventGatherer.GetEventsLookup | src/pipe/EventGatherer.py:101-176 | `get_events_lookup` changes the trace, the request count and the lookup exactly as `EventsLookup` says, with the file named after the search and placed in the storage path or the working directory; its defaults are the source's (2021-04-22 to 2022-04-22, `ONLINE`, with matches, no storage path) |
| EventGathering.EventGatherer.constructor | src/pipe/EventGatherer.py:24-25 | a new gatherer starts with an empty lookup |
| MatchGathering.MatchUrls | src/pipe/MatchGatherer.py:42-43 | one match URL per listed result, in order: the site, `/` and the href |
| MatchGathering.RemovePlaceholder | src/pipe/MatchGatherer.py:68 | no `9z` is left, and every other team name keeps its number of occurrences |
| MatchGathering.RemovePlaceholderConcat | src/pipe/MatchGatherer.py:68 | the filter works element by element: filtering two lists joined is joining the filtered lists |
| MatchGathering.FirstDemoLinkIsFirst | src/pipe/MatchGatherer.py:79-82 | the link found is a string containing `demo` with no such link before it; no link is found only when there is none |
| MatchGathering.FindDemoLink | src/pipe/MatchGatherer.py:79-82 | the `for … break` search returns the first demo link |
| MatchGathering.DemoUrlFromPage | src/pipe/MatchGatherer.py:79-84 | a page has a replay link exactly when some of its links is a demo link, and then it is the site followed by one of them; otherwise the error names the page |
| MatchGathering.DemoId | src/pipe/MatchGatherer.py:85 | the replay id exists exactly when the link has more than five `/` segments; it is segment 5 and holds no `/` |
| MatchGathering.DemoIdOfDownloadLink | src/pipe/MatchGatherer.py:84-85 | the id read back from `https://www.hltv.org/download/demo/<id>` is `<id>` |
| MatchGathering.ExtractMatch | src/pipe/MatchGatherer.py:64-94 | a record carries the page's URL, the teams without the placeholder, the formatted time, and a replay id taken from the very link it stores; it is made whenever every piece is there; a missing time element gives `AttributeError` and a time without `data-unix` gives `TypeError` |
| MatchGathering.ParseMatchPage | src/pipe/MatchGatherer.py:64-94 | the step-by-step reading of a match page returns the record `ExtractMatch` describes, or its error |
| MatchGathering.MatchLoopRecords | src/pipe/MatchGatherer.py:45-96 | the page loop makes one well-formed record per page, in order; it reaches every page unless a page ends it |
| MatchGathering.MatchLoopRequests | src/pipe/MatchGatherer.py:45-61 | the page loop requests each match page one to three times, in order, and nothing else |
| MatchGathering.MatchesForRequests | src/pipe/MatchGatherer.py:28-99 | the listing is requested first and only once; then each listed match page is requested one to three times, in listing order, up to the first page that cannot be read |
| MatchGathering.MatchesForRecords | src/pipe/MatchGatherer.py:28-99 | the records are one per listed match page, in order, each for its own page, with a replay id that agrees with its link and no placeholder team; every listed page has one when the run succeeds |
| MatchGathering.FetchMatchPage | src/pipe/MatchGatherer.py:47-61 | one turn of the page loop: the retry loop, the politeness delay, and the page parsed |
| MatchGathering.MatchGatherer.GatherPages | src/pipe/MatchGatherer.py:45-96 | the page loop appends to `matches` and changes the trace exactly as `MatchLoop` says |
| MatchGathering.MatchGatherer.GetMatchesForEvent | src/pipe/MatchGatherer.py:28-99 | `get_matches_for_event` appends the run's records to what `matches` held, changes the trace as `MatchesFor` says, and returns the list or the error |
| MatchGathering.MatchGatherer.constructor | src/pipe/MatchGatherer.py:20-22 | a new gatherer has its event id and no matches |
| DemoDownloading.DemoPathShape | src/pipe/DemoDownloader.py:28-38 | a replay goes to `<root>/demofiles/<event id>/<demo id>.rar` |
| DemoDownloading.DemoPathsDistinct | src/pipe/DemoDownloader.py:37-38 | two replays of one event share a file only when they have the same demo id |
| DemoDownloading.FileRunFacts | src/pipe/DemoDownloader.py:25-57 | the intended download (see Findings) makes the event directory, requests the demo URL one to three times with the back-off after each refusal, writes the file right after an accepted attempt and never after three refusals, and ends with the politeness delay |
| DemoDownloading.FileRunRequests | src/pipe/DemoDownloader.py:32-55 | a download requests its demo URL once per attempt and nothing else |
| DemoDownloading.DemoDownloader.DownloadFile | src/pipe/DemoDownloader.py:25-57 | `_download_file`, with the replay saved as intended, changes the trace and request count exactly as `FileRun` says |
| DemoDownloading.AcceptedDownloadAsWritten | src/pipe/DemoDownloader.py:43-57 | as written, an accepted download leaves an empty file and raises `TypeError` with no delay after it, where the intended one saves the replay and then waits; a download refused three times is the same in both |
| DemoDownloading.AsWrittenRaises | src/pipe/DemoDownloader.py:35-50 | as written, a download raises exactly when its response was accepted, and its last action is then the empty file at the replay's path |
| DemoDownloading.AsWrittenRunnerAgrees | src/pipe/DemoDownloader.py:33-57 | as written, a download that does not raise does exactly what the intended one does |
| DemoDownloading.SequentialAsWrittenStops | src/pipe/DemoDownloader.py:117-119 | a `for match in matches` loop over downloads that may raise stops at the first that raises, with its error; the ones before it went as intended and nothing after it runs; it succeeds only when none raised |
| DemoDownloading.PoolGate | src/pipe/DemoDownloader.py:62-65 | a pool is used only when asked for and there are at least two workers, and always then; it has one worker fewer than there are CPUs |
| DemoDownloading.DemoDownloader.ChoosePool | src/pipe/DemoDownloader.py:86-89 | the CPU check gives the gate `PoolGate` describes |
| DemoDownloading.Tasks | src/pipe/DemoDownloader.py:73 | the pool gets one task per match, in order, each with the event id and the output directory |
| DemoDownloading.SequentialRunRequests | src/pipe/DemoDownloader.py:77-79 | sequential downloads request the demo URL of each match, in order, one to three times each, and nothing else |
| DemoDownloading.DemoDownloader.DownloadSequentially | src/pipe/DemoDownloader.py:117-119 | the `for match in matches` loop changes the trace and request count exactly as `SequentialRun` says |
| DemoDownloading.AfterListingPool | src/pipe/DemoDownloader.py:70-73 | with a pool, the matches found go to the pool as one task each, in order, and nothing else happens |
| DemoDownloading.AfterListingSequential | src/pipe/DemoDownloader.py:76-79 | without a pool, the demo URL of each match found is requested in turn, after the requests of the match gathering |
| DemoDownloading.SingleEventDownloads | src/pipe/DemoDownloader.py:59-81 | single-event mode downloads nothing when the gathering fails; otherwise it makes one pool run with one task per match, or requests the demo URL of each match in order after the gathering |
| DemoDownloading.DemoDownloader.DownloadListed | src/pipe/DemoDownloader.py:70-79 | after the gathering, the state changes exactly as `AfterListing` says |
| DemoDownloading.DemoDownloader.DownloadForSingleEvent | src/pipe/DemoDownloader.py:59-81 | `_download_for_single_event` changes the state exactly as `SingleEventRun` says |
| DemoDownloading.LookupFile | src/pipe/DemoDownloader.py:91-92 | the document loads exactly when a lookup document is on disk at that path; a missing file gives `FileNotFoundError` |
| DemoDownloading.LookupFileAfterWrite | src/pipe/EventGatherer.py:162-163 | a lookup document written by the event gatherer is what multi-event mode then reads from that path |
| DemoDownloading.ReadyMembers | src/pipe/DemoDownloader.py:98-106 | an event is downloaded exactly when its `matches` is present and not empty, with those matches; no more events are kept than the document holds |
| DemoDownloading.ReadyConcat | src/pipe/DemoDownloader.py:98-106 | the events kept stay in document order: keeping from two stretches of the document is keeping from the first and then from the second, and one item gives its own event or nothing |
| DemoDownloading.DemoDownloader.DownloadEvent | src/pipe/DemoDownloader.py:98-119 | one item of `event_data.items()` is skipped or downloaded as `EventRun` says |
| DemoDownloading.EventsRunPools | src/pipe/DemoDownloader.py:112-114 | with a pool, the events make one pool run each, in document order, and no request |
| DemoDownloading.EventsRunRequests | src/pipe/DemoDownloader.py:116-119 | without a pool, the demo URLs of all the matches of the events kept are requested, event after event, one to three times each |
| DemoDownloading.DemoDownloader.DownloadEvents | src/pipe/DemoDownloader.py:98-122 | the loop over the items changes the state exactly as `EventsRun` says |
| DemoDownloading.MultiEventDownloads | src/pipe/DemoDownloader.py:83-122 | multi-event mode fails without doing anything when the lookup file is missing or holds something else; otherwise it downloads the events that have matches, in document order, a pool run each or each demo URL in turn |
| DemoDownloading.DemoDownloader.DownloadForMultipleEvents | src/pipe/DemoDownloader.py:83-122 | `_download_for_multiple_events` changes the state exactly as `MultiEventRun` says, reading the disk as the trace so far left it |
| DemoDownloading.DispatchChoices | src/pipe/DemoDownloader.py:137-155 | an event id wins over a lookup file; non-numeric text raises `ValueError`; with neither, `download_demos` raises before doing anything |
| DemoDownloading.DispatchEventId | src/pipe/DemoDownloader.py:137-144 | a number given as the event id runs single-event mode under its decimal text |
| DemoDownloading.DispatchAsWrittenWithoutOutput | src/pipe/DemoDownloader.py:135-136 | without an output directory, the code as written does what is intended |
| DemoDownloading.UnboundPathAsWritten | src/pipe/DemoDownloader.py:135-152 | with an output directory, the code as written stops with `UnboundLocalError`, where the intended dispatch downloads into that directory |
| MatchGathering.StaleDemoUrlAsWritten | src/pipe/MatchGatherer.py:76-85 | a page without a demo link, read after a page whose link was `/download/demo/<id>`, gets that link prefixed a second time and the id `download`, where the intended reading reports the missing link |
| DemoDownloading.DemoDownloader.DownloadDemos | src/pipe/DemoDownloader.py:124-157 | `download_demos` changes the state exactly as the intended `Dispatch` says, and returns its outcome |

## Left out

- HTTP is not modelled. The server is a function from the request number and the URL to a response whose HTML is already parsed into the few elements the code reads. `BeautifulSoup` parsing itself is not modelled.
- Date formatting (`datetime.fromtimestamp(...).strftime`) is a parameter of the world, and so are the local time zone, `os.getcwd()`, `os.cpu_count()` and the files on disk before the run.
- EventGathering.EventGatherer.WalkArchive: the archive walk is a `while True` loop. The model reads at most `maxPages` pages, so a site that never serves a short page is not followed forever.
- DemoDownloading.FileRunFacts: states the intended download, not the code as written (see Findings). The source opens the replay file in text mode and calls `file.write(data)` after the chunk loop with the last chunk, which is `bytes`. That raises `TypeError`, or `UnboundLocalError` when the body has no chunks. Only `AssertionError` is caught, so the empty file stays, the politeness delay is skipped, and the exception ends the batch and `download_demos`. `FileRunAsWritten` models this; `FileRun`, which the rest of the model uses, records one write of the replay archive and the delay.
- DemoDownloading.FileRunAsWritten: response bodies are not modelled, so an accepted download always raises `TypeError`; the `UnboundLocalError` of an empty body is not told apart.
- Worker pools are not modelled as concurrency. A pool run is one recorded action with its worker count and task list. What the workers then download, in whatever order, is not followed.
- `os.cpu_count()` returning `None` is not modelled. The model takes an integer.
- Text.ParseInt: it accepts an optional sign followed by ASCII digits. Surrounding whitespace, underscores and non-ASCII digits, all of which Python's `int()` also accepts, are not modelled.
- Paths.PathJoin is plain string joining. Relative paths are not resolved against the working directory.
- JSON encoding and decoding are not modelled. A file on disk is either a lookup document or a replay archive, and a document of another kind fails to load with a decode error.
- Logging, `tqdm` progress bars and `print` are left out. Nothing the program computes depends on them.
- Exceptions that `requests.get` itself raises (connection errors, timeouts) are left out. The server always answers.
- MatchGathering.MatchUrls: the listing is read as the `href` of the link of each `result-con` block. A block without a link, where the source raises `AttributeError`, and a link without an `href`, where it requests `https://www.hltv.org/None`, cannot occur in that representation.
- The request for a match listing is made once, without the retry loop and without a status check. The model does the same.
- MatchGathering.DemoId follows the code: it takes element 5 of the link split at `/`, and the scheme and the empty text after it count as elements 0 and 1. So for `https://site/a/b/c/d/e/12345/name` the id is `c`, not `12345`; for the site's own `https://www.hltv.org/download/demo/<id>` links it is `<id>`.
- Unicode normalisation, case folding and byte encodings are not modelled. `quote` encodes each character as UTF-8 explicitly.

## Findings

| source | as written | input that shows it | evidently intended | confidence | as-written member | corrected member |
|---|---|---|---|---|---|---|
| src/pipe/DemoDownloader.py:135-152 | `path` is bound only when `output_file is None`, and both branches then pass `path` | `download_demos(event_id="123", output_file="out")` raises `UnboundLocalError` before anything is downloaded | the replays go under the given output directory, and under the working directory only when none is given | not executed | DemoDownloading.UnboundPathAsWritten | DemoDownloading.DemoDownloader.DownloadDemos |
| src/pipe/MatchGatherer.py:76-85 | `demo_url` lives across iterations of the page loop, so a page without a demo link reuses the previous page's link, which already carries the site prefix, and prefixes it again | a page with link `/download/demo/7` followed by a page with no demo link: the second record gets `https://www.hltv.orghttps://www.hltv.org/download/demo/7` and replay id `download`; on the first page the same case raises `UnboundLocalError` | a page without a demo link is reported, and no record takes another page's replay | not executed | MatchGathering.StaleDemoUrlAsWritten | MatchGathering.DemoUrlFromPage |
| src/pipe/DemoDownloader.py:43-46 | the replay file is opened in text mode (`'w'`) and, after the chunk loop, `file.write(data)` is given the last chunk of `r.iter_content`, which is `bytes` | any demo URL that answers 200 with a non-empty body: `TypeError` escapes `_download_file` (only `AssertionError` is caught), leaving an empty `.rar`, skipping the delay and ending the batch and `download_demos` | each chunk is written to a file opened in binary mode, and the batch goes on with the delay after every download | not executed | DemoDownloading.AcceptedDownloadAsWritten | DemoDownloading.FileRunFacts |
