/**
 * The values the scraper reads and writes: pages as already parsed, the
 * event and match records, the lookup document, files, and the actions a
 * run performs on the world outside.
 */
module Records {
  import opened Wrappers
  import opened Dicts

  /**
   * A `span` in the first cell of an event block's second row: the text of
   * its first nested `span` (None without one) and the `data-unix` of each
   * nested date marker (`data-time-format="MMM do"`), None where it has none.
   */
  datatype Span = Span(innerText: Option<string>, dateMarkers: seq<Option<string>>)

  /**
   * A table row of an event block: the texts of its cells, and the spans
   * of its first cell (None when the row has no cell).
   */
  datatype Row = Row(cells: seq<string>, firstCellSpans: Option<seq<Span>>)

  /** One `a.small-event` block of the archive page: its `href` (None without one) and its table rows. */
  datatype EventBlock = EventBlock(href: Option<string>, rows: seq<Row>)

  /**
   * A fetched HTML page, as the parser would read it. Each kind of page
   * uses some of the fields; the others are whatever the page happens to hold.
   */
  datatype Document = Document(
    eventBlocks: seq<EventBlock>,      // archive page: the event blocks, in page order
    resultHrefs: seq<string>,          // results page: the href of the link of each `result-con` block
    teamNames: Option<seq<string>>,    // match page: the team names in the `teamsBox`, None without one
    matchTime: Option<Option<string>>, // match page: the time element and its `data-unix`, None without the element
    anchors: seq<Option<string>>)      // the `href` of every link on the page, None where it has none

  /** An HTTP response: its status code and its parsed body. */
  datatype Response = Response(status: int, doc: Document)

  /** The `event_data` record of one event. */
  datatype EventData = EventData(
    entity: string,
    eventId: string,
    eventUrl: string,
    nameEncoded: string,
    nameFull: string,
    nrOfTeams: string,
    prize: string,
    eventType: string,
    location: string,
    eventStart: string,
    eventEnd: string)

  /** One match of an event, with the link of its replay (demo) file. */
  datatype MatchRecord = MatchRecord(
    entity: string,
    teams: seq<string>,
    dateTime: string,
    matchUrl: string,
    demoId: string,
    demoUrl: string)

  /** A value of the lookup document; `matches` is only present when match data was requested. */
  datatype EventEntry = EventEntry(eventData: EventData, matches: Option<seq<MatchRecord>>)

  /** The lookup document: event id to entry, in the order the events were first found. */
  type Lookup = Dict<string, EventEntry>

  /** What a file on disk holds: a lookup document as JSON, a downloaded replay, or nothing at all. */
  datatype File = LookupJson(lookup: Lookup) | DemoArchive(source: string) | EmptyFile

  /** One argument tuple handed to a worker of the download pool. */
  datatype Task = Task(matchRecord: MatchRecord, eventId: string, root: string)

  /** What a run does to the world, in the order it does it. */
  datatype Action =
    | Request(url: string)
    | Sleep(seconds: real)
    | MakeDirs(path: string)
    | Write(path: string, file: File)
    | RunPool(workers: int, tasks: seq<Task>)

  /** The exceptions a run can end with. */
  datatype Fault =
    | IndexError(what: string)
    | AttributeError(what: string)
    | UnboundLocalError(name: string)
    | ValueError(text: string)
    | TypeError(what: string)
    | FileNotFound(path: string)
    | JsonDecodeError(path: string)
    | UsageError(message: string)
    | NoDemoLink(matchUrl: string)
    | PageBudgetExhausted
}
