/**
 * The pure part of `EventGatherer`: the archive query of `_request_page`,
 * the reading of one event block in `_extract_events`, and the name of
 * the lookup file `get_events_lookup` writes.
 */
module EventPages {
  import opened Wrappers
  import opened Text
  import opened Records
  import opened Quoting
  import opened EventTypes
  import opened Paths
  import MatchGathering

  /** The events archive of the site. */
  const ArchivePage := MatchGathering.Site + "/events/archive"
  /** The site lists at most this many events per archive page. */
  const PageSize: nat := 50

  // ---------------------------------------------------------------------
  // The archive query
  // ---------------------------------------------------------------------

  /** One `key=value` parameter of a query string. */
  function Param(p: (string, string)): string
  {
    p.0 + "=" + p.1
  }

  /** The parameters, each as `key=value`, in order. */
  function Render(ps: seq<(string, string)>): (r: seq<string>)
    ensures |r| == |ps| && forall i :: 0 <= i < |ps| ==> r[i] == Param(ps[i])
  {
    seq(|ps|, i requires 0 <= i < |ps| => Param(ps[i]))
  }

  /**
   * The parameters of an archive page, each value quoted: the dates, then
   * the `eventType` for every type but `ALL`, then the offset.
   */
  function ArchiveParams(start: string, end: string, t: EventType, offset: int): seq<(string, string)>
  {
    [("startDate", Quote(start)), ("endDate", Quote(end))]
    + (if t == ALL then [] else [("eventType", Quote(Value(t)))])
    + [("offset", Quote(IntToString(offset)))]
  }

  /** `_request_page`'s URL: the archive page and its parameters joined by `&`. */
  function ArchiveUrl(start: string, end: string, t: EventType, offset: int): string
  {
    ArchivePage + "?" + Join(Render(ArchiveParams(start, end, t, offset)), '&')
  }

  /** The archive parameters written out, for each kind of type. */
  lemma ArchiveParamsList(start: string, end: string, t: EventType, offset: int)
    ensures var p, q, r := ("startDate", Quote(start)), ("endDate", Quote(end)), ("offset", Quote(IntToString(offset)));
      ArchiveParams(start, end, t, offset) == if t == ALL then [p, q, r] else [p, q, ("eventType", Quote(Value(t))), r]
  {
  }

  /** The `eventType` parameter is there exactly when the type is not `ALL`, and then it carries the type's value. */
  lemma ArchiveParamsShape(start: string, end: string, t: EventType, offset: int)
    ensures var ps := ArchiveParams(start, end, t, offset);
      && |ps| == (if t == ALL then 3 else 4)
      && ps[0] == ("startDate", Quote(start)) && ps[1] == ("endDate", Quote(end))
      && ps[|ps| - 1] == ("offset", Quote(IntToString(offset)))
      && (t != ALL ==> ps[2] == ("eventType", Quote(Value(t))))
      && ((exists i :: 0 <= i < |ps| && ps[i].0 == "eventType") <==> t != ALL)
  {
    var ps := ArchiveParams(start, end, t, offset);
    ArchiveParamsList(start, end, t, offset);
    if t == ALL {
      KeysDiffer();
      assert forall i :: 0 <= i < |ps| ==> ps[i].0 != "eventType";
    } else {
      assert ps[2].0 == "eventType";
    }
  }

  lemma KeysDiffer()
    ensures "eventType" != "startDate" && "eventType" != "endDate" && "eventType" != "offset"
  {
    assert "eventType"[0] != "startDate"[0] && "eventType"[0] != "offset"[0];
    assert "eventType"[1] != "endDate"[1];
  }

  /** Joining three and four parts, written out. */
  lemma JoinParts(a: string, b: string, c: string, d: string, sep: char)
    ensures Join([a, b, c], sep) == a + [sep] + (b + [sep] + c)
    ensures Join([a, b, c, d], sep) == a + [sep] + (b + [sep] + (c + [sep] + d))
  {
    JoinTwo(b, c, sep);
    JoinTwo(c, d, sep);
    var three, four := [a, b, c], [a, b, c, d];
    assert three[1..] == [b, c];
    assert four[1..] == [b, c, d] && four[1..][1..] == [c, d];
    assert Join(four[1..], sep) == b + [sep] + (c + [sep] + d);
  }

  lemma JoinTwo(a: string, b: string, sep: char)
    ensures Join([a, b], sep) == a + [sep] + b
  {
    assert [a, b][1..] == [b];
  }

  /** Regrouping the rendered query into the literal pieces of the source's format string. */
  lemma Regroup(p: string, a: string, x: string, b: string, y: string, c: string, z: string, d: string, w: string)
    ensures p + "?" + ((a + "=" + x) + "&" + ((b + "=" + y) + "&" + (c + "=" + z)))
         == p + ("?" + a + "=") + x + ("&" + b + "=") + y + ("&" + c + "=") + z
    ensures p + "?" + ((a + "=" + x) + "&" + ((b + "=" + y) + "&" + ((c + "=" + z) + "&" + (d + "=" + w))))
         == p + ("?" + a + "=") + x + ("&" + b + "=") + y + ("&" + c + "=") + z + ("&" + d + "=") + w
  {
  }

  /** The literal pieces of the source's format strings: a delimiter, a key and `=`. */
  lemma LiteralPiece(d: char, key: string, piece: string)
    requires |piece| == |key| + 2 && piece[0] == d && piece[|piece| - 1] == '='
    requires forall i :: 0 <= i < |key| ==> piece[i + 1] == key[i]
    ensures [d] + key + "=" == piece
  {
    var s := [d] + key + "=";
    assert forall i :: 0 <= i < |piece| ==> s[i] == piece[i];
  }

  lemma LiteralPieces()
    ensures "?" + "startDate" + "=" == "?startDate="
    ensures "&" + "endDate" + "=" == "&endDate="
    ensures "&" + "eventType" + "=" == "&eventType="
    ensures "&" + "offset" + "=" == "&offset="
  {
    LiteralPiece('?', "startDate", "?startDate=");
    LiteralPiece('&', "endDate", "&endDate=");
    LiteralPiece('&', "eventType", "&eventType=");
    LiteralPiece('&', "offset", "&offset=");
  }

  /** `ArchiveUrl` is the URL of the source's two format strings, one per branch on `ALL`. */
  lemma ArchiveUrlAsWritten(start: string, end: string, t: EventType, offset: int)
    ensures var qs, qe, qt, qo := Quote(start), Quote(end), Quote(Value(t)), Quote(IntToString(offset));
      ArchiveUrl(start, end, t, offset)
      == if t == ALL then ArchivePage + "?startDate=" + qs + "&endDate=" + qe + "&offset=" + qo
         else ArchivePage + "?startDate=" + qs + "&endDate=" + qe + "&eventType=" + qt + "&offset=" + qo
  {
    ArchiveParamsList(start, end, t, offset);
    LiteralPieces();
    var p, q, r := ("startDate", Quote(start)), ("endDate", Quote(end)), ("offset", Quote(IntToString(offset)));
    if t == ALL {
      QueryAsWritten3(p, q, r);
    } else {
      QueryAsWritten4(p, q, ("eventType", Quote(Value(t))), r);
    }
  }

  lemma QueryAsWritten3(p: (string, string), q: (string, string), r: (string, string))
    ensures ArchivePage + "?" + Join(Render([p, q, r]), '&')
         == ArchivePage + ("?" + p.0 + "=") + p.1 + ("&" + q.0 + "=") + q.1 + ("&" + r.0 + "=") + r.1
  {
    assert Render([p, q, r]) == [Param(p), Param(q), Param(r)];
    JoinParts(Param(p), Param(q), Param(r), "", '&');
    Regroup(ArchivePage, p.0, p.1, q.0, q.1, r.0, r.1, "", "");
  }

  lemma QueryAsWritten4(p: (string, string), q: (string, string), e: (string, string), r: (string, string))
    ensures ArchivePage + "?" + Join(Render([p, q, e, r]), '&')
         == ArchivePage + ("?" + p.0 + "=") + p.1 + ("&" + q.0 + "=") + q.1 + ("&" + e.0 + "=") + e.1 + ("&" + r.0 + "=") + r.1
  {
    assert Render([p, q, e, r]) == [Param(p), Param(q), Param(e), Param(r)];
    JoinParts(Param(p), Param(q), Param(e), Param(r), '&');
    Regroup(ArchivePage, p.0, p.1, q.0, q.1, e.0, e.1, r.0, r.1);
  }

  /** For dates of digits and dashes, an offset and a type value, quoting changes nothing. */
  lemma ArchiveParamsPlain(start: string, end: string, t: EventType, offset: int)
    requires forall i :: 0 <= i < |start| ==> IsDigit(start[i]) || start[i] == '-'
    requires forall i :: 0 <= i < |end| ==> IsDigit(end[i]) || end[i] == '-'
    ensures Quote(start) == start && Quote(end) == end
    ensures Quote(IntToString(offset)) == IntToString(offset) && Quote(Value(t)) == Value(t)
  {
    QuoteIdentity(start);
    QuoteIdentity(end);
    QuoteIdentity(IntToString(offset));
    ValueIsPlain(t);
    QuoteIdentity(Value(t));
  }

  /** The type values are upper-case words, which `quote` leaves alone. */
  lemma ValueIsPlain(t: EventType)
    ensures forall i :: 0 <= i < |Value(t)| ==> 'A' <= Value(t)[i] <= 'Z'
  {
  }

  // ---------------------------------------------------------------------
  // Reading a query back
  // ---------------------------------------------------------------------

  /** A `key=value` part split at its `=`; None unless there is exactly one `=`. */
  function ParsePair(s: string): (r: Option<(string, string)>)
  {
    var kv := Split(s, '=');
    if |kv| == 2 then Some((kv[0], kv[1])) else None
  }

  function ParsePairs(parts: seq<string>): (r: Option<seq<(string, string)>>)
    ensures r.Some? ==> |r.value| == |parts|
    decreases |parts|
  {
    if |parts| == 0 then Some([])
    else
      match (ParsePair(parts[0]), ParsePairs(parts[1..]))
      case (Some(p), Some(ps)) => Some([p] + ps)
      case _ => None
  }

  /**
   * A reference reading of a URL with a query: the part before the one
   * `?`, and the `key=value` parameters after it.
   */
  function ParseQueryUrl(url: string): Option<(string, seq<(string, string)>)>
  {
    var parts := Split(url, '?');
    if |parts| != 2 then None
    else match ParsePairs(Split(parts[1], '&'))
      case Some(ps) => Some((parts[0], ps))
      case None => None
  }

  /** Parameters without `=` in their keys and values read back from their rendering. */
  lemma {:induction false} ParseRendered(ps: seq<(string, string)>)
    requires PlainParams(ps)
    ensures ParsePairs(Render(ps)) == Some(ps)
    decreases |ps|
  {
    if |ps| > 0 {
      var k, v := ps[0].0, ps[0].1;
      SplitAtFirstSeparator(k, '=', v);
      SplitWithoutSeparator(v, '=');
      assert Render(ps)[1..] == Render(ps[1..]);
      ParseRendered(ps[1..]);
      assert [ps[0]] + ps[1..] == ps;
    }
  }

  /** A character in no part and other than the separator is not in the joined string. */
  lemma {:induction false} NotInJoin(parts: seq<string>, sep: char, c: char)
    requires |parts| >= 1 && c != sep
    requires forall i :: 0 <= i < |parts| ==> c !in parts[i]
    ensures c !in Join(parts, sep)
    decreases |parts|
  {
    if |parts| > 1 {
      NotInJoin(parts[1..], sep, c);
    }
  }

  /** Text without the query delimiters `=`, `?` and `&`. */
  predicate PlainText(s: string)
  {
    '=' !in s && '?' !in s && '&' !in s
  }

  predicate PlainParams(ps: seq<(string, string)>)
  {
    forall i :: 0 <= i < |ps| ==> PlainText(ps[i].0) && PlainText(ps[i].1)
  }

  /** The rendering of plain parameters holds no `?` and no `&`. */
  lemma PlainRendering(ps: seq<(string, string)>)
    requires PlainParams(ps)
    ensures forall i :: 0 <= i < |ps| ==> '?' !in Param(ps[i]) && '&' !in Param(ps[i])
  {
    forall i | 0 <= i < |ps| ensures '?' !in Param(ps[i]) && '&' !in Param(ps[i]) {
      assert PlainText(ps[i].0) && PlainText(ps[i].1);
    }
  }

  /** Words of letters are plain text. */
  lemma LettersArePlain(k: string)
    requires forall i :: 0 <= i < |k| ==> 'A' <= k[i] <= 'Z' || 'a' <= k[i] <= 'z'
    ensures PlainText(k)
  {
  }

  lemma KeysArePlain()
    ensures PlainText("startDate") && PlainText("endDate") && PlainText("eventType") && PlainText("offset")
  {
    LettersArePlain("startDate");
    LettersArePlain("endDate");
    LettersArePlain("eventType");
    LettersArePlain("offset");
  }

  lemma ArchiveParamsArePlain(start: string, end: string, t: EventType, offset: int)
    ensures PlainParams(ArchiveParams(start, end, t, offset))
  {
    KeysArePlain();
    QuoteHasNoDelimiters(start);
    QuoteHasNoDelimiters(end);
    QuoteHasNoDelimiters(Value(t));
    QuoteHasNoDelimiters(IntToString(offset));
    ArchiveParamsList(start, end, t, offset);
  }

  lemma ArchivePageIsPlain()
    ensures '?' !in ArchivePage
  {
    assert '?' !in MatchGathering.Site;
    assert '?' !in "/events/archive";
  }

  /**
   * Reading the archive URL back gives the archive page and exactly the
   * parameters `_request_page` put in, in order.
   */
  lemma ArchiveUrlParses(start: string, end: string, t: EventType, offset: int)
    ensures ParseQueryUrl(ArchiveUrl(start, end, t, offset)) == Some((ArchivePage, ArchiveParams(start, end, t, offset)))
  {
    var ps := ArchiveParams(start, end, t, offset);
    var parts := Render(ps);
    var query := Join(parts, '&');
    ArchiveParamsArePlain(start, end, t, offset);
    PlainRendering(ps);
    NotInJoin(parts, '&', '?');
    ArchivePageIsPlain();
    SplitAtFirstSeparator(ArchivePage, '?', query);
    SplitWithoutSeparator(query, '?');
    assert Split(ArchiveUrl(start, end, t, offset), '?') == [ArchivePage, query];
    SplitJoin(parts, '&');
    ParseRendered(ps);
  }

  // ---------------------------------------------------------------------
  // One event block
  // ---------------------------------------------------------------------

  /** What `href.split('/')` yields for an event block: the event id and its encoded name. */
  datatype HrefFields = HrefFields(eventId: string, nameEncoded: string, eventUrl: string)

  /**
   * The `href` cut at each `/`; elements 1 to 3 must exist (element 1, the
   * entity, is read and dropped), element 2 is the id and element 3 the name.
   */
  function ReadHref(href: Option<string>): (r: Result<HrefFields, Fault>)
    ensures r.Ok? <==> href.Some? && |Split(href.value, '/')| >= 4
    ensures r.Ok? ==> var parts := Split(href.value, '/');
      && r.value.eventId == parts[2] && r.value.nameEncoded == parts[3]
      && r.value.eventUrl == MatchGathering.Site + href.value
      && '/' !in r.value.eventId && '/' !in r.value.nameEncoded
  {
    match href
    case None => Err(AttributeError("href"))
    case Some(h) =>
      var parts := Split(h, '/');
      if |parts| < 4 then Err(IndexError("url_components"))
      else Ok(HrefFields(parts[2], parts[3], MatchGathering.Site + h))
  }

  /** The texts of the first row's cells: the name (stripped), the number of teams, the prize and the type. */
  datatype Overview = Overview(name: string, teams: string, prize: string, eventType: string)

  function ReadOverview(rows: seq<Row>): (r: Result<Overview, Fault>)
    ensures r.Ok? <==> |rows| >= 1 && |rows[0].cells| >= 4
    ensures r.Ok? ==> var tds := rows[0].cells;
      && r.value.name == Strip(tds[0])
      && r.value.teams == tds[1] && r.value.prize == tds[2] && r.value.eventType == tds[3]
  {
    if |rows| < 1 then Err(IndexError("trs[0]"))
    else
      var tds := rows[0].cells;
      if |tds| < 4 then Err(IndexError("tds"))
      else Ok(Overview(Strip(tds[0]), tds[1], tds[2], tds[3]))
  }

  /** The spans of the second row's first cell: the location text and the date markers. */
  datatype Details = Details(location: string, dates: seq<Option<string>>)

  function ReadDetails(rows: seq<Row>): (r: Result<Details, Fault>)
    ensures r.Ok? ==> |r.value.dates| >= 1
    ensures r.Ok? ==> '|' !in r.value.location
    ensures r.Ok? <==> (&& |rows| >= 2 && rows[1].firstCellSpans.Some?
                        && var spans := rows[1].firstCellSpans.value;
                           |spans| >= 3 && spans[0].innerText.Some? && |spans[2].dateMarkers| >= 1)
  {
    if |rows| < 2 then Err(IndexError("trs[1]"))
    else match rows[1].firstCellSpans
      case None => Err(AttributeError("td"))
      case Some(spans) =>
        if |spans| < 1 then Err(IndexError("details[0]"))
        else match spans[0].innerText
          case None => Err(AttributeError("span"))
          case Some(text) =>
            if |spans| < 3 then Err(IndexError("details[2]"))
            else
              var dates := spans[2].dateMarkers;
              if |dates| < 1 then Err(IndexError("dates[0]"))
              else
                var location := Strip(ReplaceChar(text, '|', ""));
                assert '|' !in location by {
                  StripKeepsOut(ReplaceChar(text, '|', ""), '|');
                }
                Ok(Details(location, dates))
  }

  /** `datetime.fromtimestamp(int(marker) / 1000).strftime('%Y-%m-%d')`, the formatting left to the world. */
  function Day(marker: Option<string>, formatDay: int -> string): (r: Result<string, Fault>)
    ensures r.Ok? <==> marker.Some? && ParseInt(marker.value).Some?
    ensures r.Ok? ==> r.value == formatDay(ParseInt(marker.value).value)
  {
    match marker
    case None => Err(TypeError("data-unix"))
    case Some(m) =>
      match ParseInt(m)
      case None => Err(ValueError(m))
      case Some(millis) => Ok(formatDay(millis))
  }

  /** The marker the end date is read from: the second, or the first again when there is only one. */
  function EndMarker(dates: seq<Option<string>>): Option<string>
    requires |dates| >= 1
  {
    if |dates| == 1 then dates[0] else dates[1]
  }

  /**
   * `__extract_event`: the record of one event block, or the exception the
   * first missing piece raises, in the order the source reads them.
   */
  function ExtractEvent(block: EventBlock, formatDay: int -> string): (r: Result<EventEntry, Fault>)
    ensures r.Ok? ==> r.value.matches.None? && r.value.eventData.entity == "event"
  {
    match ReadHref(block.href)
    case Err(e) => Err(e)
    case Ok(h) =>
      match ReadOverview(block.rows)
      case Err(e) => Err(e)
      case Ok(o) =>
        match ReadDetails(block.rows)
        case Err(e) => Err(e)
        case Ok(details) =>
          match Day(details.dates[0], formatDay)
          case Err(e) => Err(e)
          case Ok(start) =>
            match Day(EndMarker(details.dates), formatDay)
            case Err(e) => Err(e)
            case Ok(end) =>
              Ok(EventEntry(EventData("event", h.eventId, h.eventUrl, h.nameEncoded, o.name, o.teams, o.prize,
                                      o.eventType, details.location, start, end), None))
  }

  /**
   * The id and the encoded name come from the `href`, the URL is the site
   * and the `href`, and the name and location have no whitespace around
   * them and no `|` in the location.
   */
  lemma ExtractEventFields(block: EventBlock, formatDay: int -> string)
    requires ExtractEvent(block, formatDay).Ok?
    ensures var d := ExtractEvent(block, formatDay).value.eventData;
      && ReadHref(block.href).Ok? && ReadOverview(block.rows).Ok? && ReadDetails(block.rows).Ok?
      && d.eventId == ReadHref(block.href).value.eventId && d.nameEncoded == ReadHref(block.href).value.nameEncoded
      && d.eventUrl == MatchGathering.Site + block.href.value
      && d.nameFull == Strip(block.rows[0].cells[0])
      && '|' !in d.location && d.location == Strip(d.location)
  {
    var d := ReadDetails(block.rows).value;
    StripIdempotent(d.location);
  }

  /**
   * The start date is read from the first marker; the end date from the
   * second, or is the start date when there is only one marker.
   */
  lemma ExtractEventDates(block: EventBlock, formatDay: int -> string)
    requires ExtractEvent(block, formatDay).Ok?
    ensures && ReadDetails(block.rows).Ok?
            && var dates := ReadDetails(block.rows).value.dates;
               var d := ExtractEvent(block, formatDay).value.eventData;
               && Day(dates[0], formatDay) == Ok(d.eventStart)
               && (|dates| == 1 ==> d.eventEnd == d.eventStart)
               && (|dates| > 1 ==> Day(dates[1], formatDay) == Ok(d.eventEnd))
  {
  }

  /** A block can be read exactly when every piece the source reads is there and both markers are numbers. */
  lemma ExtractEventSucceeds(block: EventBlock, formatDay: int -> string)
    ensures ExtractEvent(block, formatDay).Ok?
        <==> && ReadHref(block.href).Ok? && ReadOverview(block.rows).Ok? && ReadDetails(block.rows).Ok?
             && var dates := ReadDetails(block.rows).value.dates;
                Day(dates[0], formatDay).Ok? && Day(EndMarker(dates), formatDay).Ok?
  {
  }

  /** The path of an event's `href` on the site: `/events/<id>/<name>`. */
  function EventPath(id: string, name: string): string
  {
    "/events/" + id + "/" + name
  }

  lemma EventPathPieces()
    ensures "/events/" == [] + ['/'] + "events" + ['/']
  {
    var s, t := "/events/", [] + ['/'] + "events" + ['/'];
    assert |s| == |t| == 8;
    assert forall i | 0 <= i < 8 :: s[i] == t[i];
  }

  /** An event path read back gives its id and name. */
  lemma EventPathFields(id: string, name: string)
    requires '/' !in id && '/' !in name
    ensures ReadHref(Some(EventPath(id, name))) == Ok(HrefFields(id, name, MatchGathering.Site + EventPath(id, name)))
  {
    var path := EventPath(id, name);
    EventPathPieces();
    assert path == [] + ['/'] + ("events" + ['/'] + (id + ['/'] + name));
    assert '/' !in "events";
    SplitAtFirstSeparator([], '/', "events" + ['/'] + (id + ['/'] + name));
    SplitAtFirstSeparator("events", '/', id + ['/'] + name);
    SplitAtFirstSeparator(id, '/', name);
    SplitWithoutSeparator(name, '/');
    assert Split(path, '/') == ["", "events", id, name];
  }

  // ---------------------------------------------------------------------
  // The lookup file
  // ---------------------------------------------------------------------

  /** `event_lookup__<start>__<end>__<type value>.json`, with every `-` of the dates turned into `_`. */
  function LookupFileName(start: string, end: string, t: EventType): string
  {
    "event_lookup__" + ReplaceChar(start, '-', "_") + "__" + ReplaceChar(end, '-', "_") + "__" + Value(t) + ".json"
  }

  /**
   * The file name holds no `-` from the dates and carries the type's value
   * (for every type, `ALL` included) just before `.json`.
   */
  lemma LookupFileNameShape(start: string, end: string, t: EventType)
    ensures var name := LookupFileName(start, end, t);
      && |name| >= |Value(t)| + 5
      && name[|name| - 5..] == ".json"
      && name[|name| - 5 - |Value(t)|..|name| - 5] == Value(t)
      && Contains(name, Value(t))
      && '-' !in name
  {
    var name := LookupFileName(start, end, t);
    var head := "event_lookup__" + ReplaceChar(start, '-', "_") + "__" + ReplaceChar(end, '-', "_") + "__";
    assert name == head + Value(t) + ".json";
    assert '-' !in name by {
      ValueIsPlain(t);
      assert '-' !in Value(t);
      assert '-' !in head;
    }
    var i := |head|;
    assert name[i..i + |Value(t)|] == Value(t);
    assert OccursAt(name, Value(t), i);
  }

  /**
   * Where the lookup is written: in the working directory without a
   * storage path, otherwise in it; either way the same file name.
   */
  function LookupLocation(cwd: string, storagePath: Option<string>, start: string, end: string, t: EventType): (loc: string)
    ensures var name := LookupFileName(start, end, t); |loc| >= |name| && loc[|loc| - |name|..] == name
  {
    PathJoin(if storagePath.None? then cwd else storagePath.value, LookupFileName(start, end, t))
  }
}
