/**
 * The browser side of a research run: the elapsed-time label, and the loop that reads the
 * server-sent-event stream, cuts it into lines, decodes each "data: " line and updates what the
 * page shows (the log, the search queries, the sources, the current step and the report).
 */
module Client {
  import opened Wrappers
  import opened Seqs
  import opened Text

  // ---------------------------------------------------------------------------------------------
  // Elapsed time
  // ---------------------------------------------------------------------------------------------

  /** `padStart(2, '0')`: a string shorter than two characters gets leading zeros. */
  function PadTwo(s: string): (r: string)
    ensures |s| <= 2 ==> |r| == 2
  {
    if |s| >= 2 then s else if |s| == 1 then "0" + s else "00"
  }

  /** A leading zero does not change the number a string of digits denotes. */
  lemma {:induction false} LeadingZero(s: string)
    requires AllDigits(s)
    ensures AllDigits("0" + s) && DecimalValue("0" + s) == DecimalValue(s)
  {
    if s != [] {
      var t := "0" + s;
      assert t[..|t| - 1] == "0" + s[..|s| - 1];
      LeadingZero(s[..|s| - 1]);
    } else {
      assert DecimalValue("0") == DecimalValue("") + 0;
    }
  }

  /**
   * `formatTime`: the minutes, a colon, and the seconds as two digits. Reading the label back
   * gives seconds below 60 and minutes that, with them, make up the given time; the minutes are
   * written without leading zeros.
   */
  function FormatTime(seconds: nat): (r: string)
    ensures var k := FirstIndex(r, ':');
      && k + 3 == |r|
      && AllDigits(r[..k]) && AllDigits(r[k + 1..])
      && DecimalValue(r[k + 1..]) < 60
      && DecimalValue(r[..k]) * 60 + DecimalValue(r[k + 1..]) == seconds
      && k > 0 && (r[0] == '0' ==> k == 1)
  {
    var mins, secs := seconds / 60, seconds % 60;
    var m, s := NatToString(mins), PadTwo(NatToString(secs));
    var r := m + ":" + s;
    DecimalRoundTrip(mins);
    DecimalCanonical(mins);
    assert AllDigits(s) && DecimalValue(s) == secs by {
      DecimalRoundTrip(secs);
      if secs < 10 {
        LeadingZero(NatToString(secs));
      }
    }
    assert |NatToString(secs)| <= 2 by {
      if secs >= 10 {
        assert NatToString(secs) == NatToString(secs / 10) + [DigitChar(secs % 10)];
      }
    }
    FirstIndexAfterDigits(m, ":" + s);
    assert r == m + (":" + s);
    assert r[..|m|] == m && r[|m| + 1..] == s;
    r
  }

  /** The first colon after a run of digits is the one right after them. */
  lemma {:induction false} FirstIndexAfterDigits(m: string, rest: string)
    requires AllDigits(m) && rest != [] && rest[0] == ':'
    ensures FirstIndex(m + rest, ':') == |m|
    decreases |m|
  {
    if m != [] {
      assert (m + rest)[1..] == m[1..] + rest;
      FirstIndexAfterDigits(m[1..], rest);
    } else {
      assert m + rest == rest;
    }
  }

  // ---------------------------------------------------------------------------------------------
  // What the page shows
  // ---------------------------------------------------------------------------------------------

  /**
   * A decoded `data:` payload: its `type` and the fields the page reads (a missing field is
   * `None`; a missing `type` is a kind that is none of the three the page knows).
   */
  datatype Payload = Payload(kind: string, message: Option<string>, node: Option<string>, report: Option<string>)

  /** One entry of the activity log: its type, message and stage. */
  datatype LogEntry = LogEntry(kind: string, message: Option<string>, node: Option<string>)

  /** A source the page lists. */
  datatype Source = Source(url: string, title: Option<string>)

  /** The page's research state. `reportReceived` is the reading loop's own flag. */
  datatype Ui = Ui(
    logs: seq<LogEntry>,
    searchQueries: seq<string>,
    sources: seq<Source>,
    currentStep: string,
    isResearching: bool,
    report: Option<string>,
    reportReceived: bool)

  const Initializing: string := "Initializing..."
  const DataPrefix: string := "data: "
  const QueryPrefix: string := "Searching for:"
  const SourcePrefix: string := "Scraping:"
  const NoDataError: string := "Stream ended without receiving data"

  /** The page before any research has started. */
  const Idle: Ui := Ui([], [], [], Initializing, false, None, false)

  /** The steps the page can show. */
  const KnownSteps: set<string> :=
    {Initializing, "Searching...", "Reading sources...", "Analyzing data...", "Synthesizing findings...",
     "Writing report..."}

  /** Adding a query through a `Set`: duplicates dropped, first occurrences kept in order. */
  function AddQuery(queries: seq<string>, query: string): seq<string>
  {
    Dedup(queries + [query])
  }

  /** The urls of the listed sources. */
  function Urls(sources: seq<Source>): (r: seq<string>)
    ensures |r| == |sources| && forall i :: 0 <= i < |sources| ==> r[i] == sources[i].url
  {
    seq(|sources|, i requires 0 <= i < |sources| => sources[i].url)
  }

  /** Adding a source: kept as it is when its url is listed, appended (without a title) otherwise. */
  function AddSource(sources: seq<Source>, url: string): seq<Source>
  {
    if url in Urls(sources) then sources else sources + [Source(url, None)]
  }

  /** The step an update message moves the page to, by the first rule it matches. */
  function NextStep(message: string, current: string): string
  {
    if StartsWith(message, QueryPrefix) then "Searching..."
    else if StartsWith(message, SourcePrefix) then "Reading sources..."
    else if Contains(message, "ANALYZING") then "Analyzing data..."
    else if Contains(message, "SYNTHESIZING") then "Synthesizing findings..."
    else if Contains(message, "WRITING") then "Writing report..."
    else current
  }

  /** The queries after a message: a "Searching for:" message adds its query. */
  function QueriesAfter(queries: seq<string>, message: string): seq<string>
  {
    if StartsWith(message, QueryPrefix) then AddQuery(queries, JsTrim(message[|QueryPrefix|..])) else queries
  }

  /** The sources after a message: a "Scraping:" message, unless it is a query, adds its url. */
  function SourcesAfter(sources: seq<Source>, message: string): seq<Source>
  {
    if !StartsWith(message, QueryPrefix) && StartsWith(message, SourcePrefix) then
      AddSource(sources, JsTrim(message[|SourcePrefix|..]))
    else sources
  }

  /** An `update` payload: queries and sources read off the message, the step, one log entry. */
  function HandleUpdate(ui: Ui, p: Payload): Ui
  {
    var message := p.message.GetOr("");
    ui.(searchQueries := QueriesAfter(ui.searchQueries, message),
        sources := SourcesAfter(ui.sources, message),
        currentStep := NextStep(message, ui.currentStep),
        logs := ui.logs + [LogEntry("update", p.message, p.node)])
  }

  /** One decoded payload, by its type; a payload of any other type changes nothing. */
  function HandleData(ui: Ui, p: Payload): Ui
  {
    if p.kind == "update" then HandleUpdate(ui, p)
    else if p.kind == "complete" then ui.(reportReceived := true, report := p.report, isResearching := false)
    else if p.kind == "error" then
      ui.(logs := ui.logs + [LogEntry("error", p.message, None)], isResearching := false)
    else ui
  }

  /**
   * One line of the stream: only a "data: " line is decoded, from its seventh character on; a
   * payload that does not decode is skipped.
   */
  function HandleLine(ui: Ui, line: string, parse: string -> Option<Payload>): Ui
  {
    if !StartsWith(line, DataPrefix) then ui
    else match parse(line[|DataPrefix|..])
      case None => ui
      case Some(p) => HandleData(ui, p)
  }

  /** A run of lines, one after another. */
  function HandleLines(ui: Ui, lines: seq<string>, parse: string -> Option<Payload>): Ui
  {
    if lines == [] then ui
    else HandleLine(HandleLines(ui, lines[..|lines| - 1], parse), lines[|lines| - 1], parse)
  }

  /** The end of the stream: no data at all is an error; no report just stops the research. */
  function Ended(ui: Ui, hadData: bool): Ui
  {
    if !hadData then Failed(ui, NoDataError)
    else if !ui.reportReceived then ui.(isResearching := false)
    else ui
  }

  /** Any error that ends the run (it is logged and the research stops). */
  function Failed(ui: Ui, message: string): Ui
  {
    ui.(isResearching := false, logs := ui.logs + [LogEntry("error", Some(message), None)])
  }

  /** The complete lines of a text: all pieces between line feeds but the last. */
  function CompleteLines(text: string): seq<string>
  {
    var parts := SplitOn(text, '\n');
    parts[..|parts| - 1]
  }

  /** The log entry one line adds, if any: an `update` or `error` payload adds one. */
  function LineEntries(line: string, parse: string -> Option<Payload>): seq<LogEntry>
  {
    if !StartsWith(line, DataPrefix) then []
    else match parse(line[|DataPrefix|..])
      case None => []
      case Some(p) =>
        if p.kind == "update" then [LogEntry("update", p.message, p.node)]
        else if p.kind == "error" then [LogEntry("error", p.message, None)]
        else []
  }

  /** The log entries a run of lines adds, which depend on the lines alone. */
  function Entries(lines: seq<string>, parse: string -> Option<Payload>): seq<LogEntry>
  {
    ConcatMap((line: string) => LineEntries(line, parse), lines)
  }

  /** The log is only ever appended to: handling lines adds exactly their entries at its end. */
  lemma {:induction false} LogsOfLines(ui: Ui, lines: seq<string>, parse: string -> Option<Payload>)
    ensures HandleLines(ui, lines, parse).logs == ui.logs + Entries(lines, parse)
    decreases |lines|
  {
    if lines == [] {
      assert ui.logs + [] == ui.logs;
    } else {
      var init, last := lines[..|lines| - 1], lines[|lines| - 1];
      var f := (line: string) => LineEntries(line, parse);
      LogsOfLines(ui, init, parse);
      assert Entries(lines, parse) == Entries(init, parse) + f(last);
      var before := HandleLines(ui, init, parse);
      assert HandleLine(before, last, parse).logs == before.logs + LineEntries(last, parse);
    }
  }

  /** Lines that are not "data: " lines, such as the blank line after each event, change nothing. */
  lemma {:induction false} OtherLinesIgnored(ui: Ui, lines: seq<string>, parse: string -> Option<Payload>)
    requires forall i :: 0 <= i < |lines| ==> !StartsWith(lines[i], DataPrefix)
    ensures HandleLines(ui, lines, parse) == ui
    decreases |lines|
  {
    if lines != [] {
      OtherLinesIgnored(ui, lines[..|lines| - 1], parse);
    }
  }

  /** With no duplicates yet, adding a query through a `Set` appends it exactly when it is new. */
  lemma AddQueryAsSet(queries: seq<string>, query: string)
    requires NoDup(queries)
    ensures AddQuery(queries, query) == if query in queries then queries else queries + [query]
  {
    var xs := queries + [query];
    assert xs[..|xs| - 1] == queries;
    DedupOfNoDup(queries);
  }

  /** Adding a source lists its url, keeps the earlier sources in front and never lists a url twice. */
  lemma AddSourceKeeps(sources: seq<Source>, url: string)
    ensures var r := AddSource(sources, url);
      && url in Urls(r) && |r| >= |sources| && r[..|sources|] == sources
      && (r == sources <==> url in Urls(sources))
      && (NoDup(Urls(sources)) ==> NoDup(Urls(r)))
  {
    var r := AddSource(sources, url);
    if url !in Urls(sources) {
      assert Urls(r) == Urls(sources) + [url];
      assert |r| != |sources|;
    }
  }

  /**
   * What the page keeps true: no query or source url is listed twice, the step is one of the
   * known steps, and once the report has arrived the page is no longer researching.
   */
  ghost predicate Consistent(ui: Ui)
  {
    && NoDup(ui.searchQueries)
    && NoDup(Urls(ui.sources))
    && ui.currentStep in KnownSteps
    && (ui.reportReceived ==> !ui.isResearching)
  }

  lemma HandleLineKeeps(ui: Ui, line: string, parse: string -> Option<Payload>)
    requires Consistent(ui)
    ensures Consistent(HandleLine(ui, line, parse))
  {
    if StartsWith(line, DataPrefix) && parse(line[|DataPrefix|..]).Some? {
      var p := parse(line[|DataPrefix|..]).value;
      if p.kind == "update" {
        var message := p.message.GetOr("");
        if !StartsWith(message, QueryPrefix) && StartsWith(message, SourcePrefix) {
          AddSourceKeeps(ui.sources, JsTrim(message[|SourcePrefix|..]));
        }
      }
    }
  }

  lemma {:induction false} HandleLinesKeeps(ui: Ui, lines: seq<string>, parse: string -> Option<Payload>)
    requires Consistent(ui)
    ensures Consistent(HandleLines(ui, lines, parse))
    decreases |lines|
  {
    if lines != [] {
      HandleLinesKeeps(ui, lines[..|lines| - 1], parse);
      HandleLineKeeps(HandleLines(ui, lines[..|lines| - 1], parse), lines[|lines| - 1], parse);
    }
  }

  /**
   * However the stream went, once it has ended the page is no longer researching; a stream that
   * delivered nothing logs `Stream ended without receiving data` last.
   */
  lemma EndedStops(ui: Ui, hadData: bool)
    requires Consistent(ui)
    ensures Consistent(Ended(ui, hadData)) && !Ended(ui, hadData).isResearching
    ensures !hadData ==> var logs := Ended(ui, hadData).logs;
      logs != [] && logs[|logs| - 1] == LogEntry("error", Some(NoDataError), None)
  {
  }

  // ---------------------------------------------------------------------------------------------
  // A whole submission
  // ---------------------------------------------------------------------------------------------

  /**
   * What `fetch` gives back: a refusal, a response without a body, a failure, a stream read to
   * its end, or a stream whose read fails with `message` after delivering `chunks`.
   */
  datatype Response =
    | Refused(status: nat, text: string)
    | NoStream
    | Unreachable(message: string)
    | Stream(chunks: seq<string>)
    | Broken(chunks: seq<string>, message: string)

  const NoStreamError: string := "No response stream available"

  /** The message of a response whose status is not ok. */
  function ServerError(status: nat, text: string): string
  {
    "Server error: " + NatToString(status) + " - " + text
  }

  /** The page after `startResearch` on `topic` has met `response` and finished. */
  function Session(ui: Ui, topic: string, response: Response, parse: string -> Option<Payload>): Ui
  {
    if JsTrim(topic) == [] then ui
    else
      var begun := Idle.(isResearching := true);
      match response {
      case Refused(status, text) => Failed(begun, ServerError(status, text))
      case NoStream => Failed(begun, NoStreamError)
      case Unreachable(message) => Failed(begun, message)
      case Stream(chunks) => Ended(HandleLines(begun, CompleteLines(Flatten(chunks)), parse), chunks != [])
      case Broken(chunks, message) => Failed(HandleLines(begun, CompleteLines(Flatten(chunks)), parse), message)
      }
  }

  /**
   * A submission that starts ends consistent and no longer researching, whatever the response;
   * one that was refused, had no stream, could not connect or broke off while reading ends with
   * that error logged last, and so does a stream that ended before delivering anything.
   */
  lemma SessionEnds(ui: Ui, topic: string, response: Response, parse: string -> Option<Payload>)
    requires JsTrim(topic) != []
    ensures var after := Session(ui, topic, response, parse);
      && Consistent(after) && !after.isResearching
      && (!response.Stream? ==> after.logs != [] && after.logs[|after.logs| - 1].kind == "error")
      && (response.Broken? ==> after.logs[|after.logs| - 1] == LogEntry("error", Some(response.message), None))
      && (response == Stream([]) ==> after.logs[|after.logs| - 1] == LogEntry("error", Some(NoDataError), None))
  {
    match response
    case Stream(chunks) => StreamSessionEnds(ui, topic, chunks, parse);
    case Broken(chunks, message) => BrokenSessionEnds(ui, topic, chunks, message, parse);
    case Refused(status, text) => BegunConsistent(); FailedStops(Idle.(isResearching := true), ServerError(status, text));
    case NoStream => BegunConsistent(); FailedStops(Idle.(isResearching := true), NoStreamError);
    case Unreachable(message) => BegunConsistent(); FailedStops(Idle.(isResearching := true), message);
  }

  /** A stream read to its end; one that delivered nothing logs that as its last entry. */
  lemma StreamSessionEnds(ui: Ui, topic: string, chunks: seq<string>, parse: string -> Option<Payload>)
    requires JsTrim(topic) != []
    ensures var after := Session(ui, topic, Stream(chunks), parse);
      && Consistent(after) && !after.isResearching
      && (chunks == [] ==> after.logs != [] && after.logs[|after.logs| - 1] == LogEntry("error", Some(NoDataError), None))
  {
    var lines := CompleteLines(Flatten(chunks));
    assert Session(ui, topic, Stream(chunks), parse) == Ended(HandleLines(Idle.(isResearching := true), lines, parse), chunks != []);
    BegunConsistent();
    StreamEnds(Idle.(isResearching := true), lines, chunks != [], parse);
  }

  /** A stream whose read fails part-way logs the failure's message as its last entry. */
  lemma BrokenSessionEnds(ui: Ui, topic: string, chunks: seq<string>, message: string, parse: string -> Option<Payload>)
    requires JsTrim(topic) != []
    ensures var after := Session(ui, topic, Broken(chunks, message), parse);
      && Consistent(after) && !after.isResearching
      && after.logs != [] && after.logs[|after.logs| - 1] == LogEntry("error", Some(message), None)
  {
    var lines := CompleteLines(Flatten(chunks));
    assert Session(ui, topic, Broken(chunks, message), parse) == Failed(HandleLines(Idle.(isResearching := true), lines, parse), message);
    BegunConsistent();
    BrokenEnds(Idle.(isResearching := true), lines, message, parse);
  }

  /** The page as `startResearch` resets it is consistent. */
  lemma BegunConsistent()
    ensures Consistent(Idle.(isResearching := true))
  {
  }

  /** Lines handled and then the end of the stream: without any data, the last entry is that error. */
  lemma StreamEnds(ui: Ui, lines: seq<string>, hadData: bool, parse: string -> Option<Payload>)
    requires Consistent(ui)
    ensures var after := Ended(HandleLines(ui, lines, parse), hadData);
      && Consistent(after) && !after.isResearching
      && (!hadData ==> after.logs != [] && after.logs[|after.logs| - 1] == LogEntry("error", Some(NoDataError), None))
  {
    var handled := HandleLines(ui, lines, parse);
    HandleLinesKeeps(ui, lines, parse);
    EndedStops(handled, hadData);
  }

  /** Lines handled and then a failed read: the read's message is the last entry. */
  lemma BrokenEnds(ui: Ui, lines: seq<string>, message: string, parse: string -> Option<Payload>)
    requires Consistent(ui)
    ensures var after := Failed(HandleLines(ui, lines, parse), message);
      && Consistent(after) && !after.isResearching
      && after.logs != [] && after.logs[|after.logs| - 1] == LogEntry("error", Some(message), None)
  {
    HandleLinesKeeps(ui, lines, parse);
    FailedStops(HandleLines(ui, lines, parse), message);
  }

  /** A failure keeps the page consistent, stops the research and is the last thing logged. */
  lemma FailedStops(ui: Ui, message: string)
    requires Consistent(ui)
    ensures var after := Failed(ui, message);
      && Consistent(after) && !after.isResearching
      && after.logs != [] && after.logs[|after.logs| - 1] == LogEntry("error", Some(message), None)
  {
  }

  // ---------------------------------------------------------------------------------------------
  // The reading loop
  // ---------------------------------------------------------------------------------------------

  /**
   * The state of `startResearch` while it reads the stream: the carried-over partial line, its
   * two flags, and the page state its setters update. `received` and `handed` record all text
   * read and every complete line handed out.
   */
  class StreamConsumer {
    const parse: string -> Option<Payload>
    var buffer: string
    var hasReceivedData: bool
    var reportReceived: bool
    var isResearching: bool
    var logs: seq<LogEntry>
    var searchQueries: seq<string>
    var sources: seq<Source>
    var currentStep: string
    var report: Option<string>
    ghost var received: string
    ghost var handed: seq<string>

    /** The text read so far is exactly the handed-out lines, each with its line feed, then the buffer. */
    ghost predicate Valid()
      reads this
    {
      SplitOn(received, '\n') == handed + [buffer]
    }

    /** The page state. */
    function View(): Ui
      reads this
    {
      Ui(logs, searchQueries, sources, currentStep, isResearching, report, reportReceived)
    }

    /** A page that has not started any research. */
    constructor(parse: string -> Option<Payload>)
      ensures this.parse == parse && View() == Idle
      ensures buffer == [] && !hasReceivedData && received == [] && handed == [] && Valid()
    {
      this.parse := parse;
      buffer := [];
      hasReceivedData := false;
      reportReceived := false;
      isResearching := false;
      logs := [];
      searchQueries := [];
      sources := [];
      currentStep := Initializing;
      report := None;
      received := [];
      handed := [];
      SplitOnEmpty('\n');
    }

    /**
     * Submitting a topic: a blank one does nothing; otherwise the log, queries, sources, step and
     * report are reset, the research is under way and nothing has been read.
     */
    method Start(topic: string) returns (started: bool)
      modifies this
      ensures started <==> JsTrim(topic) != []
      ensures !started ==> (View() == old(View()) && buffer == old(buffer) && hasReceivedData == old(hasReceivedData)
        && received == old(received) && handed == old(handed))
      ensures started ==> View() == Idle.(isResearching := true)
      ensures started ==> buffer == [] && !hasReceivedData && received == [] && handed == [] && Valid()
    {
      if JsTrim(topic) == [] {
        return false;
      }
      ClearPage();
      OpenStream();
      started := true;
    }

    /** The page reset `startResearch` makes before it sends the request. */
    method ClearPage()
      modifies this`logs, this`searchQueries, this`sources, this`currentStep, this`isResearching, this`report,
        this`reportReceived
      ensures logs == [] && searchQueries == [] && sources == [] && currentStep == Initializing
      ensures isResearching && report == None && !reportReceived
    {
      logs, searchQueries, sources, currentStep := [], [], [], Initializing;
      isResearching, report, reportReceived := true, None, false;
    }

    /** A new response stream: empty buffer, nothing read yet. */
    method OpenStream()
      modifies this`buffer, this`hasReceivedData, this`received, this`handed
      ensures buffer == [] && !hasReceivedData && received == [] && handed == [] && Valid()
    {
      buffer, hasReceivedData, received, handed := [], false, [], [];
      SplitOnEmpty('\n');
    }

    /** One line handed out by the framing: decoded and dispatched when it is a "data: " line. */
    method Dispatch(line: string)
      modifies this`logs, this`searchQueries, this`sources, this`currentStep, this`isResearching, this`report,
        this`reportReceived
      ensures View() == HandleLine(old(View()), line, parse)
    {
      if !StartsWith(line, DataPrefix) {
        return;
      }
      var data := parse(line[|DataPrefix|..]);
      if data.None? {
        return;
      }
      var p := data.value;
      if p.kind == "update" {
        DispatchUpdate(p);
      } else if p.kind == "complete" {
        reportReceived := true;
        report := p.report;
        isResearching := false;
      } else if p.kind == "error" {
        logs := logs + [LogEntry("error", p.message, None)];
        isResearching := false;
      }
    }

    /** An `update` payload: the message read for a query, a source or a step, and one log entry. */
    method DispatchUpdate(p: Payload)
      modifies this`logs, this`searchQueries, this`sources, this`currentStep
      ensures View() == HandleUpdate(old(View()), p)
    {
      var message := p.message.GetOr("");
      ReadMessage(message);
      logs := logs + [LogEntry("update", p.message, p.node)];
    }

    /** What an update's message says: a query, a source, or only the stage reached. */
    method ReadMessage(message: string)
      modifies this`searchQueries, this`sources, this`currentStep
      ensures searchQueries == QueriesAfter(old(searchQueries), message)
      ensures sources == SourcesAfter(old(sources), message)
      ensures currentStep == NextStep(message, old(currentStep))
    {
      if StartsWith(message, QueryPrefix) {
        searchQueries := AddQuery(searchQueries, JsTrim(message[|QueryPrefix|..]));
        currentStep := "Searching...";
      } else if StartsWith(message, SourcePrefix) {
        sources := AddSource(sources, JsTrim(message[|SourcePrefix|..]));
        currentStep := "Reading sources...";
      } else if Contains(message, "ANALYZING") {
        currentStep := "Analyzing data...";
      } else if Contains(message, "SYNTHESIZING") {
        currentStep := "Synthesizing findings...";
      } else if Contains(message, "WRITING") {
        currentStep := "Writing report...";
      }
    }

    /**
     * One chunk of the stream: appended to the buffer, which is cut at line feeds; the complete
     * lines are dispatched in order and the unfinished last piece stays in the buffer.
     */
    method Receive(chunk: string)
      modifies this
      requires Valid()
      ensures Valid() && received == old(received) + chunk && hasReceivedData
      ensures |handed| >= |old(handed)| && handed[..|old(handed)|] == old(handed)
      ensures View() == HandleLines(old(View()), handed[|old(handed)|..], parse)
    {
      var lines := Cut(chunk);
      DispatchAll(lines);
    }

    /** The chunk is added to the buffer and cut at line feeds; the last, unfinished piece stays. */
    method Cut(chunk: string) returns (lines: seq<string>)
      modifies this`buffer, this`hasReceivedData, this`received, this`handed
      requires Valid()
      ensures Valid() && received == old(received) + chunk && hasReceivedData
      ensures handed == old(handed) + lines
      ensures |handed| >= |old(handed)| && handed[..|old(handed)|] == old(handed) && handed[|old(handed)|..] == lines
    {
      hasReceivedData := true;
      var pieces := SplitOn(buffer + chunk, '\n');
      SplitAfterBuffer(received, handed, buffer, chunk);
      lines := pieces[..|pieces| - 1];
      buffer := pieces[|pieces| - 1];
      received := received + chunk;
      handed := handed + lines;
    }

    /** The complete lines of a chunk, dispatched in order. */
    method DispatchAll(lines: seq<string>)
      modifies this`logs, this`searchQueries, this`sources, this`currentStep, this`isResearching, this`report,
        this`reportReceived
      ensures View() == HandleLines(old(View()), lines, parse)
    {
      for i := 0 to |lines|
        invariant View() == HandleLines(old(View()), lines[..i], parse)
      {
        Dispatch(lines[i]);
        assert lines[..i + 1][..i] == lines[..i];
      }
      assert lines[..|lines|] == lines;
    }

    /** A failure outside the reading loop: logged, and the research stops. */
    method Fail(message: string)
      modifies this`isResearching, this`logs
      ensures View() == Failed(old(View()), message)
    {
      isResearching := false;
      logs := logs + [LogEntry("error", Some(message), None)];
    }

    /** The stream is done: with no data at all that is an error; without a report the research stops. */
    method EndOfStream()
      modifies this`isResearching, this`logs
      ensures View() == Ended(old(View()), hasReceivedData)
    {
      if !hasReceivedData {
        Fail(NoDataError);
      } else if !reportReceived {
        isResearching := false;
      }
    }

    /**
     * The reading loop of `startResearch` over the chunks the stream delivers: whatever the
     * chunking, the page ends as if the complete lines of all the text had been handled one by
     * one.
     */
    method ReadChunks(chunks: seq<string>)
      modifies this
      requires Valid() && received == [] && handed == [] && buffer == [] && !hasReceivedData
      ensures Valid() && hasReceivedData == (chunks != [])
      ensures View() == HandleLines(old(View()), CompleteLines(Flatten(chunks)), parse)
      ensures received == Flatten(chunks) && handed == CompleteLines(Flatten(chunks))
    {
      for i := 0 to |chunks|
        invariant Valid() && received == Flatten(chunks[..i])
        invariant View() == HandleLines(old(View()), handed, parse)
        invariant hasReceivedData <==> i > 0
      {
        ghost var before := handed;
        Receive(chunks[i]);
        HandleLinesAppend(old(View()), before, handed[|before|..], parse);
        assert before + handed[|before|..] == handed;
        FlattenSnoc(chunks, i);
      }
      assert chunks[..|chunks|] == chunks;
      assert handed == CompleteLines(received);
    }

    /** The stream read to its end, followed by the end-of-stream rules. */
    method Consume(chunks: seq<string>)
      modifies this
      requires Valid() && received == [] && handed == [] && buffer == [] && !hasReceivedData
      ensures View() == Ended(HandleLines(old(View()), CompleteLines(Flatten(chunks)), parse), chunks != [])
      ensures received == Flatten(chunks) && handed == CompleteLines(Flatten(chunks))
    {
      ReadChunks(chunks);
      EndOfStream();
    }

    /** A stream whose read fails after `chunks`: what was handled stays, then the error is logged. */
    method ConsumeBroken(chunks: seq<string>, message: string)
      modifies this
      requires Valid() && received == [] && handed == [] && buffer == [] && !hasReceivedData
      ensures View() == Failed(HandleLines(old(View()), CompleteLines(Flatten(chunks)), parse), message)
      ensures received == Flatten(chunks) && handed == CompleteLines(Flatten(chunks))
    {
      ReadChunks(chunks);
      Fail(message);
    }

    /**
     * `startResearch`: a blank topic does nothing; otherwise the page is reset and then either
     * the response's error is logged or its stream is read to the end.
     */
    method Submit(topic: string, response: Response) returns (started: bool)
      modifies this
      ensures started <==> JsTrim(topic) != []
      ensures View() == Session(old(View()), topic, response, parse)
    {
      started := Start(topic);
      if !started {
        return;
      }
      match response {
        case Refused(status, text) => Fail(ServerError(status, text));
        case NoStream => Fail(NoStreamError);
        case Unreachable(message) => Fail(message);
        case Stream(chunks) => Consume(chunks);
        case Broken(chunks, message) => ConsumeBroken(chunks, message);
      }
    }
  }

  /** The pieces of the text read so far, once a chunk is added, are the pieces of buffer plus chunk. */
  lemma SplitAfterBuffer(received: string, handed: seq<string>, buffer: string, chunk: string)
    requires SplitOn(received, '\n') == handed + [buffer]
    ensures var lines := SplitOn(buffer + chunk, '\n');
      var handed' := handed + lines[..|lines| - 1];
      && SplitOn(received + chunk, '\n') == handed' + [lines[|lines| - 1]]
      && handed'[..|handed|] == handed && handed'[|handed|..] == lines[..|lines| - 1]
  {
    var lines := SplitOn(buffer + chunk, '\n');
    var front, back := lines[..|lines| - 1], lines[|lines| - 1];
    assert front + [back] == lines;
    SplitAfterBufferPieces(received, handed, buffer, chunk);
    calc {
      SplitOn(received + chunk, '\n');
      handed + lines;
      handed + (front + [back]);
      (handed + front) + [back];
    }
    var handed' := handed + front;
    assert handed'[..|handed|] == handed;
    assert handed'[|handed|..] == front;
  }

  lemma SplitAfterBufferPieces(received: string, handed: seq<string>, buffer: string, chunk: string)
    requires SplitOn(received, '\n') == handed + [buffer]
    ensures SplitOn(received + chunk, '\n') == handed + SplitOn(buffer + chunk, '\n')
  {
    BufferIsOnePiece(received, handed, buffer);
    SplitOnAppend(received, chunk, '\n');
    SplitOnAppend(buffer, chunk, '\n');
    GlueAfter(handed, buffer, SplitOn(chunk, '\n'));
  }

  /** Gluing after some complete pieces keeps them in front. */
  lemma GlueAfter(handed: seq<string>, buffer: string, pieces: seq<string>)
    requires |pieces| >= 1
    ensures Glue(handed + [buffer], pieces) == handed + Glue([buffer], pieces)
  {
    var pr := handed + [buffer];
    assert pr[..|pr| - 1] == handed;
  }

  /** The last piece of a split has no separator, so it splits into itself. */
  lemma BufferIsOnePiece(received: string, handed: seq<string>, buffer: string)
    requires SplitOn(received, '\n') == handed + [buffer]
    ensures SplitOn(buffer, '\n') == [buffer]
  {
    SplitOnLacks(received, '\n');
    assert buffer == SplitOn(received, '\n')[|handed|];
    assert Lacks(buffer, '\n');
    assert FirstIndex(buffer, '\n') == |buffer|;
  }

  /** The flattening of one more chunk. */
  lemma FlattenSnoc(chunks: seq<string>, i: nat)
    requires i < |chunks|
    ensures Flatten(chunks[..i + 1]) == Flatten(chunks[..i]) + chunks[i]
  {
    assert chunks[..i + 1][..i] == chunks[..i];
  }

  /** Handling two runs of lines is handling their concatenation. */
  lemma {:induction false} HandleLinesAppend(ui: Ui, xs: seq<string>, ys: seq<string>, parse: string -> Option<Payload>)
    ensures HandleLines(ui, xs + ys, parse) == HandleLines(HandleLines(ui, xs, parse), ys, parse)
    decreases |ys|
  {
    if ys == [] {
      assert xs + ys == xs;
    } else {
      var init := ys[..|ys| - 1];
      assert (xs + ys)[..|xs + ys| - 1] == xs + init;
      HandleLinesAppend(ui, xs, init, parse);
    }
  }
}
