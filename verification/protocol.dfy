/**
 * The two ends of the event stream together: the frames the server writes, cut into lines by
 * the page's reading loop and decoded back, update the page exactly as the events themselves
 * would, however the body was split into chunks on the way.
 */
module Protocol {
  import opened Wrappers
  import opened Seqs
  import opened Text
  import Server
  import Client

  /** The JSON object an event is written as, in the shape the page reads it. */
  function PayloadOf(e: Server.Event): Client.Payload
  {
    match e
    case UpdateEvent(node, message) => Client.Payload("update", Some(message), Some(node), None)
    case CompleteEvent(report) => Client.Payload("complete", None, None, Some(report))
    case ErrorEvent(message) => Client.Payload("error", Some(message), None, None)
  }

  /**
   * What the encoder and the decoder must agree on: each event is written on one line (JSON
   * escapes its line breaks) and that line decodes to the event's payload.
   */
  ghost predicate Agree(es: seq<Server.Event>, json: Server.Event -> string, parse: string -> Option<Client.Payload>)
  {
    forall i :: 0 <= i < |es| ==> Lacks(json(es[i]), '\n') && parse(json(es[i])) == Some(PayloadOf(es[i]))
  }

  /** The lines of a frame before its final line break: the data line and a blank line. */
  function FrameLines(es: seq<Server.Event>, json: Server.Event -> string): seq<string>
  {
    ConcatMap((e: Server.Event) => ["data: " + json(e), ""], es)
  }

  /** The page handling the events' payloads one after another. */
  function HandleEvents(ui: Client.Ui, es: seq<Server.Event>): Client.Ui
  {
    if es == [] then ui else Client.HandleData(HandleEvents(ui, es[..|es| - 1]), PayloadOf(es[|es| - 1]))
  }

  /** One frame is its data line, a blank line, and nothing after its last line break. */
  lemma SplitFrame(e: Server.Event, json: Server.Event -> string)
    requires Lacks(json(e), '\n')
    ensures SplitOn(Server.Frame(e, json), '\n') == ["data: " + json(e), "", ""]
  {
    var d := "data: " + json(e);
    var f := Server.Frame(e, json);
    assert f == d + "\n\n";
    assert FirstIndex(d, '\n') == |d|;
    FirstIndexAppend(d, "\n\n", '\n');
    SplitOnAt(f, '\n', |d|);
    assert f[..|d|] == d && f[|d| + 1..] == "\n";
    SplitOnAt("\n", '\n', 0);
    assert "\n"[..0] == [] && "\n"[1..] == [];
    SplitOnEmpty('\n');
  }

  /** The whole body splits into the frames' lines, and nothing is left after the last break. */
  lemma {:induction false} SplitBody(es: seq<Server.Event>, json: Server.Event -> string)
    requires forall i :: 0 <= i < |es| ==> Lacks(json(es[i]), '\n')
    ensures SplitOn(Server.Body(es, json), '\n') == FrameLines(es, json) + [""]
    decreases |es|
  {
    if es == [] {
      SplitOnEmpty('\n');
    } else {
      var init, last := es[..|es| - 1], es[|es| - 1];
      var d := "data: " + json(last);
      var p := FrameLines(init, json);
      SplitBody(init, json);
      SplitFrame(last, json);
      SplitOnAppend(Server.Body(init, json), Server.Frame(last, json), '\n');
      assert (p + [""])[..|p|] == p;
      assert "" + d == d;
      calc {
        SplitOn(Server.Body(es, json), '\n');
        Glue(p + [""], [d, "", ""]);
        p + [d, ""] + [""];
        FrameLines(es, json) + [""];
      }
    }
  }

  /** The complete lines of a body are exactly its frames' lines. */
  lemma BodyLines(es: seq<Server.Event>, json: Server.Event -> string)
    requires forall i :: 0 <= i < |es| ==> Lacks(json(es[i]), '\n')
    ensures Client.CompleteLines(Server.Body(es, json)) == FrameLines(es, json)
  {
    SplitBody(es, json);
    var p := FrameLines(es, json);
    assert (p + [""])[..|p|] == p;
  }

  /** Reading a frame's two lines is handling its event; the blank line changes nothing. */
  lemma FrameHandled(ui: Client.Ui, e: Server.Event, json: Server.Event -> string, parse: string -> Option<Client.Payload>)
    requires parse(json(e)) == Some(PayloadOf(e))
    ensures Client.HandleLines(ui, ["data: " + json(e), ""], parse) == Client.HandleData(ui, PayloadOf(e))
  {
    var d := "data: " + json(e);
    var lines := [d, ""];
    assert lines[..1] == [d] && [d][..0] == [];
    assert d[..6] == Client.DataPrefix && d[6..] == json(e);
    assert Client.HandleLines(ui, [d], parse) == Client.HandleData(ui, PayloadOf(e));
  }

  /** Reading all frames' lines is handling all events in order. */
  lemma {:induction false} FrameLinesHandled(ui: Client.Ui, es: seq<Server.Event>, json: Server.Event -> string,
                                             parse: string -> Option<Client.Payload>)
    requires Agree(es, json, parse)
    ensures Client.HandleLines(ui, FrameLines(es, json), parse) == HandleEvents(ui, es)
    decreases |es|
  {
    if es != [] {
      var init, last := es[..|es| - 1], es[|es| - 1];
      var lastLines := ["data: " + json(last), ""];
      assert Agree(init, json, parse) by {
        forall i | 0 <= i < |init| ensures init[i] == es[i] { }
      }
      FrameLinesHandled(ui, init, json, parse);
      assert FrameLines(es, json) == FrameLines(init, json) + lastLines;
      Client.HandleLinesAppend(ui, FrameLines(init, json), lastLines, parse);
      FrameHandled(HandleEvents(ui, init), last, json, parse);
    }
  }

  /** A body is never empty once there is an event: each frame has at least its two breaks. */
  lemma BodyNonEmpty(es: seq<Server.Event>, json: Server.Event -> string, chunks: seq<string>)
    requires es != [] && Flatten(chunks) == Server.Body(es, json)
    ensures chunks != []
  {
    Server.FrameShape(es[|es| - 1], json);
  }

  /**
   * A submission whose response streams the frames of `es`, cut into any chunks: the page ends
   * as if it had handled the events one by one and then seen the stream close.
   */
  lemma StreamedSession(ui: Client.Ui, topic: string, es: seq<Server.Event>, json: Server.Event -> string,
                        parse: string -> Option<Client.Payload>, chunks: seq<string>)
    requires Agree(es, json, parse) && Flatten(chunks) == Server.Body(es, json) && JsTrim(topic) != []
    ensures Client.Session(ui, topic, Client.Stream(chunks), parse)
         == Client.Ended(HandleEvents(Client.Idle.(isResearching := true), es), chunks != [])
  {
    BodyLines(es, json);
    FrameLinesHandled(Client.Idle.(isResearching := true), es, json, parse);
  }

  /** A stream that ends with the report shows that report and stops researching. */
  lemma ReportShown(ui: Client.Ui, topic: string, es: seq<Server.Event>, json: Server.Event -> string,
                    parse: string -> Option<Client.Payload>, chunks: seq<string>, report: string)
    requires Agree(es, json, parse) && Flatten(chunks) == Server.Body(es, json) && JsTrim(topic) != []
    requires es != [] && es[|es| - 1] == Server.CompleteEvent(report)
    ensures var after := Client.Session(ui, topic, Client.Stream(chunks), parse);
      after.report == Some(report) && after.reportReceived && !after.isResearching
  {
    StreamedSession(ui, topic, es, json, parse, chunks);
    BodyNonEmpty(es, json, chunks);
  }

  /** A stream that ends with a failure logs the failure last and stops researching. */
  lemma {:induction false} FailureShown(ui: Client.Ui, topic: string, es: seq<Server.Event>, json: Server.Event -> string,
                     parse: string -> Option<Client.Payload>, chunks: seq<string>, message: string)
    requires Agree(es, json, parse) && Flatten(chunks) == Server.Body(es, json) && JsTrim(topic) != []
    requires es != [] && es[|es| - 1] == Server.ErrorEvent(message)
    ensures var after := Client.Session(ui, topic, Client.Stream(chunks), parse);
      && after.logs != [] && after.logs[|after.logs| - 1] == Client.LogEntry("error", Some(message), None)
      && !after.isResearching
  {
    var handled := HandleEvents(Client.Idle.(isResearching := true), es);
    StreamedSession(ui, topic, es, json, parse, chunks);
    BodyNonEmpty(es, json, chunks);
    ErrorLast(Client.Idle.(isResearching := true), es, message);
    assert Client.Session(ui, topic, Client.Stream(chunks), parse) == Client.Ended(handled, true);
  }

  /** Handling events that end with an error logs that error last and stops researching. */
  lemma ErrorLast(ui: Client.Ui, es: seq<Server.Event>, message: string)
    requires es != [] && es[|es| - 1] == Server.ErrorEvent(message)
    ensures var handled := HandleEvents(ui, es);
      && handled.logs != [] && handled.logs[|handled.logs| - 1] == Client.LogEntry("error", Some(message), None)
      && !handled.isResearching
  {
    var before := HandleEvents(ui, es[..|es| - 1]);
    assert HandleEvents(ui, es) == before.(logs := before.logs + [Client.LogEntry("error", Some(message), None)],
                                           isResearching := false);
  }

  /** Only a complete event sets the report. */
  lemma {:induction false} ReportOnlyFromComplete(ui: Client.Ui, es: seq<Server.Event>)
    requires forall i :: 0 <= i < |es| ==> !es[i].CompleteEvent?
    ensures HandleEvents(ui, es).report == ui.report && HandleEvents(ui, es).reportReceived == ui.reportReceived
    decreases |es|
  {
    if es != [] {
      ReportOnlyFromComplete(ui, es[..|es| - 1]);
    }
  }

  /** A stream without a complete event, such as a writer's empty report, shows no report. */
  lemma NoReportShown(ui: Client.Ui, topic: string, es: seq<Server.Event>, json: Server.Event -> string,
                      parse: string -> Option<Client.Payload>, chunks: seq<string>)
    requires Agree(es, json, parse) && Flatten(chunks) == Server.Body(es, json) && JsTrim(topic) != []
    requires forall i :: 0 <= i < |es| ==> !es[i].CompleteEvent?
    ensures var after := Client.Session(ui, topic, Client.Stream(chunks), parse);
      after.report == None && !after.isResearching
  {
    StreamedSession(ui, topic, es, json, parse, chunks);
    ReportOnlyFromComplete(Client.Idle.(isResearching := true), es);
  }

  /** A space in front of a text changes nothing once trimmed. */
  lemma TrimLeadingSpace(s: string)
    ensures JsTrim(" " + s) == JsTrim(s)
  {
    var t := " " + s;
    assert t[1..] == s;
    assert StripStart(t, IsJsSpace) == StripStart(s, IsJsSpace);
  }

  /** A planner's query event lists the query, trimmed, among the searches and logs its message. */
  lemma QueryShown(ui: Client.Ui, node: string, query: string)
    ensures Client.HandleData(ui, PayloadOf(Server.UpdateEvent(node, Server.QueryMessage(query))))
         == ui.(searchQueries := Client.AddQuery(ui.searchQueries, JsTrim(query)),
                currentStep := "Searching...",
                logs := ui.logs + [Client.LogEntry("update", Some(Server.QueryMessage(query)), Some(node))])
  {
    var m := Server.QueryMessage(query);
    assert m[..|Client.QueryPrefix|] == Client.QueryPrefix;
    assert m[|Client.QueryPrefix|..] == " " + query;
    TrimLeadingSpace(query);
  }

  /** A scrape event lists the page's url, trimmed, among the sources and logs its message. */
  lemma SourceShown(ui: Client.Ui, node: string, url: string)
    ensures Client.HandleData(ui, PayloadOf(Server.UpdateEvent(node, Server.ScrapeMessage(url))))
         == ui.(sources := Client.AddSource(ui.sources, JsTrim(url)),
                currentStep := "Reading sources...",
                logs := ui.logs + [Client.LogEntry("update", Some(Server.ScrapeMessage(url)), Some(node))])
  {
    var m := Server.ScrapeMessage(url);
    assert m[1] == 'c' && Client.QueryPrefix[1] == 'e';
    assert m[..|Client.SourcePrefix|] == Client.SourcePrefix;
    assert m[|Client.SourcePrefix|..] == " " + url;
    TrimLeadingSpace(url);
  }
}
