/**
 * The HTTP front of the agent: the topic check and the starting record of `POST /research`, and
 * the translation of the stream of (stage, update) pairs into the progress events the browser
 * receives as server-sent-event frames.
 */
module Server {
  import opened Wrappers
  import opened Seqs
  import opened Text
  import opened State
  import opened Nodes
  import opened Workflow

  /** The model a request names when it names none. */
  const DefaultModel: string := "openai/gpt-4o-mini"

  /** A rejected request: its status code and detail text. */
  datatype HttpError = HttpError(status: nat, detail: string)

  /** What a blank topic is answered with. */
  const BlankTopic: HttpError := HttpError(400, "Topic cannot be empty")

  // ---------------------------------------------------------------------------------------------
  // Starting a run
  // ---------------------------------------------------------------------------------------------

  /**
   * The request check and the starting record: a topic that is empty or all whitespace is
   * refused before any stream starts; otherwise the run starts from the stripped topic with
   * nothing planned, searched, scraped or written, at iteration 0, with the model the request
   * names or the default one.
   */
  function StartResearch(topic: string, model: Option<string>): (r: Result<AgentState, HttpError>)
    ensures r.Err? <==> PyStrip(topic) == []
    ensures r.Err? ==> r.error == BlankTopic
    ensures r.Ok? ==> r.value.topic == PyStrip(topic)
    ensures r.Ok? ==> r.value.model == (if model.Some? then model.value else DefaultModel)
  {
    var t := PyStrip(topic);
    if t == [] then Err(BlankTopic)
    else Ok(AgentState(t, model.GetOr(DefaultModel), [], [], [], [], [], [], map[], "", false, 0))
  }

  /**
   * The starting record's topic is already stripped and not blank, and every list, the
   * analyses, the report, the finished flag and the iteration start empty, unset or at zero.
   */
  lemma StartedFresh(topic: string, model: Option<string>)
    requires StartResearch(topic, model).Ok?
    ensures var s := StartResearch(topic, model).value;
      && s.topic != [] && PyStrip(s.topic) == s.topic
      && s.plan == [] && s.pastSteps == [] && s.searchQueries == [] && s.searchResults == []
      && s.scrapedContent == [] && s.researchNotes == [] && s.parallelAnalyses == map[]
      && s.report == [] && !s.isFinished && s.iteration == 0
  {
    StripIdempotent(topic, IsPySpace);
  }

  // ---------------------------------------------------------------------------------------------
  // Progress events
  // ---------------------------------------------------------------------------------------------

  /** One progress event: a stage's message, the finished report, or the failure of the run. */
  datatype Event =
    | UpdateEvent(node: string, message: string)
    | CompleteEvent(report: string)
    | ErrorEvent(message: string)

  function QueryMessage(query: string): string
  {
    "Searching for: " + query
  }

  function ScrapeMessage(url: string): string
  {
    "Scraping: " + url
  }

  const NoSourcesMessage: string := "Reading sources..."

  /** The start of the generic line for a stage with no message of its own. */
  const CompletedPrefix := "✓ Completed: "

  /** The message of a stage that reports one line: chosen by the first rule its name matches. */
  function FixedMessage(name: string): string
  {
    if name == "search" then "Searching..."
    else if Contains(name, "analyze") then "ANALYZING"
    else if name == "synthesize_parallel" then "SYNTHESIZING"
    else if name == "writer" then "WRITING"
    else CompletedPrefix + TitleCase(ReplaceChar(name, '_', ' '))
  }

  /** The progress messages of one stage's update, in the order they are sent. */
  function Messages(name: string, u: Update): (ms: seq<string>)
  {
    if name == "planner" then
      var queries := u.searchQueries.GetOr([]);
      seq(|queries|, i requires 0 <= i < |queries| => QueryMessage(queries[i]))
    else if name == "scrape" then
      var items := u.scrapedUrls.GetOr([]);
      if items == [] then [NoSourcesMessage]
      else seq(|items|, i requires 0 <= i < |items| => ScrapeMessage(items[i].url))
    else [FixedMessage(name)]
  }

  /** The report an update carries, when it carries a non-empty one. */
  predicate HasReport(u: Update)
  {
    u.report.Some? && u.report.value != []
  }

  /** The events one stage's update yields: its messages, then the report when it carries one. */
  function NodeEvents(name: string, u: Update): (es: seq<Event>)
  {
    var ms := Messages(name, u);
    seq(|ms|, i requires 0 <= i < |ms| => UpdateEvent(name, ms[i]))
      + (if HasReport(u) then [CompleteEvent(u.report.value)] else [])
  }

  /** The events of one named update. */
  function UpdateEvents(u: (string, Update)): seq<Event>
  {
    NodeEvents(u.0, u.1)
  }

  /** The events of a stream of updates, stage after stage. */
  function Progress(updates: seq<(string, Update)>): seq<Event>
  {
    ConcatMap(UpdateEvents, updates)
  }

  /** The text of the error event that ends a failed run. */
  function ErrorText(message: string): string
  {
    "Research error: " + message
  }

  /** All events of a run: the progress, then one error event when the run failed. */
  function StreamEvents(updates: seq<(string, Update)>, failure: Option<string>): seq<Event>
  {
    Progress(updates) + (if failure.Some? then [ErrorEvent(ErrorText(failure.value))] else [])
  }

  /** The events one stage's update yields, message by message. */
  method EmitNode(name: string, u: Update) returns (events: seq<Event>)
    ensures events == NodeEvents(name, u)
  {
    events := [];
    if name == "planner" {
      var queries := u.searchQueries.GetOr([]);
      for i := 0 to |queries|
        invariant events == seq(i, j requires 0 <= j < i => UpdateEvent(name, QueryMessage(queries[j])))
      {
        events := events + [UpdateEvent(name, QueryMessage(queries[i]))];
      }
    } else if name == "scrape" {
      var items := u.scrapedUrls.GetOr([]);
      for i := 0 to |items|
        invariant events == seq(i, j requires 0 <= j < i => UpdateEvent(name, ScrapeMessage(items[j].url)))
      {
        events := events + [UpdateEvent(name, ScrapeMessage(items[i].url))];
      }
      if items == [] {
        events := events + [UpdateEvent(name, NoSourcesMessage)];
      }
    } else {
      events := [UpdateEvent(name, FixedMessage(name))];
    }
    if HasReport(u) {
      events := events + [CompleteEvent(u.report.value)];
    }
  }

  /**
   * The event generator: each streamed update in turn becomes its events; when the run raises,
   * one error event follows and the stream ends.
   */
  method EventGenerator(updates: seq<(string, Update)>, failure: Option<string>) returns (events: seq<Event>)
    ensures events == StreamEvents(updates, failure)
  {
    events := [];
    for i := 0 to |updates|
      invariant events == Progress(updates[..i])
    {
      var more := EmitNode(updates[i].0, updates[i].1);
      assert updates[..i + 1][..i] == updates[..i];
      events := events + more;
    }
    assert updates[..|updates|] == updates;
    if failure.Some? {
      events := events + [ErrorEvent(ErrorText(failure.value))];
    }
  }

  /** One server-sent-event frame. */
  function Frame(e: Event, json: Event -> string): string
  {
    "data: " + json(e) + "\n\n"
  }

  /** The response body: the frames of the events, one after another. */
  function Body(events: seq<Event>, json: Event -> string): string
  {
    if events == [] then [] else Body(events[..|events| - 1], json) + Frame(events[|events| - 1], json)
  }

  /** The stream a run hands out: each step as its stage's name and its update. */
  function Named(steps: seq<Step>): (r: seq<(string, Update)>)
    ensures |r| == |steps| && forall i :: 0 <= i < |steps| ==> r[i] == (Name(steps[i].node), steps[i].update)
  {
    seq(|steps|, i requires 0 <= i < |steps| => (Name(steps[i].node), steps[i].update))
  }

  /**
   * `POST /research`: a blank topic is refused with status 400; otherwise the agent runs and
   * the body is the frames of its events. A failed run ends with its error; a finished one
   * ends with the report when the writer produced one, and with the writer's own message
   * otherwise.
   */
  method Research(topic: string, model: Option<string>, o: Oracles, json: Event -> string)
    returns (r: Result<string, HttpError>, steps: seq<Step>, outcome: Result<AgentState, string>, events: seq<Event>)
    requires forall c :: Permutes(o.order(c))
    ensures r.Err? <==> PyStrip(topic) == []
    ensures r.Err? ==> r.error == BlankTopic
    ensures r.Ok? ==> events == StreamEvents(Named(steps), if outcome.Err? then Some(outcome.error) else None)
    ensures r.Ok? ==> r.value == Body(events, json)
    ensures r.Ok? && outcome.Err? ==> events != [] && events[|events| - 1] == ErrorEvent(ErrorText(outcome.error))
    ensures r.Ok? && outcome.Ok? ==> (events != [] && events[|events| - 1] ==
      if outcome.value.report != [] then CompleteEvent(outcome.value.report) else UpdateEvent("writer", "WRITING"))
  {
    steps, outcome, events := [], Err(""), [];
    var started := StartResearch(topic, model);
    if started.Err? {
      return Err(started.error), steps, outcome, events;
    }
    var rounds, reviewed;
    steps, outcome, rounds, reviewed := Run(started.value, o);
    var failure := if outcome.Err? then Some(outcome.error) else None;
    events := EventGenerator(Named(steps), failure);
    if outcome.Ok? {
      WriterEvents(steps, outcome.value.report);
    }
    r := Ok(Body(events, json));
  }

  /** A stream whose last step is the writer's ends with the writer's message, then its report. */
  lemma WriterEvents(steps: seq<Step>, report: string)
    requires |steps| >= 1 && steps[|steps| - 1].node == Writer && steps[|steps| - 1].update.report == Some(report)
    ensures var es := Progress(Named(steps));
      es != [] && es[|es| - 1] == if report != [] then CompleteEvent(report) else UpdateEvent("writer", "WRITING")
  {
    var named := Named(steps);
    var last := named[|named| - 1];
    assert last == ("writer", steps[|steps| - 1].update);
    assert !Contains("writer", "analyze");
    assert Messages("writer", last.1) == ["WRITING"];
  }

  // ---------------------------------------------------------------------------------------------
  // What the events say
  // ---------------------------------------------------------------------------------------------

  /** A planner update yields one event per query, in query order. */
  lemma PlannerEvents(u: Update, queries: seq<string>)
    requires u.searchQueries == Some(queries) && !HasReport(u)
    ensures |NodeEvents("planner", u)| == |queries|
    ensures forall i :: 0 <= i < |queries| ==>
      NodeEvents("planner", u)[i] == UpdateEvent("planner", "Searching for: " + queries[i])
  {
  }

  /**
   * A scrape update yields one event per scraped page, in order, or exactly one "Reading
   * sources..." event when it reports none.
   */
  lemma ScrapeEvents(u: Update, items: seq<ScrapedUrl>)
    requires u.scrapedUrls == Some(items) && !HasReport(u)
    ensures items == [] ==> NodeEvents("scrape", u) == [UpdateEvent("scrape", "Reading sources...")]
    ensures items != [] ==> (|NodeEvents("scrape", u)| == |items|
      && forall i :: 0 <= i < |items| ==> NodeEvents("scrape", u)[i] == UpdateEvent("scrape", "Scraping: " + items[i].url))
  {
  }

  /** Every other stage of the graph reports a single fixed line. */
  lemma StageMessages(u: Update)
    ensures Messages(Name(Search), u) == ["Searching..."]
    ensures forall a: Analysis :: Messages(Name(Analyze(a)), u) == ["ANALYZING"]
    ensures Messages(Name(SynthesizeParallel), u) == ["SYNTHESIZING"]
    ensures Messages(Name(Writer), u) == ["WRITING"]
    ensures Messages(Name(Review), u) == [CompletedPrefix + "Review"]
  {
    forall a: Analysis ensures Messages(Name(Analyze(a)), u) == ["ANALYZING"] {
      AnalyzerMessage(a, u);
    }
    WriterMessage(u);
    ReviewMessage(u);
    SynthesizerMessage(u);
  }

  /** The synthesizer's name does not contain "analyze", so its own rule applies. */
  lemma SynthesizerMessage(u: Update)
    ensures Messages(Name(SynthesizeParallel), u) == ["SYNTHESIZING"]
  {
    var name := "synthesize_parallel";
    forall i | 0 <= i <= |name| - 7
      ensures !OccursAt(name, "analyze", i)
    {
      assert name[i] != 'a' || name[i + 1] != 'n';
    }
    assert FixedMessage(name) == "SYNTHESIZING";
  }

  /** An analyzer's name contains "analyze", so it reports ANALYZING. */
  lemma AnalyzerMessage(a: Analysis, u: Update)
    ensures Messages(Name(Analyze(a)), u) == ["ANALYZING"]
  {
    var name := Name(Analyze(a));
    assert name[..7] == "analyze";
    assert OccursAt(name, "analyze", 0);
    assert name != "planner" && name != "scrape" && name != "search";
    assert FixedMessage(name) == "ANALYZING";
    assert Messages(name, u) == [FixedMessage(name)];
  }

  /** The writer's name is too short to contain "analyze" and is none of the earlier names. */
  lemma WriterMessage(u: Update)
    ensures Messages(Name(Writer), u) == ["WRITING"]
  {
    var name := "writer";
    assert name[0] == 'w';
    assert FixedMessage(name) == "WRITING";
  }

  /** The review stage falls through to the generic line with its title-cased name. */
  lemma ReviewMessage(u: Update)
    ensures Messages(Name(Review), u) == [CompletedPrefix + "Review"]
  {
    var name := "review";
    assert name[0] == 'r';
    ReviewTitle();
    assert FixedMessage(name) == CompletedPrefix + "Review";
  }

  /** "review" has no underscore and title-cases to "Review". */
  lemma ReviewTitle()
    ensures TitleCase(ReplaceChar("review", '_', ' ')) == "Review"
  {
    var name := "review";
    assert ReplaceChar(name, '_', ' ') == name;
    var t := TitleCase(name);
    assert t[0] == 'R' && t[1] == 'e' && t[2] == 'v' && t[3] == 'i' && t[4] == 'e' && t[5] == 'w';
  }

  /** A stage's update is followed by a completion event exactly when it carries a non-empty report. */
  lemma CompleteIff(name: string, u: Update, report: string)
    ensures CompleteEvent(report) in NodeEvents(name, u) <==> u.report == Some(report) && report != []
  {
    var ms := Messages(name, u);
    var ups := seq(|ms|, i requires 0 <= i < |ms| => UpdateEvent(name, ms[i]));
    assert CompleteEvent(report) !in ups;
  }

  /** The progress of a stream holds no error event. */
  lemma {:induction false} ProgressHasNoError(updates: seq<(string, Update)>)
    ensures forall i :: 0 <= i < |Progress(updates)| ==> !Progress(updates)[i].ErrorEvent?
  {
    if updates != [] {
      var init := updates[..|updates| - 1];
      ProgressHasNoError(init);
      assert Progress(updates) == Progress(init) + UpdateEvents(updates[|updates| - 1]);
    }
  }

  /** A run that raises sends exactly one error event, as the last one; otherwise none. */
  lemma ErrorLast(updates: seq<(string, Update)>, failure: Option<string>)
    ensures var es := StreamEvents(updates, failure);
      forall i :: 0 <= i < |es| ==> (es[i].ErrorEvent? <==> failure.Some? && i == |es| - 1)
    ensures failure.Some? ==> (StreamEvents(updates, failure)[|StreamEvents(updates, failure)| - 1]
      == ErrorEvent("Research error: " + failure.value))
  {
    ProgressHasNoError(updates);
  }

  /** The progress of two streams in a row is the progress of the first, then of the second. */
  lemma ProgressAppend(xs: seq<(string, Update)>, ys: seq<(string, Update)>)
    ensures Progress(xs + ys) == Progress(xs) + Progress(ys)
  {
    ConcatMapAppend(UpdateEvents, xs, ys);
  }

  /** Every frame starts with "data: " and ends with a blank line. */
  lemma FrameShape(e: Event, json: Event -> string)
    ensures StartsWith(Frame(e, json), "data: ")
    ensures |Frame(e, json)| >= 8 && Frame(e, json)[|Frame(e, json)| - 2..] == "\n\n"
  {
  }
}
