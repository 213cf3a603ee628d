/**
 * The stages of the research pipeline. Each stage reads the research record and returns a
 * partial update. The language model, the search engine and the page fetch are parameters:
 * a `Reply` stands for what one model call gave back, `search` and `fetch` for the network.
 */
module Nodes {
  import opened Wrappers
  import opened Seqs
  import opened Text
  import opened State
  import Browser

  /** What one language-model call gave back: the reply's content, or the exception it raised. */
  datatype Reply = Answer(content: string) | Failure(message: string)

  /** What `json.loads` made of the planner's reply: a list (its items), another value, or an error. */
  datatype Parsed = JsonList(items: seq<string>) | JsonOther | ParseError

  // ---------------------------------------------------------------------------------------------
  // Planner
  // ---------------------------------------------------------------------------------------------

  /** The queries used when the planner's reply is not a JSON list. */
  function FallbackQueries(topic: string, iteration: nat): seq<string>
  {
    if iteration == 0 then [topic, topic + " explained", topic + " latest developments"]
    else [topic + " in-depth analysis"]
  }

  /** Text without any occurrence of `pat[0]` has nothing to remove. */
  lemma {:induction false} RemoveAllAbsent(s: string, pat: string)
    requires pat != [] && forall i :: 0 <= i < |s| ==> s[i] != pat[0]
    ensures RemoveAll(s, pat) == s
    decreases |s|
  {
    if s != [] {
      assert !StartsWith(s, pat) by {
        if |pat| <= |s| { assert s[..|pat|][0] == s[0]; }
      }
      RemoveAllAbsent(s[1..], pat);
      assert s == [s[0]] + s[1..];
    }
  }

  /** The reply with its Markdown fences removed and its surrounding whitespace stripped. */
  function StripFences(content: string): (r: string)
    ensures !Contains(r, Fence)
  {
    var noFence := RemoveAll(RemoveAll(content, "```json"), Fence);
    RemoveFenceComplete(RemoveAll(content, "```json"));
    StripNotContains(noFence, Fence);
    PyStrip(noFence)
  }

  /** A reply without backticks is only stripped. */
  lemma StripFencesPlain(content: string)
    requires forall i :: 0 <= i < |content| ==> content[i] != '`'
    ensures StripFences(content) == PyStrip(content)
  {
    RemoveAllAbsent(content, "```json");
    RemoveAllAbsent(content, Fence);
  }

  /** The queries the planner settles on, given what the parser made of its reply. */
  function PlannedQueries(topic: string, iteration: nat, parsed: Parsed): seq<string>
  {
    match parsed
    case JsonList(items) => items
    case _ => FallbackQueries(topic, iteration)
  }

  /** `past_steps` entry announcing the number of queries. */
  function PlanStep(n: nat): string
  {
    "Generated " + NatToString(n) + " search queries"
  }

  /**
   * `planner_node`: an exception from the model call is not caught and ends the run (`Err`);
   * otherwise a plan, the queries and the unchanged iteration.
   */
  function PlannerNode(s: AgentState, reply: Reply, parse: string -> Parsed): (r: Result<Update, string>)
    ensures r.Err? <==> reply.Failure?
    ensures r.Err? ==> r.error == reply.message
    ensures r.Ok? ==> r.value == NoUpdate.(plan := r.value.plan, searchQueries := r.value.searchQueries,
      pastSteps := r.value.pastSteps, iteration := Some(s.iteration))
    ensures r.Ok? ==> r.value.plan == Some(["Research plan created"])
    ensures r.Ok? ==> r.value.searchQueries.Some? && r.value.pastSteps == Some([PlanStep(|r.value.searchQueries.value|)])
  {
    match reply
    case Failure(msg) => Err(msg)
    case Answer(content) =>
      var queries := PlannedQueries(s.topic, s.iteration, parse(StripFences(content)));
      Ok(NoUpdate.(
        plan := Some(["Research plan created"]),
        searchQueries := Some(queries),
        pastSteps := Some([PlanStep(|queries|)]),
        iteration := Some(s.iteration)))
  }

  /**
   * What a successful planner call does to the record: any JSON list is taken as is (even an
   * empty one), anything else gives three topic-based queries on the first pass and one
   * afterwards; the queries replace the previous ones, the iteration is unchanged, and exactly one
   * step is logged.
   */
  lemma PlannerQueries(s: AgentState, content: string, parse: string -> Parsed)
    ensures PlannerNode(s, Answer(content), parse).Ok?
    ensures var t := Apply(s, PlannerNode(s, Answer(content), parse).value);
      var parsed := parse(StripFences(content));
      && (parsed.JsonList? ==> t.searchQueries == parsed.items)
      && (!parsed.JsonList? && s.iteration == 0 ==>
            t.searchQueries == [s.topic, s.topic + " explained", s.topic + " latest developments"] &&
            forall i :: 0 <= i < 3 ==> StartsWith(t.searchQueries[i], s.topic))
      && (!parsed.JsonList? && s.iteration > 0 ==> t.searchQueries == [s.topic + " in-depth analysis"])
      && t.plan == ["Research plan created"]
      && t.iteration == s.iteration
      && t.pastSteps == s.pastSteps + [PlanStep(|t.searchQueries|)]
      && t.researchNotes == s.researchNotes
  {
    var parsed := parse(StripFences(content));
    var qs := PlannedQueries(s.topic, s.iteration, parsed);
    var u := PlannerNode(s, Answer(content), parse).value;
    assert u == NoUpdate.(plan := Some(["Research plan created"]), searchQueries := Some(qs),
      pastSteps := Some([PlanStep(|qs|)]), iteration := Some(s.iteration));
    PlanApplied(s, ["Research plan created"], qs, [PlanStep(|qs|)]);
    if !parsed.JsonList? && s.iteration == 0 {
      assert qs[1][..|s.topic|] == s.topic;
      assert qs[2][..|s.topic|] == s.topic;
    }
  }

  /** A planner-shaped update replaces plan and queries, logs its steps and touches nothing else. */
  lemma PlanApplied(s: AgentState, plan: seq<string>, queries: seq<string>, steps: seq<string>)
    ensures var t := Apply(s, NoUpdate.(plan := Some(plan), searchQueries := Some(queries),
      pastSteps := Some(steps), iteration := Some(s.iteration)));
      && t.plan == plan && t.searchQueries == queries && t.pastSteps == s.pastSteps + steps
      && t.iteration == s.iteration && t.researchNotes == s.researchNotes
  {
  }

  // ---------------------------------------------------------------------------------------------
  // Search
  // ---------------------------------------------------------------------------------------------

  /** The hits of each query, in query order. */
  function HitLists(queries: seq<string>, search: string -> seq<Hit>): (r: seq<seq<Hit>>)
    ensures |r| == |queries|
    ensures forall i :: 0 <= i < |queries| ==> r[i] == search(queries[i])
  {
    seq(|queries|, i requires 0 <= i < |queries| => search(queries[i]))
  }

  /** All hits, query by query. */
  function SearchResults(queries: seq<string>, search: string -> seq<Hit>): seq<Hit>
  {
    Flatten(HitLists(queries, search))
  }

  /** `past_steps` entry announcing the number of queries searched. */
  function SearchStep(n: nat): string
  {
    "Searched for " + NatToString(n) + " queries"
  }

  /** `search_node`: runs every query and collects the hits in order. */
  method SearchNode(queries: seq<string>, search: string -> seq<Hit>) returns (u: Update)
    ensures u == NoUpdate.(
      searchResults := Some(SearchResults(queries, search)),
      pastSteps := Some([SearchStep(|queries|)]))
  {
    var results: seq<Hit> := [];
    for i := 0 to |queries|
      invariant results == SearchResults(queries[..i], search)
    {
      var lists := HitLists(queries[..i + 1], search);
      assert lists[..i] == HitLists(queries[..i], search);
      results := results + search(queries[i]);
    }
    assert queries[..|queries|] == queries;
    u := NoUpdate.(searchResults := Some(results), pastSteps := Some([SearchStep(|queries|)]));
  }

  /** Searching two batches of queries gives the first batch's hits followed by the second's. */
  lemma SearchResultsAppend(a: seq<string>, b: seq<string>, search: string -> seq<Hit>)
    ensures SearchResults(a + b, search) == SearchResults(a, search) + SearchResults(b, search)
  {
    assert HitLists(a + b, search) == HitLists(a, search) + HitLists(b, search);
    FlattenAppend(HitLists(a, search), HitLists(b, search));
  }

  /** Searching one query gives exactly its hits. */
  lemma SearchResultsSingle(q: string, search: string -> seq<Hit>)
    ensures SearchResults([q], search) == search(q)
  {
    var l := HitLists([q], search);
    assert l[..0] == [] && l[0] == search(q);
    assert Flatten(l) == Flatten(l[..0]) + l[0];
  }

  // ---------------------------------------------------------------------------------------------
  // Scrape
  // ---------------------------------------------------------------------------------------------

  /** How many of the latest structured hits are considered. */
  const ScrapeWindow: nat := 15

  /** How many characters of each page are kept. */
  const ExcerptLength: nat := 2000

  /** The structured hits, in order. */
  function Records(results: seq<Hit>): (r: seq<Hit>)
    ensures |r| <= |results|
    ensures forall i :: 0 <= i < |r| ==> r[i].Record?
  {
    if results == [] then []
    else
      var init := Records(results[..|results| - 1]);
      var last := results[|results| - 1];
      if last.Record? then init + [last] else init
  }

  /** Keeping the structured hits of `a + b` keeps those of `a`, then those of `b`. */
  lemma {:induction false} RecordsAppend(a: seq<Hit>, b: seq<Hit>)
    ensures Records(a + b) == Records(a) + Records(b)
    decreases |b|
  {
    if b == [] {
      assert a + b == a;
    } else {
      var b', x := b[..|b| - 1], b[|b| - 1];
      assert b == b' + [x];
      assert a + b == (a + b') + [x];
      RecordsAppend(a, b');
      RecordsSnoc(a + b', x);
      RecordsSnoc(b', x);
    }
  }

  /** The kept hits are exactly the records among the results. */
  lemma {:induction false} RecordsMembers(results: seq<Hit>)
    ensures forall h :: h in Records(results) <==> h in results && h.Record?
  {
    if results != [] {
      var init := results[..|results| - 1];
      RecordsMembers(init);
      assert results == init + [results[|results| - 1]];
    }
  }

  /** One more hit is kept exactly when it is a record. */
  lemma RecordsSnoc(xs: seq<Hit>, x: Hit)
    ensures Records(xs + [x]) == Records(xs) + (if x.Record? then [x] else [])
  {
    assert (xs + [x])[..|xs + [x]| - 1] == xs;
  }

  /** The hits the scraper looks at: the latest 15 structured ones. */
  function LatestRecords(results: seq<Hit>): (r: seq<Hit>)
    ensures |r| <= ScrapeWindow
    ensures forall i :: 0 <= i < |r| ==> r[i].Record?
    ensures var all := Records(results);
      && |r| == (if |all| <= ScrapeWindow then |all| else ScrapeWindow)
      && all == all[..|all| - |r|] + r
  {
    Last(Records(results), ScrapeWindow)
  }

  /** A hit with a non-empty link is scraped. */
  predicate HasLink(h: Hit)
  {
    h.Record? && h.link.Some? && h.link.value != []
  }

  /** `content[:2000]`. */
  function Excerpt(content: string): (r: string)
    ensures |r| <= ExcerptLength && |r| <= |content| && r == content[..|r|]
    ensures |content| <= ExcerptLength ==> r == content
  {
    if |content| <= ExcerptLength then content else content[..ExcerptLength]
  }

  /** Python's f-string rendering of an optional string: a missing value prints as `None`. */
  function Rendered(o: Option<string>): string
  {
    if o.Some? then o.value else "None"
  }

  /** The text kept for one scraped page. */
  function Entry(url: string, title: Option<string>, content: string): string
  {
    "Source: " + url + "\nTitle: " + Rendered(title) + "\nContent: " + Excerpt(content) + "..."
  }

  /**
   * The entries the scraper produces for `hs`; the page at position `i` is fetched as
   * `fetch(i, url)`. A failing fetch is kept, as the scraper's error text.
   */
  function Scraped(hs: seq<Hit>, fetch: (nat, string) -> Result<string, string>): seq<string>
  {
    if hs == [] then []
    else
      var init := Scraped(hs[..|hs| - 1], fetch);
      var h := hs[|hs| - 1];
      if HasLink(h) then
        var url := h.link.value;
        init + [Entry(url, h.title, Browser.ScrapeUrl(url, fetch(|hs| - 1, url)))]
      else init
  }

  /** The `{url, title}` descriptors the scraper reports for `hs`. */
  function ScrapedUrls(hs: seq<Hit>): seq<ScrapedUrl>
  {
    if hs == [] then []
    else
      var init := ScrapedUrls(hs[..|hs| - 1]);
      var h := hs[|hs| - 1];
      if HasLink(h) then init + [ScrapedUrl(h.link.value, h.title.GetOr(""))] else init
  }

  /** `past_steps` entry announcing the number of pages. */
  function ScrapeStep(n: nat): string
  {
    "Scraped " + NatToString(n) + " pages"
  }

  /** `scrape_node`: fetches every linked hit among the latest 15 structured ones. */
  method ScrapeNode(results: seq<Hit>, fetch: (nat, string) -> Result<string, string>) returns (u: Update)
    ensures var latest := LatestRecords(results);
      u == NoUpdate.(
        scrapedContent := Some(Scraped(latest, fetch)),
        scrapedUrls := Some(ScrapedUrls(latest)),
        pastSteps := Some([ScrapeStep(|Scraped(latest, fetch)|)]))
  {
    var latest := LatestRecords(results);
    var scraped: seq<string> := [];
    var urls: seq<ScrapedUrl> := [];
    for i := 0 to |latest|
      invariant scraped == Scraped(latest[..i], fetch)
      invariant urls == ScrapedUrls(latest[..i])
    {
      scraped, urls := ScrapeOne(latest, i, fetch, scraped, urls);
    }
    assert latest[..|latest|] == latest;
    u := NoUpdate.(
      scrapedContent := Some(scraped),
      scrapedUrls := Some(urls),
      pastSteps := Some([ScrapeStep(|scraped|)]));
  }

  /** One hit of the scrape loop: a record with a link is fetched and recorded, anything else skipped. */
  method ScrapeOne(latest: seq<Hit>, i: nat, fetch: (nat, string) -> Result<string, string>,
                   scraped: seq<string>, urls: seq<ScrapedUrl>) returns (scraped': seq<string>, urls': seq<ScrapedUrl>)
    requires i < |latest| && forall j :: 0 <= j < |latest| ==> latest[j].Record?
    requires scraped == Scraped(latest[..i], fetch) && urls == ScrapedUrls(latest[..i])
    ensures scraped' == Scraped(latest[..i + 1], fetch) && urls' == ScrapedUrls(latest[..i + 1])
  {
    var res := latest[i];
    assert latest[..i + 1][..i] == latest[..i];
    var url := res.link;
    scraped', urls' := scraped, urls;
    if url.Some? && url.value != [] {
      var content := Browser.ScrapeUrl(url.value, fetch(i, url.value));
      scraped' := scraped + [Entry(url.value, res.title, content)];
      urls' := urls + [ScrapedUrl(url.value, res.title.GetOr(""))];
    }
  }

  /**
   * Entries and descriptors match one to one and in order: the i-th entry is the page of the i-th
   * descriptor's URL, under its title, every URL is non-empty, and there are no more of them than hits. How many
   * pages there are does not depend on which fetches fail.
   */
  lemma {:induction false} ScrapedMatchesUrls(hs: seq<Hit>, fetch: (nat, string) -> Result<string, string>)
    ensures |Scraped(hs, fetch)| == |ScrapedUrls(hs)| <= |hs|
    ensures forall i :: 0 <= i < |ScrapedUrls(hs)| ==> MatchesUrl(Scraped(hs, fetch)[i], ScrapedUrls(hs)[i])
  {
    if hs != [] {
      var init := hs[..|hs| - 1];
      ScrapedMatchesUrls(init, fetch);
      var h := hs[|hs| - 1];
      if HasLink(h) {
        var url := h.link.value;
        var e := Entry(url, h.title, Browser.ScrapeUrl(url, fetch(|hs| - 1, url)));
        EntryMatches(url, h.title, Browser.ScrapeUrl(url, fetch(|hs| - 1, url)));
        AppendMatching(Scraped(init, fetch), ScrapedUrls(init), e, ScrapedUrl(url, h.title.GetOr("")));
      }
    }
  }

  /** The lines an entry opens with, before the page text. */
  function EntryHead(url: string, title: string): string
  {
    "Source: " + url + "\nTitle: " + title + "\nContent: "
  }

  /**
   * An entry belongs to a descriptor: the URL is non-empty and the entry names it as its source,
   * under the descriptor's title; a missing title is stored as "" and printed as `None`.
   */
  predicate MatchesUrl(entry: string, d: ScrapedUrl)
  {
    && d.url != []
    && (StartsWith(entry, EntryHead(d.url, d.title)) || (d.title == [] && StartsWith(entry, EntryHead(d.url, "None"))))
  }

  lemma EntryMatches(url: string, title: Option<string>, content: string)
    requires url != []
    ensures MatchesUrl(Entry(url, title, content), ScrapedUrl(url, title.GetOr("")))
  {
    var p := EntryHead(url, Rendered(title));
    var e := Entry(url, title, content);
    assert e == p + (Excerpt(content) + "...");
    assert e[..|p|] == p;
  }

  lemma AppendMatching(es: seq<string>, ds: seq<ScrapedUrl>, e: string, d: ScrapedUrl)
    requires |es| == |ds| && forall i :: 0 <= i < |ds| ==> MatchesUrl(es[i], ds[i])
    requires MatchesUrl(e, d)
    ensures forall i :: 0 <= i < |ds| + 1 ==> MatchesUrl((es + [e])[i], (ds + [d])[i])
  {
  }

  /** The part of an entry that comes from the page is at most 2000 characters, then "...". */
  lemma EntryExcerpt(url: string, title: Option<string>, content: string)
    ensures var head := "Source: " + url + "\nTitle: " + Rendered(title) + "\nContent: ";
      var e := Entry(url, title, content);
      && |head| + 3 <= |e| <= |head| + ExcerptLength + 3
      && e[..|head|] == head
      && e[|head|..|e| - 3] == content[..|e| - 3 - |head|]
      && e[|e| - 3..] == "..."
  {
  }

  /** A page whose fetch failed is still an entry, carrying the scraper's error text. */
  lemma ScrapeFailureKept(url: string, title: Option<string>, msg: string)
    ensures Contains(Entry(url, title, Browser.ScrapeUrl(url, Err(msg))), "Error scraping ")
  {
    var head := "Source: " + url + "\nTitle: " + Rendered(title) + "\nContent: ";
    var err := Browser.ScrapeUrl(url, Err(msg));
    var e := Entry(url, title, err);
    var x := Excerpt(err);
    var pre := "Error scraping ";
    assert e == head + (x + "...");
    assert err == pre + (url + ": " + msg);
    assert x[..|pre|] == pre;
    assert e[|head|..|head| + |pre|] == pre;
    assert OccursAt(e, pre, |head|);
  }

  // ---------------------------------------------------------------------------------------------
  // The three analyzers
  // ---------------------------------------------------------------------------------------------

  /** The three analyses that run side by side after scraping. */
  datatype Analysis = Facts | Trends | Insights

  /** The one `parallel_analyses` key an analyzer writes. */
  function Key(a: Analysis): string
  {
    match a
    case Facts => "facts"
    case Trends => "trends"
    case Insights => "insights"
  }

  /** Placeholder written when the model call fails. */
  const Pending: string := "Analysis pending..."

  /** How many of the latest search results an analyzer shows the model. */
  const ResultWindow: nat := 20

  /** How many of the latest scraped pages an analyzer shows the model. */
  const PageWindow: nat := 10

  /** One line of the formatted results: `- title: snippet (link)`, or `- text` for a non-dict. */
  function HitLine(h: Hit): (line: string)
    ensures StartsWith(line, "- ") && line[|line| - 1] == '\n'
  {
    var body :=
      match h
      case Record(title, snippet, link) =>
        title.GetOr("No title") + ": " + snippet.GetOr("") + " (" + link.GetOr("") + ")"
      case Opaque(text) => text;
    var line := "- " + body + "\n";
    assert line[..2] == "- ";
    line
  }

  /**
   * The parts of a result's line: a dict shows its title (`No title` when missing), then its
   * snippet, then its link in parentheses (both empty when missing); anything else shows its text.
   */
  lemma HitLineParts(h: Hit)
    ensures var line := HitLine(h);
      && (h.Record? ==>
        var head, tail := "- " + h.title.GetOr("No title") + ": ", " (" + h.link.GetOr("") + ")\n";
        && StartsWith(line, head)
        && |head| + |tail| <= |line| && line[|line| - |tail|..] == tail
        && line[|head|..|line| - |tail|] == h.snippet.GetOr(""))
      && (h.Opaque? ==> line == "- " + h.text + "\n")
  {
    if h.Record? {
      var line := HitLine(h);
      var head, tail := "- " + h.title.GetOr("No title") + ": ", " (" + h.link.GetOr("") + ")\n";
      assert line == head + h.snippet.GetOr("") + tail;
      assert line[..|head|] == head;
      assert line[|line| - |tail|..] == tail;
    }
  }

  /** The formatted results: one line per hit, in order. */
  function Formatted(hs: seq<Hit>): string
  {
    if hs == [] then "" else Formatted(hs[..|hs| - 1]) + HitLine(hs[|hs| - 1])
  }

  /** The `formatted_results +=` loop over the latest 20 results. */
  method FormatResults(results: seq<Hit>) returns (text: string)
    ensures text == Formatted(Last(results, ResultWindow))
  {
    var latest := Last(results, ResultWindow);
    text := "";
    for i := 0 to |latest|
      invariant text == Formatted(latest[..i])
    {
      assert latest[..i + 1][..i] == latest[..i];
      text := text + HitLine(latest[i]);
    }
    assert latest[..|latest|] == latest;
  }

  /** Formatting one more hit adds its line at the end. */
  lemma FormattedSnoc(hs: seq<Hit>, h: Hit)
    ensures Formatted(hs + [h]) == Formatted(hs) + HitLine(h)
  {
    assert (hs + [h])[..|hs|] == hs;
  }

  /** Formatting two runs of hits gives the first run's lines followed by the second's. */
  lemma {:induction false} FormattedAppend(a: seq<Hit>, b: seq<Hit>)
    ensures Formatted(a + b) == Formatted(a) + Formatted(b)
    decreases |b|
  {
    if b == [] {
      assert a + b == a;
    } else {
      var init, last := b[..|b| - 1], b[|b| - 1];
      calc {
        Formatted(a + b);
        { assert a + b == (a + init) + [last]; }
        Formatted((a + init) + [last]);
        { FormattedSnoc(a + init, last); }
        Formatted(a + init) + HitLine(last);
        { FormattedAppend(a, init); }
        (Formatted(a) + Formatted(init)) + HitLine(last);
        Formatted(a) + (Formatted(init) + HitLine(last));
        { assert b == init + [last]; FormattedSnoc(init, last); }
        Formatted(a) + Formatted(b);
      }
    }
  }

  /** The latest 10 scraped pages, separated by blank lines. */
  function PageDigest(scraped: seq<string>): string
  {
    Join(Last(scraped, PageWindow), "\n\n")
  }

  /** An analyzer's update: its own key only, the reply or the placeholder. */
  function AnalysisUpdate(a: Analysis, reply: Reply): (u: Update)
    ensures u.parallelAnalyses.Some? && u.parallelAnalyses.value.Keys == {Key(a)}
    ensures Key(a) in u.parallelAnalyses.value &&
      u.parallelAnalyses.value[Key(a)] == (if reply.Answer? then reply.content else Pending)
    ensures u == NoUpdate.(parallelAnalyses := u.parallelAnalyses)
  {
    var text := match reply case Answer(content) => content case Failure(_) => Pending;
    NoUpdate.(parallelAnalyses := Some(map[Key(a) := text]))
  }

  /**
   * `analyze_facts_node`, `analyze_trends_node`, `analyze_insights_node`: the model is asked about
   * the formatted latest results and the digest of the latest pages.
   */
  method AnalyzeNode(a: Analysis, s: AgentState, ask: (Analysis, string, string) -> Reply) returns (u: Update)
    ensures u == AnalysisUpdate(a, ask(a, Formatted(Last(s.searchResults, ResultWindow)), PageDigest(s.scrapedContent)))
  {
    var formattedResults := FormatResults(s.searchResults);
    var formattedScraped := PageDigest(s.scrapedContent);
    var reply := ask(a, formattedResults, formattedScraped);
    u := AnalysisUpdate(a, reply);
  }

  /** Two analyzers write different keys, so either order of merging gives the same record. */
  lemma AnalyzersCommute(s: AgentState, a: Analysis, b: Analysis, ra: Reply, rb: Reply)
    requires a != b
    ensures Apply(Apply(s, AnalysisUpdate(a, ra)), AnalysisUpdate(b, rb))
         == Apply(Apply(s, AnalysisUpdate(b, rb)), AnalysisUpdate(a, ra))
  {
    var x := AnalysisUpdate(a, ra).parallelAnalyses.value;
    var y := AnalysisUpdate(b, rb).parallelAnalyses.value;
    MergeDictsDisjointCommute(s.parallelAnalyses, x, y);
  }

  /** The text an analyzer writes for a reply. */
  function AnalysisText(reply: Reply): string
  {
    if reply.Answer? then reply.content else Pending
  }

  /** All three analyses, keyed. */
  function AllAnalyses(reply: Analysis -> Reply): map<string, string>
  {
    map["facts" := AnalysisText(reply(Facts)),
        "trends" := AnalysisText(reply(Trends)),
        "insights" := AnalysisText(reply(Insights))]
  }

  /** All three analyzers' keys are present once the three analyses are merged. */
  lemma AllAnalysesKeys(reply: Analysis -> Reply)
    ensures forall x: Analysis :: Key(x) in AllAnalyses(reply)
  {
    forall x: Analysis
      ensures Key(x) in AllAnalyses(reply)
    {
      match x
      case Facts =>
      case Trends =>
      case Insights =>
    }
  }

  /** Different analyzers write different keys. */
  lemma KeyInjective(a: Analysis, b: Analysis)
    ensures Key(a) == Key(b) <==> a == b
  {
    assert "facts"[0] != "trends"[0] && "trends"[0] != "insights"[0] && "facts"[0] != "insights"[0];
  }

  /** Three single writes under distinct keys are one write of all three. */
  lemma WriteThree<V>(m: map<string, V>, ka: string, kb: string, kc: string, x: V, y: V, z: V)
    requires ka != kb && kb != kc && ka != kc
    ensures m + map[ka := x] + map[kb := y] + map[kc := z] == m + map[ka := x, kb := y, kc := z]
  {
  }

  /** Writing the three keys one at a time, in any order, writes all of them. */
  lemma ThreeWrites(m: map<string, string>, a: Analysis, b: Analysis, c: Analysis, reply: Analysis -> Reply)
    requires a != b && b != c && a != c
    ensures m + map[Key(a) := AnalysisText(reply(a))] + map[Key(b) := AnalysisText(reply(b))]
      + map[Key(c) := AnalysisText(reply(c))] == m + AllAnalyses(reply)
  {
    KeyInjective(a, b);
    KeyInjective(b, c);
    KeyInjective(a, c);
    var all := map[Key(a) := AnalysisText(reply(a)), Key(b) := AnalysisText(reply(b)), Key(c) := AnalysisText(reply(c))];
    WriteThree(m, Key(a), Key(b), Key(c), AnalysisText(reply(a)), AnalysisText(reply(b)), AnalysisText(reply(c)));
    assert all.Keys == {"facts", "trends", "insights"} by {
      assert {a, b, c} == {Facts, Trends, Insights};
    }
    assert all == AllAnalyses(reply);
  }

  /**
   * Whatever order the three analyzers finish in, the record afterwards holds all three keys,
   * each with its own analyzer's text, and nothing else has changed.
   */
  lemma AnalyzersAnyOrder(s: AgentState, a: Analysis, b: Analysis, c: Analysis, reply: Analysis -> Reply)
    requires a != b && b != c && a != c
    ensures Apply(Apply(Apply(s, AnalysisUpdate(a, reply(a))), AnalysisUpdate(b, reply(b))), AnalysisUpdate(c, reply(c)))
      == s.(parallelAnalyses := s.parallelAnalyses + AllAnalyses(reply))
  {
    var s1 := Apply(s, AnalysisUpdate(a, reply(a)));
    var s2 := Apply(s1, AnalysisUpdate(b, reply(b)));
    var s3 := Apply(s2, AnalysisUpdate(c, reply(c)));
    assert s1 == s.(parallelAnalyses := s.parallelAnalyses + map[Key(a) := AnalysisText(reply(a))]);
    assert s2 == s1.(parallelAnalyses := s1.parallelAnalyses + map[Key(b) := AnalysisText(reply(b))]);
    assert s3 == s2.(parallelAnalyses := s2.parallelAnalyses + map[Key(c) := AnalysisText(reply(c))]);
    ThreeWrites(s.parallelAnalyses, a, b, c, reply);
  }

  // ---------------------------------------------------------------------------------------------
  // Synthesis
  // ---------------------------------------------------------------------------------------------

  const FactsHeader: string := "\n### Factual Data and Statistics\n"
  const TrendsHeader: string := "\n\n### Trends and Market Developments\n"
  const InsightsHeader: string := "\n\n### Expert Analysis and Strategic Implications\n"

  /** `parallel.get(key, '')`. */
  function Section(m: map<string, string>, key: string): string
  {
    if key in m then m[key] else ""
  }

  /** The research note assembled from the three analyses. */
  function Synthesis(m: map<string, string>): string
  {
    FactsHeader + Section(m, "facts") + TrendsHeader + Section(m, "trends")
      + InsightsHeader + Section(m, "insights") + "\n"
  }

  /** `past_steps` entry of the synthesizer. */
  const SynthesisStep: string := "Synthesized parallel analyses into professional research notes"

  /** `synthesize_parallel_node`: returns the existing notes plus the new one, and one step. */
  function SynthesizeNode(s: AgentState): (u: Update)
    ensures u.researchNotes.Some? && |u.researchNotes.value| == |s.researchNotes| + 1
    ensures u.researchNotes.value[..|s.researchNotes|] == s.researchNotes
  {
    NoUpdate.(
      researchNotes := Some(s.researchNotes + [Synthesis(s.parallelAnalyses)]),
      pastSteps := Some([SynthesisStep]))
  }

  /**
   * The note lays out facts, trends and insights in that order, each right after its fixed
   * header; a missing analysis leaves its section empty.
   */
  lemma SynthesisLayout(m: map<string, string>)
    ensures var f, t, i := Section(m, "facts"), Section(m, "trends"), Section(m, "insights");
      var n := Synthesis(m);
      var p1 := |FactsHeader|;
      var p2 := p1 + |f|;
      var p3 := p2 + |TrendsHeader|;
      var p4 := p3 + |t|;
      var p5 := p4 + |InsightsHeader|;
      && |n| == p5 + |i| + 1
      && n[..p1] == FactsHeader && n[p1..p2] == f
      && n[p2..p3] == TrendsHeader && n[p3..p4] == t
      && n[p4..p5] == InsightsHeader && n[p5..p5 + |i|] == i
    ensures "facts" !in m ==> Section(m, "facts") == []
  {
    var f, t, i := Section(m, "facts"), Section(m, "trends"), Section(m, "insights");
    Pieces(FactsHeader, f, TrendsHeader, t, InsightsHeader, i, "\n");
  }

  /** Where each part sits in the concatenation of six parts and a tail. */
  lemma Pieces(a: string, b: string, c: string, d: string, e: string, f: string, g: string)
    ensures var n := a + b + c + d + e + f + g;
      var p1 := |a|;
      var p2 := p1 + |b|;
      var p3 := p2 + |c|;
      var p4 := p3 + |d|;
      var p5 := p4 + |e|;
      && |n| == p5 + |f| + |g|
      && n[..p1] == a && n[p1..p2] == b && n[p2..p3] == c && n[p3..p4] == d
      && n[p4..p5] == e && n[p5..p5 + |f|] == f
  {
  }

  /**
   * Because the synthesizer returns the whole list plus one note into a concatenating field, the
   * notes after the merge are the old notes twice, then the new note.
   */
  lemma NotesDouble(s: AgentState)
    ensures var t := Apply(s, SynthesizeNode(s));
      && t.researchNotes == s.researchNotes + s.researchNotes + [Synthesis(s.parallelAnalyses)]
      && |t.researchNotes| == 2 * |s.researchNotes| + 1
  {
  }

  // ---------------------------------------------------------------------------------------------
  // Review
  // ---------------------------------------------------------------------------------------------

  /** Hard limit on the iteration count at which the review stage stops asking. */
  const MaxIterations: nat := 2

  /** The review stage's reading of a reply: the stripped, upper-cased reply contains SUFFICIENT. */
  predicate SaysSufficient(content: string)
  {
    Contains(AsciiUpper(PyStrip(content)), "SUFFICIENT")
  }

  /**
   * `review_node`: the iteration always goes up by one; the research is finished unless this is
   * the first pass and the model answered without saying SUFFICIENT.
   */
  function ReviewNode(s: AgentState, reply: Reply): (u: Update)
    ensures u == NoUpdate.(isFinished := u.isFinished, iteration := Some(s.iteration + 1))
    ensures u.isFinished.Some?
    ensures u.isFinished == Some(false) <==> s.iteration == 0 && reply.Answer? && !SaysSufficient(reply.content)
  {
    var finished :=
      if s.iteration >= MaxIterations then true
      else match reply
        case Failure(_) => true
        case Answer(content) => SaysSufficient(content) || s.iteration >= 1;
    NoUpdate.(isFinished := Some(finished), iteration := Some(s.iteration + 1))
  }

  /** A reply saying INSUFFICIENT also says SUFFICIENT, so it finishes the research too. */
  lemma InsufficientFinishes(content: string)
    requires Contains(AsciiUpper(PyStrip(content)), "INSUFFICIENT")
    ensures SaysSufficient(content)
  {
    SufficientInside(AsciiUpper(PyStrip(content)));
  }

  /** Any text containing INSUFFICIENT contains SUFFICIENT two characters further on. */
  lemma SufficientInside(x: string)
    requires Contains(x, "INSUFFICIENT")
    ensures Contains(x, "SUFFICIENT")
  {
    var i :| 0 <= i <= |x| - 12 && OccursAt(x, "INSUFFICIENT", i);
    assert x[i + 2..i + 12] == x[i..i + 12][2..];
    assert OccursAt(x, "SUFFICIENT", i + 2);
  }

  // ---------------------------------------------------------------------------------------------
  // Writer
  // ---------------------------------------------------------------------------------------------

  /** `past_steps` entry of the writer. */
  const WriterStep: string := "Wrote comprehensive final report"

  /** The report written from the notes when the model call fails. */
  function FallbackReport(topic: string, notes: seq<string>): (r: string)
    ensures StartsWith(r, "# Research Report: " + topic) && r != []
  {
    var head := "# Research Report: " + topic;
    var r := head + "\n\n" + Join(notes, "\n\n");
    assert r[..|head|] == head;
    r
  }

  /** Every note occurs in the joined text. */
  lemma {:induction false} JoinContains(parts: seq<string>, sep: string, k: nat)
    requires k < |parts|
    ensures Contains(Join(parts, sep), parts[k])
  {
    var j := Join(parts, sep);
    if |parts| == 1 {
      assert OccursAt(j, parts[k], 0);
    } else if k == 0 {
      assert j[..|parts[0]|] == parts[0];
      assert OccursAt(j, parts[k], 0);
    } else {
      JoinContains(parts[1..], sep, k - 1);
      var rest := Join(parts[1..], sep);
      var i :| 0 <= i <= |rest| - |parts[k]| && OccursAt(rest, parts[k], i);
      var off := |parts[0] + sep|;
      assert j == parts[0] + sep + rest;
      assert j[off..|j|] == rest;
      OccursInSlice(j, off, |j|, parts[k], i);
    }
  }

  /** The fallback report keeps every note. */
  lemma FallbackKeepsNotes(topic: string, notes: seq<string>, k: nat)
    requires k < |notes|
    ensures Contains(FallbackReport(topic, notes), notes[k])
  {
    var head := "# Research Report: " + topic + "\n\n";
    var body := Join(notes, "\n\n");
    JoinContains(notes, "\n\n", k);
    var r := FallbackReport(topic, notes);
    assert r == head + body;
    assert r[|head|..|r|] == body;
    var i :| 0 <= i <= |body| - |notes[k]| && OccursAt(body, notes[k], i);
    OccursInSlice(r, |head|, |r|, notes[k], i);
  }

  /** `writer_node`: the model's report, or the fallback when the call fails; one step. */
  function WriterNode(s: AgentState, reply: Reply): (u: Update)
    ensures u == NoUpdate.(report := u.report, pastSteps := Some([WriterStep]))
    ensures u.report.Some?
    ensures reply.Answer? ==> u.report == Some(reply.content)
    ensures reply.Failure? ==> u.report == Some("# Research Report: " + s.topic + "\n\n" + Join(s.researchNotes, "\n\n"))
    ensures reply.Failure? ==> u.report.value != [] && StartsWith(u.report.value, "# Research Report: " + s.topic)
  {
    var report := match reply
      case Answer(content) => content
      case Failure(_) => FallbackReport(s.topic, s.researchNotes);
    NoUpdate.(report := Some(report), pastSteps := Some([WriterStep]))
  }
}
