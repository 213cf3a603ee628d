# Deep research agent — a verified model in Dafny

The deep research agent takes a topic and produces a research report. A web
page posts the topic to a FastAPI endpoint (`POST /research`). The endpoint
builds an initial `AgentState` and runs a LangGraph workflow of language-model
nodes:

- a **planner** writes search queries;
- **search** runs them;
- **scrape** fetches the latest result pages;
- three **analyzers** (facts, trends, insights) write their analyses into a
  shared dictionary;
- a **synthesizer** merges the analyses into research notes;
- a **review** stage decides whether to loop back to the planner or hand over to
  the **writer**.

The endpoint turns every node update into Server-Sent Events (`data: {json}`
frames). The page reads that stream chunk by chunk, splits it into lines and
updates its lists of queries, sources and log entries, its current step and
the final report.

This project models that core as Dafny modules, one per concern:

| module | file | models |
|---|---|---|
| `Wrappers` | wrappers.dfy | `Option` / `Result` |
| `Seqs` | seqs.dfy | list helpers: last `n` items (`xs[-n:]`), flattening, de-duplication (`[...new Set(...)]`) |
| `Text` | text.dfy | the string operations the core relies on: `strip`/`trim`, `splitlines`, `split`, `join`, `replace`, `upper`, `title`, `padStart`, decimal rendering |
| `State` | state.dfy | `AgentState`, the partial updates nodes return, and the reducers that merge them (`operator.add`, `merge_dicts`, overwrite) |
| `Browser` | browser.dfy | `scrape_url`: the whitespace clean-up, the 8000-character cut and the error text |
| `Nodes` | nodes.dfy | every graph node as a function or method from state and model replies to an update |
| `Workflow` | workflow.dfy | the `StateGraph` builder (a class), the wiring, `should_continue`, and a sequential driver that runs whole cycles to the writer |
| `Server` | server.dfy | the endpoint: the topic check, the initial state, the events each node update produces, the error event and the SSE body |
| `Client` | client.dfy | `startResearch` on the page: a `StreamConsumer` class with the page state, the line buffer, the dispatch of each `data:` line and the error paths (a refused request, no body, a failed connection, a stream that ends without data, a read that fails part-way) |
| `Protocol` | protocol.dfy | the server and the page composed: what the page shows after it has consumed the body the server streamed |

Language-model calls, web search, page fetching, JSON encoding and parsing
and the order in which LangGraph runs the three analyzers are inputs of the
model. They appear as function-typed parameters or as the `Oracles` record.
The proofs hold for every answer these inputs give.

Where the code and its design description disagree, the model follows the
code:

- `synthesize_parallel_node` returns the existing notes plus the new
  synthesis into a field whose reducer is `operator.add`. Each synthesis
  therefore doubles the existing notes, and `Workflow.Run` proves the closed
  form `2^rounds * (n + 1) - 1`.
- A page that fails to scrape is kept as an `Error scraping ...` entry, not
  dropped.
- The initial state the endpoint builds has no `scraped_content` or
  `parallel_analyses` key. The reducers treat a missing key as empty, so the
  model starts both empty.

## Model

| member | source | states |
|---|---|---|
| State.MergeDicts | backend/agent/state.py:4-6 | the merged dictionary has the keys of both sides; a key on the right takes the right value, every other key keeps the left one |
| State.MergeDictsNeutral | backend/agent/state.py:4-6 | merging with the empty dictionary, on either side, or with itself changes nothing |
| State.MergeDictsDisjointCommute | backend/agent/state.py:4-6 | two merges with disjoint keys commute |
| State.AppendFieldsGrow | backend/agent/state.py:12-16 | an update appends to past steps, search results, scraped content and research notes (the `operator.add` fields), whose lengths add up |
| State.AppendTwice | backend/agent/state.py:12-16 | applying the same update twice appends its lists twice: the append reducers are not idempotent |
| State.OverwriteIdempotent | backend/agent/state.py:8-20 | an update that touches no append field is idempotent |
| State.AbsentFieldsUnchanged | backend/agent/state.py:8-20 | every field an update leaves out keeps its value, and the empty update is the identity |
| State.ApplyAllGrows | backend/agent/state.py:12-16 | after any sequence of updates, each append field starts with its old contents |
| State.ApplyAllAppend | backend/agent/state.py:8-20 | applying `us + vs` equals applying `us` and then `vs` |
| Text.Strip | backend/agent/tools/browser.py:24 | the stripped string is a slice of the input with no strippable character at either end, and everything cut off is whitespace |
| Text.StripIdempotent | backend/agent/tools/browser.py:24-25 | stripping twice equals stripping once |
| Text.SplitLines | backend/agent/tools/browser.py:24 | no line returned by `splitlines` holds a line break |
| Text.SplitLinesOfJoin | backend/agent/tools/browser.py:24-26 | splitting a `"\n"`-join of non-empty, break-free lines gives back those lines |
| Text.SplitDoubleSpace | backend/agent/tools/browser.py:25 | no piece of `split("  ")` holds a double space |
| Text.SplitOnJoin | frontend/src/App.tsx:285 | joining the pieces of `split('\n')` with `'\n'` gives back the input |
| Text.SplitOnAppend | frontend/src/App.tsx:284-286 | splitting `a + b` equals splitting `a` and `b` and gluing the last piece of `a` to the first piece of `b` |
| Text.RemoveFenceComplete | backend/agent/graph.py:273 | after all non-overlapping triple backticks are removed, none is left |
| Text.DecimalRoundTrip | frontend/src/App.tsx:60 | reading back the decimal rendering of a number gives the number |
| Text.DecimalCanonical | frontend/src/App.tsx:60 | the decimal rendering starts with `0` exactly when the number is zero: no leading zeros |
| Seqs.Dedup | frontend/src/App.tsx:299 | the de-duplicated list has no duplicates and holds exactly the input's elements |
| Seqs.DedupOfNoDup | frontend/src/App.tsx:299 | a list without duplicates is its own de-duplication |
| Seqs.DedupPrefix | frontend/src/App.tsx:299 | de-duplicating any prefix gives a prefix of the de-duplicated list, so elements keep the order of their first occurrence |
| Seqs.Last | backend/agent/graph.py:26 | `xs[-n:]` is the suffix of `xs` of length `n`, or all of `xs` when it is shorter |
| Browser.ScrapeText | backend/agent/tools/browser.py:24-29 | the scraped text is a prefix of the cleaned text, at most 8000 characters long, and all of it when it fits |
| Browser.ScrapeUrl | backend/agent/tools/browser.py:4-32 | a fetched page yields at most 8000 characters; a failure yields `Error scraping <url>: ` followed by the error message |
| Browser.CleanTextLines | backend/agent/tools/browser.py:24-26 | each line of the cleaned text is a non-empty stripped phrase without line break or double space, and the lines are exactly the chunks of the input's lines |
| Browser.CleanTextIdempotent | backend/agent/tools/browser.py:24-26 | cleaning already-cleaned text changes nothing |
| Nodes.StripFences | backend/agent/graph.py:273 | the text handed to the JSON parser contains no triple backtick |
| Nodes.StripFencesPlain | backend/agent/graph.py:273 | on a reply without backticks, fence removal is a plain `strip` |
| Nodes.PlannerNode | backend/agent/graph.py:224-309 | the planner fails exactly when the model call fails, with its message; otherwise it sets the plan `["Research plan created"]`, the queries and one past step that counts them, and keeps the iteration |
| Nodes.PlannerQueries | backend/agent/graph.py:235-309 | a JSON list becomes the queries; otherwise the first round gets `[topic, "<topic> explained", "<topic> latest developments"]` and later rounds get `<topic> in-depth analysis`; the plan is `["Research plan created"]`; one past step counts the queries; iteration and notes are unchanged |
| Nodes.SearchNode | backend/agent/graph.py:311-328 | the update appends the concatenated results of every query, in order, and one past step that counts the queries |
| Nodes.SearchResultsAppend | backend/agent/graph.py:311-328 | searching `a + b` gives the results of `a` followed by those of `b` |
| Nodes.Records | backend/agent/graph.py:337 | only structured records are kept, never more than the results hold |
| Nodes.RecordsMembers | backend/agent/graph.py:337 | a hit is kept exactly when it is among the results and is a structured record |
| Nodes.RecordsAppend | backend/agent/graph.py:337 | filtering `a + b` keeps the records of `a` followed by those of `b`, so the filter keeps the results' order |
| Nodes.LatestRecords | backend/agent/graph.py:337 | the scraped hits are the last 15 structured records, in order (all of them when there are fewer) |
| Nodes.Excerpt | backend/agent/graph.py:347 | an excerpt is a prefix of the page of at most 2000 characters, and the whole page when it fits |
| Nodes.ScrapeNode | backend/agent/graph.py:330-356 | the update holds one entry and one URL record per linked record among the latest 15 results, and one past step that counts them |
| Nodes.ScrapedMatchesUrls | backend/agent/graph.py:341-350 | there are as many entries as URL records, no more than results, and entry `i` opens with the URL and title of record `i` (a missing title is stored as `""` and printed as `None`) |
| Nodes.EntryExcerpt | backend/agent/graph.py:347 | an entry is `Source:/Title:/Content:` headers, a prefix of the page of at most 2000 characters, and `...` |
| Nodes.ScrapeFailureKept | backend/agent/graph.py:347 | a failed fetch still yields an entry, and it contains `Error scraping ` |
| Nodes.HitLine | backend/agent/graph.py:26-30 | each formatted result is a `- ` bullet ending in a newline |
| Nodes.HitLineParts | backend/agent/graph.py:27-30 | a dict result is the bullet `- <title>: <snippet> (<link>)` and a newline, with `No title` and the empty string for missing keys; any other result is `- ` followed by its text and a newline |
| Nodes.FormatResults | backend/agent/graph.py:25-30 | the loop builds the bullets of the last 20 results, in order |
| Nodes.FormattedAppend | backend/agent/graph.py:25-30 | formatting `a + b` is formatting `a` followed by formatting `b` |
| Nodes.AnalysisUpdate | backend/agent/graph.py:60-68 | an analyzer writes exactly its own key of the analyses dictionary: the reply, or `Analysis pending...` when the model fails |
| Nodes.AnalyzeNode | backend/agent/graph.py:14-68 | an analyzer asks the model about the last 20 results and the last 10 pages and returns that analysis update |
| Nodes.AnalyzersCommute | backend/agent/state.py:17 | two different analyzers' updates commute |
| Nodes.AnalyzersAnyOrder | backend/agent/graph.py:587-593 | the three analyzers, run in any order, add all three keys and leave the rest of the state as it was |
| Nodes.SynthesizeNode | backend/agent/graph.py:190-220 | the synthesizer returns the existing notes followed by one new note |
| Nodes.SynthesisLayout | backend/agent/graph.py:197-211 | the new note is the facts, trends and insights sections under their headers, in that order; a missing key gives an empty section |
| Nodes.NotesDouble | backend/agent/graph.py:214-218 | once the reducer appends that update, the notes are the old notes twice followed by the synthesis |
| Nodes.ReviewNode | backend/agent/graph.py:442-494 | the review node always sets `is_finished` and increments the iteration; it asks for more research only in the first round when the model answers without saying SUFFICIENT |
| Nodes.InsufficientFinishes | backend/agent/graph.py:485-488 | an answer containing INSUFFICIENT counts as SUFFICIENT, because the test is a substring test |
| Nodes.WriterNode | backend/agent/graph.py:496-565 | the writer sets the report and one past step; the report is the model's reply, or, when the call fails, `# Research Report: <topic>`, a blank line and the notes joined by blank lines |
| Nodes.FallbackKeepsNotes | backend/agent/graph.py:560 | the fallback report contains every research note |
| Workflow.StateGraph.constructor | backend/agent/graph.py:569 | a new graph has no nodes, edges, entry point or branches |
| Workflow.StateGraph.AddNode | backend/agent/graph.py:571-582 | adding a node appends its name and changes nothing else |
| Workflow.StateGraph.AddEdge | backend/agent/graph.py:584-595 | adding an edge appends it and changes nothing else |
| Workflow.StateGraph.SetEntryPoint | backend/agent/graph.py:580 | the entry point becomes the given node |
| Workflow.StateGraph.AddConditionalEdges | backend/agent/graph.py:602-609 | the routing map of the source node becomes the given map |
| Workflow.BuildWorkflow | backend/agent/graph.py:569-611 | the built graph has the nine nodes, the ten fixed edges (the last from writer to END), the planner as entry and the review routes |
| Workflow.GraphShape | backend/agent/graph.py:584-595 | every edge joins declared nodes; planner leads to search and search to scrape; scrape fans out to every analyzer, each analyzer leads to the synthesizer, and the synthesizer to review |
| Workflow.ShouldContinue | backend/agent/graph.py:597-609 | the route is one of the review routes; it is the writer exactly when the state is finished, and the planner otherwise |
| Workflow.CycleFollowsGraph | backend/agent/graph.py:584-609 | consecutive nodes of a cycle are joined by an edge or are sibling analyzers of the same fan-out, and review routes back to the planner |
| Workflow.NotesClosedForm | backend/agent/graph.py:214-218 | after `n` syntheses starting from `k` notes there are `2^n * (k + 1) - 1` notes |
| Workflow.Gather | backend/agent/graph.py:224-356 | planner, search and scrape run in order; the run fails exactly when the planner's model call fails; notes, iteration and analyses are unchanged |
| Workflow.Analyse | backend/agent/graph.py:14-188 | the three analyzers, in the scheduler's order, add all three keys and change nothing else |
| Workflow.Decide | backend/agent/graph.py:190-494 | synthesis and review double the notes plus one, increment the iteration, and continue exactly when the first-round review model answers without SUFFICIENT; the review is given the iteration the synthesis started from |
| Workflow.Cycle | backend/agent/graph.py:569-609 | one cycle visits planner, search, scrape, the analyzers, the synthesizer and review in graph order, with the effects above |
| Workflow.Run | backend/agent/graph.py:569-611 | a run makes at most two cycles, then writes the report (the writer's reply or the fallback); the i-th review is given iteration `init.iteration + i`, so from iteration 0 the review's hard-limit branch is never taken; it fails only when a planner call fails; the final state is all updates applied in order, finished, with all analyses and `2^rounds * (n + 1) - 1` notes |
| Workflow.RunCycles | backend/agent/graph.py:448-494 | the loop stops after at most two cycles, or earlier when review finishes or the planner fails; it lists the iteration each review was given, `init.iteration + i` for the i-th, all below the hard limit of 2 when the run starts from 0 |
| Server.StartResearch | backend/main.py:29-67 | a blank topic is rejected with status 400 and `Topic cannot be empty`; otherwise the state holds the stripped topic and the requested model, `openai/gpt-4o-mini` when the request names none |
| Server.StartedFresh | backend/main.py:56-67 | the initial state has empty lists, an empty report and dictionary, `is_finished` false and iteration 0 |
| Server.EmitNode | backend/main.py:73-154 | the events of one node update are the model's `NodeEvents` |
| Server.PlannerEvents | backend/main.py:75-84 | a planner update yields one `Searching for: <query>` event per query, in order |
| Server.ScrapeEvents | backend/main.py:94-113 | a scrape update yields one `Scraping: <url>` event per URL, or a single `Reading sources...` when there is none |
| Server.StageMessages | backend/main.py:86-146 | search, analyzers, synthesizer and writer send their fixed messages; review sends `✓ Completed: Review` |
| Server.CompleteIff | backend/main.py:148-154 | a node update yields a complete event exactly when it carries a non-empty report |
| Server.EventGenerator | backend/main.py:55-163 | the generated stream is the events of every update in order, followed by one error event when the run fails |
| Server.ErrorLast | backend/main.py:156-163 | an error event occurs only when the run fails, only as the last event, with message `Research error: <message>` |
| Server.ProgressAppend | backend/main.py:71-154 | the events of two update sequences are the events of each in turn |
| Server.FrameShape | backend/main.py:83 | every frame starts with `data: ` and ends with a blank line |
| Server.Research | backend/main.py:41-172 | a blank topic is rejected; otherwise the body is the frames of the generated events, ending with the error event on failure or, on success, with the complete event (or `WRITING` for an empty report) |
| Client.FormatTime | frontend/src/App.tsx:57-61 | the label is `m:ss`: minutes without leading zeros, a colon and two digits below 60, whose values give back the seconds |
| Client.AddQueryAsSet | frontend/src/App.tsx:299 | on a list without duplicates, adding a query appends it exactly when it is new |
| Client.AddSourceKeeps | frontend/src/App.tsx:303-306 | adding a source keeps the old sources first, adds the URL exactly when it is new, and keeps URLs distinct |
| Client.LogsOfLines | frontend/src/App.tsx:288-342 | the log grows by exactly the entries of the handled lines, in order |
| Client.OtherLinesIgnored | frontend/src/App.tsx:289 | lines that do not start with `data: ` change nothing |
| Client.HandleLinesKeeps | frontend/src/App.tsx:288-342 | handling lines keeps queries and source URLs free of duplicates, the current step one of the known labels, and research stopped once a report has arrived |
| Client.FailedStops | frontend/src/App.tsx:344-355 | a failure stops the research and logs the error message last |
| Client.EndedStops | frontend/src/App.tsx:272-279 | once the stream is done the research is stopped; a stream that delivered nothing logs `Stream ended without receiving data` last |
| Client.SessionEnds | frontend/src/App.tsx:233-356 | a submitted session always ends with research stopped; a refused, unreachable, stream-less or broken-off request ends with an error log entry last; a read that fails logs its message last; a stream that ends before any chunk logs `Stream ended without receiving data` last |
| Client.StreamConsumer.constructor | frontend/src/App.tsx:266-268 | a new consumer shows the idle page and has an empty buffer |
| Client.StreamConsumer.Start | frontend/src/App.tsx:235-242 | a blank topic changes nothing; otherwise the page is reset to `Initializing...` with research on |
| Client.StreamConsumer.Receive | frontend/src/App.tsx:283-342 | a chunk marks data received and dispatches exactly the newly completed lines, in order, keeping the last partial line buffered |
| Client.StreamConsumer.ReadMessage | frontend/src/App.tsx:297-314 | an update message adds its query or source and moves the current step |
| Client.StreamConsumer.Dispatch | frontend/src/App.tsx:289-340 | one line changes the page as `HandleLine` describes |
| Client.StreamConsumer.ReadChunks | frontend/src/App.tsx:270-342 | after reading the chunks, whatever their boundaries, the page has handled exactly the complete lines of their concatenation, and data counts as received exactly when there was a chunk |
| Client.StreamConsumer.Consume | frontend/src/App.tsx:270-343 | after the whole stream, the page has handled exactly the complete lines of the concatenated chunks and then the end of the stream |
| Client.StreamConsumer.ConsumeBroken | frontend/src/App.tsx:270-355 | a read that fails after some chunks keeps what their complete lines changed, then stops the research and logs the error message last |
| Client.StreamConsumer.Submit | frontend/src/App.tsx:233-356 | a submission starts exactly when the topic is not blank, and leaves the page as `Session` describes |
| Client.HandleLinesAppend | frontend/src/App.tsx:288-342 | handling `xs + ys` is handling `xs` and then `ys` |
| Protocol.BodyLines | backend/main.py:83 | the complete lines of a streamed body are `data: <json>` and a blank line per event |
| Protocol.StreamedSession | frontend/src/App.tsx:270-343 | whatever chunks the body arrives in, the page ends as if it had handled every event in order from a fresh page |
| Protocol.ReportShown | frontend/src/App.tsx:323-327 | a stream whose last event is complete shows that report, with research stopped |
| Protocol.FailureShown | frontend/src/App.tsx:328-337 | a stream whose last event is an error shows that message as the last log entry, with research stopped |
| Protocol.NoReportShown | frontend/src/App.tsx:273-281 | a stream without a complete event shows no report and ends with research stopped |
| Protocol.QueryShown | frontend/src/App.tsx:297-300 | a `Searching for:` event adds the trimmed query, moves to `Searching...` and logs the event |
| Protocol.SourceShown | frontend/src/App.tsx:301-307 | a `Scraping:` event adds the trimmed URL, moves to `Reading sources...` and logs the event |

## Left out

- Language-model calls (`get_llm`, prompts, `invoke`) are parameters returning a `Reply`, and exceptions are modelled only where the code catches them. backend/agent/utils/llm.py is not part of this model.
- Web search is a parameter from query to results. backend/agent/tools/search.py is not part of this model.
- HTTP fetching and HTML parsing (`requests`, BeautifulSoup, the removal of script, style, nav and footer elements) are left out. `scrape_url` takes the extracted text or the fetch error as input.
- JSON encoding and parsing (`json.dumps`, `json.loads`, `JSON.parse`) are function parameters. `Protocol.Agree` ties the page's parser to the server's encoder. Planner JSON lists are modelled as lists of strings.
- The LangGraph scheduler is replaced by a sequential driver. The three analyzers run in an order chosen by the `Oracles` record, and `Nodes.AnalyzersAnyOrder` shows that the order does not matter.
- `research_node` is never added to the graph, so it is not modelled.
- The command-line entry point (backend/agent/main.py) is not part of this model.
- `upper()` and `title()` are modelled on ASCII letters only. `strip` and `trim` use the full Python and JavaScript whitespace sets.
- Workflow.Run: `get_llm` is assumed not to fail. Only the planner's model call can raise out of a node, and the `except` around a scrape can never trigger because `scrape_url` catches everything.
- Client.StreamConsumer.Receive: bytes are decoded as text (`TextDecoder`); chunks arrive as strings.
- Log ids, timestamps, toasts, timers, the thinking-time counter, React rendering, the PDF export and the copy button are left out.
- Client.Session: the `'Failed to connect to research agent'` message for a non-`Error` exception is not modelled; every failure carries its message.
- Client.StreamConsumer.Consume: a trailing line without a newline at the end of the stream stays in the buffer and is never handled, as in the code.
- FastAPI and CORS plumbing, `/health` and `/` are not modelled.
- Search results are an input keyed by the cycle and the query text, so a query repeated within one planner list gets the same hits each time, while the code calls the search engine once per occurrence.
