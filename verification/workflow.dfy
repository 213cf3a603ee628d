/**
 * The control graph: which stage follows which, the review loop's routing, and a driver that
 * walks the graph from the entry point to the end, merging each stage's update into the record
 * and recording the stream of (stage, update) pairs a client sees.
 */
module Workflow {
  import opened Wrappers
  import opened State
  import opened Nodes

  /** The stages of the graph. */
  datatype Node = Planner | Search | Scrape | Analyze(analysis: Analysis) | SynthesizeParallel | Review | Writer

  /** The name a stage is registered under. */
  function Name(n: Node): string
  {
    match n
    case Planner => "planner"
    case Search => "search"
    case Scrape => "scrape"
    case Analyze(Facts) => "analyze_facts"
    case Analyze(Trends) => "analyze_trends"
    case Analyze(Insights) => "analyze_insights"
    case SynthesizeParallel => "synthesize_parallel"
    case Review => "review"
    case Writer => "writer"
  }

  /** The name of the end marker. */
  const End: string := "__end__"

  // ---------------------------------------------------------------------------------------------
  // Building the graph
  // ---------------------------------------------------------------------------------------------

  /** A graph under construction: stages, fixed edges, the entry point and routed edges. */
  class StateGraph {
    var nodes: seq<string>
    var edges: seq<(string, string)>
    var entry: Option<string>
    var branches: map<string, map<string, string>>

    /** An empty graph. */
    constructor()
      ensures nodes == [] && edges == [] && entry == None && branches == map[]
    {
      nodes := [];
      edges := [];
      entry := None;
      branches := map[];
    }

    /** `add_node`. */
    method AddNode(name: string)
      modifies this`nodes
      ensures nodes == old(nodes) + [name]
    {
      nodes := nodes + [name];
    }

    /** `add_edge`. */
    method AddEdge(source: string, target: string)
      modifies this`edges
      ensures edges == old(edges) + [(source, target)]
    {
      edges := edges + [(source, target)];
    }

    /** `set_entry_point`. */
    method SetEntryPoint(name: string)
      modifies this`entry
      ensures entry == Some(name)
    {
      entry := Some(name);
    }

    /** `add_conditional_edges`: the routing function's labels mapped to stages. */
    method AddConditionalEdges(source: string, paths: map<string, string>)
      modifies this`branches
      ensures branches == old(branches)[source := paths]
    {
      branches := branches[source := paths];
    }
  }

  /** The stages in registration order. */
  const Stages: seq<Node> :=
    [Planner, Search, Analyze(Facts), Analyze(Trends), Analyze(Insights), SynthesizeParallel, Review, Writer, Scrape]

  /** Where a fixed edge leads: to a stage, or to the end of the run. */
  datatype Target = To(node: Node) | Finish

  /** The name of an edge's target. */
  function TargetName(t: Target): string
  {
    match t
    case To(n) => Name(n)
    case Finish => End
  }

  /** The fixed edges in the order they are added. */
  const Wiring: seq<(Node, Target)> := [
    (Planner, To(Search)),
    (Search, To(Scrape)),
    (Scrape, To(Analyze(Facts))),
    (Scrape, To(Analyze(Trends))),
    (Scrape, To(Analyze(Insights))),
    (Analyze(Facts), To(SynthesizeParallel)),
    (Analyze(Trends), To(SynthesizeParallel)),
    (Analyze(Insights), To(SynthesizeParallel)),
    (SynthesizeParallel, To(Review)),
    (Writer, Finish)]

  /** The review stage's routing table: each label leads to the stage of the same name. */
  const ReviewRoutes: map<string, string> := map["writer" := "writer", "planner" := "planner"]

  /** The names of a sequence of stages. */
  function Names(ns: seq<Node>): (r: seq<string>)
    ensures |r| == |ns| && forall i :: 0 <= i < |ns| ==> r[i] == Name(ns[i])
  {
    seq(|ns|, i requires 0 <= i < |ns| => Name(ns[i]))
  }

  /** The names of a sequence of fixed edges. */
  function EdgeNames(es: seq<(Node, Target)>): (r: seq<(string, string)>)
    ensures |r| == |es| && forall i :: 0 <= i < |es| ==> r[i] == (Name(es[i].0), TargetName(es[i].1))
  {
    seq(|es|, i requires 0 <= i < |es| => (Name(es[i].0), TargetName(es[i].1)))
  }

  /** The graph definition, call by call. */
  method BuildWorkflow() returns (g: StateGraph)
    ensures fresh(g)
    ensures g.nodes == Names(Stages) && g.edges == EdgeNames(Wiring)
    ensures g.entry == Some(Name(Planner)) && g.branches == map[Name(Review) := ReviewRoutes]
  {
    g := new StateGraph();
    AddStages(g);
    AddEdges(g);
    g.AddConditionalEdges(Name(Review), ReviewRoutes);
    g.AddEdge(Name(Writer), End);
    assert g.edges == EdgeNames(Wiring);
  }

  /** The stage registrations and the entry point. */
  method AddStages(g: StateGraph)
    modifies g`nodes, g`entry
    requires g.nodes == [] && g.entry == None
    ensures g.nodes == Names(Stages) && g.entry == Some(Name(Planner))
  {
    g.AddNode(Name(Planner));
    g.AddNode(Name(Search));
    g.AddNode(Name(Analyze(Facts)));
    g.AddNode(Name(Analyze(Trends)));
    g.AddNode(Name(Analyze(Insights)));
    g.AddNode(Name(SynthesizeParallel));
    g.AddNode(Name(Review));
    g.AddNode(Name(Writer));
    g.SetEntryPoint(Name(Planner));
    g.AddNode(Name(Scrape));
    assert g.nodes == Names(Stages);
  }

  /** The fixed edges up to the review stage. */
  method AddEdges(g: StateGraph)
    modifies g`edges
    requires g.edges == []
    ensures g.edges == EdgeNames(Wiring[..9])
  {
    g.AddEdge(Name(Planner), Name(Search));
    g.AddEdge(Name(Search), Name(Scrape));
    g.AddEdge(Name(Scrape), Name(Analyze(Facts)));
    g.AddEdge(Name(Scrape), Name(Analyze(Trends)));
    g.AddEdge(Name(Scrape), Name(Analyze(Insights)));
    g.AddEdge(Name(Analyze(Facts)), Name(SynthesizeParallel));
    g.AddEdge(Name(Analyze(Trends)), Name(SynthesizeParallel));
    g.AddEdge(Name(Analyze(Insights)), Name(SynthesizeParallel));
    g.AddEdge(Name(SynthesizeParallel), Name(Review));
    FixedEdges();
  }

  /** The names of the fixed edges up to the review stage, spelled out in the order they are added. */
  lemma FixedEdges()
    ensures EdgeNames(Wiring[..9]) == [
      (Name(Planner), Name(Search)),
      (Name(Search), Name(Scrape)),
      (Name(Scrape), Name(Analyze(Facts))),
      (Name(Scrape), Name(Analyze(Trends))),
      (Name(Scrape), Name(Analyze(Insights))),
      (Name(Analyze(Facts)), Name(SynthesizeParallel)),
      (Name(Analyze(Trends)), Name(SynthesizeParallel)),
      (Name(Analyze(Insights)), Name(SynthesizeParallel)),
      (Name(SynthesizeParallel), Name(Review))]
  {
  }

  /**
   * What holds of each fixed edge: it leaves a registered stage other than the review and enters
   * one (or ends the run, exactly when it leaves the writer); an edge out of scraping enters an
   * analyzer.
   */
  predicate WellWired(e: (Node, Target))
  {
    && e.0 in Stages && (e.1.To? ==> e.1.node in Stages)
    && e.0 != Review
    && (e.1 == Finish <==> e.0 == Writer)
    && (e.0 == Scrape ==> e.1.To? && e.1.node.Analyze?)
  }

  /** Every fixed edge is well wired. */
  lemma AllWellWired()
    ensures forall i :: 0 <= i < |Wiring| ==> WellWired(Wiring[i])
  {
    forall i | 0 <= i < |Wiring|
      ensures WellWired(Wiring[i])
    {
      assert i in {0, 1, 2, 3, 4, 5, 6, 7, 8, 9};
    }
  }

  /** Scraping fans out to each analyzer, and each analyzer leads to the synthesizer. */
  lemma FanOut(a: Analysis)
    ensures (Scrape, To(Analyze(a))) in Wiring && (Analyze(a), To(SynthesizeParallel)) in Wiring
  {
    match a
    case Facts => assert Wiring[2] == (Scrape, To(Analyze(a))) && Wiring[5] == (Analyze(a), To(SynthesizeParallel));
    case Trends => assert Wiring[3] == (Scrape, To(Analyze(a))) && Wiring[6] == (Analyze(a), To(SynthesizeParallel));
    case Insights => assert Wiring[4] == (Scrape, To(Analyze(a))) && Wiring[7] == (Analyze(a), To(SynthesizeParallel));
  }

  /**
   * The graph's shape: every edge is well wired; the planner leads to search and search to
   * scraping, which fans out to the three analyzers, which all lead to the synthesizer and it to
   * the review.
   */
  lemma GraphShape()
    ensures forall i :: 0 <= i < |Wiring| ==> WellWired(Wiring[i])
    ensures (Planner, To(Search)) in Wiring && (Search, To(Scrape)) in Wiring
    ensures forall a: Analysis :: (Scrape, To(Analyze(a))) in Wiring
    ensures forall a: Analysis :: (Analyze(a), To(SynthesizeParallel)) in Wiring
    ensures (SynthesizeParallel, To(Review)) in Wiring
  {
    AllWellWired();
    forall a: Analysis
      ensures (Scrape, To(Analyze(a))) in Wiring && (Analyze(a), To(SynthesizeParallel)) in Wiring
    {
      FanOut(a);
    }
    assert Wiring[0] == (Planner, To(Search));
    assert Wiring[1] == (Search, To(Scrape));
    assert Wiring[8] == (SynthesizeParallel, To(Review));
  }

  /**
   * Two stages run one after the other in a cycle when a fixed edge joins them, when they are
   * analyzers fanned out from the same scrape, or when the review routes back to the planner.
   */
  predicate Follows(x: Node, y: Node)
  {
    (x, To(y)) in Wiring || (x.Analyze? && y.Analyze?) || (x == Review && y in RouteTargets)
  }

  /** The stages the review routes to. */
  const RouteTargets: set<Node> := {Writer, Planner}

  /** The routing table names exactly the route targets, each label leading to its own stage. */
  lemma RoutesNameTargets()
    ensures ReviewRoutes.Keys == set n | n in RouteTargets :: Name(n)
    ensures forall route :: route in ReviewRoutes ==> ReviewRoutes[route] == route
  {
    assert ReviewRoutes.Keys == {Name(Writer), Name(Planner)};
  }

  /**
   * The driver's cycle walks the graph: each stage is followed by one the graph allows, and the
   * cycle closes through the review's route back to the planner.
   */
  lemma CycleFollowsGraph(t: (Analysis, Analysis, Analysis))
    ensures forall k :: 0 <= k < |CycleNodes(t)| - 1 ==> Follows(CycleNodes(t)[k], CycleNodes(t)[k + 1])
    ensures Follows(CycleNodes(t)[|CycleNodes(t)| - 1], CycleNodes(t)[0])
  {
    var c := CycleNodes(t);
    assert (c[0], To(c[1])) == Wiring[0];
    assert (c[1], To(c[2])) == Wiring[1];
    FanOut(t.0);
    FanOut(t.2);
    assert (c[6], To(c[7])) == Wiring[8];
  }

  /** `should_continue`: a finished record goes to the writer, anything else back to the planner. */
  function ShouldContinue(s: AgentState): (route: string)
    ensures route in ReviewRoutes && ReviewRoutes[route] == route
    ensures route == Name(Writer) <==> s.isFinished
    ensures route == Name(Planner) <==> !s.isFinished
  {
    if s.isFinished then "writer" else "planner"
  }

  // ---------------------------------------------------------------------------------------------
  // Running the graph
  // ---------------------------------------------------------------------------------------------

  /**
   * The outside world for one run, by review cycle: the planner's and the review stage's model replies,
   * the JSON parser, the search engine, the page fetch (by position among the pages), the order in
   * which the three analyzers finish and their replies, and the writer's reply.
   */
  datatype Oracles = Oracles(
    planner: nat -> Reply,
    parse: string -> Parsed,
    search: (nat, string) -> seq<Hit>,
    fetch: (nat, nat, string) -> Result<string, string>,
    order: nat -> (Analysis, Analysis, Analysis),
    analyst: (nat, Analysis, string, string) -> Reply,
    review: nat -> Reply,
    writer: Reply)

  /** Each cycle's analyzers are the three different ones. */
  predicate Permutes(t: (Analysis, Analysis, Analysis))
  {
    t.0 != t.1 && t.1 != t.2 && t.0 != t.2
  }

  /** One streamed event: the stage that ran and the update it returned. */
  datatype Step = Step(node: Node, update: Update)

  /** The stages of a stream, in order. */
  function NodesOf(steps: seq<Step>): seq<Node>
  {
    if steps == [] then [] else NodesOf(steps[..|steps| - 1]) + [steps[|steps| - 1].node]
  }

  /** The updates of a stream, in order. */
  function UpdatesOf(steps: seq<Step>): seq<Update>
  {
    if steps == [] then [] else UpdatesOf(steps[..|steps| - 1]) + [steps[|steps| - 1].update]
  }

  /** Both projections distribute over concatenation. */
  lemma {:induction false} ProjectionsAppend(xs: seq<Step>, ys: seq<Step>)
    ensures NodesOf(xs + ys) == NodesOf(xs) + NodesOf(ys)
    ensures UpdatesOf(xs + ys) == UpdatesOf(xs) + UpdatesOf(ys)
    decreases |ys|
  {
    if ys == [] {
      assert xs + ys == xs;
    } else {
      var init := ys[..|ys| - 1];
      assert (xs + ys)[..|xs + ys| - 1] == xs + init;
      ProjectionsAppend(xs, init);
    }
  }

  /** The stages of one review cycle, with the analyzers in the order they finish. */
  function CycleNodes(t: (Analysis, Analysis, Analysis)): seq<Node>
  {
    [Planner, Search, Scrape, Analyze(t.0), Analyze(t.1), Analyze(t.2), SynthesizeParallel, Review]
  }

  /** The stages of the first `n` cycles. */
  function Cycles(o: Oracles, n: nat): seq<Node>
  {
    if n == 0 then [] else Cycles(o, n - 1) + CycleNodes(o.order(n - 1))
  }

  function Pow2(n: nat): (p: nat)
    ensures p >= 1
  {
    if n == 0 then 1 else 2 * Pow2(n - 1)
  }

  /** The number of notes after `n` syntheses from `k`: each one doubles them and adds one. */
  function NotesAfter(n: nat, k: nat): nat
  {
    if n == 0 then k else 2 * NotesAfter(n - 1, k) + 1
  }

  /** The closed form of the note count: `2^n * (k + 1) - 1`. */
  lemma {:induction false} NotesClosedForm(n: nat, k: nat)
    ensures NotesAfter(n, k) == Pow2(n) * (k + 1) - 1
  {
    if n > 0 {
      NotesClosedForm(n - 1, k);
      assert Pow2(n) * (k + 1) == 2 * (Pow2(n - 1) * (k + 1));
    }
  }

  /** Appending one stage's step to a stream that, merged into `base`, gives `s`. */
  method Push(base: AgentState, steps: seq<Step>, s: AgentState, st: Step) returns (steps': seq<Step>, s': AgentState)
    requires s == ApplyAll(base, UpdatesOf(steps))
    ensures steps' == steps + [st] && s' == Apply(s, st.update)
    ensures s' == ApplyAll(base, UpdatesOf(steps'))
    ensures NodesOf(steps') == NodesOf(steps) + [st.node]
  {
    steps', s' := steps + [st], Apply(s, st.update);
    assert steps'[..|steps|] == steps;
    ApplyAllSnoc(base, UpdatesOf(steps), st.update);
  }

  /** A stream of three steps: its stages, and the record it leaves when merged in order. */
  lemma ThreeSteps(base: AgentState, x: Step, y: Step, z: Step)
    ensures NodesOf([x, y, z]) == [x.node, y.node, z.node]
    ensures ApplyAll(base, UpdatesOf([x, y, z])) == Apply(Apply(Apply(base, x.update), y.update), z.update)
  {
    assert [x][..0] == [] && [x, y][..1] == [x] && [x, y, z][..2] == [x, y];
    assert NodesOf([x]) == [x.node];
    assert NodesOf([x, y]) == [x.node, y.node];
    assert UpdatesOf([x]) == [x.update];
    assert UpdatesOf([x, y]) == [x.update, y.update];
    assert UpdatesOf([x, y, z]) == [x.update] + [y.update] + [z.update];
    ApplyAllSnoc(base, [], x.update);
    ApplyAllSnoc(base, [x.update], y.update);
    ApplyAllSnoc(base, [x.update] + [y.update], z.update);
  }

  /** Concatenating two streams of steps. */
  lemma StepsAppend(base: AgentState, xs: seq<Step>, ys: seq<Step>)
    ensures NodesOf(xs + ys) == NodesOf(xs) + NodesOf(ys)
    ensures ApplyAll(base, UpdatesOf(xs + ys)) == ApplyAll(ApplyAll(base, UpdatesOf(xs)), UpdatesOf(ys))
  {
    ProjectionsAppend(xs, ys);
    ApplyAllAppend(base, UpdatesOf(xs), UpdatesOf(ys));
  }

  /**
   * The first half of a cycle: planner, search and scrape. Fails exactly when the planner's model
   * call raises; otherwise the notes, the analyses, the iteration and the finished flag are as
   * before.
   */
  method Gather(s: AgentState, o: Oracles, cycle: nat) returns (steps: seq<Step>, r: Result<AgentState, string>)
    ensures r.Err? <==> o.planner(cycle).Failure?
    ensures r.Err? ==> r.error == o.planner(cycle).message
    ensures r.Ok? ==> r.value == ApplyAll(s, UpdatesOf(steps))
    ensures r.Ok? ==> NodesOf(steps) == [Planner, Search, Scrape]
    ensures r.Ok? ==> r.value.researchNotes == s.researchNotes
    ensures r.Ok? ==> r.value.iteration == s.iteration && r.value.parallelAnalyses == s.parallelAnalyses
  {
    var planned := PlannerNode(s, o.planner(cycle), o.parse);
    if planned.Err? {
      return [], Err(planned.error);
    }
    var p := planned.value;
    var t := Apply(s, p);
    var u := SearchNode(t.searchQueries, q => o.search(cycle, q));
    t := Apply(t, u);
    var v := ScrapeNode(t.searchResults, (i: nat, url: string) => o.fetch(cycle, i, url));
    t := Apply(t, v);
    steps := [Step(Planner, p), Step(Search, u), Step(Scrape, v)];
    ThreeSteps(s, steps[0], steps[1], steps[2]);
    GatherKeeps(s, p, u, v);
    r := Ok(t);
  }

  /** Planning, searching and scraping leave the notes, the analyses and the iteration alone. */
  lemma GatherKeeps(s: AgentState, p: Update, u: Update, v: Update)
    requires p.researchNotes.None? && p.parallelAnalyses.None? && p.iteration == Some(s.iteration)
    requires u.researchNotes.None? && u.parallelAnalyses.None? && u.iteration.None?
    requires v.researchNotes.None? && v.parallelAnalyses.None? && v.iteration.None?
    ensures var t := Apply(Apply(Apply(s, p), u), v);
      t.researchNotes == s.researchNotes && t.iteration == s.iteration && t.parallelAnalyses == s.parallelAnalyses
  {
  }

  /** What each analyzer is told in a cycle: the latest results and pages of the record it reads. */
  function AnalystReplies(o: Oracles, cycle: nat, s: AgentState): Analysis -> Reply
  {
    x => o.analyst(cycle, x, Formatted(Seqs.Last(s.searchResults, ResultWindow)), PageDigest(s.scrapedContent))
  }

  /**
   * The three analyzers of a cycle, all reading the record as scraping left it and merged in the
   * order they finish: afterwards all three analyses are in the record and nothing else changed.
   */
  method Analyse(s: AgentState, o: Oracles, cycle: nat) returns (steps: seq<Step>, t: AgentState)
    requires Permutes(o.order(cycle))
    ensures t == ApplyAll(s, UpdatesOf(steps))
    ensures NodesOf(steps) == [Analyze(o.order(cycle).0), Analyze(o.order(cycle).1), Analyze(o.order(cycle).2)]
    ensures t == s.(parallelAnalyses := s.parallelAnalyses + AllAnalyses(AnalystReplies(o, cycle, s)))
    ensures t.researchNotes == s.researchNotes && t.iteration == s.iteration
    ensures forall x: Analysis :: Key(x) in t.parallelAnalyses
  {
    var (a, b, c) := o.order(cycle);
    var ask := (x: Analysis, f: string, d: string) => o.analyst(cycle, x, f, d);
    var replies := AnalystReplies(o, cycle, s);
    var ua := AnalyzeNode(a, s, ask);
    var ub := AnalyzeNode(b, s, ask);
    var uc := AnalyzeNode(c, s, ask);
    assert ua == AnalysisUpdate(a, replies(a));
    assert ub == AnalysisUpdate(b, replies(b));
    assert uc == AnalysisUpdate(c, replies(c));
    var sa, sb, sc := Step(Analyze(a), ua), Step(Analyze(b), ub), Step(Analyze(c), uc);
    steps, t := [sa, sb, sc], Apply(Apply(Apply(s, ua), ub), uc);
    ThreeSteps(s, sa, sb, sc);
    AnalyzersAnyOrder(s, a, b, c, replies);
    AllAnalysesKeys(replies);
  }

  /**
   * Synthesis and review: the notes double plus one, the iteration goes up by one, and the
   * research is unfinished only after a first-pass reply that does not say SUFFICIENT. `seen` is
   * the iteration in the record the review stage is given.
   */
  method Decide(s: AgentState, o: Oracles, cycle: nat) returns (steps: seq<Step>, t: AgentState, seen: nat)
    ensures seen == s.iteration
    ensures t == ApplyAll(s, UpdatesOf(steps))
    ensures NodesOf(steps) == [SynthesizeParallel, Review]
    ensures |t.researchNotes| == 2 * |s.researchNotes| + 1
    ensures t.parallelAnalyses == s.parallelAnalyses
    ensures t.iteration == s.iteration + 1
    ensures !t.isFinished <==> s.iteration == 0 && o.review(cycle).Answer? && !SaysSufficient(o.review(cycle).content)
  {
    assert ApplyAll(s, UpdatesOf([])) == s;
    var u := SynthesizeNode(s);
    NotesDouble(s);
    steps, t := Push(s, [], s, Step(SynthesizeParallel, u));
    seen := t.iteration;
    u := ReviewNode(t, o.review(cycle));
    steps, t := Push(s, steps, t, Step(Review, u));
  }

  /**
   * One pass from the planner to the review. It fails exactly when the planner's model call
   * raises; otherwise its steps are the eight stages of a cycle, the notes double plus one, the
   * iteration goes up by one and all three analyses are in the record. The review stage sees
   * the iteration the cycle started with.
   */
  method Cycle(s: AgentState, o: Oracles, cycle: nat) returns (cs: seq<Step>, r: Result<AgentState, string>, seen: nat)
    requires Permutes(o.order(cycle))
    ensures r.Ok? ==> seen == s.iteration
    ensures r.Err? <==> o.planner(cycle).Failure?
    ensures r.Err? ==> r.error == o.planner(cycle).message
    ensures r.Ok? ==> r.value == ApplyAll(s, UpdatesOf(cs))
    ensures r.Ok? ==> NodesOf(cs) == CycleNodes(o.order(cycle))
    ensures r.Ok? ==> |r.value.researchNotes| == 2 * |s.researchNotes| + 1
    ensures r.Ok? ==> r.value.iteration == s.iteration + 1
    ensures r.Ok? ==> (!r.value.isFinished <==>
      s.iteration == 0 && o.review(cycle).Answer? && !SaysSufficient(o.review(cycle).content))
    ensures r.Ok? ==> forall a: Analysis :: Key(a) in r.value.parallelAnalyses
  {
    var first, gathered := Gather(s, o, cycle);
    if gathered.Err? {
      return [], Err(gathered.error), 0;
    }
    var second, analysed := Analyse(gathered.value, o, cycle);
    var third, t;
    third, t, seen := Decide(analysed, o, cycle);
    cs := first + second + third;
    Compose(s, gathered.value, analysed, t, first, second, third, o.order(cycle));
    r := Ok(t);
  }

  /** The three parts of a cycle, one after another, make up the whole cycle. */
  lemma Compose(s: AgentState, g: AgentState, a: AgentState, t: AgentState,
                first: seq<Step>, second: seq<Step>, third: seq<Step>, order: (Analysis, Analysis, Analysis))
    requires g == ApplyAll(s, UpdatesOf(first)) && NodesOf(first) == [Planner, Search, Scrape]
    requires a == ApplyAll(g, UpdatesOf(second)) && NodesOf(second) == [Analyze(order.0), Analyze(order.1), Analyze(order.2)]
    requires t == ApplyAll(a, UpdatesOf(third)) && NodesOf(third) == [SynthesizeParallel, Review]
    ensures t == ApplyAll(s, UpdatesOf(first + second + third))
    ensures NodesOf(first + second + third) == CycleNodes(order)
  {
    var cs := first + second + third;
    assert cs == first + (second + third);
    StepsAppend(g, second, third);
    StepsAppend(s, first, second + third);
    ComposeNodes(NodesOf(first), NodesOf(second), NodesOf(third), order);
  }

  lemma ComposeNodes(x: seq<Node>, y: seq<Node>, z: seq<Node>, order: (Analysis, Analysis, Analysis))
    requires x == [Planner, Search, Scrape]
    requires y == [Analyze(order.0), Analyze(order.1), Analyze(order.2)]
    requires z == [SynthesizeParallel, Review]
    ensures x + (y + z) == CycleNodes(order)
  {
  }

  /**
   * Walks the graph from the planner until the writer has run. The stream of steps, merged into
   * the starting record, gives the final record. Each cycle is planner, search, scrape, the three
   * analyzers, synthesis and review; `rounds` counts the reviews and `reviewed` lists the
   * iteration each of them was given, `init.iteration + i` for the i-th. There are at most two,
   * the writer comes last with the model's report or the fallback, and from iteration 0 every
   * review is given an iteration below the review stage's hard limit. The only way the run fails is a
   * planner model call that raises, which ends the run at that cycle.
   */
  method Run(init: AgentState, o: Oracles)
    returns (steps: seq<Step>, outcome: Result<AgentState, string>, rounds: nat, reviewed: seq<nat>)
    requires forall c :: Permutes(o.order(c))
    ensures rounds <= 2
    ensures |reviewed| == rounds && forall c :: 0 <= c < rounds ==> reviewed[c] == init.iteration + c
    ensures init.iteration == 0 ==> forall c :: 0 <= c < rounds ==> reviewed[c] < MaxIterations
    ensures forall c :: 0 <= c < rounds ==> o.planner(c).Answer?
    ensures outcome.Err? ==> o.planner(rounds).Failure? && outcome.error == o.planner(rounds).message
    ensures outcome.Err? ==> NodesOf(steps) == Cycles(o, rounds)
    ensures outcome.Ok? ==> NodesOf(steps) == Cycles(o, rounds) + [Writer]
    ensures outcome.Ok? ==> rounds >= 1 && outcome.value == ApplyAll(init, UpdatesOf(steps))
    ensures outcome.Ok? ==> outcome.value.isFinished && outcome.value.iteration == init.iteration + rounds
    ensures outcome.Ok? ==>
      |outcome.value.researchNotes| == Pow2(rounds) * (|init.researchNotes| + 1) - 1
    ensures outcome.Ok? ==> forall a: Analysis :: Key(a) in outcome.value.parallelAnalyses
    ensures outcome.Ok? ==> (|steps| >= 1 && steps[|steps| - 1].node == Writer
      && steps[|steps| - 1].update.report == Some(outcome.value.report))
    ensures outcome.Ok? ==> (outcome.value.report ==
      if o.writer.Answer? then o.writer.content else FallbackReport(outcome.value.topic, outcome.value.researchNotes))
  {
    var s, failure;
    steps, s, failure, rounds, reviewed := RunCycles(init, o);
    if failure.Some? {
      outcome := Err(failure.value);
      return;
    }
    steps, s := Write(init, steps, s, o);
    NotesClosedForm(rounds, |init.researchNotes|);
    outcome := Ok(s);
  }

  /**
   * The cycles of a run, up to the review that sends it to the writer or a planner failure.
   * `reviewed` lists the iteration each review was given, in order.
   */
  method RunCycles(init: AgentState, o: Oracles)
    returns (steps: seq<Step>, s: AgentState, failure: Option<string>, rounds: nat, reviewed: seq<nat>)
    requires forall c :: Permutes(o.order(c))
    ensures rounds <= 2
    ensures |reviewed| == rounds && forall c :: 0 <= c < rounds ==> reviewed[c] == init.iteration + c
    ensures init.iteration == 0 ==> forall c :: 0 <= c < rounds ==> reviewed[c] < MaxIterations
    ensures forall c :: 0 <= c < rounds ==> o.planner(c).Answer?
    ensures s == ApplyAll(init, UpdatesOf(steps)) && NodesOf(steps) == Cycles(o, rounds)
    ensures failure.Some? ==> o.planner(rounds).Failure? && failure.value == o.planner(rounds).message
    ensures failure.None? ==> rounds >= 1 && s.isFinished && s.iteration == init.iteration + rounds
    ensures failure.None? ==> |s.researchNotes| == NotesAfter(rounds, |init.researchNotes|)
    ensures failure.None? ==> forall a: Analysis :: Key(a) in s.parallelAnalyses
  {
    s := init;
    steps := [];
    rounds := 0;
    failure := None;
    reviewed := [];
    var finished := false;
    assert ApplyAll(init, UpdatesOf([])) == init;
    while !finished
      invariant rounds <= 2
      invariant |reviewed| == rounds && forall c :: 0 <= c < rounds ==> reviewed[c] == init.iteration + c
      invariant forall c :: 0 <= c < rounds ==> o.planner(c).Answer?
      invariant s == ApplyAll(init, UpdatesOf(steps))
      invariant NodesOf(steps) == Cycles(o, rounds)
      invariant s.iteration == init.iteration + rounds
      invariant |s.researchNotes| == NotesAfter(rounds, |init.researchNotes|)
      invariant !finished ==> rounds == 0 || (rounds == 1 && init.iteration == 0)
      invariant finished ==> rounds >= 1 && s.isFinished
      invariant rounds >= 1 ==> forall a: Analysis :: Key(a) in s.parallelAnalyses
      decreases 2 - rounds
    {
      var more, r, seen := Advance(init, o, steps, s, rounds);
      if r.Err? {
        failure := Some(r.error);
        return;
      }
      forall c | 0 <= c < rounds + 1
        ensures o.planner(c).Answer?
      {
        if c == rounds { assert !o.planner(rounds).Failure?; }
      }
      steps, s := more, r.value;
      reviewed := reviewed + [seen];
      finished := ShouldContinue(s) == Name(Writer);
      rounds := rounds + 1;
    }
  }

  /** One more cycle of the loop, continuing the stream that, merged into `init`, gives `s`. */
  method Advance(init: AgentState, o: Oracles, steps: seq<Step>, s: AgentState, cycle: nat)
    returns (steps': seq<Step>, r: Result<AgentState, string>, seen: nat)
    requires Permutes(o.order(cycle))
    requires s == ApplyAll(init, UpdatesOf(steps)) && NodesOf(steps) == Cycles(o, cycle)
    requires |s.researchNotes| == NotesAfter(cycle, |init.researchNotes|)
    ensures r.Err? <==> o.planner(cycle).Failure?
    ensures r.Err? ==> r.error == o.planner(cycle).message && steps' == steps
    ensures r.Ok? ==> r.value == ApplyAll(init, UpdatesOf(steps')) && NodesOf(steps') == Cycles(o, cycle + 1)
    ensures r.Ok? ==> |r.value.researchNotes| == NotesAfter(cycle + 1, |init.researchNotes|)
    ensures r.Ok? ==> r.value.iteration == s.iteration + 1 && seen == s.iteration
    ensures r.Ok? ==> (!r.value.isFinished <==>
      s.iteration == 0 && o.review(cycle).Answer? && !SaysSufficient(o.review(cycle).content))
    ensures r.Ok? ==> forall a: Analysis :: Key(a) in r.value.parallelAnalyses
  {
    var cs;
    cs, r, seen := Cycle(s, o, cycle);
    if r.Err? {
      return steps, r, seen;
    }
    steps' := steps + cs;
    Extend(init, steps, s, cs, r.value, o, cycle);
  }

  /** A whole cycle appended to the stream of the first `cycle` cycles. */
  lemma Extend(init: AgentState, steps: seq<Step>, s: AgentState, cs: seq<Step>, t: AgentState, o: Oracles, cycle: nat)
    requires s == ApplyAll(init, UpdatesOf(steps)) && NodesOf(steps) == Cycles(o, cycle)
    requires t == ApplyAll(s, UpdatesOf(cs)) && NodesOf(cs) == CycleNodes(o.order(cycle))
    ensures t == ApplyAll(init, UpdatesOf(steps + cs)) && NodesOf(steps + cs) == Cycles(o, cycle + 1)
  {
    StepsAppend(init, steps, cs);
  }

  /** The writer's step closes the stream: its report becomes the outcome's report. */
  method Write(init: AgentState, steps: seq<Step>, s: AgentState, o: Oracles) returns (steps': seq<Step>, s': AgentState)
    requires s == ApplyAll(init, UpdatesOf(steps))
    ensures s' == ApplyAll(init, UpdatesOf(steps'))
    ensures NodesOf(steps') == NodesOf(steps) + [Writer]
    ensures s'.isFinished == s.isFinished && s'.iteration == s.iteration
    ensures s'.researchNotes == s.researchNotes && s'.parallelAnalyses == s.parallelAnalyses
    ensures |steps'| >= 1 && steps'[|steps'| - 1].node == Writer
    ensures steps'[|steps'| - 1].update.report == Some(s'.report)
    ensures s'.topic == s.topic
    ensures s'.report == if o.writer.Answer? then o.writer.content else FallbackReport(s.topic, s.researchNotes)
  {
    var u := WriterNode(s, o.writer);
    steps', s' := Push(init, steps, s, Step(Writer, u));
  }
}
