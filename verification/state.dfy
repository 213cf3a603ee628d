/**
 * The research record threaded through every stage, and the rule by which a stage's partial
 * update is merged into it: list concatenation for the four audit/accumulation lists, a
 * right-biased dictionary union for the parallel analyses, and overwrite for everything else.
 */
module State {
  import opened Wrappers

  /** One search result: a structured hit (a dict whose keys may be missing), or anything else. */
  datatype Hit =
    | Record(title: Option<string>, snippet: Option<string>, link: Option<string>)
    | Opaque(text: string)

  /** A `{url, title}` descriptor the scraper reports for the progress stream. */
  datatype ScrapedUrl = ScrapedUrl(url: string, title: string)

  /** The full research record. */
  datatype AgentState = AgentState(
    topic: string,
    model: string,
    plan: seq<string>,
    pastSteps: seq<string>,
    searchQueries: seq<string>,
    searchResults: seq<Hit>,
    scrapedContent: seq<string>,
    researchNotes: seq<string>,
    parallelAnalyses: map<string, string>,
    report: string,
    isFinished: bool,
    iteration: nat)

  /**
   * What a stage returns: each key it sets is `Some`. `scrapedUrls` is returned by the scraper
   * and read by the progress stream, but it is not a field of the record, so merging ignores it.
   */
  datatype Update = Update(
    topic: Option<string>,
    model: Option<string>,
    plan: Option<seq<string>>,
    pastSteps: Option<seq<string>>,
    searchQueries: Option<seq<string>>,
    searchResults: Option<seq<Hit>>,
    scrapedContent: Option<seq<string>>,
    researchNotes: Option<seq<string>>,
    parallelAnalyses: Option<map<string, string>>,
    report: Option<string>,
    isFinished: Option<bool>,
    iteration: Option<nat>,
    scrapedUrls: Option<seq<ScrapedUrl>>)

  /** The update that sets no key. */
  const NoUpdate: Update :=
    Update(None, None, None, None, None, None, None, None, None, None, None, None, None)

  /** True when the update sets none of the list-concatenation fields. */
  predicate AppendsNothing(u: Update)
  {
    u.pastSteps.None? && u.searchResults.None? && u.scrapedContent.None? && u.researchNotes.None?
  }

  /** `{**left, **right}`: every key of either side, the right-hand value winning on a clash. */
  function MergeDicts(left: map<string, string>, right: map<string, string>): (m: map<string, string>)
    ensures m.Keys == left.Keys + right.Keys
    ensures forall k :: k in right ==> m[k] == right[k]
    ensures forall k :: k in left && k !in right ==> m[k] == left[k]
  {
    left + right
  }

  /** Merging a map with itself, or with an empty map on either side, changes nothing. */
  lemma MergeDictsNeutral(m: map<string, string>)
    ensures MergeDicts(m, m) == m
    ensures MergeDicts(m, map[]) == m && MergeDicts(map[], m) == m
  {
  }

  /** Two updates with disjoint keys give the same map whichever is merged first. */
  lemma MergeDictsDisjointCommute(m: map<string, string>, x: map<string, string>, y: map<string, string>)
    requires x.Keys !! y.Keys
    ensures MergeDicts(MergeDicts(m, x), y) == MergeDicts(MergeDicts(m, y), x)
  {
  }

  /** Reducer for an un-annotated field: the update's value replaces the current one. */
  function Overwrite<T>(current: T, u: Option<T>): T
  {
    u.GetOr(current)
  }

  /** Reducer for an `operator.add` field: the update's list is concatenated after the current one. */
  function Concat<T>(current: seq<T>, u: Option<seq<T>>): seq<T>
  {
    current + u.GetOr([])
  }

  /** Reducer for the `merge_dicts` field. */
  function Union(current: map<string, string>, u: Option<map<string, string>>): map<string, string>
  {
    if u.Some? then MergeDicts(current, u.value) else current
  }

  /** Merging one stage update into the record, field by field, with each field's reducer. */
  function Apply(s: AgentState, u: Update): AgentState
  {
    AgentState(
      topic := Overwrite(s.topic, u.topic),
      model := Overwrite(s.model, u.model),
      plan := Overwrite(s.plan, u.plan),
      pastSteps := Concat(s.pastSteps, u.pastSteps),
      searchQueries := Overwrite(s.searchQueries, u.searchQueries),
      searchResults := Concat(s.searchResults, u.searchResults),
      scrapedContent := Concat(s.scrapedContent, u.scrapedContent),
      researchNotes := Concat(s.researchNotes, u.researchNotes),
      parallelAnalyses := Union(s.parallelAnalyses, u.parallelAnalyses),
      report := Overwrite(s.report, u.report),
      isFinished := Overwrite(s.isFinished, u.isFinished),
      iteration := Overwrite(s.iteration, u.iteration))
  }

  /** Merging a list of updates in order. */
  function ApplyAll(s: AgentState, us: seq<Update>): AgentState
  {
    if us == [] then s else Apply(ApplyAll(s, us[..|us| - 1]), us[|us| - 1])
  }

  /**
   * The list-concatenation fields: the current list is a prefix of the result, which is longer
   * by exactly the length of the update's list.
   */
  lemma AppendFieldsGrow(s: AgentState, u: Update)
    ensures var t := Apply(s, u);
      && t.pastSteps == s.pastSteps + u.pastSteps.GetOr([])
      && t.searchResults == s.searchResults + u.searchResults.GetOr([])
      && t.scrapedContent == s.scrapedContent + u.scrapedContent.GetOr([])
      && t.researchNotes == s.researchNotes + u.researchNotes.GetOr([])
      && |t.pastSteps| == |s.pastSteps| + |u.pastSteps.GetOr([])|
      && |t.researchNotes| == |s.researchNotes| + |u.researchNotes.GetOr([])|
  {
  }

  /** Applying the same update twice appends its lists twice: there is no de-duplication. */
  lemma AppendTwice(s: AgentState, u: Update)
    ensures var t := Apply(Apply(s, u), u);
      && t.pastSteps == s.pastSteps + u.pastSteps.GetOr([]) + u.pastSteps.GetOr([])
      && t.searchResults == s.searchResults + u.searchResults.GetOr([]) + u.searchResults.GetOr([])
      && t.scrapedContent == s.scrapedContent + u.scrapedContent.GetOr([]) + u.scrapedContent.GetOr([])
      && t.researchNotes == s.researchNotes + u.researchNotes.GetOr([]) + u.researchNotes.GetOr([])
  {
  }

  /** An update that touches only overwrite (or map-union) fields has the same effect applied twice. */
  lemma OverwriteIdempotent(s: AgentState, u: Update)
    requires AppendsNothing(u)
    ensures Apply(Apply(s, u), u) == Apply(s, u)
  {
  }

  /** Fields an update leaves out keep their current value. */
  lemma AbsentFieldsUnchanged(s: AgentState, u: Update)
    ensures u.topic.None? ==> Apply(s, u).topic == s.topic
    ensures u.model.None? ==> Apply(s, u).model == s.model
    ensures u.plan.None? ==> Apply(s, u).plan == s.plan
    ensures u.searchQueries.None? ==> Apply(s, u).searchQueries == s.searchQueries
    ensures u.parallelAnalyses.None? ==> Apply(s, u).parallelAnalyses == s.parallelAnalyses
    ensures u.report.None? ==> Apply(s, u).report == s.report
    ensures u.isFinished.None? ==> Apply(s, u).isFinished == s.isFinished
    ensures u.iteration.None? ==> Apply(s, u).iteration == s.iteration
    ensures Apply(s, NoUpdate) == s
  {
  }

  /** No sequence of merges shortens any list-concatenation field. */
  lemma {:induction false} ApplyAllGrows(s: AgentState, us: seq<Update>)
    ensures var t := ApplyAll(s, us);
      && |t.pastSteps| >= |s.pastSteps| && t.pastSteps[..|s.pastSteps|] == s.pastSteps
      && |t.researchNotes| >= |s.researchNotes| && t.researchNotes[..|s.researchNotes|] == s.researchNotes
      && |t.searchResults| >= |s.searchResults| && t.searchResults[..|s.searchResults|] == s.searchResults
      && |t.scrapedContent| >= |s.scrapedContent| && t.scrapedContent[..|s.scrapedContent|] == s.scrapedContent
  {
    if us != [] {
      ApplyAllGrows(s, us[..|us| - 1]);
    }
  }

  /** Merging one more update after a list of them. */
  lemma ApplyAllSnoc(s: AgentState, us: seq<Update>, u: Update)
    ensures ApplyAll(s, us + [u]) == Apply(ApplyAll(s, us), u)
  {
    assert (us + [u])[..|us|] == us;
  }

  /** Merging two lists of updates one after the other. */
  lemma {:induction false} ApplyAllAppend(s: AgentState, us: seq<Update>, vs: seq<Update>)
    ensures ApplyAll(s, us + vs) == ApplyAll(ApplyAll(s, us), vs)
    decreases |vs|
  {
    if vs == [] {
      assert us + vs == us;
    } else {
      var init, last := vs[..|vs| - 1], vs[|vs| - 1];
      assert us + vs == (us + init) + [last];
      ApplyAllSnoc(s, us + init, last);
      ApplyAllAppend(s, us, init);
      ApplyAllSnoc(ApplyAll(s, us), init, last);
      assert vs == init + [last];
    }
  }
}
