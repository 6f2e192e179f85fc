/** The client and the server together: the request `handleSearch` sends (frontend/src/App.js:747-754)
    answered by `UniversalSearchOrchestrator.search`, and the answer shown by the discovery grid. */
module EndToEnd {

  import opened Collections
  import opened SearchModels
  import opened Scoring
  import opened Orchestrator
  import opened DiscoveryGrid
  import opened Canvas
  import opened AppState

  /** `response.data` as the client parses it; `results_by_type` is not read by the client. */
  function ToClientData(resp: UniversalSearchResponse): ClientData {
    ClientData(resp.query, resp.totalResults, Some(resp.results))
  }

  /** The `source_type` each service stamps on its results (backend/server.py:103, 128, 167, 214). */
  function ServiceLabel(contentType: string): string {
    if contentType == "code" then "code"
    else if contentType == "videos" then "video"
    else if contentType == "datasets" then "dataset"
    else "paper"
  }

  predicate ServerLabel(s: string) {
    s == "code" || s == "video" || s == "dataset" || s == "paper"
  }

  /** Every service that returned labelled its results as that service does. */
  predicate Labelled(contentTypes: seq<string>, outcomes: seq<ServiceOutcome>)
    requires |outcomes| == |contentTypes|
  {
    forall i :: 0 <= i < |contentTypes| && contentTypes[i] in Services && outcomes[i].Returned? ==>
      forall x :: x in outcomes[i].items ==> x.sourceType == ServiceLabel(contentTypes[i])
  }

  predicate LabelledTasks(tasks: seq<Task>) {
    forall t :: t in tasks ==> forall x :: x in Yield(t.outcome) ==> ServerLabel(x.sourceType)
  }

  lemma DispatchLabelled(contentTypes: seq<string>, outcomes: seq<ServiceOutcome>)
    requires |outcomes| == |contentTypes|
    requires Labelled(contentTypes, outcomes)
    ensures LabelledTasks(Dispatch(contentTypes, outcomes))
  {
    var zip := Zip(contentTypes, outcomes);
    forall t | t in Dispatch(contentTypes, outcomes)
      ensures forall x :: x in Yield(t.outcome) ==> ServerLabel(x.sourceType)
    {
      assert t in zip && t.contentType in Services;
      var i :| 0 <= i < |zip| && zip[i] == t;
      assert t == Task(contentTypes[i], outcomes[i]);
    }
  }

  lemma {:induction false} MergedLabelled(tasks: seq<Task>)
    requires LabelledTasks(tasks)
    ensures forall x :: x in Merged(tasks) ==> ServerLabel(x.sourceType)
    decreases |tasks|
  {
    if tasks != [] {
      var init := tasks[..|tasks| - 1];
      assert LabelledTasks(init) by {
        forall t | t in init ensures t in tasks {
          var j :| 0 <= j < |init| && init[j] == t;
          assert tasks[j] == t;
        }
      }
      MergedLabelled(init);
      assert tasks[|tasks| - 1] in tasks;
    }
  }

  /** Every result the server sends carries one of the four service labels. */
  lemma ResponseLabelled(query: string, contentTypes: seq<string>, limit: int, outcomes: seq<ServiceOutcome>)
    requires |outcomes| == |contentTypes|
    requires Labelled(contentTypes, outcomes)
    requires SearchSpec(query, contentTypes, limit, outcomes).Ok?
    ensures forall x :: x in SearchSpec(query, contentTypes, limit, outcomes).value.results ==> ServerLabel(x.sourceType)
  {
    SearchSpecValue(query, contentTypes, limit, outcomes);
    var tasks := Dispatch(contentTypes, outcomes);
    DispatchLabelled(contentTypes, outcomes);
    MergedLabelled(tasks);
    RankedLabelled(Terms(query), Merged(tasks), limit);
  }

  /** Scoring, sorting and truncating keep every result's label. */
  lemma RankedLabelled(terms: seq<string>, merged: seq<SearchResult>, limit: int)
    requires terms != [] || merged == []
    requires forall x :: x in merged ==> ServerLabel(x.sourceType)
    ensures forall x :: x in PyPrefix(SortDesc(ScoreAll(terms, merged)), limit) ==> ServerLabel(x.sourceType)
  {
    var scored := ScoreAll(terms, merged);
    forall x | x in scored ensures ServerLabel(x.sourceType) {
      var j :| 0 <= j < |scored| && scored[j] == x;
      assert merged[j] in merged;
    }
    var sorted := SortDesc(scored);
    forall x | x in sorted ensures ServerLabel(x.sourceType) {
      assert x in multiset(sorted);
    }
    var results := PyPrefix(sorted, limit);
    forall x | x in results ensures ServerLabel(x.sourceType) {
      assert sorted == results + sorted[|results|..];
      assert x in sorted;
    }
  }

  /** The grid's view of results that carry only service labels. */
  lemma {:induction false} LabelledResultsGrouped(d: ClientData)
    requires forall x :: x in ResultList(d) ==> ServerLabel(x.sourceType)
    ensures var results := ResultList(d);
      var g := GroupsOf(results);
      g.papers == [] && g.datasets == []
      && TotalByType(g)[2].count == 0 && TotalByType(g)[3].count == 0
      && FilteredResults(d, ["papers"]) == [] && FilteredResults(d, ["datasets"]) == []
      && |g.code| + |g.videos| + |Select(results, Ungrouped())| == |results|
  {
    var results := ResultList(d);
    SelectEmpty(results, HasKind("papers"));
    SelectEmpty(results, HasKind("datasets"));
    SelectEmpty(results, MatchesFilters(["papers"]));
    SelectEmpty(results, MatchesFilters(["datasets"]));
    GroupSizesPartition(results);
  }

  /** What the user sees after a search: results labelled "paper" or "dataset" fall in no group, so
      the papers and datasets groups, their counts, and the lists shown for the "papers" and
      "datasets" filters are always empty; at most 50 results arrive, and every one is in the
      code group, the videos group, or neither. */
  lemma PapersAndDatasetsNeverShown(query: string, outcomes: seq<ServiceOutcome>)
    requires |outcomes| == |RequestContentTypes|
    requires Labelled(RequestContentTypes, outcomes)
    requires SearchSpec(query, RequestContentTypes, RequestLimit, outcomes).Ok?
    ensures var d := ToClientData(SearchSpec(query, RequestContentTypes, RequestLimit, outcomes).value);
      var results := ResultList(d);
      var g := GroupsOf(results);
      |results| <= RequestLimit
      && g.papers == [] && g.datasets == []
      && TotalByType(g)[2].count == 0 && TotalByType(g)[3].count == 0
      && FilteredResults(d, ["papers"]) == [] && FilteredResults(d, ["datasets"]) == []
      && |g.code| + |g.videos| + |Select(results, Ungrouped())| == |results|
  {
    var resp := SearchSpec(query, RequestContentTypes, RequestLimit, outcomes).value;
    SearchTruncates(query, RequestContentTypes, RequestLimit, outcomes);
    ResponseLabelled(query, RequestContentTypes, RequestLimit, outcomes);
    LabelledResultsGrouped(ToClientData(resp));
  }

  /** The search box and the scorer disagree on what is blank: the separator '\x1c' survives
      `trim()`, so Enter sends it, but `split()` finds no term in it, so the server fails as soon
      as any service returns a result. */
  lemma BlankQueryGetsThrough(outcomes: seq<ServiceOutcome>)
    requires |outcomes| == |RequestContentTypes|
    requires Merged(Dispatch(RequestContentTypes, outcomes)) != []
    ensures OnKeyPress("Enter", "\U{1C}") == Some("\U{1C}")
    ensures SearchSpec("\U{1C}", RequestContentTypes, RequestLimit, outcomes) == Err(ZeroDivisionError)
  {
    var s := "\U{1C}";
    assert !IsJsSpace(s[0]);
    assert LeadingSpaces(s) == 0;
    assert s[0..] == s;
    assert TrailingSpaces(s) == 0;
    assert Trim(s) == s;
    NoTerms("\U{1C}");
  }
}
