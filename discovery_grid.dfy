/** The data side of `DynamicDiscoveryGrid` (frontend/src/App.js:203-280): grouping results by
    kind, filtering them by the active filters, and counting each group. */
module DiscoveryGrid {

  import opened Collections
  import opened SearchModels

  /** `searchResults` as the client holds it: the parsed `response.data`, or the initial
      placeholder. `results` may be missing from a body, which the grid tolerates. */
  datatype ClientData = ClientData(query: string, totalResults: int, results: Option<seq<SearchResult>>)

  /** `searchResults.results || []`. */
  function ResultList(d: ClientData): seq<SearchResult> {
    if d.results.Some? then d.results.value else []
  }

  /** The client's kind label: only the server's "video" is renamed, to "videos". */
  function NormalisedType(r: SearchResult): string {
    if r.sourceType == "video" then "videos" else r.sourceType
  }

  /** The keys of `grouped`, in the order `Object.entries` lists them. */
  const GroupKeys: seq<string> := ["code", "videos", "papers", "datasets"]

  function HasKind(k: string): SearchResult -> bool {
    (r: SearchResult) => NormalisedType(r) == k
  }

  function Ungrouped(): SearchResult -> bool {
    (r: SearchResult) => NormalisedType(r) !in GroupKeys
  }

  function Group(results: seq<SearchResult>, k: string): seq<SearchResult> {
    Select(results, HasKind(k))
  }

  /** The `grouped` object: one list per key of `GroupKeys`. */
  datatype Groups = Groups(code: seq<SearchResult>, videos: seq<SearchResult>,
                           papers: seq<SearchResult>, datasets: seq<SearchResult>)

  function GroupsOf(results: seq<SearchResult>): Groups {
    Groups(Group(results, "code"), Group(results, "videos"), Group(results, "papers"), Group(results, "datasets"))
  }

  /** `resultsByType` (frontend/src/App.js:207-223): push each result onto the group its
      normalised kind names, if there is one. */
  method ResultsByType(d: ClientData) returns (grouped: Groups)
    ensures grouped == GroupsOf(ResultList(d))
  {
    grouped := Groups([], [], [], []);
    var results := ResultList(d);
    for i := 0 to |results|
      invariant grouped == GroupsOf(results[..i])
    {
      var result := results[i];
      var kind := NormalisedType(result);
      assert results[..i + 1] == results[..i] + [result];
      SelectSnoc(results[..i], result, HasKind("code"));
      SelectSnoc(results[..i], result, HasKind("videos"));
      SelectSnoc(results[..i], result, HasKind("papers"));
      SelectSnoc(results[..i], result, HasKind("datasets"));
      if kind == "code" {
        grouped := grouped.(code := grouped.code + [result]);
      } else if kind == "videos" {
        grouped := grouped.(videos := grouped.videos + [result]);
      } else if kind == "papers" {
        grouped := grouped.(papers := grouped.papers + [result]);
      } else if kind == "datasets" {
        grouped := grouped.(datasets := grouped.datasets + [result]);
      }
    }
    assert results[..|results|] == results;
  }

  /** Each group is the order-preserving selection of the results whose normalised kind is its
      key: every such result appears in it as often as in the results, and no other. */
  lemma GroupIsSelection(results: seq<SearchResult>, k: string, x: SearchResult)
    ensures Subsequence(Group(results, k), results)
    ensures multiset(Group(results, k))[x] == if NormalisedType(x) == k then multiset(results)[x] else 0
  {
    SelectIsSubsequence(results, HasKind(k));
    SelectCount(results, HasKind(k), x);
  }

  /** The server's singular "paper" and "dataset" labels name no group, so such results are in
      none of the four groups. */
  lemma SingularLabelsAreUngrouped(results: seq<SearchResult>, x: SearchResult)
    requires x.sourceType == "paper" || x.sourceType == "dataset"
    ensures forall i :: 0 <= i < |GroupKeys| ==> x !in Group(results, GroupKeys[i])
    ensures Ungrouped()(x)
  {
  }

  datatype TypeCount = TypeCount(kind: string, count: nat)

  /** `totalByType` (frontend/src/App.js:276-280), without the icon. */
  function TotalByType(g: Groups): seq<TypeCount> {
    [TypeCount("code", |g.code|), TypeCount("videos", |g.videos|),
     TypeCount("papers", |g.papers|), TypeCount("datasets", |g.datasets|)]
  }

  function CountSum(counts: seq<TypeCount>): nat {
    if counts == [] then 0 else counts[0].count + CountSum(counts[1..])
  }

  lemma {:induction false} GroupSizesPartition(results: seq<SearchResult>)
    ensures |Group(results, "code")| + |Group(results, "videos")| + |Group(results, "papers")|
          + |Group(results, "datasets")| + |Select(results, Ungrouped())| == |results|
    decreases |results|
  {
    if results != [] {
      var init := results[..|results| - 1];
      GroupSizesPartition(init);
    }
  }

  /** The counts list the four keys in order, each its group's size; together with the
      ungrouped results they account for every result, so they sum to at most `results.length`. */
  lemma TotalsCountGroups(results: seq<SearchResult>)
    ensures var totals := TotalByType(GroupsOf(results));
      |totals| == |GroupKeys|
      && (forall i :: 0 <= i < |totals| ==>
            totals[i].kind == GroupKeys[i] && totals[i].count == |Group(results, GroupKeys[i])|)
      && CountSum(totals) + |Select(results, Ungrouped())| == |results|
      && CountSum(totals) <= |results|
  {
    GroupSizesPartition(results);
    var totals := TotalByType(GroupsOf(results));
    assert CountSum(totals[3..]) == totals[3].count + CountSum([]);
    assert CountSum(totals[2..]) == totals[2].count + CountSum(totals[3..]);
    assert CountSum(totals[1..]) == totals[1].count + CountSum(totals[2..]);
  }

  function MatchesFilters(activeFilters: seq<string>): SearchResult -> bool {
    (r: SearchResult) => NormalisedType(r) in activeFilters
  }

  /** `filteredResults` (frontend/src/App.js:225-234). */
  function FilteredResults(d: ClientData, activeFilters: seq<string>): seq<SearchResult> {
    if "all" in activeFilters || |activeFilters| == 0 then ResultList(d)
    else Select(ResultList(d), MatchesFilters(activeFilters))
  }

  /** With "all" selected, or nothing selected, every result is shown unchanged; otherwise the
      shown results are the order-preserving selection of those whose normalised kind is an
      active filter, each as often as it occurs. */
  lemma FilteredIsSelection(d: ClientData, activeFilters: seq<string>, x: SearchResult)
    ensures "all" in activeFilters || activeFilters == [] ==> FilteredResults(d, activeFilters) == ResultList(d)
    ensures Subsequence(FilteredResults(d, activeFilters), ResultList(d))
    ensures "all" !in activeFilters && activeFilters != [] ==>
      multiset(FilteredResults(d, activeFilters))[x]
        == if NormalisedType(x) in activeFilters then multiset(ResultList(d))[x] else 0
  {
    SelectIsSubsequence(ResultList(d), MatchesFilters(activeFilters));
    SelectCount(ResultList(d), MatchesFilters(activeFilters), x);
    SubsequenceReflexive(ResultList(d));
  }
}
