/** `UniversalSearchOrchestrator.search` (backend/server.py:229-273): dispatch the recognised
    content types, merge the per-service lists, score every result, rank and truncate. */
module Orchestrator {

  import opened Collections
  import opened PyText
  import opened SearchModels
  import opened Scoring

  /** The keys of `self.services` (backend/server.py:231-236). */
  const Services: set<string> := {"code", "videos", "datasets", "papers"}

  /** What awaiting one service's task gives: its result list, or an exception. */
  datatype ServiceOutcome = Returned(items: seq<SearchResult>) | Raised

  /** One entry of `tasks`: a recognised content type and the outcome of its service call. */
  datatype Task = Task(contentType: string, outcome: ServiceOutcome)

  /** The list a task contributes; a task that raised is recorded as `[]`. */
  function Yield(o: ServiceOutcome): seq<SearchResult> {
    if o.Returned? then o.items else []
  }

  /** Pairs each requested content type with the outcome its service call would have. */
  function Zip(contentTypes: seq<string>, outcomes: seq<ServiceOutcome>): seq<Task>
    requires |outcomes| == |contentTypes|
  {
    seq(|contentTypes|, i requires 0 <= i < |contentTypes| => Task(contentTypes[i], outcomes[i]))
  }

  function Recognised(): Task -> bool {
    (t: Task) => t.contentType in Services
  }

  /** The `tasks` list built at backend/server.py:242-246. */
  function Dispatch(contentTypes: seq<string>, outcomes: seq<ServiceOutcome>): seq<Task>
    requires |outcomes| == |contentTypes|
  {
    Select(Zip(contentTypes, outcomes), Recognised())
  }

  /** `all_results` after backend/server.py:252-259. */
  function Merged(tasks: seq<Task>): seq<SearchResult> {
    if tasks == [] then []
    else Merged(tasks[..|tasks| - 1]) + Yield(tasks[|tasks| - 1].outcome)
  }

  /** `results_by_type` after backend/server.py:252-259: a later task of one type overwrites an
      earlier one. */
  function ByType(tasks: seq<Task>): map<string, seq<SearchResult>> {
    if tasks == [] then map[]
    else
      var t := tasks[|tasks| - 1];
      ByType(tasks[..|tasks| - 1])[t.contentType := Yield(t.outcome)]
  }

  function Scored(terms: seq<string>, r: SearchResult): SearchResult
    requires terms != []
  {
    r.(relevanceScore := Score(terms, r))
  }

  function ScoreAll(terms: seq<string>, xs: seq<SearchResult>): seq<SearchResult>
    requires terms != [] || xs == []
  {
    seq(|xs|, i requires 0 <= i < |xs| => Scored(terms, xs[i]))
  }

  function ScoreValues(terms: seq<string>, m: map<string, seq<SearchResult>>): map<string, seq<SearchResult>>
    requires forall k :: k in m ==> terms != [] || m[k] == []
  {
    map k | k in m :: ScoreAll(terms, m[k])
  }

  /** Places `x` before the first element of the non-increasing `ys` that does not score higher. */
  function Insert(x: SearchResult, ys: seq<SearchResult>): (r: seq<SearchResult>)
    ensures multiset(r) == multiset(ys) + multiset{x}
  {
    if ys == [] || x.relevanceScore >= ys[0].relevanceScore then [x] + ys
    else
      assert ys == [ys[0]] + ys[1..];
      [ys[0]] + Insert(x, ys[1..])
  }

  /** `list.sort(key=lambda x: x.relevance_score, reverse=True)`: a stable sort, highest first. */
  function SortDesc(xs: seq<SearchResult>): (r: seq<SearchResult>)
    ensures multiset(r) == multiset(xs)
  {
    if xs == [] then []
    else
      assert xs == [xs[0]] + xs[1..];
      Insert(xs[0], SortDesc(xs[1..]))
  }

  predicate NonIncreasing(xs: seq<SearchResult>) {
    forall i, j :: 0 <= i < j < |xs| ==> xs[i].relevanceScore >= xs[j].relevanceScore
  }

  function ScoreIs(v: real): SearchResult -> bool {
    (r: SearchResult) => r.relevanceScore == v
  }

  /** Python's `xs[:limit]`; a negative `limit` counts from the end. */
  function PyPrefix<T>(xs: seq<T>, limit: int): (r: seq<T>)
    ensures |r| <= |xs| && xs == r + xs[|r|..]
  {
    if limit >= 0 then xs[..if limit < |xs| then limit else |xs|]
    else xs[..if |xs| + limit > 0 then |xs| + limit else 0]
  }

  /** What `search(query, content_types, limit)` returns (or raises) when the services' calls
      have the given outcomes. */
  function SearchSpec(query: string, contentTypes: seq<string>, limit: int, outcomes: seq<ServiceOutcome>)
    : Result<UniversalSearchResponse, SearchError>
    requires |outcomes| == |contentTypes|
  {
    var tasks := Dispatch(contentTypes, outcomes);
    var merged := Merged(tasks);
    var terms := Terms(query);
    if merged != [] && terms == [] then Err(ZeroDivisionError)
    else
      ByTypeWithinMerged(tasks);
      Ok(UniversalSearchResponse(
        query, |merged|, PyPrefix(SortDesc(ScoreAll(terms, merged)), limit),
        ScoreValues(terms, ByType(tasks))))
  }

  /** backend/server.py:238-273. Each loop of the original is one of the methods below. */
  method Search(query: string, contentTypes: seq<string>, limit: int, outcomes: seq<ServiceOutcome>)
    returns (response: Result<UniversalSearchResponse, SearchError>)
    requires |outcomes| == |contentTypes|
    ensures response == SearchSpec(query, contentTypes, limit, outcomes)
  {
    var tasks := CollectTasks(contentTypes, outcomes);
    var resultsByType, allResults := AwaitTasks(tasks);
    var scored := ScoreInPlace(query, allResults);
    SearchSpecValue(query, contentTypes, limit, outcomes);
    if scored.Err? {
      return Err(scored.error);
    }
    allResults := scored.value;
    var terms := Terms(query);
    // results_by_type holds the very objects that were scored in place.
    ByTypeWithinMerged(tasks);
    resultsByType := ScoreValues(terms, resultsByType);
    allResults := SortDesc(allResults);
    assert |allResults| == |Merged(tasks)| by {
      assert |multiset(allResults)| == |multiset(ScoreAll(terms, Merged(tasks)))|;
    }
    response := Ok(UniversalSearchResponse(query, |allResults|, PyPrefix(allResults, limit), resultsByType));
  }

  /** backend/server.py:240-246: one task per recognised content type, in request order. */
  method CollectTasks(contentTypes: seq<string>, outcomes: seq<ServiceOutcome>) returns (tasks: seq<Task>)
    requires |outcomes| == |contentTypes|
    ensures tasks == Dispatch(contentTypes, outcomes)
  {
    tasks := [];
    for i := 0 to |contentTypes|
      invariant tasks == Dispatch(contentTypes[..i], outcomes[..i])
    {
      var task := Task(contentTypes[i], outcomes[i]);
      assert Zip(contentTypes[..i + 1], outcomes[..i + 1]) == Zip(contentTypes[..i], outcomes[..i]) + [task];
      SelectSnoc(Zip(contentTypes[..i], outcomes[..i]), task, Recognised());
      if contentTypes[i] in Services {
        tasks := tasks + [task];
      }
    }
    assert contentTypes[..|contentTypes|] == contentTypes && outcomes[..|outcomes|] == outcomes;
  }

  /** backend/server.py:249-259: await each task, record its list per type and extend the merged list. */
  method AwaitTasks(tasks: seq<Task>) returns (resultsByType: map<string, seq<SearchResult>>, allResults: seq<SearchResult>)
    ensures resultsByType == ByType(tasks)
    ensures allResults == Merged(tasks)
  {
    resultsByType, allResults := map[], [];
    for i := 0 to |tasks|
      invariant resultsByType == ByType(tasks[..i])
      invariant allResults == Merged(tasks[..i])
    {
      assert tasks[..i + 1][..i] == tasks[..i];
      match tasks[i].outcome {
        case Returned(items) =>
          resultsByType := resultsByType[tasks[i].contentType := items];
          allResults := allResults + items;
        case Raised =>
          resultsByType := resultsByType[tasks[i].contentType := []];
      }
    }
    assert tasks[..|tasks|] == tasks;
  }

  /** backend/server.py:262-263: overwrite each result's score; the first division by zero escapes. */
  method ScoreInPlace(query: string, merged: seq<SearchResult>) returns (scored: Result<seq<SearchResult>, SearchError>)
    ensures scored.Err? <==> merged != [] && Terms(query) == []
    ensures scored.Err? ==> scored.error == ZeroDivisionError
    ensures scored.Ok? ==> (Terms(query) != [] || merged == []) && scored.value == ScoreAll(Terms(query), merged)
  {
    var allResults := merged;
    for i := 0 to |allResults|
      invariant |allResults| == |merged|
      invariant i > 0 ==> Terms(query) != []
      invariant forall j :: 0 <= j < i ==> allResults[j] == Scored(Terms(query), merged[j])
      invariant forall j :: i <= j < |merged| ==> allResults[j] == merged[j]
    {
      var score := Relevance(query, allResults[i]);
      if score.Err? {
        return Err(score.error);
      }
      allResults := allResults[i := allResults[i].(relevanceScore := score.value)];
    }
    return Ok(allResults);
  }

  /** `SearchSpec` unfolded into its two outcomes. */
  lemma SearchSpecValue(query: string, contentTypes: seq<string>, limit: int, outcomes: seq<ServiceOutcome>)
    requires |outcomes| == |contentTypes|
    ensures var tasks := Dispatch(contentTypes, outcomes);
      var merged := Merged(tasks);
      var terms := Terms(query);
      var r := SearchSpec(query, contentTypes, limit, outcomes);
      (r.Err? <==> merged != [] && terms == [])
      && (r.Err? ==> r.error == ZeroDivisionError)
      && (r.Ok? ==> (terms != [] || merged == [])
                    && (forall k :: k in ByType(tasks) ==> terms != [] || ByType(tasks)[k] == [])
                    && r.value == UniversalSearchResponse(query, |merged|, PyPrefix(SortDesc(ScoreAll(terms, merged)), limit),
                                                       ScoreValues(terms, ByType(tasks))))
  {
    ByTypeWithinMerged(Dispatch(contentTypes, outcomes));
  }

  /** Every per-type list is drawn from the merged list. */
  lemma {:induction false} ByTypeWithinMerged(tasks: seq<Task>)
    ensures forall k :: k in ByType(tasks) ==> multiset(ByType(tasks)[k]) <= multiset(Merged(tasks))
    ensures Merged(tasks) == [] ==> forall k :: k in ByType(tasks) ==> ByType(tasks)[k] == []
    decreases |tasks|
  {
    if tasks != [] {
      var init := tasks[..|tasks| - 1];
      ByTypeWithinMerged(init);
      assert multiset(Merged(tasks)) == multiset(Merged(init)) + multiset(Yield(tasks[|tasks| - 1].outcome));
    }
    if Merged(tasks) == [] {
      forall k | k in ByType(tasks) ensures ByType(tasks)[k] == [] {
        assert multiset(ByType(tasks)[k]) == multiset{};
      }
    }
  }

  lemma {:induction false} MergedConcat(a: seq<Task>, b: seq<Task>)
    ensures Merged(a + b) == Merged(a) + Merged(b)
    decreases |b|
  {
    if b != [] {
      var b' := b[..|b| - 1];
      assert (a + b)[..|a + b| - 1] == a + b';
      MergedConcat(a, b');
    } else {
      assert a + b == a;
    }
  }

  /** Tasks for `contentTypes + [c]`: those for `contentTypes`, then one for `c` if it is recognised. */
  lemma DispatchSnoc(contentTypes: seq<string>, outcomes: seq<ServiceOutcome>, c: string, o: ServiceOutcome)
    requires |outcomes| == |contentTypes|
    ensures Dispatch(contentTypes + [c], outcomes + [o])
         == Dispatch(contentTypes, outcomes) + (if c in Services then [Task(c, o)] else [])
  {
    assert Zip(contentTypes + [c], outcomes + [o]) == Zip(contentTypes, outcomes) + [Task(c, o)];
    SelectSnoc(Zip(contentTypes, outcomes), Task(c, o), Recognised());
  }

  /** Requesting one more content type appends that type's results to the merged list when it
      is recognised and its service returned; an unrecognised type, or a service that raised,
      adds nothing. So the merged list is the concatenation, in request order, of the recognised
      types' results, and a type listed twice contributes twice. */
  lemma MergedSnoc(contentTypes: seq<string>, outcomes: seq<ServiceOutcome>, c: string, o: ServiceOutcome)
    requires |outcomes| == |contentTypes|
    ensures Merged(Dispatch(contentTypes + [c], outcomes + [o]))
         == Merged(Dispatch(contentTypes, outcomes)) + (if c in Services && o.Returned? then o.items else [])
  {
    DispatchSnoc(contentTypes, outcomes, c, o);
    MergedConcat(Dispatch(contentTypes, outcomes), if c in Services then [Task(c, o)] else []);
    assert Merged([Task(c, o)]) == Merged([]) + Yield(o);
  }

  /** Requesting one more recognised type (re)sets only that type's entry: to its results, or to
      `[]` if its service raised. An unrecognised type changes nothing. */
  lemma ByTypeSnoc(contentTypes: seq<string>, outcomes: seq<ServiceOutcome>, c: string, o: ServiceOutcome)
    requires |outcomes| == |contentTypes|
    ensures ByType(Dispatch(contentTypes + [c], outcomes + [o]))
         == if c in Services then ByType(Dispatch(contentTypes, outcomes))[c := Yield(o)]
            else ByType(Dispatch(contentTypes, outcomes))
  {
    DispatchSnoc(contentTypes, outcomes, c, o);
    var d := Dispatch(contentTypes, outcomes);
    if c in Services {
      assert (d + [Task(c, o)])[..|d|] == d;
    } else {
      assert d + [] == d;
    }
  }

  /** `results_by_type` has a key for exactly the recognised requested types. */
  lemma {:induction false} ByTypeKeys(contentTypes: seq<string>, outcomes: seq<ServiceOutcome>)
    requires |outcomes| == |contentTypes|
    ensures ByType(Dispatch(contentTypes, outcomes)).Keys
         == set i | 0 <= i < |contentTypes| && contentTypes[i] in Services :: contentTypes[i]
    decreases |contentTypes|
  {
    if contentTypes != [] {
      var n := |contentTypes| - 1;
      var ct', o' := contentTypes[..n], outcomes[..n];
      assert contentTypes == ct' + [contentTypes[n]] && outcomes == o' + [outcomes[n]];
      ByTypeKeys(ct', o');
      ByTypeSnoc(ct', o', contentTypes[n], outcomes[n]);
      var wanted := set i | 0 <= i < |contentTypes| && contentTypes[i] in Services :: contentTypes[i];
      var wanted' := set i | 0 <= i < n && ct'[i] in Services :: ct'[i];
      assert wanted == wanted' + (if contentTypes[n] in Services then {contentTypes[n]} else {}) by {
        forall k | k in wanted ensures k in wanted' + (if contentTypes[n] in Services then {contentTypes[n]} else {}) {
          var i :| 0 <= i < |contentTypes| && contentTypes[i] in Services && contentTypes[i] == k;
          if i < n {
            assert ct'[i] == k;
          }
        }
        forall k | k in wanted' ensures k in wanted {
          var i :| 0 <= i < n && ct'[i] in Services && ct'[i] == k;
          assert contentTypes[i] == k;
        }
      }
    }
  }

  /** The entry of a type is the outcome of its LAST task. */
  lemma {:induction false} ByTypeLastWins(tasks: seq<Task>, i: nat)
    requires i < |tasks|
    requires forall j :: i < j < |tasks| ==> tasks[j].contentType != tasks[i].contentType
    ensures tasks[i].contentType in ByType(tasks)
    ensures ByType(tasks)[tasks[i].contentType] == Yield(tasks[i].outcome)
    decreases |tasks|
  {
    if i < |tasks| - 1 {
      var t' := tasks[..|tasks| - 1];
      assert t'[i] == tasks[i];
      ByTypeLastWins(t', i);
    }
  }

  lemma {:induction false} InsertOrdered(x: SearchResult, ys: seq<SearchResult>)
    requires NonIncreasing(ys)
    ensures NonIncreasing(Insert(x, ys))
    decreases |ys|
  {
    if ys != [] && x.relevanceScore < ys[0].relevanceScore {
      var ys' := ys[1..];
      assert NonIncreasing(ys');
      InsertOrdered(x, ys');
      InsertBounded(x, ys', ys[0].relevanceScore);
      ConsOrdered(ys[0], Insert(x, ys'));
    }
  }

  /** Inserting an element no higher than a bound into a list no higher than it stays below it. */
  lemma InsertBounded(x: SearchResult, ys: seq<SearchResult>, b: real)
    requires x.relevanceScore <= b && forall z :: z in ys ==> z.relevanceScore <= b
    ensures forall z :: z in Insert(x, ys) ==> z.relevanceScore <= b
  {
    forall z | z in Insert(x, ys) ensures z.relevanceScore <= b {
      assert z in multiset(Insert(x, ys));
      assert z == x || z in multiset(ys);
    }
  }

  lemma ConsOrdered(h: SearchResult, tail: seq<SearchResult>)
    requires NonIncreasing(tail) && forall z :: z in tail ==> z.relevanceScore <= h.relevanceScore
    ensures NonIncreasing([h] + tail)
  {
    var r := [h] + tail;
    forall i, j | 0 <= i < j < |r| ensures r[i].relevanceScore >= r[j].relevanceScore {
      if i == 0 {
        assert r[j] == tail[j - 1];
      } else {
        assert r[i] == tail[i - 1] && r[j] == tail[j - 1];
      }
    }
  }


  /** The ranking is in non-increasing order of relevance. */
  lemma {:induction false} SortDescOrdered(xs: seq<SearchResult>)
    ensures NonIncreasing(SortDesc(xs))
    decreases |xs|
  {
    if xs != [] {
      SortDescOrdered(xs[1..]);
      InsertOrdered(xs[0], SortDesc(xs[1..]));
    }
  }

  lemma SelectCons<T>(x: T, s: seq<T>, p: T -> bool)
    ensures Select([x] + s, p) == (if p(x) then [x] else []) + Select(s, p)
  {
    SelectConcat([x], s, p);
    assert [x] == [] + [x];
    SelectSnoc([], x, p);
  }

  lemma {:induction false} InsertStable(x: SearchResult, ys: seq<SearchResult>, v: real)
    requires NonIncreasing(ys)
    ensures Select(Insert(x, ys), ScoreIs(v)) == (if x.relevanceScore == v then [x] else []) + Select(ys, ScoreIs(v))
    decreases |ys|
  {
    if ys == [] || x.relevanceScore >= ys[0].relevanceScore {
      SelectCons(x, ys, ScoreIs(v));
    } else {
      var ys' := ys[1..];
      var hx := if x.relevanceScore == v then [x] else [];
      var hy := if ys[0].relevanceScore == v then [ys[0]] else [];
      assert NonIncreasing(ys');
      calc {
        Select(Insert(x, ys), ScoreIs(v));
        Select([ys[0]] + Insert(x, ys'), ScoreIs(v));
        { SelectCons(ys[0], Insert(x, ys'), ScoreIs(v)); }
        hy + Select(Insert(x, ys'), ScoreIs(v));
        { InsertStable(x, ys', v); }
        hy + (hx + Select(ys', ScoreIs(v)));
        { assert hy == [] || hx == []; }
        hx + (hy + Select(ys', ScoreIs(v)));
        { SelectCons(ys[0], ys', ScoreIs(v)); }
        hx + Select([ys[0]] + ys', ScoreIs(v));
        { assert ys == [ys[0]] + ys'; }
        hx + Select(ys, ScoreIs(v));
      }
    }
  }

  /** Python's sort is stable: results with equal scores keep their merged order. */
  lemma {:induction false} SortDescStable(xs: seq<SearchResult>, v: real)
    ensures Select(SortDesc(xs), ScoreIs(v)) == Select(xs, ScoreIs(v))
    decreases |xs|
  {
    if xs != [] {
      var t := xs[1..];
      var sorted := SortDesc(t);
      var head := if xs[0].relevanceScore == v then [xs[0]] else [];
      calc {
        Select(SortDesc(xs), ScoreIs(v));
        Select(Insert(xs[0], sorted), ScoreIs(v));
        { SortDescOrdered(t); InsertStable(xs[0], sorted, v); }
        head + Select(sorted, ScoreIs(v));
        { SortDescStable(t, v); }
        head + Select(t, ScoreIs(v));
        { SelectCons(xs[0], t, ScoreIs(v)); }
        Select([xs[0]] + t, ScoreIs(v));
        { assert xs == [xs[0]] + t; }
        Select(xs, ScoreIs(v));
      }
    }
  }

  /** A response that was produced echoes the query, counts the merged list before truncation,
      and holds the first `limit` ranked results. */
  lemma SearchTruncates(query: string, contentTypes: seq<string>, limit: int, outcomes: seq<ServiceOutcome>)
    requires |outcomes| == |contentTypes|
    requires SearchSpec(query, contentTypes, limit, outcomes).Ok?
    ensures var r := SearchSpec(query, contentTypes, limit, outcomes).value;
      r.query == query
      && r.totalResults == |Merged(Dispatch(contentTypes, outcomes))|
      && (limit >= 0 ==> |r.results| == if limit < r.totalResults then limit else r.totalResults)
      && (limit < 0 ==> |r.results| == if r.totalResults + limit > 0 then r.totalResults + limit else 0)
  {
    var merged := Merged(Dispatch(contentTypes, outcomes));
    var terms := Terms(query);
    assert |SortDesc(ScoreAll(terms, merged))| == |merged| by {
      assert |multiset(SortDesc(ScoreAll(terms, merged)))| == |multiset(ScoreAll(terms, merged))|;
    }
  }

  /** The response ranks the scored merged results highest first, keeps merged order among equal
      scores, and holds each of them exactly once when nothing is cut off; when the limit cuts,
      nothing cut off scores above anything kept, and of each score the first ones are kept. */
  lemma SearchRanks(query: string, contentTypes: seq<string>, limit: int, outcomes: seq<ServiceOutcome>, v: real)
    requires |outcomes| == |contentTypes|
    requires SearchSpec(query, contentTypes, limit, outcomes).Ok?
    ensures Terms(query) != [] || Merged(Dispatch(contentTypes, outcomes)) == []
    ensures NonIncreasing(SearchSpec(query, contentTypes, limit, outcomes).value.results)
    ensures
      var r := SearchSpec(query, contentTypes, limit, outcomes).value;
      var scored := ScoreAll(Terms(query), Merged(Dispatch(contentTypes, outcomes)));
      multiset(r.results) <= multiset(scored)
      && (limit >= |scored| ==> multiset(r.results) == multiset(scored))
    ensures
      var r := SearchSpec(query, contentTypes, limit, outcomes).value;
      var scored := ScoreAll(Terms(query), Merged(Dispatch(contentTypes, outcomes)));
      limit >= |scored| ==> Select(r.results, ScoreIs(v)) == Select(scored, ScoreIs(v))
    ensures
      var r := SearchSpec(query, contentTypes, limit, outcomes).value;
      var scored := ScoreAll(Terms(query), Merged(Dispatch(contentTypes, outcomes)));
      forall x, y :: x in r.results && y in multiset(scored) - multiset(r.results)
        ==> x.relevanceScore >= y.relevanceScore
    ensures
      var r := SearchSpec(query, contentTypes, limit, outcomes).value;
      var scored := ScoreAll(Terms(query), Merged(Dispatch(contentTypes, outcomes)));
      var kept := Select(r.results, ScoreIs(v));
      |kept| <= |Select(scored, ScoreIs(v))| && kept == Select(scored, ScoreIs(v))[..|kept|]
  {
    SearchSpecValue(query, contentTypes, limit, outcomes);
    var merged := Merged(Dispatch(contentTypes, outcomes));
    RankedPrefix(ScoreAll(Terms(query), merged), limit, v);
  }

  /** Sorting and then taking `xs[:limit]` keeps a non-increasing selection of the best results:
      everything when nothing is cut off, and otherwise the first results of each score. */
  lemma RankedPrefix(scored: seq<SearchResult>, limit: int, v: real)
    ensures NonIncreasing(PyPrefix(SortDesc(scored), limit))
    ensures multiset(PyPrefix(SortDesc(scored), limit)) <= multiset(scored)
    ensures limit >= |scored| ==> multiset(PyPrefix(SortDesc(scored), limit)) == multiset(scored)
    ensures limit >= |scored| ==> Select(PyPrefix(SortDesc(scored), limit), ScoreIs(v)) == Select(scored, ScoreIs(v))
    ensures forall x, y :: x in PyPrefix(SortDesc(scored), limit)
              && y in multiset(scored) - multiset(PyPrefix(SortDesc(scored), limit))
              ==> x.relevanceScore >= y.relevanceScore
    ensures var kept := Select(PyPrefix(SortDesc(scored), limit), ScoreIs(v));
      |kept| <= |Select(scored, ScoreIs(v))| && kept == Select(scored, ScoreIs(v))[..|kept|]
  {
    var sorted := SortDesc(scored);
    SortDescOrdered(scored);
    SortDescStable(scored, v);
    var results := PyPrefix(sorted, limit);
    assert |sorted| == |scored| by {
      assert |multiset(sorted)| == |multiset(scored)|;
    }
    assert multiset(sorted) == multiset(results) + multiset(sorted[|results|..]);
    assert results == sorted[..|results|];
    PrefixKeepsBest(sorted, |results|, v);
    assert NonIncreasing(results) by {
      forall i, j | 0 <= i < j < |results| ensures results[i].relevanceScore >= results[j].relevanceScore {
        assert results[i] == sorted[i] && results[j] == sorted[j];
      }
    }
    if limit >= |scored| {
      assert results == sorted;
    }
  }

  /** A prefix of a non-increasing list holds its best elements: nothing left out scores higher
      than anything kept, and of the elements with one score it keeps the first ones. */
  lemma PrefixKeepsBest(sorted: seq<SearchResult>, k: nat, v: real)
    requires NonIncreasing(sorted) && k <= |sorted|
    ensures forall x, y :: x in sorted[..k] && y in multiset(sorted) - multiset(sorted[..k])
              ==> x.relevanceScore >= y.relevanceScore
    ensures |Select(sorted[..k], ScoreIs(v))| <= |Select(sorted, ScoreIs(v))|
    ensures Select(sorted[..k], ScoreIs(v)) == Select(sorted, ScoreIs(v))[..|Select(sorted[..k], ScoreIs(v))|]
  {
    PrefixDominates(sorted, k);
    assert sorted == sorted[..k] + sorted[k..];
    SelectConcat(sorted[..k], sorted[k..], ScoreIs(v));
  }

  /** Nothing a prefix of a non-increasing list leaves out scores higher than what it keeps. */
  lemma PrefixDominates(sorted: seq<SearchResult>, k: nat)
    requires NonIncreasing(sorted) && k <= |sorted|
    ensures forall x, y :: x in sorted[..k] && y in multiset(sorted) - multiset(sorted[..k])
              ==> x.relevanceScore >= y.relevanceScore
  {
    var r, rest := sorted[..k], sorted[k..];
    assert sorted == r + rest;
    assert multiset(sorted) - multiset(r) == multiset(rest);
    forall x, y | x in r && y in multiset(sorted) - multiset(r)
      ensures x.relevanceScore >= y.relevanceScore
    {
      var i :| 0 <= i < |r| && r[i] == x;
      assert y in rest;
      var j :| 0 <= j < |rest| && rest[j] == y;
      assert sorted[i] == x && sorted[k + j] == y;
    }
  }


  /** The search fails (HTTP 500 at backend/server.py:310-312) exactly when some result was
      merged and the query is separators only. */
  lemma SearchFails(query: string, contentTypes: seq<string>, limit: int, outcomes: seq<ServiceOutcome>)
    requires |outcomes| == |contentTypes|
    ensures SearchSpec(query, contentTypes, limit, outcomes).Err?
        <==> Merged(Dispatch(contentTypes, outcomes)) != [] && forall i :: 0 <= i < |query| ==> IsSpace(query[i])
  {
    NoTerms(query);
  }

  /** `results_by_type` has a key for exactly the recognised requested types, each holding the
      results of that type's last request, in their order, with their scores overwritten. */
  lemma SearchReportsRequestedTypes(query: string, contentTypes: seq<string>, limit: int, outcomes: seq<ServiceOutcome>)
    requires |outcomes| == |contentTypes|
    requires SearchSpec(query, contentTypes, limit, outcomes).Ok?
    ensures SearchSpec(query, contentTypes, limit, outcomes).value.resultsByType.Keys
         == set i | 0 <= i < |contentTypes| && contentTypes[i] in Services :: contentTypes[i]
    ensures forall i :: 0 <= i < |contentTypes| && contentTypes[i] in Services
                        && (forall j :: i < j < |contentTypes| ==> contentTypes[j] != contentTypes[i]) ==>
      var entry := SearchSpec(query, contentTypes, limit, outcomes).value.resultsByType[contentTypes[i]];
      var items := Yield(outcomes[i]);
      |entry| == |items|
      && forall j :: 0 <= j < |entry| ==>
           entry[j] == items[j].(relevanceScore := entry[j].relevanceScore)
           && Relevance(query, items[j]) == Ok(entry[j].relevanceScore)
  {
    ByTypeKeys(contentTypes, outcomes);
    SearchSpecValue(query, contentTypes, limit, outcomes);
    forall i | 0 <= i < |contentTypes| && contentTypes[i] in Services
               && (forall j :: i < j < |contentTypes| ==> contentTypes[j] != contentTypes[i])
      ensures ByType(Dispatch(contentTypes, outcomes))[contentTypes[i]] == Yield(outcomes[i])
    {
      ByTypeLastRequest(contentTypes, outcomes, i);
    }
  }

  /** The entry of a recognised type is what its last request yielded. */
  lemma {:induction false} ByTypeLastRequest(contentTypes: seq<string>, outcomes: seq<ServiceOutcome>, i: nat)
    requires |outcomes| == |contentTypes| && i < |contentTypes| && contentTypes[i] in Services
    requires forall j :: i < j < |contentTypes| ==> contentTypes[j] != contentTypes[i]
    ensures contentTypes[i] in ByType(Dispatch(contentTypes, outcomes))
    ensures ByType(Dispatch(contentTypes, outcomes))[contentTypes[i]] == Yield(outcomes[i])
    decreases |contentTypes|
  {
    var n := |contentTypes| - 1;
    var ct', o' := contentTypes[..n], outcomes[..n];
    assert contentTypes == ct' + [contentTypes[n]] && outcomes == o' + [outcomes[n]];
    ByTypeSnoc(ct', o', contentTypes[n], outcomes[n]);
    if i < n {
      ByTypeLastRequest(ct', o', i);
    }
  }
}
