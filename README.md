# OmniSearch core, modelled in Dafny

OmniSearch is a multi-modal search front end. A React client sends a query to a FastAPI
server. The server fans the query out to four services (GitHub code, YouTube videos, Kaggle
datasets, Semantic Scholar papers), merges their hits, scores each hit by keyword matching,
ranks them and truncates the list. The client groups and filters the ranked hits by kind and
switches between a canvas, a results grid and a focus view.

This project models the two pieces of sequential logic in that system and proves their
properties:

- **Server** (`backend/server.py`):
  - the result records;
  - `UniversalSearchOrchestrator.search`, as a method with one loop-carrying method per
    loop of the original, proved equal to a specification function `SearchSpec`;
  - `_calculate_relevance`, with exact rational scores;
  - the suggestions endpoint.
- **Client** (`frontend/src/App.js`):
  - the `App` component as a class whose fields are its six state variables, with one
    method per handler;
  - the filter toggle;
  - the grid's grouping (an imperative loop), filtering and counting;
  - the canvas's Enter-key handler.
- **Both together:** `EndToEnd` joins the client's fixed request to the server's answer.
  It shows as written that results labelled "paper" or "dataset" reach the client but
  are never grouped or matched by the "papers" and "datasets" filters. It also shows
  that a query of only `'\x1c'` passes the client's `trim()` and then makes the server
  divide by zero once any service returns a result.

Modules, in dependency order:

- `Collections` (collections.dfy): Option/Result, order-preserving selection, subsequence.
- `SearchModels` (search_models.dfy): `SearchResult` and `UniversalSearchResponse`.
- `PyText` (py_text.dfy): Python's `isspace`, `lower()` (ASCII), `split()` and substring `in`.
- `Scoring` (relevance.dfy): `_calculate_relevance`.
- `Orchestrator` (orchestrator.dfy): `search`.
- `Suggestions` (suggestions.dfy): `get_search_suggestions`.
- `DiscoveryGrid` (discovery_grid.dfy): `resultsByType`, `filteredResults`, `totalByType`.
- `FilterState` (filter_state.dfy): `handleFilterChange`'s new list.
- `Canvas` (canvas.dfy): JavaScript `trim()` and `EvolvingCanvas.handleSearch`.
- `AppState` (app_state.dfy): the `App` class.
- `EndToEnd` (end_to_end.dfy): the client with the server.

Modelling choices:

- **Service calls** are inputs. Each requested content type comes with a `ServiceOutcome`:
  the list the service returned, or `Raised`.
- **The client's POST** is an input `PostOutcome`: `Success(data)` or `Failure`.
- **Scores** are exact reals `(titleHits + 0.5 * descHits) / |terms|`. `ScoreOrderIsWeightOrder`
  shows that comparing two scores is comparing the integers `2 * titleHits + descHits`.
- **Division by zero.** When the query has no terms, scoring divides by zero. `search`
  then returns `Err(ZeroDivisionError)`, as long as at least one result was merged.
- **`list.sort(..., reverse=True)`** is a stable insertion sort (`SortDesc`).
- **`all_results[:limit]`** is Python slicing, negative `limit` included (`PyPrefix`).
- **Shared objects.** `results_by_type` holds the same objects that are scored in
  place, so its lists come out scored too.

Where the code and the written design differ, the model follows the code:

- A failed client search only logs the error. No fallback response is synthesised.
- The handlers accept a call from any view; none rejects a call from the "wrong" screen.
- A blank query is not rejected up front. The canvas drops queries that are empty after
  `trim()`. The server raises (HTTP 500) only when some service returned a result.

## Model

| member | source | states |
|---|---|---|
| `SearchModels.SearchResult` | backend/server.py:67-75 | as written: a result's fields, with the score an exact real and the metadata left out |
| `SearchModels.UniversalSearchResponse` | backend/server.py:77-81 | as written: the response's four fields |
| `PyText.IsSpace` | backend/server.py:277 | as written: the characters `str.isspace()` accepts, which `split()` treats as separators |
| `PyText.Lower` | backend/server.py:277-279 | as written for ASCII: `str.lower()` maps A-Z to a-z and keeps every other character |
| `PyText.WordLength` | backend/server.py:277 | the first word of a string runs up to the first `isspace` character |
| `PyText.Split` | backend/server.py:277 | `str.split()` gives non-empty words free of whitespace; `SplitWord` and `SplitAtSpace` make them exactly the maximal runs |
| `PyText.LowerKeepsSpaces` | backend/server.py:277 | lower-casing keeps the length and which characters are whitespace |
| `PyText.SplitEmpty` | backend/server.py:277 | `split()` gives no word exactly when every character is whitespace |
| `PyText.SplitDropsOnlySpaces` | backend/server.py:277 | the words of `split()`, joined, are the input with exactly its whitespace removed |
| `PyText.WordLengthStops` | backend/server.py:277 | text after the end of a word does not move that end |
| `PyText.SplitWord` | backend/server.py:277 | a non-empty text without separators splits into itself alone |
| `PyText.SplitAtSpace` | backend/server.py:277 | splitting at any separator gives the words before it followed by the words after it, so words are maximal runs and a run of separators is one break |
| `PyText.SplitAfter` | backend/server.py:277 | the same split law with the separator at the head of the remaining text |
| `PyText.SplitAfterWord` | backend/server.py:277 | that law when the text before the separator starts with a word |
| `PyText.Contains` | backend/server.py:278-279 | as written: Python's substring test `term in text`, searching from the left |
| `PyText.ContainsOccurrence` | backend/server.py:278-279 | `term in text` holds exactly when the term occurs at some position of the text |
| `Scoring.Terms` | backend/server.py:277 | as written: `query.lower().split()` |
| `Scoring.Hits` | backend/server.py:278-279 | as written: the number of terms, with multiplicity, that occur in the lower-cased text |
| `Scoring.Weight` | backend/server.py:278-279 | twice the title hits plus the description hits, the integer that orders scores |
| `Scoring.Score` | backend/server.py:278-280 | as written for a non-empty term list: (title hits + 0.5 * description hits) / number of terms |
| `Scoring.Relevance` | backend/server.py:275-280 | as written: `_calculate_relevance`, failing with ZeroDivisionError when there are no terms |
| `Scoring.HitsBounds` | backend/server.py:278-279 | a hit count is at most the number of terms, and is zero exactly when no term occurs in the lower-cased text |
| `Scoring.ScoreBounds` | backend/server.py:275-280 | every score lies in [0, 1.5], and is 0 exactly when no term hits the title or the description |
| `Scoring.RatioBounds` | backend/server.py:280 | (t + 0.5 d) / n for hit counts t, d at most n lies in [0, 1.5], and is 0 only when both counts are 0 |
| `Scoring.ScaledUnderSharedDenominator` | backend/server.py:280 | dividing by the shared positive term count keeps the order |
| `Scoring.ScoreOrderIsWeightOrder` | backend/server.py:278-280 | within one query, score order is exactly the order of the integer 2 * titleHits + descHits |
| `Scoring.NoTerms` | backend/server.py:277 | a query has no terms exactly when it is whitespace only |
| `Scoring.RelevanceFails` | backend/server.py:280 | scoring raises ZeroDivisionError exactly when the query is whitespace only |
| `Orchestrator.Yield` | backend/server.py:253-259 | as written: what one awaited task contributes, `[]` for a task that raised |
| `Orchestrator.Services` | backend/server.py:231-236 | as written: the four recognised content types, the keys of `self.services` |
| `Orchestrator.Dispatch` | backend/server.py:240-246 | as written: the `tasks` list, one per requested type that is a key of `services`, in request order |
| `Orchestrator.Merged` | backend/server.py:250-256 | as written: `all_results`, the concatenation of the tasks' lists |
| `Orchestrator.ByType` | backend/server.py:249-259 | as written: `results_by_type`, a later task of a type overwriting an earlier one |
| `Orchestrator.ScoreAll` | backend/server.py:262-263 | as written: every merged result with its score overwritten |
| `Orchestrator.ScoreValues` | backend/server.py:255-263 | as written: the per-type lists carry the same, now scored, objects |
| `Orchestrator.SearchSpec` | backend/server.py:238-273 | as written: the response `search` builds from the services' outcomes, or the division-by-zero error |
| `Orchestrator.Insert` | backend/server.py:266 | inserting adds exactly that one element |
| `Orchestrator.SortDesc` | backend/server.py:266 | the sorted list is a permutation of its input |
| `Orchestrator.PyPrefix` | backend/server.py:271 | `xs[:limit]` is a prefix of `xs` |
| `Orchestrator.Search` | backend/server.py:238-273 | the method's response is exactly `SearchSpec` of its inputs, error case included |
| `Orchestrator.CollectTasks` | backend/server.py:240-246 | one task per recognised requested type, with its outcome, in request order |
| `Orchestrator.AwaitTasks` | backend/server.py:248-259 | the loop builds `results_by_type` as `ByType` (a raising task records `[]`) and `all_results` as the concatenation `Merged` |
| `Orchestrator.ScoreInPlace` | backend/server.py:262-263 | scoring fails exactly when there is a result and no term; otherwise every result gets its score and nothing else changes |
| `Orchestrator.ByTypeWithinMerged` | backend/server.py:252-259 | each per-type list is drawn from the merged list; an empty merge leaves every per-type list empty |
| `Orchestrator.MergedConcat` | backend/server.py:252-256 | merging two runs of tasks concatenates their merges |
| `Orchestrator.DispatchSnoc` | backend/server.py:242-246 | one more requested type adds a task only when it is a key of `services` |
| `Orchestrator.MergedSnoc` | backend/server.py:242-259 | one more requested type appends its service's results only when it is recognised and did not raise, so types listed twice contribute twice |
| `Orchestrator.ByTypeSnoc` | backend/server.py:252-259 | one more recognised type sets only its own entry, to its results or to `[]` if it raised; the other types are unaffected |
| `Orchestrator.ByTypeKeys` | backend/server.py:242-259 | `results_by_type` has a key for exactly the recognised requested types |
| `Orchestrator.ByTypeLastWins` | backend/server.py:252-259 | a type's entry is what its last task yielded |
| `Orchestrator.InsertOrdered` | backend/server.py:266 | inserting into a non-increasing list keeps it non-increasing |
| `Orchestrator.InsertBounded` | backend/server.py:266 | inserting leaves every score below any bound that held before |
| `Orchestrator.ConsOrdered` | backend/server.py:266 | a head no lower than a non-increasing tail gives a non-increasing list |
| `Orchestrator.SortDescOrdered` | backend/server.py:266 | the sorted list is non-increasing in relevance |
| `Orchestrator.InsertStable` | backend/server.py:266 | insertion places the new element first among those with its score |
| `Orchestrator.SortDescStable` | backend/server.py:266 | the sort is stable: results with equal scores keep their merged order |
| `Orchestrator.SearchTruncates` | backend/server.py:267-273 | the response echoes the query; `total_results` counts the untruncated merge; `results` has min(limit, total) entries for limit >= 0, and Python's count for a negative limit |
| `Orchestrator.SearchRanks` | backend/server.py:262-271 | the returned results are non-increasing and drawn from the scored merge; nothing the limit cuts off scores above anything kept; among results of any one score, those kept are the first ones in merged order; when nothing is cut off they are a permutation of the scored merge |
| `Orchestrator.RankedPrefix` | backend/server.py:266-271 | the same facts for sorting and slicing any scored list |
| `Orchestrator.PrefixKeepsBest` | backend/server.py:271 | a prefix of a non-increasing list dominates what it leaves out, and keeps of each score the first ones |
| `Orchestrator.PrefixDominates` | backend/server.py:271 | nothing left out of a prefix of a non-increasing list scores above anything in it |
| `Orchestrator.SearchFails` | backend/server.py:280 | search raises exactly when some result was merged and the query is whitespace only |
| `Orchestrator.SearchReportsRequestedTypes` | backend/server.py:255-272 | the response's `results_by_type` has a key for exactly each recognised requested type, and each key holds the results of that type's last request, in their order, each with its score from `_calculate_relevance` |
| `Orchestrator.ByTypeLastRequest` | backend/server.py:242-259 | a type's entry in `results_by_type` is what its last request yielded |
| `Suggestions.GetSearchSuggestions` | backend/server.py:314-328 | as written: the literal list of five suggestions |
| `Suggestions.SuggestionsExtendQuery` | backend/server.py:314-328 | exactly five suggestions, the i-th being the query followed by the i-th fixed completion, all distinct |
| `DiscoveryGrid.ResultList` | frontend/src/App.js:215-228 | as written: `searchResults.results`, or `[]` when it is missing |
| `DiscoveryGrid.NormalisedType` | frontend/src/App.js:216 | as written: only "video" is renamed, to "videos" |
| `DiscoveryGrid.GroupsOf` | frontend/src/App.js:208-213 | the four groups, in key order, each the selection of its kind |
| `DiscoveryGrid.ResultsByType` | frontend/src/App.js:207-223 | the loop builds each group as the order-preserving selection of results whose normalised kind is its key |
| `DiscoveryGrid.GroupIsSelection` | frontend/src/App.js:207-223 | each group is a subsequence of the results holding exactly the results of its normalised kind, with their multiplicities |
| `DiscoveryGrid.SingularLabelsAreUngrouped` | frontend/src/App.js:216-219 | results labelled "paper" or "dataset" are in none of the four groups |
| `DiscoveryGrid.GroupSizesPartition` | frontend/src/App.js:207-223 | the four group sizes plus the ungrouped count equal the number of results |
| `DiscoveryGrid.TotalByType` | frontend/src/App.js:276-280 | as written, without the icon: one kind and count per group, in key order |
| `DiscoveryGrid.TotalsCountGroups` | frontend/src/App.js:276-280 | the counts list code, videos, papers and datasets in order, each its group's size, summing to at most the number of results |
| `DiscoveryGrid.FilteredResults` | frontend/src/App.js:225-234 | as written: everything under "all" or no filter, otherwise the results whose normalised kind is active |
| `DiscoveryGrid.FilteredIsSelection` | frontend/src/App.js:225-234 | with "all" or no filter the results are shown unchanged; otherwise exactly the results whose normalised kind is active, in order and with multiplicity |
| `FilterState.ToggleFilter` | frontend/src/App.js:770-783 | as written: the list `handleFilterChange` stores, by its four rules |
| `FilterState.ToggleResets` | frontend/src/App.js:771-775 | choosing "all" gives `['all']`; choosing a kind while "all" is active gives `[kind]` |
| `FilterState.ToggleRemoves` | frontend/src/App.js:776-778 | toggling an active kind removes every occurrence and keeps the others in order; nothing left collapses to `['all']` |
| `FilterState.ToggleUndoesAppend` | frontend/src/App.js:779-781 | an absent kind is appended at the end, and toggling it again restores the list |
| `FilterState.DoubleToggleFromAll` | frontend/src/App.js:770-783 | toggling the same filter twice from `['all']` gives `['all']` |
| `FilterState.ToggleKeepsWellFormed` | frontend/src/App.js:770-783 | every toggle keeps `['all']`-or-distinct-kinds-without-"all" lists in that shape |
| `FilterState.ReachableWellFormed` | frontend/src/App.js:741-783 | every list reachable from `['all']` is `['all']` or a non-empty, duplicate-free list without "all" |
| `Canvas.IsJsSpace` | frontend/src/App.js:65 | as written: the characters `trim()` removes, ECMAScript WhiteSpace and LineTerminator |
| `Canvas.LeadingSpaces` | frontend/src/App.js:65 | the leading whitespace run of the box's text is maximal |
| `Canvas.TrailingSpaces` | frontend/src/App.js:65 | the trailing whitespace run of the box's text is maximal |
| `Canvas.Trim` | frontend/src/App.js:65-66 | as written: `String.prototype.trim` |
| `Canvas.OnKeyPress` | frontend/src/App.js:64-68 | as written: the query the Enter handler passes to `onSearch`, if any |
| `Canvas.TrimSpec` | frontend/src/App.js:65-66 | `trim()` gives the block between maximal whitespace runs, non-space at both ends, empty exactly when the text is all whitespace |
| `Canvas.TrimIdempotent` | frontend/src/App.js:65-66 | trimming twice is trimming once |
| `Canvas.OnKeyPressDispatches` | frontend/src/App.js:64-68 | Enter dispatches exactly when the box holds a non-space character, and dispatches the trimmed text |
| `AppState.View` | frontend/src/App.js:737 | as written: the three values `currentView` takes |
| `AppState.RequestContentTypes` | frontend/src/App.js:751 | as written: the content types every request asks for, in that order |
| `AppState.RequestLimit` | frontend/src/App.js:752 | as written: the limit every request asks for, 50 |
| `AppState.App.constructor` | frontend/src/App.js:737-742 | the initial state: canvas view, empty query and results, no focus, filters `['all']`, not loading |
| `AppState.App.DisplayedResults` | frontend/src/App.js:225-234 | as written: the grid's `filteredResults` for the current results and filters |
| `AppState.App.BeginSearch` | frontend/src/App.js:744-746 | loading is raised and the query recorded; nothing else changes |
| `AppState.App.CompleteSearch` | frontend/src/App.js:754-762 | success stores the data, shows results and resets the filters; failure changes none of them; loading is cleared on both paths |
| `AppState.App.HandleSearch` | frontend/src/App.js:744-763 | a whole search: the query is recorded and loading ends false; success installs the data, shows results with filters `['all']` so every result is displayed; failure keeps view, results and filters |
| `AppState.App.HandleResultClick` | frontend/src/App.js:765-768 | focus becomes that result and the view `focus`; nothing else changes |
| `AppState.App.HandleFilterChange` | frontend/src/App.js:770-783 | the filters become the toggled list and stay well-formed; nothing else changes |
| `AppState.App.Back` | frontend/src/App.js:830 | the view returns to `results`; nothing else changes |
| `AppState.FocusThenBack` | frontend/src/App.js:765-830 | a result click (765-768) then the back callback (830): the same results and filters, hence the same displayed list |
| `EndToEnd.ToClientData` | frontend/src/App.js:755 | as written: the body the client stores, of which it reads the query, the total and the results |
| `EndToEnd.ServiceLabel` | backend/server.py:103-214 | as written: the `source_type` each service stamps ("video", "code", "dataset", "paper") |
| `EndToEnd.DispatchLabelled` | backend/server.py:242-246 | when each service labels its results as it does, every dispatched task yields only the four server labels |
| `EndToEnd.MergedLabelled` | backend/server.py:252-256 | the merged list carries only the four server labels |
| `EndToEnd.ResponseLabelled` | backend/server.py:262-273 | every result sent to the client carries one of the four server labels |
| `EndToEnd.RankedLabelled` | backend/server.py:262-271 | scoring, sorting and truncating keep each result's `source_type` |
| `EndToEnd.LabelledResultsGrouped` | frontend/src/App.js:207-234 | over results with server labels, the papers and datasets groups, their counts and their filters are empty, and code plus videos plus ungrouped account for every result |
| `EndToEnd.PapersAndDatasetsNeverShown` | frontend/src/App.js:744-757 | after the client's search, at most 50 results arrive and none ever appears under papers or datasets |
| `EndToEnd.BlankQueryGetsThrough` | frontend/src/App.js:64-68 | the text `'\x1c'` survives `trim()` and is sent, but once any service returns a result the server then fails with division by zero |

## Left out

- JSX rendering: icons, colours, CSS classes, particle placement and the focus view's layout. These are presentation only.
- The 300 ms animation of `isLoading` and `animatedResults` in the grid. It is timer-driven presentation.
- The axios POST. It is the input `PostOutcome`, and `response.data` is taken as already parsed.
- Overlapping or out-of-order searches. These are concurrency. One search is a begin step followed by a complete step.
- The YouTube, GitHub, Kaggle and Semantic Scholar service classes. These are network and library wrappers, including Kaggle's thread pool. Their results are inputs, and `EndToEnd` takes from them only the `source_type` each one stamps.
- asyncio: tasks are awaited in order, each yielding a list or raising. The `limit` passed on to each service lies inside the service classes.
- The MongoDB `insert_one`, Firebase setup, configuration, CORS, uvicorn and the FastAPI routing are infrastructure.
- The HTTP 500 conversion in `universal_search` is modelled only as the error value `Err(ZeroDivisionError)`.
- `content_types` sent as `null` (it is `Optional` in `SearchQuery`) makes the loop over it raise a `TypeError`, which becomes HTTP 500. The model takes a list.
- `limit` sent as `null` (also `Optional`) is not modelled. Each service is then asked for `None` results, and any error that causes is caught by the service itself, which returns `[]`. `all_results[:None]` is the whole list, so the response is untruncated. The model takes an integer.
- The free-form `metadata` dictionary of `SearchResult` is dropped, because the core never reads it.
- `str.lower()` is modelled for ASCII letters only. Other characters are kept unchanged.
- IEEE floating point: scores are exact reals, and orderings agree with the integer weights.
- Python `isspace` is the fixed list of separators `str.split()` uses, and the JavaScript `trim()` set is the ECMAScript WhiteSpace and LineTerminator list. No other Unicode tables are modelled.
- `DiscoveryGrid.ResultsByType` does not model `grouped[type]` finding an inherited object property (a `source_type` such as "constructor"). That would throw in the original, but here such results are simply ungrouped.
- `get_trending_content` and `get_content_details`. They return constants or echo their inputs.
- Score formatting, size formatting and dates in the views. They are presentation.
