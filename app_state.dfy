/** The `App` component's state and handlers (frontend/src/App.js:736-783, 830). */
module AppState {

  import opened Collections
  import opened SearchModels
  import opened DiscoveryGrid
  import opened FilterState

  /** `currentView`: 'canvas', 'results' or 'focus'. */
  datatype View = CanvasView | ResultsView | FocusView

  /** What awaiting the `axios.post` gives: the response body, or a rejection. */
  datatype PostOutcome = Success(data: ClientData) | Failure

  /** The content types and limit every search request asks the server for (frontend/src/App.js:749-753). */
  const RequestContentTypes: seq<string> := ["code", "videos", "papers", "datasets"]
  const RequestLimit: int := 50

  class App {
    var currentView: View
    var searchQuery: string
    var searchResults: ClientData
    var focusContent: Option<SearchResult>
    var activeFilters: seq<string>
    var loading: bool

    /** The filter list only ever takes the shapes `handleFilterChange` can produce from `['all']`. */
    ghost predicate Valid()
      reads this
    {
      WellFormed(activeFilters)
    }

    /** The `useState` initial values (frontend/src/App.js:737-742). */
    constructor ()
      ensures Valid()
      ensures currentView == CanvasView && searchQuery == "" && focusContent == None
      ensures searchResults == ClientData("", 0, Some([])) && activeFilters == ["all"] && !loading
    {
      currentView := CanvasView;
      searchQuery := "";
      searchResults := ClientData("", 0, Some([]));
      focusContent := None;
      activeFilters := ["all"];
      loading := false;
    }

    /** The results the grid shows for the current state. */
    function DisplayedResults(): seq<SearchResult>
      reads this
    {
      FilteredResults(searchResults, activeFilters)
    }

    /** `handleSearch` up to the request: raise the loading flag and record the query. */
    method BeginSearch(query: string)
      requires Valid()
      modifies this
      ensures Valid()
      ensures loading && searchQuery == query
      ensures currentView == old(currentView) && searchResults == old(searchResults)
      ensures focusContent == old(focusContent) && activeFilters == old(activeFilters)
    {
      loading := true;
      searchQuery := query;
    }

    /** `handleSearch` after the request: on success install the body, show the results and reset
        the filters; on failure only log; in both cases clear the loading flag. */
    method CompleteSearch(outcome: PostOutcome)
      requires Valid()
      modifies this
      ensures Valid()
      ensures !loading && searchQuery == old(searchQuery) && focusContent == old(focusContent)
      ensures outcome.Success? ==>
        searchResults == outcome.data && currentView == ResultsView && activeFilters == ["all"]
      ensures outcome.Failure? ==>
        searchResults == old(searchResults) && currentView == old(currentView)
        && activeFilters == old(activeFilters)
    {
      match outcome {
        case Success(data) =>
          searchResults := data;
          currentView := ResultsView;
          activeFilters := ["all"];
        case Failure =>
      }
      loading := false;
    }

    /** `handleSearch(query)` (frontend/src/App.js:744-763), one request at a time. */
    method HandleSearch(query: string, outcome: PostOutcome)
      requires Valid()
      modifies this
      ensures Valid()
      ensures !loading && searchQuery == query && focusContent == old(focusContent)
      ensures outcome.Success? ==>
        searchResults == outcome.data && currentView == ResultsView && activeFilters == ["all"]
        && DisplayedResults() == ResultList(outcome.data)
      ensures outcome.Failure? ==>
        searchResults == old(searchResults) && currentView == old(currentView)
        && activeFilters == old(activeFilters)
    {
      BeginSearch(query);
      CompleteSearch(outcome);
    }

    /** `handleResultClick(result)` (frontend/src/App.js:765-768). */
    method HandleResultClick(result: SearchResult)
      requires Valid()
      modifies this
      ensures Valid()
      ensures focusContent == Some(result) && currentView == FocusView
      ensures searchQuery == old(searchQuery) && searchResults == old(searchResults)
      ensures activeFilters == old(activeFilters) && loading == old(loading)
    {
      focusContent := Some(result);
      currentView := FocusView;
    }

    /** `handleFilterChange(filter)` (frontend/src/App.js:770-783). */
    method HandleFilterChange(filter: string)
      requires Valid()
      modifies this
      ensures Valid()
      ensures activeFilters == ToggleFilter(old(activeFilters), filter)
      ensures currentView == old(currentView) && searchQuery == old(searchQuery)
      ensures searchResults == old(searchResults) && focusContent == old(focusContent) && loading == old(loading)
    {
      ToggleKeepsWellFormed(activeFilters, filter);
      activeFilters := ToggleFilter(activeFilters, filter);
    }

    /** The focus view's back callback (frontend/src/App.js:830). */
    method Back()
      requires Valid()
      modifies this
      ensures Valid()
      ensures currentView == ResultsView
      ensures searchQuery == old(searchQuery) && searchResults == old(searchResults)
      ensures focusContent == old(focusContent) && activeFilters == old(activeFilters) && loading == old(loading)
    {
      currentView := ResultsView;
    }
  }

  /** Opening a result and going back shows the results view again with the same results and
      the same filters, hence the same displayed list. */
  method FocusThenBack(app: App, result: SearchResult)
    requires app.Valid()
    modifies app
    ensures app.Valid()
    ensures app.currentView == ResultsView && app.focusContent == Some(result)
    ensures app.searchResults == old(app.searchResults) && app.activeFilters == old(app.activeFilters)
    ensures app.DisplayedResults() == old(app.DisplayedResults())
  {
    app.HandleResultClick(result);
    app.Back();
  }
}
