/** The records the server builds and the client receives (pydantic models in backend/server.py). */
module SearchModels {

  import opened Collections

  /** One hit from one service. `sourceType` is the service's label ("code", "video",
      "paper", "dataset"); `relevanceScore` defaults to 0.0 and is overwritten by the
      orchestrator. The free-form `metadata` dictionary is not modelled. */
  datatype SearchResult = SearchResult(
    id: string,
    title: string,
    description: string,
    url: string,
    thumbnailUrl: Option<string>,
    sourceType: string,
    relevanceScore: real)

  /** The body of a successful `/search/universal` call. */
  datatype UniversalSearchResponse = UniversalSearchResponse(
    query: string,
    totalResults: int,
    results: seq<SearchResult>,
    resultsByType: map<string, seq<SearchResult>>)
}
