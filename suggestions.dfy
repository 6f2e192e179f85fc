/** `get_search_suggestions` (backend/server.py:314-328). */
module Suggestions {

  import opened Collections

  /** The five completions, in the order the endpoint lists them. */
  const Completions: seq<string> := [" tutorial", " example", " documentation", " implementation", " research"]

  function GetSearchSuggestions(q: string): seq<string> {
    [q + " tutorial", q + " example", q + " documentation", q + " implementation", q + " research"]
  }

  /** Exactly five suggestions, the i-th being the query followed by the i-th completion; each
      extends the query, and no two are equal, whatever the query. */
  lemma SuggestionsExtendQuery(q: string)
    ensures |GetSearchSuggestions(q)| == |Completions| == 5
    ensures forall i :: 0 <= i < 5 ==>
      |GetSearchSuggestions(q)[i]| > |q|
      && GetSearchSuggestions(q)[i][..|q|] == q
      && GetSearchSuggestions(q)[i][|q|..] == Completions[i]
    ensures NoDuplicates(GetSearchSuggestions(q))
  {
    var s := GetSearchSuggestions(q);
    forall i | 0 <= i < 5
      ensures s[i] == q + Completions[i] && s[i][..|q|] == q && s[i][|q|..] == Completions[i]
    {
      assert s[i] == q + Completions[i];
    }
    forall i, j | 0 <= i < j < 5 ensures s[i] != s[j] {
      assert Completions[i] != Completions[j] by {
        assert Completions[i][1] != Completions[j][1] || |Completions[i]| != |Completions[j]|;
      }
    }
  }
}
