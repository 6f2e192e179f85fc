/** `UniversalSearchOrchestrator._calculate_relevance` (backend/server.py:275-280): keyword
    matching of the query's terms against a result's title and description. */
module Scoring {

  import opened Collections
  import opened PyText
  import opened SearchModels

  /** The exception the scoring division raises when the query has no terms. */
  datatype SearchError = ZeroDivisionError

  /** `query.lower().split()`: the terms, in order and with repetitions. */
  function Terms(query: string): seq<string> {
    Split(Lower(query))
  }

  function OccursIn(text: string): string -> bool {
    term => Contains(text, term)
  }

  /** How many terms (counted with multiplicity) occur in the lower-cased `text`. */
  function Hits(terms: seq<string>, text: string): nat {
    |Select(terms, OccursIn(Lower(text)))|
  }

  /** The title counts 1 per hit and the description 0.5, so doubling gives integer weights. */
  function Weight(terms: seq<string>, r: SearchResult): nat {
    2 * Hits(terms, r.title) + Hits(terms, r.description)
  }

  /** The score for a non-empty list of terms, as the division at backend/server.py:280. */
  function Score(terms: seq<string>, r: SearchResult): real
    requires terms != []
  {
    (Hits(terms, r.title) as real + 0.5 * Hits(terms, r.description) as real) / |terms| as real
  }

  /** `_calculate_relevance(query, result)`: fails by dividing by zero when the query has no terms. */
  function Relevance(query: string, r: SearchResult): Result<real, SearchError> {
    var terms := Terms(query);
    if terms == [] then Err(ZeroDivisionError) else Ok(Score(terms, r))
  }

  /** A hit count is zero exactly when no term occurs in the lower-cased text, and is at most the
      number of terms. */
  lemma HitsBounds(terms: seq<string>, text: string)
    ensures Hits(terms, text) <= |terms|
    ensures Hits(terms, text) == 0 <==> forall t :: t in terms ==> !Contains(Lower(text), t)
  {
    SelectEmpty(terms, OccursIn(Lower(text)));
  }

  /** Every score lies in [0, 1.5] and is 0 exactly when no term hits the title or the description. */
  lemma ScoreBounds(terms: seq<string>, r: SearchResult)
    requires terms != []
    ensures 0.0 <= Score(terms, r) <= 1.5
    ensures Score(terms, r) == 0.0 <==>
      forall t :: t in terms ==> !Contains(Lower(r.title), t) && !Contains(Lower(r.description), t)
  {
    HitsBounds(terms, r.title);
    HitsBounds(terms, r.description);
    RatioBounds(Hits(terms, r.title), Hits(terms, r.description), |terms|);
  }

  lemma RatioBounds(title: nat, desc: nat, n: nat)
    requires 0 < n && title <= n && desc <= n
    ensures 0.0 <= (title as real + 0.5 * desc as real) / n as real <= 1.5
    ensures (title as real + 0.5 * desc as real) / n as real == 0.0 <==> title == 0 && desc == 0
  {
    var num := title as real + 0.5 * desc as real;
    var d := n as real;
    assert num <= 1.5 * d;
    ScaledUnderSharedDenominator(num, 1.5 * d, d);
    ScaledUnderSharedDenominator(0.0, num, d);
    ScaledUnderSharedDenominator(num, 0.0, d);
    assert 1.5 * d / d == 1.5;
  }

  /** Two numerators over one positive denominator compare as the numerators do. */
  lemma ScaledUnderSharedDenominator(a: real, b: real, n: real)
    requires n > 0.0
    ensures a / n <= b / n <==> a <= b
  {
    assert a / n * n == a;
    assert b / n * n == b;
    if a / n <= b / n {
      assert (b / n - a / n) * n >= 0.0;
    }
  }

  /** Every score of one search shares the denominator `len(query_terms)`, so ranking by score is
      ranking by the integer weight `2 * titleHits + descHits`. */
  lemma ScoreOrderIsWeightOrder(terms: seq<string>, a: SearchResult, b: SearchResult)
    requires terms != []
    ensures Score(terms, a) <= Score(terms, b) <==> Weight(terms, a) <= Weight(terms, b)
  {
    var n := |terms| as real;
    var na := Hits(terms, a.title) as real + 0.5 * Hits(terms, a.description) as real;
    var nb := Hits(terms, b.title) as real + 0.5 * Hits(terms, b.description) as real;
    ScaledUnderSharedDenominator(na, nb, n);
    assert 2.0 * na == Weight(terms, a) as real;
    assert 2.0 * nb == Weight(terms, b) as real;
  }

  /** A query has no terms exactly when it is separators only (the empty query included). */
  lemma NoTerms(query: string)
    ensures Terms(query) == [] <==> forall i :: 0 <= i < |query| ==> IsSpace(query[i])
  {
    SplitEmpty(Lower(query));
    LowerKeepsSpaces(query);
  }

  /** Scoring fails exactly for a query made of separators only. */
  lemma RelevanceFails(query: string, r: SearchResult)
    ensures Relevance(query, r).Err? <==> forall i :: 0 <= i < |query| ==> IsSpace(query[i])
  {
    NoTerms(query);
  }
}
