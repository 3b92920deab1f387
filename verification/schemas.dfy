/**
 * The typed records the reasoning model is asked to fill in (schemas.py).
 * Closed literal sets become enumerations, bounded integers become subset
 * types, and pydantic validation becomes a function that returns `None`
 * when the raw value breaks a constraint.
 */
module Schemas {
  import opened Wrappers

  /** ComplexityLevel: the three complexity grades of a user query. */
  datatype ComplexityLevel = Simple | Moderate | Complex

  /** QueryParameters: both lists default to empty. */
  datatype QueryParameters = QueryParameters(keywords: seq<string>, entities: seq<string>)

  /** The parameters pydantic builds when the model omits both fields. */
  function DefaultQueryParameters(): (p: QueryParameters)
    ensures |p.keywords| == 0 && |p.entities| == 0
  {
    QueryParameters([], [])
  }

  datatype SearchComplexity = SearchComplexity(level: ComplexityLevel, multiFaceted: bool)

  /** QueryAnalysisResults: target terms, complexity and the harmfulness flag. */
  datatype QueryAnalysis = QueryAnalysis(
    parameters: QueryParameters,
    complexity: SearchComplexity,
    isHarmful: bool)

  /** One planned web query with its identifier. */
  datatype SearchQuery = SearchQuery(queryId: int, query: string)

  /** A search plan holds at least one query (`min_items=1`). */
  type SearchPlan = qs: seq<SearchQuery> | |qs| >= 1 witness [SearchQuery(0, "")]

  /** Validation of a raw list of planned queries against `SearchPlan`. */
  function ValidateSearchPlan(raw: seq<SearchQuery>): (r: Option<SearchPlan>)
    ensures r.Some? <==> |raw| >= 1
    ensures r.Some? ==> r.value == raw
  {
    if |raw| >= 1 then Some(raw) else None
  }

  /** The number of results a database sub-query may ask for: 1 to 20. */
  type ResultCount = n: int | 1 <= n <= 20 witness 5

  const DefaultResultCount: ResultCount := 5

  /** DBQuery: one similarity-search sub-query and its requested result count. */
  datatype DBQuery = DBQuery(query: string, nResults: ResultCount)

  /**
   * Validation of a raw sub-query: an omitted count takes the default 5, a
   * count outside 1..20 is rejected.
   */
  function ValidateDBQuery(query: string, nResults: Option<int>): (r: Option<DBQuery>)
    ensures nResults.None? ==> r == Some(DBQuery(query, 5))
    ensures nResults.Some? ==> (r.Some? <==> 1 <= nResults.value <= 20)
    ensures r.Some? ==> r.value.query == query && 1 <= r.value.nResults <= 20
    ensures r.Some? && nResults.Some? ==> r.value.nResults == nResults.value
  {
    match nResults
    case None => Some(DBQuery(query, DefaultResultCount))
    case Some(n) => if 1 <= n <= 20 then Some(DBQuery(query, n)) else None
  }

  datatype DBQueryPlan = DBQueryPlan(queries: seq<DBQuery>)

  datatype ResponseGeneration = ResponseGeneration(response: string, gapsAcknowledged: string)

  /** The four rating literals of a response evaluation. */
  datatype Rating = HighlySatisfactory | Satisfactory | Unsatisfactory | HighlyUnsatisfactory

  /** The literal each rating is written as; the last one contains a space. */
  function RatingLiteral(r: Rating): string
  {
    match r
    case HighlySatisfactory => "highly_satisfactory"
    case Satisfactory => "satisfactory"
    case Unsatisfactory => "unsatisfactory"
    case HighlyUnsatisfactory => "highly unsatisfactory"
  }

  /** Parses a rating literal; anything outside the four literals is rejected. */
  function ParseRating(s: string): (r: Option<Rating>)
    ensures r.Some? ==> RatingLiteral(r.value) == s
    ensures r.None? ==> forall x: Rating :: RatingLiteral(x) != s
  {
    if s == "highly_satisfactory" then Some(HighlySatisfactory)
    else if s == "satisfactory" then Some(Satisfactory)
    else if s == "unsatisfactory" then Some(Unsatisfactory)
    else if s == "highly unsatisfactory" then Some(HighlyUnsatisfactory)
    else None
  }

  /** Every rating survives printing and parsing back. */
  lemma RatingRoundTrip(x: Rating)
    ensures ParseRating(RatingLiteral(x)) == Some(x)
  {
  }

  /** The underscore spelling of the last rating is not one of the literals. */
  lemma UnderscoredLastRatingRejected()
    ensures ParseRating("highly_unsatisfactory") == None
  {
  }

  /** The four routing decisions an evaluation may propose. */
  datatype NextStep = Finish | RetrieverStep | WebSearchStep | CrawlContextsStep

  function NextStepLiteral(n: NextStep): string
  {
    match n
    case Finish => "finish"
    case RetrieverStep => "retriever"
    case WebSearchStep => "web_search"
    case CrawlContextsStep => "crawl_contexts"
  }

  /** Parses a next-step literal; anything outside the four literals is rejected. */
  function ParseNextStep(s: string): (r: Option<NextStep>)
    ensures r.Some? ==> NextStepLiteral(r.value) == s
    ensures r.None? ==> forall x: NextStep :: NextStepLiteral(x) != s
  {
    if s == "finish" then Some(Finish)
    else if s == "retriever" then Some(RetrieverStep)
    else if s == "web_search" then Some(WebSearchStep)
    else if s == "crawl_contexts" then Some(CrawlContextsStep)
    else None
  }

  lemma NextStepRoundTrip(x: NextStep)
    ensures ParseNextStep(NextStepLiteral(x)) == Some(x)
  {
  }

  /** ResponseEvaluation: free-text evaluation, rating, rationale and next step. */
  datatype ResponseEvaluation = ResponseEvaluation(
    evaluation: string,
    rating: Rating,
    rationale: string,
    nextStep: NextStep)

  /** URLExtraction: the contexts read and the urls found in them. */
  datatype UrlExtraction = UrlExtraction(contexts: seq<string>, urls: seq<string>)
}
