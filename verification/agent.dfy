/**
 * main.py: the session record of the web-search agent and the node and
 * router functions that update it.
 *
 * Every model call (query analysis, search planning, response generation,
 * evaluation, link extraction) and every network step (search provider,
 * robots.txt permission, page loader) is a parameter; each node is a pure
 * function from the session and those answers to the next session, and a
 * raised exception becomes a `Failure`.
 */
module Agent {
  import opened Wrappers
  import opened Documents
  import opened Schemas
  import opened TextProcessing
  import opened WebProcessing
  import opened Sequences

  /** A chat message of the session. */
  datatype Message = Human(text: string) | AI(text: string)

  /** One entry of `search_queries`: a planned query and its `search_performed` mark. */
  datatype QueryItem = QueryItem(queryId: int, query: string, searchPerformed: bool)

  /** The exceptions a node can raise. */
  datatype Error =
    | MissingKey(key: string)         // KeyError
    | MissingAttribute(name: string)  // AttributeError
    | UnboundName(name: string)       // UnboundLocalError
    | PlanParseError                  // the planner's ValueError
    | GraphRecursion                  // the graph's recursion limit

  /** The nodes of the sub-graph, and its end. */
  datatype Node =
    | AnalyzerNode | PlannerNode | WebSearchNode | ExtracterNode
    | RetrieverNode | GeneratorNode | EvaluatorNode | CrawlNode | End

  /**
   * `CustomState`. `stored` is the vector store's contents, as the sequence
   * of insertions made into it; `contexts` holds the documents the last
   * retrieval formatted.
   */
  datatype Session = Session(
    userRequest: string,
    analysis: Option<QueryAnalysis>,
    messages: seq<Message>,
    searchQueries: seq<QueryItem>,
    sourcesData: seq<Source>,
    relevantLinks: seq<string>,
    contexts: seq<Document>,
    retrievedDocs: seq<Document>,
    visitedLinks: set<string>,
    stored: seq<Insert>,
    actionRationale: string,
    nextStep: Option<NextStep>,
    iteration: int,
    crawlDepth: int,
    maxIterations: int,
    maxCrawlDepth: int)

  // ---------------------------------------------------------------------
  // Query analysis and the harmful-query router
  // ---------------------------------------------------------------------

  const Refusal := "The query has been identified as potentially harmful or sensitive. Therefore, no further processing will be done."

  /**
   * `user_query_analyzer`: records the analysis; a harmful request gets the
   * refusal and the request itself is not added to the conversation.
   */
  function UserQueryAnalyzer(s: Session, a: QueryAnalysis): (r: Session)
    ensures r.analysis == Some(a)
    ensures a.isHarmful ==> r.messages == s.messages + [AI(Refusal)]
    ensures !a.isHarmful ==> r.messages == s.messages + [Human(s.userRequest)]
    ensures r == s.(analysis := r.analysis, messages := r.messages)
  {
    var m := if a.isHarmful then AI(Refusal) else Human(s.userRequest);
    s.(analysis := Some(a), messages := s.messages + [m])
  }

  /** `route_harmful_query`: a harmful request ends the run, any other goes to the planner. */
  function RouteHarmfulQuery(s: Session): (r: Result<Node, Error>)
    ensures r.Success? <==> s.analysis.Some?
    ensures r.Failure? ==> r.error == MissingKey("user_request_analysis")
    ensures r.Success? ==> r.value in {End, PlannerNode}
    ensures r.Success? ==> (r.value == End <==> s.analysis.value.isHarmful)
  {
    match s.analysis
    case None => Failure(MissingKey("user_request_analysis"))
    case Some(a) => if a.isHarmful then Success(End) else Success(PlannerNode)
  }

  // ---------------------------------------------------------------------
  // Search planning and web search
  // ---------------------------------------------------------------------

  /** The planned queries as session entries, none of them performed yet. */
  function PlannedItems(plan: seq<SearchQuery>): (r: seq<QueryItem>)
    ensures |r| == |plan|
    ensures forall i :: 0 <= i < |r| ==>
      r[i].queryId == plan[i].queryId && r[i].query == plan[i].query && !r[i].searchPerformed
  {
    seq(|plan|, i requires 0 <= i < |plan| => QueryItem(plan[i].queryId, plan[i].query, false))
  }

  /**
   * `search_query_planner`: the model's plan (`None` when it could not be
   * parsed) must hold at least one query; its queries are added after the
   * earlier ones.
   */
  function SearchQueryPlanner(s: Session, raw: Option<seq<SearchQuery>>): (r: Result<Session, Error>)
    ensures r.Success? <==> raw.Some? && |raw.value| >= 1
    ensures r.Failure? ==> r.error == PlanParseError
    ensures r.Success? ==> r.value.searchQueries == s.searchQueries + PlannedItems(raw.value)
    ensures r.Success? ==> r.value == s.(searchQueries := r.value.searchQueries)
  {
    match raw
    case None => Failure(PlanParseError)
    case Some(qs) =>
      match ValidateSearchPlan(qs)
      case None => Failure(PlanParseError)
      case Some(plan) => Success(s.(searchQueries := s.searchQueries + PlannedItems(plan)))
  }

  /** The search provider: the organic results for a query, or `None` without any. */
  type Provider = string -> Option<seq<Metadata>>

  /** The texts of the queries not yet performed, in order. */
  function Unperformed(items: seq<QueryItem>): seq<string>
  {
    if |items| == 0 then []
    else (if items[0].searchPerformed then [] else [items[0].query]) + Unperformed(items[1..])
  }

  /** Each result's metadata tagged with the query's `query_id`. */
  function Tag(results: seq<Source>, id: int): (r: seq<Source>)
    ensures |r| == |results|
    ensures forall i :: 0 <= i < |r| ==>
      r[i] == Source(results[i].metadata["query_id" := Int(id)], results[i].storedInDb)
  {
    seq(|results|, i requires 0 <= i < |results| =>
      Source(results[i].metadata["query_id" := Int(id)], results[i].storedInDb))
  }

  /** The outcome of the web-search loop. */
  datatype Searched = Searched(items: seq<QueryItem>, found: seq<Source>, issued: seq<string>)

  /**
   * The loop of `web_search`: each query not yet performed is searched,
   * marked and its results tagged; performed ones are skipped.
   */
  function SearchAll(items: seq<QueryItem>, provider: Provider): (r: Searched)
    ensures |r.items| == |items|
    ensures forall i :: 0 <= i < |items| ==> r.items[i] == items[i].(searchPerformed := true)
    ensures r.issued == Unperformed(items)
    ensures |r.found| <= MaxSearchResults * |r.issued|
    ensures forall i :: 0 <= i < |r.found| ==> !r.found[i].storedInDb && "query_id" in r.found[i].metadata
    ensures |items| == 1 ==> r.found == if items[0].searchPerformed then [] else
      Tag(RetrieveSearchResults(provider(items[0].query), MaxSearchResults), items[0].queryId)
  {
    if |items| == 0 then Searched([], [], [])
    else
      var rest := SearchAll(items[1..], provider);
      var q := items[0];
      if q.searchPerformed then Searched([q] + rest.items, rest.found, rest.issued)
      else
        var hits := Tag(RetrieveSearchResults(provider(q.query), MaxSearchResults), q.queryId);
        Searched([q.(searchPerformed := true)] + rest.items, hits + rest.found, [q.query] + rest.issued)
  }

  /**
   * Searching two runs of queries is searching the first run, then the
   * second: the marked queries, the results and the issued query texts are
   * the first run's followed by the second's.
   */
  lemma {:induction false} SearchAllConcat(a: seq<QueryItem>, b: seq<QueryItem>, provider: Provider)
    ensures var r, ra, rb := SearchAll(a + b, provider), SearchAll(a, provider), SearchAll(b, provider);
      r == Searched(ra.items + rb.items, ra.found + rb.found, ra.issued + rb.issued)
  {
    if |a| == 0 {
      assert a + b == b;
      var rb := SearchAll(b, provider);
      assert [] + rb.items == rb.items && [] + rb.found == rb.found && [] + rb.issued == rb.issued;
    } else {
      assert (a + b)[0] == a[0];
      assert (a + b)[1..] == a[1..] + b;
      SearchAllConcat(a[1..], b, provider);
      var q := a[0];
      var a1, rb := SearchAll(a[1..], provider), SearchAll(b, provider);
      var head := if q.searchPerformed then [q] else [q.(searchPerformed := true)];
      var hits := if q.searchPerformed then [] else Tag(RetrieveSearchResults(provider(q.query), MaxSearchResults), q.queryId);
      var sent := if q.searchPerformed then [] else [q.query];
      assert SearchAll(a, provider) == Searched(head + a1.items, hits + a1.found, sent + a1.issued);
      AppendAssoc(head, a1.items, rb.items);
      AppendAssoc(hits, a1.found, rb.found);
      AppendAssoc(sent, a1.issued, rb.issued);
    }
  }

  /**
   * `web_search`: the session afterwards, and the query texts sent to the
   * provider, in order.
   */
  function WebSearch(s: Session, provider: Provider): (r: (Session, seq<string>))
    ensures r.1 == Unperformed(s.searchQueries)
    ensures |r.0.searchQueries| == |s.searchQueries|
    ensures forall i :: 0 <= i < |s.searchQueries| ==>
      r.0.searchQueries[i] == s.searchQueries[i].(searchPerformed := true)
    ensures r.0.sourcesData == s.sourcesData + SearchAll(s.searchQueries, provider).found
    ensures |s.sourcesData| <= |r.0.sourcesData| && r.0.sourcesData[..|s.sourcesData|] == s.sourcesData
    ensures r.0 == s.(searchQueries := r.0.searchQueries, sourcesData := r.0.sourcesData)
  {
    var out := SearchAll(s.searchQueries, provider);
    (s.(searchQueries := out.items, sourcesData := s.sourcesData + out.found), out.issued)
  }

  /** With every query performed there is nothing to search. */
  lemma {:induction false} AllPerformedNothingIssued(items: seq<QueryItem>)
    requires forall i :: 0 <= i < |items| ==> items[i].searchPerformed
    ensures Unperformed(items) == []
  {
    if |items| > 0 {
      AllPerformedNothingIssued(items[1..]);
    }
  }

  /**
   * A second `web_search` with no new queries sends nothing to the provider
   * and leaves the session as it is.
   */
  lemma WebSearchIdempotent(s: Session, provider: Provider)
    ensures var t := WebSearch(s, provider).0;
      WebSearch(t, provider) == (t, [])
  {
    var t := WebSearch(s, provider).0;
    AllPerformedNothingIssued(t.searchQueries);
    var out := SearchAll(t.searchQueries, provider);
    assert out.items == t.searchQueries;
    assert |out.found| == 0;
    assert t.sourcesData + out.found == t.sourcesData;
  }

  // ---------------------------------------------------------------------
  // Data extraction
  // ---------------------------------------------------------------------

  /** At most this many links are fetched per pass. */
  const MaxLinksPerPass: nat := 10

  /** The splitter's chunk size. */
  const ExtractChunkSize: int := 5000

  /** Both thresholds of the content filter. */
  const FilterThreshold: real := 0.3

  /** The robots.txt permission test. */
  type CanFetch = string -> bool

  /**
   * The page loader: the url-to-page dictionary's items for a list of urls.
   * A `None` answer (any exception inside the loader) is taken as no pages.
   * Real answers come from a dictionary keyed by the requested urls, so
   * each url occurs at most once and only requested urls occur; the model
   * does not rely on this.
   */
  type Loader = seq<string> -> seq<Fetched>

  /** Splitting a page and filtering it into store insertions, for given metadata; it may raise. */
  type Ingest = (string, Metadata) -> Result<seq<Insert>, Error>

  /** The text machinery behind ingestion: header splitter, sub-splitter and language models. */
  datatype TextTools = TextTools(headerSplit: string -> seq<Section>, subSplit: SubSplitter, nlp: Nlp)

  /**
   * A page split into chunk groups and filtered by `f` into store
   * insertions. A page that splits into no group at all makes the filter's
   * closing log line read the unbound `headers` and raise.
   */
  function IngestWith(tools: TextTools, f: ContentFilter, content: string, md: Metadata): (r: Result<seq<Insert>, Error>)
    ensures r.Failure? <==> SplitText(tools.headerSplit(content), ExtractChunkSize, tools.subSplit).order == []
    ensures r.Failure? ==> r.error == UnboundName("headers")
    ensures r.Success? ==> |r.value| <= |SplitText(tools.headerSplit(content), ExtractChunkSize, tools.subSplit).order|
    ensures r.Success? ==>
      r.value == FilterGroups(f, tools.nlp, SplitText(tools.headerSplit(content), ExtractChunkSize, tools.subSplit).Items(), md)
  {
    var d := SplitText(tools.headerSplit(content), ExtractChunkSize, tools.subSplit);
    match FilterAndAdd(f, tools.nlp, d.Items(), md)
    case None => Failure(UnboundName("headers"))
    case Some(inserts) => Success(inserts)
  }

  /** The string `link`s of the sources, in source order; a link two sources share occurs twice. */
  function Links(sources: seq<Source>): (r: seq<string>)
    ensures |r| <= |sources|
    ensures forall u :: u in r <==> exists i :: 0 <= i < |sources| && LinkOf(sources[i].metadata) == Some(u)
  {
    if |sources| == 0 then []
    else
      assert forall i :: 1 <= i < |sources| ==> sources[i] == sources[1..][i - 1];
      (match LinkOf(sources[0].metadata) case Some(u) => [u] case None => []) + Links(sources[1..])
  }

  /**
   * The links of two runs of sources are the first run's, then the
   * second's; a single source gives its string link or nothing.
   */
  lemma {:induction false} LinksConcat(a: seq<Source>, b: seq<Source>)
    ensures Links(a + b) == Links(a) + Links(b)
    ensures |a| == 1 ==> Links(a) == match LinkOf(a[0].metadata) case Some(u) => [u] case None => []
  {
    if |a| == 0 {
      assert a + b == b;
    } else {
      assert (a + b)[0] == a[0];
      assert (a + b)[1..] == a[1..] + b;
      LinksConcat(a[1..], b);
      assert |a| == 1 ==> Links(a[1..]) == [];
    }
  }

  /** The test a link must pass to be fetched: not visited yet, and permitted by robots.txt. */
  function Fetchable(visited: set<string>, canFetch: CanFetch): string -> bool
  {
    u => u !in visited && canFetch(u)
  }

  /**
   * Every link the worklist may draw from: the unvisited source links, then
   * those robots.txt permits; that is, the fetchable source links in source
   * order.
   */
  function Eligible(sources: seq<Source>, visited: set<string>, canFetch: CanFetch): (r: seq<string>)
    ensures r == Filter(Links(sources), Fetchable(visited, canFetch))
    ensures forall u :: u in r <==> (u !in visited && canFetch(u) &&
      exists i :: 0 <= i < |sources| && LinkOf(sources[i].metadata) == Some(u))
  {
    FilterFilter(Links(sources), NotIn(visited), canFetch, Fetchable(visited, canFetch));
    Filter(Filter(Links(sources), NotIn(visited)), canFetch)
  }

  /** The eligible links of two runs of sources are the first run's, then the second's. */
  lemma EligibleConcat(a: seq<Source>, b: seq<Source>, visited: set<string>, canFetch: CanFetch)
    ensures Eligible(a + b, visited, canFetch) == Eligible(a, visited, canFetch) + Eligible(b, visited, canFetch)
  {
    LinksConcat(a, b);
    FilterConcat(Links(a), Links(b), Fetchable(visited, canFetch));
  }

  /**
   * The fetch worklist: the first ten eligible links, in source order, or
   * all of them when there are fewer.
   */
  function Worklist(s: Session, canFetch: CanFetch): (r: seq<string>)
    ensures |r| <= MaxLinksPerPass
    ensures forall u :: u in r ==> (u !in s.visitedLinks && canFetch(u) &&
      exists i :: 0 <= i < |s.sourcesData| && LinkOf(s.sourcesData[i].metadata) == Some(u))
    ensures |r| <= |Eligible(s.sourcesData, s.visitedLinks, canFetch)|
    ensures r == Eligible(s.sourcesData, s.visitedLinks, canFetch)[..|r|]
    ensures |r| == MaxLinksPerPass || r == Eligible(s.sourcesData, s.visitedLinks, canFetch)
  {
    Take(Eligible(s.sourcesData, s.visitedLinks, canFetch), MaxLinksPerPass)
  }

  /** A source whose string link the loader returned a page for. */
  predicate Hit(src: Source, loaded: seq<Fetched>)
  {
    LinkOf(src.metadata).Some? && LookupPage(loaded, LinkOf(src.metadata).value).Some?
  }

  /** The page returned for a hit source. */
  function PageOf(src: Source, loaded: seq<Fetched>): Page
    requires Hit(src, loaded)
  {
    LookupPage(loaded, LinkOf(src.metadata).value).value
  }

  /**
   * A source after the pass: a hit source takes the page's metadata over
   * its own and has its latch set; any other source is unchanged.
   */
  function Updated(src: Source, loaded: seq<Fetched>): (r: Source)
    ensures Hit(src, loaded) ==> r.storedInDb && r.metadata.Keys == src.metadata.Keys + PageOf(src, loaded).metadata.Keys
    ensures Hit(src, loaded) ==> forall k :: k in r.metadata ==>
      r.metadata[k] == if k in PageOf(src, loaded).metadata then PageOf(src, loaded).metadata[k] else src.metadata[k]
    ensures !Hit(src, loaded) ==> r == src
  {
    if Hit(src, loaded) then Source(src.metadata + PageOf(src, loaded).metadata, true) else src
  }

  /**
   * One source's turn in the pass: reading its `link` raises when the key is
   * missing; a hit source whose latch was unset has its page, under the
   * updated metadata, filtered into the store; any other source adds
   * nothing.
   */
  function SourceInserts(src: Source, loaded: seq<Fetched>, ingest: Ingest): (r: Result<seq<Insert>, Error>)
    ensures "link" !in src.metadata ==> r == Failure(MissingKey("link"))
    ensures "link" in src.metadata && (!Hit(src, loaded) || src.storedInDb) ==> r == Success([])
    ensures "link" in src.metadata && Hit(src, loaded) && !src.storedInDb ==>
      r == ingest(PageOf(src, loaded).content, Updated(src, loaded).metadata)
  {
    if "link" !in src.metadata then Failure(MissingKey("link"))
    else if Hit(src, loaded) && !src.storedInDb then ingest(PageOf(src, loaded).content, Updated(src, loaded).metadata)
    else Success([])
  }

  /** Source `i` is the first whose turn raises. */
  predicate FirstFailingSource(srcs: seq<Source>, loaded: seq<Fetched>, ingest: Ingest, i: int)
  {
    0 <= i < |srcs| && SourceInserts(srcs[i], loaded, ingest).Failure? &&
    forall j :: 0 <= j < i ==> SourceInserts(srcs[j], loaded, ingest).Success?
  }

  /** The outcome of a pass over the sources: updated sources, insertions, newly visited links. */
  datatype Extracted = Extracted(sources: seq<Source>, inserts: seq<Insert>, visited: set<string>) {
    /** This outcome followed by `next`. */
    function Then(next: Extracted): Extracted
    {
      Extracted(sources + next.sources, inserts + next.inserts, visited + next.visited)
    }
  }

  const NothingExtracted := Extracted([], [], {})

  lemma ThenAssoc(x: Extracted, y: Extracted, z: Extracted)
    ensures x.Then(y.Then(z)) == x.Then(y).Then(z)
    ensures NothingExtracted.Then(x) == x
  {
    AppendAssoc(x.sources, y.sources, z.sources);
    AppendAssoc(x.inserts, y.inserts, z.inserts);
    assert [] + x.sources == x.sources;
    assert [] + x.inserts == x.inserts;
  }

  /**
   * The first loop of `data_extracter`: the sources in order, each updated
   * and, when hit, its link marked visited. The first source whose turn
   * raises stops the pass with that error.
   */
  function ExtractSources(srcs: seq<Source>, loaded: seq<Fetched>, ingest: Ingest): (r: Result<Extracted, Error>)
    ensures r.Success? <==> forall i :: 0 <= i < |srcs| ==> SourceInserts(srcs[i], loaded, ingest).Success?
    ensures r.Failure? ==> exists i :: FirstFailingSource(srcs, loaded, ingest, i) && SourceInserts(srcs[i], loaded, ingest) == Failure(r.error)
    ensures r.Success? ==> |r.value.sources| == |srcs|
    ensures r.Success? ==> forall i :: 0 <= i < |srcs| ==> r.value.sources[i] == Updated(srcs[i], loaded)
  {
    if |srcs| == 0 then Success(NothingExtracted)
    else
      var src := srcs[0];
      assert forall i :: 1 <= i < |srcs| ==> srcs[i] == srcs[1..][i - 1];
      match SourceInserts(src, loaded, ingest)
      case Failure(e) => Failure(e)
      case Success(own) =>
        match ExtractSources(srcs[1..], loaded, ingest)
        case Failure(e) => Failure(e)
        case Success(rest) =>
          var seen: set<string> := if Hit(src, loaded) then {LinkOf(src.metadata).value} else {};
          Success(Extracted([Updated(src, loaded)], own, seen).Then(rest))
  }

  /**
   * A pass over two runs of sources is the pass over the first run followed
   * by the pass over the second: it succeeds when both do, and its updated
   * sources, insertions and visited links are the first's then the
   * second's. A single source's insertions are that source's.
   */
  lemma {:induction false} ExtractConcat(a: seq<Source>, b: seq<Source>, loaded: seq<Fetched>, ingest: Ingest)
    ensures var r, ra, rb := ExtractSources(a + b, loaded, ingest), ExtractSources(a, loaded, ingest), ExtractSources(b, loaded, ingest);
      && (r.Success? <==> ra.Success? && rb.Success?)
      && (r.Success? ==> r.value == ra.value.Then(rb.value))
    ensures |a| == 1 && ExtractSources(a, loaded, ingest).Success? ==>
      ExtractSources(a, loaded, ingest).value.inserts == SourceInserts(a[0], loaded, ingest).value
  {
    if |a| == 0 {
      assert a + b == b;
      if ExtractSources(b, loaded, ingest).Success? {
        ThenAssoc(ExtractSources(b, loaded, ingest).value, NothingExtracted, NothingExtracted);
      }
    } else {
      var src := a[0];
      assert (a + b)[0] == src;
      assert (a + b)[1..] == a[1..] + b;
      ExtractConcat(a[1..], b, loaded, ingest);
      if |a| == 1 {
        assert a[1..] == [];
      }
      if ExtractSources(a + b, loaded, ingest).Success? {
        var seen: set<string> := if Hit(src, loaded) then {LinkOf(src.metadata).value} else {};
        var head := Extracted([Updated(src, loaded)], SourceInserts(src, loaded, ingest).value, seen);
        ThenAssoc(head, ExtractSources(a[1..], loaded, ingest).value, ExtractSources(b, loaded, ingest).value);
      }
    }
  }

  /** The pass marks visited exactly the links of the hit sources. */
  lemma {:induction false} ExtractVisitsHits(srcs: seq<Source>, loaded: seq<Fetched>, ingest: Ingest)
    requires ExtractSources(srcs, loaded, ingest).Success?
    ensures forall u :: u in ExtractSources(srcs, loaded, ingest).value.visited <==>
      exists i :: 0 <= i < |srcs| && Hit(srcs[i], loaded) && LinkOf(srcs[i].metadata) == Some(u)
  {
    if |srcs| > 0 {
      assert forall i :: 1 <= i < |srcs| ==> srcs[i] == srcs[1..][i - 1];
      ExtractVisitsHits(srcs[1..], loaded, ingest);
      var r := ExtractSources(srcs, loaded, ingest).value;
      var rest := ExtractSources(srcs[1..], loaded, ingest).value;
      forall u | u in r.visited
        ensures exists i :: 0 <= i < |srcs| && Hit(srcs[i], loaded) && LinkOf(srcs[i].metadata) == Some(u)
      {
        if u !in rest.visited {
          assert Hit(srcs[0], loaded) && LinkOf(srcs[0].metadata) == Some(u);
        }
      }
    }
  }

  /** Nothing is filtered when every hit source already has its latch set. */
  lemma {:induction false} LatchedSourcesAddNothing(srcs: seq<Source>, loaded: seq<Fetched>, ingest: Ingest)
    requires ExtractSources(srcs, loaded, ingest).Success?
    requires forall i :: 0 <= i < |srcs| ==> !Hit(srcs[i], loaded) || srcs[i].storedInDb
    ensures ExtractSources(srcs, loaded, ingest).value.inserts == []
  {
    if |srcs| > 0 {
      assert forall i :: 1 <= i < |srcs| ==> srcs[i] == srcs[1..][i - 1];
      LatchedSourcesAddNothing(srcs[1..], loaded, ingest);
      assert SourceInserts(srcs[0], loaded, ingest) == Success([]);
    }
  }

  /**
   * A second pass with the same loader output succeeds and adds nothing to
   * the store: every source filtered by the first pass has its latch set.
   */
  lemma ExtractTwiceNoInserts(srcs: seq<Source>, loaded: seq<Fetched>, ingest: Ingest)
    requires ExtractSources(srcs, loaded, ingest).Success?
    ensures var once := ExtractSources(srcs, loaded, ingest).value.sources;
      ExtractSources(once, loaded, ingest).Success? && ExtractSources(once, loaded, ingest).value.inserts == []
  {
    var once := ExtractSources(srcs, loaded, ingest).value.sources;
    forall i | 0 <= i < |once|
      ensures SourceInserts(once[i], loaded, ingest) == Success([])
      ensures !Hit(once[i], loaded) || once[i].storedInDb
    {
      assert once[i] == Updated(srcs[i], loaded);
      assert SourceInserts(srcs[i], loaded, ingest).Success?;
    }
    LatchedSourcesAddNothing(once, loaded, ingest);
  }

  /**
   * The fetch of the worklist: with a non-empty worklist and a non-empty
   * loader answer, the sources pass runs and its insertions and visited
   * links are recorded; an error of the pass is the first failing source's.
   */
  function FetchListed(s: Session, canFetch: CanFetch, load: Loader, ingest: Ingest): (r: Result<Session, Error>)
    ensures r.Success? ==> s.visitedLinks <= r.value.visitedLinks
    ensures r.Success? ==> |r.value.sourcesData| == |s.sourcesData|
    ensures r.Success? ==> forall i :: 0 <= i < |s.sourcesData| && s.sourcesData[i].storedInDb ==>
      r.value.sourcesData[i].storedInDb
    ensures r.Success? ==> |s.stored| <= |r.value.stored| && r.value.stored[..|s.stored|] == s.stored
    ensures Worklist(s, canFetch) == [] || load(Worklist(s, canFetch)) == [] ==> r == Success(s)
    ensures r.Failure? ==> exists i :: 0 <= i < |s.sourcesData| && SourceInserts(s.sourcesData[i], load(Worklist(s, canFetch)), ingest) == Failure(r.error)
    ensures r.Success? ==> r.value == s.(sourcesData := r.value.sourcesData, stored := r.value.stored,
                                         visitedLinks := r.value.visitedLinks)
  {
    var work := Worklist(s, canFetch);
    if work == [] then Success(s)
    else
      var loaded := load(work);
      if loaded == [] then Success(s)
      else
        match ExtractSources(s.sourcesData, loaded, ingest)
        case Failure(e) => Failure(e)
        case Success(x) =>
          Success(s.(sourcesData := x.sources, stored := s.stored + x.inserts,
                     visitedLinks := s.visitedLinks + x.visited))
  }

  /**
   * The crawled links to fetch: the relevant links not visited yet, then
   * those robots.txt permits; that is, the fetchable relevant links in
   * order.
   */
  function AdditionalLinks(s: Session, canFetch: CanFetch): (r: seq<string>)
    ensures r == Filter(s.relevantLinks, Fetchable(s.visitedLinks, canFetch))
    ensures forall u :: u in r <==> u in s.relevantLinks && u !in s.visitedLinks && canFetch(u)
  {
    FilterFilter(s.relevantLinks, NotIn(s.visitedLinks), canFetch, Fetchable(s.visitedLinks, canFetch));
    Filter(Filter(s.relevantLinks, NotIn(s.visitedLinks)), canFetch)
  }

  /** A crawled page's metadata with its url under `link`. */
  function CrawledMetadata(f: Fetched): (r: Metadata)
    ensures LinkOf(r) == Some(f.url)
    ensures r.Keys == f.page.metadata.Keys + {"link"}
  {
    f.page.metadata["link" := Str(f.url)]
  }

  /** One crawled page filtered into the store under its metadata. */
  function PageInserts(f: Fetched, ingest: Ingest): Result<seq<Insert>, Error>
  {
    ingest(f.page.content, CrawledMetadata(f))
  }

  /** Page `i` is the first whose filtering raises. */
  predicate FirstFailingPage(loaded: seq<Fetched>, ingest: Ingest, i: int)
  {
    0 <= i < |loaded| && PageInserts(loaded[i], ingest).Failure? &&
    forall j :: 0 <= j < i ==> PageInserts(loaded[j], ingest).Success?
  }

  /**
   * The loop over the loader's answer for the crawled links: every page is
   * filtered into the store, added as a stored source and marked visited;
   * the first page whose filtering raises stops the loop with that error.
   */
  function CrawlLoaded(loaded: seq<Fetched>, ingest: Ingest): (r: Result<Extracted, Error>)
    ensures r.Success? <==> forall i :: 0 <= i < |loaded| ==> PageInserts(loaded[i], ingest).Success?
    ensures r.Failure? ==> exists i :: FirstFailingPage(loaded, ingest, i) && PageInserts(loaded[i], ingest) == Failure(r.error)
    ensures r.Success? ==> |r.value.sources| == |loaded|
    ensures r.Success? ==> forall i :: 0 <= i < |loaded| ==> r.value.sources[i] == Source(CrawledMetadata(loaded[i]), true)
  {
    if |loaded| == 0 then Success(NothingExtracted)
    else
      var f := loaded[0];
      assert forall i :: 1 <= i < |loaded| ==> loaded[i] == loaded[1..][i - 1];
      match PageInserts(f, ingest)
      case Failure(e) => Failure(e)
      case Success(own) =>
        match CrawlLoaded(loaded[1..], ingest)
        case Failure(e) => Failure(e)
        case Success(rest) =>
          Success(Extracted([Source(CrawledMetadata(f), true)], own, {f.url}).Then(rest))
  }

  /** The crawl loop marks visited exactly the urls of the loaded pages. */
  lemma {:induction false} CrawlVisitsPages(loaded: seq<Fetched>, ingest: Ingest)
    requires CrawlLoaded(loaded, ingest).Success?
    ensures forall u :: u in CrawlLoaded(loaded, ingest).value.visited <==> exists i :: 0 <= i < |loaded| && loaded[i].url == u
  {
    if |loaded| > 0 {
      assert forall i :: 1 <= i < |loaded| ==> loaded[i] == loaded[1..][i - 1];
      CrawlVisitsPages(loaded[1..], ingest);
      var r := CrawlLoaded(loaded, ingest).value;
      var rest := CrawlLoaded(loaded[1..], ingest).value;
      assert r.visited == {loaded[0].url} + rest.visited;
    }
  }

  /** Every url the crawl loop marks visited is the `link` of one of the sources it adds. */
  lemma CrawledLinksListed(loaded: seq<Fetched>, ingest: Ingest)
    requires CrawlLoaded(loaded, ingest).Success?
    ensures var c := CrawlLoaded(loaded, ingest).value;
      forall u :: u in c.visited ==> exists i :: 0 <= i < |c.sources| && LinkOf(c.sources[i].metadata) == Some(u)
  {
    var c := CrawlLoaded(loaded, ingest).value;
    CrawlVisitsPages(loaded, ingest);
    forall u | u in c.visited
      ensures exists i :: 0 <= i < |c.sources| && LinkOf(c.sources[i].metadata) == Some(u)
    {
      var i :| 0 <= i < |loaded| && loaded[i].url == u;
      assert LinkOf(c.sources[i].metadata) == Some(u);
    }
  }

  /**
   * The crawl loop over two runs of pages is the loop over the first run
   * followed by the loop over the second; a single page's insertions are
   * its own filtering's.
   */
  lemma {:induction false} CrawlLoadedConcat(a: seq<Fetched>, b: seq<Fetched>, ingest: Ingest)
    ensures var r, ra, rb := CrawlLoaded(a + b, ingest), CrawlLoaded(a, ingest), CrawlLoaded(b, ingest);
      && (r.Success? <==> ra.Success? && rb.Success?)
      && (r.Success? ==> r.value == ra.value.Then(rb.value))
    ensures |a| == 1 && CrawlLoaded(a, ingest).Success? ==>
      CrawlLoaded(a, ingest).value.inserts == PageInserts(a[0], ingest).value
  {
    if |a| == 0 {
      assert a + b == b;
      if CrawlLoaded(b, ingest).Success? {
        ThenAssoc(CrawlLoaded(b, ingest).value, NothingExtracted, NothingExtracted);
      }
    } else {
      var f := a[0];
      assert (a + b)[0] == f;
      assert (a + b)[1..] == a[1..] + b;
      CrawlLoadedConcat(a[1..], b, ingest);
      if |a| == 1 {
        assert a[1..] == [];
      }
      if CrawlLoaded(a + b, ingest).Success? {
        var head := Extracted([Source(CrawledMetadata(f), true)], PageInserts(f, ingest).value, {f.url});
        ThenAssoc(head, CrawlLoaded(a[1..], ingest).value, CrawlLoaded(b, ingest).value);
      }
    }
  }

  /**
   * The session after a successful crawl loop: one more crawl level, the
   * new sources after the old, the insertions recorded, the pages' links
   * visited.
   */
  function AddCrawled(s: Session, c: Extracted): (r: Session)
    requires forall u :: u in c.visited ==> exists i :: 0 <= i < |c.sources| && LinkOf(c.sources[i].metadata) == Some(u)
    ensures r.crawlDepth == s.crawlDepth + 1
    ensures s.visitedLinks <= r.visitedLinks
    ensures forall u :: u in r.visitedLinks - s.visitedLinks ==>
      exists i :: 0 <= i < |r.sourcesData| && LinkOf(r.sourcesData[i].metadata) == Some(u)
    ensures |s.sourcesData| <= |r.sourcesData| && r.sourcesData[..|s.sourcesData|] == s.sourcesData
    ensures |r.sourcesData| == |s.sourcesData| + |c.sources|
    ensures forall i :: 0 <= i < |c.sources| ==> r.sourcesData[|s.sourcesData| + i] == c.sources[i]
    ensures |s.stored| <= |r.stored| && r.stored[..|s.stored|] == s.stored
    ensures r == s.(crawlDepth := r.crawlDepth, sourcesData := r.sourcesData, stored := r.stored,
                    visitedLinks := r.visitedLinks)
  {
    var r := s.(crawlDepth := s.crawlDepth + 1, sourcesData := s.sourcesData + c.sources,
                stored := s.stored + c.inserts, visitedLinks := s.visitedLinks + c.visited);
    assert forall i :: 0 <= i < |c.sources| ==> r.sourcesData[|s.sourcesData| + i] == c.sources[i];
    r
  }

  /**
   * The crawled-links half of `data_extracter`, with the loader awaited:
   * the crawl depth grows by one exactly when there are links to fetch; an
   * error is the crawl loop's.
   */
  function CrawlAdditional(s: Session, canFetch: CanFetch, load: Loader, ingest: Ingest): (r: Result<Session, Error>)
    ensures AdditionalLinks(s, canFetch) == [] ==> r == Success(s)
    ensures r.Failure? ==> CrawlLoaded(load(AdditionalLinks(s, canFetch)), ingest) == Failure(r.error)
    ensures r.Success? ==> r.value.crawlDepth == s.crawlDepth + (if AdditionalLinks(s, canFetch) == [] then 0 else 1)
    ensures r.Success? ==> s.visitedLinks <= r.value.visitedLinks
    ensures r.Success? ==> forall u :: u in r.value.visitedLinks - s.visitedLinks ==>
      exists i :: 0 <= i < |r.value.sourcesData| && LinkOf(r.value.sourcesData[i].metadata) == Some(u)
    ensures r.Success? ==> |s.sourcesData| <= |r.value.sourcesData| && r.value.sourcesData[..|s.sourcesData|] == s.sourcesData
    ensures r.Success? ==> forall i :: |s.sourcesData| <= i < |r.value.sourcesData| ==> r.value.sourcesData[i].storedInDb
    ensures r.Success? ==> |s.stored| <= |r.value.stored| && r.value.stored[..|s.stored|] == s.stored
    ensures r.Success? ==> r.value == s.(crawlDepth := r.value.crawlDepth, sourcesData := r.value.sourcesData,
                                         stored := r.value.stored, visitedLinks := r.value.visitedLinks)
  {
    var extra := AdditionalLinks(s, canFetch);
    if extra == [] then Success(s)
    else
      var loaded := load(extra);
      match CrawlLoaded(loaded, ingest)
      case Failure(e) => Failure(e)
      case Success(c) =>
        CrawledLinksListed(loaded, ingest);
        Success(AddCrawled(s, c))
  }

  /**
   * The crawled-links half as written: the loader is called without being
   * awaited, so reading the coroutine's `items` raises as soon as there is
   * a link to fetch.
   */
  function CrawlAdditionalAsWritten(s: Session, canFetch: CanFetch): (r: Result<Session, Error>)
    ensures r.Failure? <==> AdditionalLinks(s, canFetch) != []
    ensures r.Failure? ==> r.error == MissingAttribute("items")
    ensures r.Success? ==> r.value == s
  {
    if AdditionalLinks(s, canFetch) != [] then Failure(MissingAttribute("items")) else Success(s)
  }

  /** The content filter built from the session's analysis, both thresholds 0.3. */
  function FilterOf(a: QueryAnalysis): ContentFilter
  {
    ContentFilter(a.parameters, FilterThreshold, FilterThreshold)
  }

  /** The ingestion of pages under the session's content filter. */
  function IngestFor(tools: TextTools, a: QueryAnalysis): Ingest
  {
    (content: string, md: Metadata) => IngestWith(tools, FilterOf(a), content, md)
  }

  /** Under the session's filter, a source's turn raises only on a missing `link` or an unsplittable page. */
  lemma SourceErrors(src: Source, loaded: seq<Fetched>, tools: TextTools, a: QueryAnalysis)
    ensures SourceInserts(src, loaded, IngestFor(tools, a)).Failure? ==>
      SourceInserts(src, loaded, IngestFor(tools, a)).error in {MissingKey("link"), UnboundName("headers")}
  {
    if "link" in src.metadata && Hit(src, loaded) && !src.storedInDb {
      var md := Updated(src, loaded).metadata;
      assert IngestFor(tools, a)(PageOf(src, loaded).content, md) == IngestWith(tools, FilterOf(a), PageOf(src, loaded).content, md);
    }
  }

  /** Under the session's filter, the worklist fetch raises only on a missing `link` or an unsplittable page. */
  lemma FetchListedErrors(s: Session, canFetch: CanFetch, load: Loader, tools: TextTools, a: QueryAnalysis)
    ensures var r := FetchListed(s, canFetch, load, IngestFor(tools, a));
      r.Failure? ==> r.error in {MissingKey("link"), UnboundName("headers")}
  {
    var ingest := IngestFor(tools, a);
    var r := FetchListed(s, canFetch, load, ingest);
    if r.Failure? {
      var loaded := load(Worklist(s, canFetch));
      var i :| 0 <= i < |s.sourcesData| && SourceInserts(s.sourcesData[i], loaded, ingest) == Failure(r.error);
      SourceErrors(s.sourcesData[i], loaded, tools, a);
    }
  }

  /** Under the session's filter, the crawled-links fetch raises only on an unsplittable page. */
  lemma CrawlAdditionalErrors(s: Session, canFetch: CanFetch, load: Loader, tools: TextTools, a: QueryAnalysis)
    ensures var r := CrawlAdditional(s, canFetch, load, IngestFor(tools, a));
      r.Failure? ==> r.error == UnboundName("headers")
  {
    var ingest := IngestFor(tools, a);
    var r := CrawlAdditional(s, canFetch, load, ingest);
    if r.Failure? {
      var pages := load(AdditionalLinks(s, canFetch));
      var i :| FirstFailingPage(pages, ingest, i) && PageInserts(pages[i], ingest) == Failure(r.error);
      assert ingest(pages[i].page.content, CrawledMetadata(pages[i])) ==
        IngestWith(tools, FilterOf(a), pages[i].page.content, CrawledMetadata(pages[i]));
    }
  }

  /**
   * `data_extracter` with the crawled-links loader awaited: fetch the
   * worklist, then the crawled links. Visited links only grow, a source's
   * latch is never cleared, the store only grows and the crawl depth grows
   * by at most one; the errors are a missing analysis, a source without a
   * `link` and a page that splits into no group.
   */
  function DataExtracter(s: Session, canFetch: CanFetch, load: Loader, tools: TextTools): (r: Result<Session, Error>)
    ensures s.analysis.None? ==> r == Failure(MissingKey("user_request_analysis"))
    ensures s.analysis.Some? && r.Failure? ==> r.error in {MissingKey("link"), UnboundName("headers")}
    ensures r.Success? ==> s.visitedLinks <= r.value.visitedLinks
    ensures r.Success? ==> |s.sourcesData| <= |r.value.sourcesData|
    ensures r.Success? ==> forall i :: 0 <= i < |s.sourcesData| && s.sourcesData[i].storedInDb ==>
      r.value.sourcesData[i].storedInDb
    ensures r.Success? ==> |s.stored| <= |r.value.stored| && r.value.stored[..|s.stored|] == s.stored
    ensures r.Success? ==> r.value.crawlDepth == s.crawlDepth || r.value.crawlDepth == s.crawlDepth + 1
    ensures r.Success? ==> r.value == s.(sourcesData := r.value.sourcesData, stored := r.value.stored,
                                         visitedLinks := r.value.visitedLinks, crawlDepth := r.value.crawlDepth)
  {
    match s.analysis
    case None => Failure(MissingKey("user_request_analysis"))
    case Some(a) =>
      var ingest := IngestFor(tools, a);
      FetchListedErrors(s, canFetch, load, tools, a);
      match FetchListed(s, canFetch, load, ingest)
      case Failure(e) => Failure(e)
      case Success(t) =>
        CrawlAdditionalErrors(t, canFetch, load, tools, a);
        match CrawlAdditional(t, canFetch, load, ingest)
        case Failure(e) => Failure(e)
        case Success(r) =>
          assert r.stored[..|s.stored|] == t.stored[..|s.stored|];
          assert r.sourcesData[..|s.sourcesData|] == t.sourcesData;
          Success(r)
  }

  /**
   * With the loader awaited, the extracter adds latched sources only, and
   * goes one crawl level deeper exactly when the worklist pass leaves a
   * crawled link to fetch.
   */
  lemma DataExtracterCrawls(s: Session, canFetch: CanFetch, load: Loader, tools: TextTools)
    ensures DataExtracter(s, canFetch, load, tools).Success? ==>
      s.analysis.Some? && FetchListed(s, canFetch, load, IngestFor(tools, s.analysis.value)).Success?
    ensures DataExtracter(s, canFetch, load, tools).Success? ==>
      var r, t := DataExtracter(s, canFetch, load, tools).value, FetchListed(s, canFetch, load, IngestFor(tools, s.analysis.value)).value;
      && (forall i :: |s.sourcesData| <= i < |r.sourcesData| ==> r.sourcesData[i].storedInDb)
      && r.crawlDepth == s.crawlDepth + (if AdditionalLinks(t, canFetch) == [] then 0 else 1)
  {
    if DataExtracter(s, canFetch, load, tools).Success? {
      var ingest := IngestFor(tools, s.analysis.value);
      var t := FetchListed(s, canFetch, load, ingest).value;
      var r := DataExtracter(s, canFetch, load, tools).value;
      assert CrawlAdditional(t, canFetch, load, ingest) == Success(r);
    }
  }

  /**
   * `data_extracter` as written, with the crawled-links loader not awaited:
   * it succeeds only when no crawled link is left to fetch, and then the
   * crawl depth and the relevant links are as they were.
   */
  function DataExtracterAsWritten(s: Session, canFetch: CanFetch, load: Loader, tools: TextTools): (r: Result<Session, Error>)
    ensures s.analysis.None? ==> r == Failure(MissingKey("user_request_analysis"))
    ensures s.analysis.Some? && r.Failure? ==>
      r.error in {MissingKey("link"), UnboundName("headers"), MissingAttribute("items")}
    ensures r.Success? ==> AdditionalLinks(r.value, canFetch) == []
    ensures r.Success? ==> s.visitedLinks <= r.value.visitedLinks
    ensures r.Success? ==> |r.value.sourcesData| == |s.sourcesData|
    ensures r.Success? ==> forall i :: 0 <= i < |s.sourcesData| && s.sourcesData[i].storedInDb ==>
      r.value.sourcesData[i].storedInDb
    ensures r.Success? ==> |s.stored| <= |r.value.stored| && r.value.stored[..|s.stored|] == s.stored
    ensures r.Success? ==> r.value == s.(sourcesData := r.value.sourcesData, stored := r.value.stored,
                                         visitedLinks := r.value.visitedLinks)
  {
    match s.analysis
    case None => Failure(MissingKey("user_request_analysis"))
    case Some(a) =>
      var ingest := IngestFor(tools, a);
      FetchListedErrors(s, canFetch, load, tools, a);
      match FetchListed(s, canFetch, load, ingest)
      case Failure(e) => Failure(e)
      case Success(t) => CrawlAdditionalAsWritten(t, canFetch)
  }

  /**
   * As written, the extracter raises whenever a crawled link is left to
   * fetch after the worklist pass; when none is left it agrees with the
   * awaited version.
   */
  lemma AsWrittenExtracterFailsOnCrawledLinks(s: Session, canFetch: CanFetch, load: Loader, tools: TextTools)
    requires s.analysis.Some?
    requires FetchListed(s, canFetch, load, IngestFor(tools, s.analysis.value)).Success?
    ensures var t := FetchListed(s, canFetch, load, IngestFor(tools, s.analysis.value)).value;
      && (AdditionalLinks(t, canFetch) != [] ==>
            DataExtracterAsWritten(s, canFetch, load, tools) == Failure(MissingAttribute("items")))
      && (AdditionalLinks(t, canFetch) == [] ==>
            DataExtracterAsWritten(s, canFetch, load, tools) == DataExtracter(s, canFetch, load, tools))
  {
  }

  /** Without relevant links the two versions of the extracter agree. */
  lemma NoRelevantLinksVersionsAgree(s: Session, canFetch: CanFetch, load: Loader, tools: TextTools)
    requires s.relevantLinks == []
    ensures DataExtracterAsWritten(s, canFetch, load, tools) == DataExtracter(s, canFetch, load, tools)
  {
    match s.analysis
    case None =>
    case Some(a) =>
      var f := FetchListed(s, canFetch, load, IngestFor(tools, a));
      if f.Success? {
        assert f.value.relevantLinks == [];
        assert AdditionalLinks(f.value, canFetch) == [];
      }
  }

  // ---------------------------------------------------------------------
  // Retrieval, response generation and evaluation
  // ---------------------------------------------------------------------

  /** The documents of `batch` not among `earlier`, in batch order; repeats inside the batch stay. */
  function NewDocs(batch: seq<Document>, earlier: seq<Document>): (r: seq<Document>)
    ensures |r| <= |batch|
    ensures forall d :: d in r <==> d in batch && d !in earlier
    ensures (forall d :: d in batch ==> d in earlier) ==> r == []
  {
    var r := Filter(batch, d => d !in earlier);
    assert |r| > 0 ==> r[0] in batch && r[0] !in earlier;
    r
  }

  /**
   * The new documents of two runs of a batch are the first run's, then the
   * second's; each new document occurs as often as in the batch.
   */
  lemma NewDocsInOrder(a: seq<Document>, b: seq<Document>, earlier: seq<Document>, d: Document)
    ensures NewDocs(a + b, earlier) == NewDocs(a, earlier) + NewDocs(b, earlier)
    ensures multiset(NewDocs(a, earlier))[d] == if d in earlier then 0 else multiset(a)[d]
  {
    FilterConcat(a, b, x => x !in earlier);
    FilterCount(a, x => x !in earlier, d);
  }

  /**
   * A chunk stored again under a fresh id is a new document even when an
   * earlier copy with the same text and metadata was retrieved before.
   */
  lemma RestoredCopyIsNew(d1: Document, d2: Document)
    requires d1.pageContent == d2.pageContent && d1.metadata == d2.metadata
    ensures NewDocs([d2], [d1]) == [] <==> d1.id == d2.id
  {
  }

  /** The key a document's context line misses first: `link` is read before `source_reliability`. */
  function ContextError(d: Document): Option<Error>
  {
    if "link" !in d.metadata then Some(MissingKey("link"))
    else if "source_reliability" !in d.metadata then Some(MissingKey("source_reliability"))
    else None
  }

  /** Document `i` is the first whose context line raises. */
  predicate FirstBadContext(docs: seq<Document>, i: int)
  {
    0 <= i < |docs| && ContextError(docs[i]).Some? && forall j :: 0 <= j < i ==> ContextError(docs[j]).None?
  }

  /**
   * Formatting the contexts: each document must carry `link` and then
   * `source_reliability`; the first one missing a key raises.
   */
  function CheckContexts(docs: seq<Document>): (r: Result<seq<Document>, Error>)
    ensures r.Success? <==> forall i :: 0 <= i < |docs| ==>
      "link" in docs[i].metadata && "source_reliability" in docs[i].metadata
    ensures r.Success? ==> r.value == docs
    ensures r.Failure? ==> r.error in {MissingKey("link"), MissingKey("source_reliability")}
    ensures r.Failure? ==> exists i :: FirstBadContext(docs, i) && ContextError(docs[i]) == Some(r.error)
  {
    if |docs| == 0 then Success([])
    else if "link" !in docs[0].metadata then Failure(MissingKey("link"))
    else if "source_reliability" !in docs[0].metadata then Failure(MissingKey("source_reliability"))
    else
      assert forall i :: 1 <= i < |docs| ==> docs[i] == docs[1..][i - 1];
      match CheckContexts(docs[1..])
      case Failure(e) => Failure(e)
      case Success(_) => Success(docs)
  }

  /**
   * `retriever`: the documents not retrieved before are added after the
   * earlier ones, which keep their order, and only they become the contexts.
   */
  function Retriever(s: Session, batch: seq<Document>): (r: Result<Session, Error>)
    ensures r.Success? <==> forall d :: d in batch && d !in s.retrievedDocs ==>
      "link" in d.metadata && "source_reliability" in d.metadata
    ensures r.Success? ==> (|s.retrievedDocs| <= |r.value.retrievedDocs| &&
      r.value.retrievedDocs[..|s.retrievedDocs|] == s.retrievedDocs)
    ensures r.Success? ==> r.value.retrievedDocs == s.retrievedDocs + NewDocs(batch, s.retrievedDocs)
    ensures r.Success? ==> r.value.contexts == NewDocs(batch, s.retrievedDocs)
    ensures r.Success? ==> forall d :: d in r.value.retrievedDocs <==> d in s.retrievedDocs || d in batch
    ensures r.Success? ==> forall d :: d in r.value.contexts <==> d in batch && d !in s.retrievedDocs
    ensures r.Success? ==> r.value == s.(retrievedDocs := r.value.retrievedDocs, contexts := r.value.contexts)
    ensures r.Failure? ==> r.error in {MissingKey("link"), MissingKey("source_reliability")}
    ensures r.Failure? ==> CheckContexts(NewDocs(batch, s.retrievedDocs)) == Failure(r.error)
  {
    var newDocs := NewDocs(batch, s.retrievedDocs);
    match CheckContexts(newDocs)
    case Failure(e) => Failure(e)
    case Success(ctx) =>
      var r := s.(retrievedDocs := s.retrievedDocs + newDocs, contexts := ctx);
      assert r.retrievedDocs[..|s.retrievedDocs|] == s.retrievedDocs;
      Success(r)
  }

  /** Retrieving the same batch again adds nothing and leaves no contexts. */
  lemma RetrieverIdempotent(s: Session, batch: seq<Document>)
    requires Retriever(s, batch).Success?
    ensures var t := Retriever(s, batch).value;
      Retriever(t, batch) == Success(t.(contexts := []))
  {
    var t := Retriever(s, batch).value;
    var newDocs := NewDocs(batch, t.retrievedDocs);
    assert newDocs == [];
    assert t.retrievedDocs + newDocs == t.retrievedDocs;
  }

  const ResponsePrefix := "**Response:** "

  /** `response_generator`: the rendered response is added as a model message. */
  function ResponseGenerator(s: Session, rendered: string): (r: Session)
    ensures r.messages == s.messages + [AI(ResponsePrefix + rendered)]
    ensures r == s.(messages := r.messages)
  {
    s.(messages := s.messages + [AI(ResponsePrefix + rendered)])
  }

  /** The evaluator's feedback message. */
  function Feedback(e: ResponseEvaluation): string
  {
    "**Evaluator:** " + e.evaluation + "\nNext Step: " + NextStepLiteral(e.nextStep)
  }

  /**
   * `response_evaluator`: counts one more iteration, records the rationale
   * and the proposed step, and gives feedback unless the step is `finish`.
   */
  function ResponseEvaluator(s: Session, e: ResponseEvaluation): (r: Session)
    ensures r.iteration == s.iteration + 1
    ensures r.nextStep == Some(e.nextStep) && r.actionRationale == e.rationale
    ensures e.nextStep != Finish ==> r.messages == s.messages + [Human(Feedback(e))]
    ensures e.nextStep == Finish ==> r.messages == s.messages
    ensures r == s.(iteration := r.iteration, nextStep := r.nextStep, actionRationale := r.actionRationale,
                    messages := r.messages)
  {
    var messages := if e.nextStep != Finish then s.messages + [Human(Feedback(e))] else s.messages;
    s.(messages := messages, actionRationale := e.rationale, nextStep := Some(e.nextStep),
       iteration := s.iteration + 1)
  }

  /**
   * `crawl_contexts` as intended: the extracted urls become the relevant
   * links and the crawl depth grows by one.
   */
  function CrawlContexts(s: Session, x: UrlExtraction): (r: Session)
    ensures r.crawlDepth == s.crawlDepth + 1
    ensures r.relevantLinks == x.urls
    ensures r == s.(crawlDepth := r.crawlDepth, relevantLinks := r.relevantLinks)
  {
    s.(relevantLinks := x.urls, crawlDepth := s.crawlDepth + 1)
  }

  /**
   * `crawl_contexts` as written: it reads `links`, a field the extraction
   * schema does not have, so the node raises whatever the model answered.
   */
  function CrawlContextsAsWritten(s: Session, x: UrlExtraction): (r: Result<Session, Error>)
    ensures r == Failure(MissingAttribute("links"))
  {
    Failure(MissingAttribute("links"))
  }

  // ---------------------------------------------------------------------
  // Routers
  // ---------------------------------------------------------------------

  /** A budget is exceeded: more iterations or a deeper crawl than allowed. */
  predicate OverBudget(s: Session)
  {
    s.iteration > s.maxIterations || s.crawlDepth > s.maxCrawlDepth
  }

  /**
   * `conditional_edge`: `finish` ends the run; `web_search` goes back to
   * the planner without looking at the budgets; the other two steps end the
   * run when a budget is exceeded and otherwise go to the node they name.
   */
  function ConditionalEdge(s: Session): (r: Result<Node, Error>)
    ensures r.Success? <==> s.nextStep.Some?
    ensures r.Failure? ==> r.error == MissingKey("next_step")
    ensures s.nextStep == Some(Finish) ==> r == Success(End)
    ensures s.nextStep == Some(WebSearchStep) ==> r == Success(PlannerNode)
    ensures s.nextStep == Some(RetrieverStep) ==> r == Success(if OverBudget(s) then End else RetrieverNode)
    ensures s.nextStep == Some(CrawlContextsStep) ==> r == Success(if OverBudget(s) then End else CrawlNode)
  {
    match s.nextStep
    case None => Failure(MissingKey("next_step"))
    case Some(step) =>
      match step
      case Finish => Success(End)
      case WebSearchStep => Success(PlannerNode)
      case RetrieverStep => if OverBudget(s) then Success(End) else Success(RetrieverNode)
      case CrawlContextsStep => if OverBudget(s) then Success(End) else Success(CrawlNode)
  }

  /** Whatever the budgets, a `web_search` step goes back to the planner. */
  lemma WebSearchIgnoresBudgets(s: Session, iteration: int, crawlDepth: int)
    requires s.nextStep == Some(WebSearchStep)
    ensures ConditionalEdge(s.(iteration := iteration, crawlDepth := crawlDepth)) == Success(PlannerNode)
  {
  }

  /** Within the budgets the router never ends a run the evaluator did not finish. */
  lemma WithinBudgetNoEarlyEnd(s: Session)
    requires s.nextStep.Some? && s.nextStep != Some(Finish) && !OverBudget(s)
    ensures ConditionalEdge(s).Success? && ConditionalEdge(s).value != End
  {
  }
}
