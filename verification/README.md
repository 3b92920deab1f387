# A verified model of the web-search research agent

The system is a research assistant built as a LangGraph state machine.
- A request is analysed by a reasoning model. A harmful request is refused at once.
- Any other request is turned into a plan of web queries.
- The queries are sent to a search provider. The resulting pages are fetched, politely (robots.txt, at most ten per pass), and split by Markdown headers.
- The pages are filtered by semantic similarity to the request's entities and keywords, and the matching chunk groups go into a vector store.
- Documents are retrieved back out of the store through a multi-query plan and a cross-encoder reranking, and a response is generated from them.
- An evaluator rates the response. It either finishes or sends the run back to the planner, the retriever or a link crawler. Iteration and crawl-depth budgets stop the last two.

This project models that core in Dafny as pure functions over an immutable session record.
- Every model call, every network step and the vector store are parameters.
- Every exception the modelled code itself raises is a `Failure` value, except those listed under "## Left out". Exceptions raised inside the model calls and services (a structured-output parse error of the analyzer, the evaluator or the link extractor, a search-provider or vector-store error) are not modelled.
- The modules follow the source files:
  - `Schemas` covers schemas.py.
  - `Documents` holds the metadata dictionaries shared by the stages, and the documents the store returns. A document carries the store's id, so documents compare by id, text and metadata, as LangChain's `Document` does.
  - `WebProcessing` covers utils/web_processing.py.
  - `TextProcessing` covers utils/text_processing.py.
  - `Retrieval` covers utils/retrieval.py.
  - `Agent` covers the nodes and routers of main.py.
  - `Graph` covers the edge table, recursion limit and initial session of app.py.
- `Wrappers` provides `Option` and `Result`, and `Sequences` the list comprehension with a filter (`Filter`), extending a list once per element (`FlatMap`) and prefix slicing (`Take`) that several stages share.

The graph's `Env` carries a flag `repaired`. When it is false, every node runs the code as written. Then the `crawl_contexts` node raises, and the crawled-links half of `data_extracter` reads `items` from a coroutine that was never awaited. When it is true, those two places run as evidently intended. The "## Findings" table below pairs the two versions.

One might expect every route except `finish` to be bounded by the budgets. The code's `conditional_edge` returns to the planner on `web_search` before it looks at either budget. So an evaluator that keeps asking for web searches is stopped only by the recursion limit or by an error, and never finishes. `Graph.WebSearchRequestNeverFinishes` proves that.

## Model

| member | source | states |
|---|---|---|
| Schemas.DefaultQueryParameters | schemas.py:12-15 | omitted keyword and entity lists are empty |
| Schemas.ValidateSearchPlan | schemas.py:36-38 | a plan is accepted exactly when it holds at least one query, and is then kept unchanged |
| Schemas.ValidateDBQuery | schemas.py:51-54 | an omitted count becomes 5; a given count is accepted exactly when it lies in 1..20 and is kept |
| Schemas.ParseRating | schemas.py:66 | a parsed rating prints back as the same literal; a rejected string is none of the four literals |
| Schemas.RatingRoundTrip | schemas.py:66 | every rating survives printing and parsing |
| Schemas.UnderscoredLastRatingRejected | schemas.py:66 | "highly_unsatisfactory" is not a rating: the last literal is spelled with a space |
| Schemas.ParseNextStep | schemas.py:71 | a parsed step prints back as the same literal; a rejected string is none of the four literals |
| Schemas.NextStepRoundTrip | schemas.py:71 | every next step survives printing and parsing |
| Sequences.Filter | main.py:150 | a list comprehension with a condition keeps exactly the elements that satisfy it, never more elements than it was given |
| Sequences.FilterConcat | main.py:150 | the comprehension keeps relative order: the survivors of two runs are the first run's, then the second's |
| Sequences.FilterFilter | main.py:150-151 | two comprehensions in a row keep exactly what one comprehension under both conditions keeps, in the same order |
| Sequences.FilterCount | main.py:188 | each surviving element is kept as often as it occurs in the input; a rejected one not at all |
| Sequences.Take | main.py:125 | `xs[:n]` has min(n, len(xs)) elements, and they are the first ones of `xs` |
| Documents.LinkOf | main.py:120 | a link is read exactly when `link` is present and holds a string |
| Documents.LookupPage | main.py:134-136 | a page is found exactly when the loader returned one for that url, and it is the one returned |
| WebProcessing.RetrieveSearchResults | utils/web_processing.py:14-23 | at most `max_results` results in provider order; each keeps exactly its own `source`, `link` and `date` fields with their values; no `organic_results` gives no sources |
| WebProcessing.LiteralSearchIsContains | utils/web_processing.py:52 | searching for an unanchored literal succeeds exactly when the literal occurs in the domain |
| WebProcessing.AuthorityFirstMatch | utils/web_processing.py:49-54 | `.org` gives 0.9; otherwise `.edu` gives 0.85; otherwise `.gov` gives 0.9; otherwise the default 0.5 |
| WebProcessing.AuthorityScoreBounds | utils/web_processing.py:49-54 | the score before penalties lies in [0.5, 0.9] |
| WebProcessing.RedFlagsArePowers | utils/web_processing.py:55-57 | the red-flag loop multiplies the score by 0.7 once per matching flag and by nothing else |
| WebProcessing.ScoreBounds | utils/web_processing.py:47-60 | every score lies in (0, 0.9] and never exceeds the authority score |
| WebProcessing.PenalisedWhenFlagged | utils/web_processing.py:55-60 | a domain matching some red flag scores at most 0.7 of its authority score |
| WebProcessing.ManyDotsPenalised | utils/web_processing.py:58-59 | a domain with more than three dots scores at most 0.7 of its authority score |
| WebProcessing.NoMatchNoPenalty | utils/web_processing.py:55-57 | a domain no flag matches has no red-flag penalty |
| WebProcessing.FusedSuffixNeverMatches | utils/web_processing.py:40-41 | the eighth red-flag expression, as written, matches no domain at all |
| WebProcessing.TopDomainNotPenalised | utils/web_processing.py:39-46 | as written, `news.top` keeps the default score 0.5 |
| WebProcessing.TopDomainPenalisedWhenIntended | utils/web_processing.py:39-46 | with the two suffixes apart, `news.top` scores 0.35 |
| WebProcessing.IntendedPenalisesTopAndInfo | utils/web_processing.py:39-46 | with the two suffixes apart, every domain ending in `.top` or `.info` is penalised |
| TextProcessing.AppendChunks | utils/text_processing.py:72-76 | sub-chunks are appended to the key's list, creating the key (at the end of the order) only when there is a chunk to add |
| TextProcessing.AddSection | utils/text_processing.py:69-78 | an oversize section appends its sub-chunks to its key; a small section replaces the key's list with itself; no key is lost, and the order gains at most this section's key, at the end, when it is new |
| TextProcessing.SplitTextPerKey | utils/text_processing.py:66-79 | a key is present exactly when some section with that key creates it, and then holds the last small section followed by the sub-chunks of later oversize ones |
| TextProcessing.SplitTextKeys | utils/text_processing.py:66-79 | a key is listed exactly when some section creates it |
| TextProcessing.SplitTextKeyOrder | utils/text_processing.py:66-79 | the keys are listed in the order of each key's first creating section, which is the order the groups are filtered in |
| TextProcessing.NoCreatorNoChunks | utils/text_processing.py:70-78 | a key no section creates expects no chunks |
| TextProcessing.AnyPairClose | utils/text_processing.py:132-138 | true exactly when some target and some extracted term both have vectors and are more similar than the threshold |
| TextProcessing.HasSemanticMatch | utils/text_processing.py:117-138 | false for no targets or an empty text; otherwise true exactly when some target is close to some extracted term |
| TextProcessing.ChunkMetadatas | utils/text_processing.py:145-147 | one dictionary per chunk, holding its 1-based position and its header key unless the page metadata overrides them, and every page field |
| TextProcessing.FirstMatchingChunk | utils/text_processing.py:156-162 | the first chunk that matches, with no earlier match; none when no chunk matches |
| TextProcessing.DecideGroup | utils/text_processing.py:149-162 | a group is added, all its chunks with their metadata, exactly when its non-empty header key or one of its chunks matches |
| TextProcessing.FilterAndAdd | utils/text_processing.py:144-163 | raises on the unbound `headers` exactly when the page split into no group; otherwise the group loop's insertions, at most one per group |
| TextProcessing.FilterGroupsConcat | utils/text_processing.py:144-162 | filtering two runs of groups inserts the first run's chunks, then the second's |
| TextProcessing.SingleGroupAllOrNothing | utils/text_processing.py:151-162 | a group contributes all its chunks in one insertion or nothing, and one insertion exactly when it is accepted |
| TextProcessing.EmptyTargetsAddNothing | utils/text_processing.py:122-123 | with no entities and no keywords nothing is ever added |
| TextProcessing.ChunkThresholdUnused | utils/text_processing.py:94-96 | changing the chunk threshold changes nothing: both stages use the header threshold |
| Retrieval.Zip | utils/retrieval.py:22 | each document is paired with its own score, up to the shorter list |
| Retrieval.InsertDesc | utils/retrieval.py:24 | inserting into a descending list keeps it descending and adds exactly the one element |
| Retrieval.SortDesc | utils/retrieval.py:24 | the result is descending and a permutation of the input |
| Retrieval.SortDescStable | utils/retrieval.py:24 | the sort is stable: the elements of every score keep their input order |
| Retrieval.Rerank | utils/retrieval.py:16-25 | every candidate appears once with its own score, in descending score order |
| Retrieval.RankedPool | utils/retrieval.py:43-44 | the 15-candidate pool, reranked: descending and a permutation of the scored pool |
| Retrieval.RetrieveOne | utils/retrieval.py:43-45 | the top min(n, pool) documents of the reranked pool in order, none scoring below a dropped one |
| Retrieval.RetrieveConcat | utils/retrieval.py:40-46 | results of consecutive sub-queries are concatenated in plan order, without deduplication |
| Retrieval.RetrieveWithinBudget | utils/retrieval.py:42-45 | with at most 15 candidates per query, at most the sum of min(n, 15) documents are returned |
| Agent.UserQueryAnalyzer | main.py:46-63 | records the analysis; a harmful request gets the refusal instead of being added; nothing else changes |
| Agent.RouteHarmfulQuery | main.py:261-269 | ends the run exactly for a harmful request, otherwise goes to the planner; a missing analysis raises |
| Agent.SearchQueryPlanner | main.py:65-90 | succeeds exactly for a parsed plan of at least one query, appending it unperformed; otherwise the parse error |
| Agent.SearchAll | main.py:96-106 | every query ends up performed; exactly the unperformed ones are sent, in order; a single unperformed query yields its own top five results tagged with its id, a performed one yields none; nothing found is stored yet |
| Agent.SearchAllConcat | main.py:96-106 | searching two runs of queries is searching the first, then the second: marked queries, results and sent texts are the first run's followed by the second's |
| Agent.WebSearch | main.py:92-109 | the queries sent are exactly the unperformed ones; all become performed; the sources gain exactly the loop's results, after the old ones |
| Agent.AllPerformedNothingIssued | main.py:98-100 | with every query performed nothing is searched |
| Agent.WebSearchIdempotent | main.py:92-109 | a second search without new queries sends nothing and changes nothing |
| Agent.Links | main.py:120 | the string links of the sources in source order; a link is listed exactly when some source holds it |
| Agent.LinksConcat | main.py:120 | the links of two runs of sources are the first run's, then the second's; one source gives its string link or nothing |
| Agent.Eligible | main.py:120-123 | the unvisited filter followed by the robots.txt filter keeps exactly the fetchable source links, in source order; a link is eligible exactly when it is a source's link, unvisited and permitted |
| Agent.EligibleConcat | main.py:120-123 | the eligible links of two runs of sources are the first run's, then the second's |
| Agent.Worklist | main.py:120-125 | the first ten eligible links in source order, or all of them when there are fewer; each is unvisited, permitted and the link of some source |
| Agent.IngestWith | main.py:136-144 | raises on the unbound `headers` exactly when the page splits into no group; otherwise the content filter's insertions over the split's groups, in group order, at most one per group |
| Agent.Updated | main.py:140-145 | a fetched source takes the page's metadata over its own and is latched; any other source is unchanged |
| Agent.SourceInserts | main.py:133-145 | a source without `link` raises the missing key; a fetched source whose latch is unset has its page filtered under the merged metadata; any other source adds nothing |
| Agent.ExtractSources | main.py:133-146 | succeeds exactly when every source's turn succeeds, otherwise raises the first failing source's error; each source is updated in place |
| Agent.ExtractConcat | main.py:133-146 | the pass over two runs of sources is the pass over the first, then the second: sources, insertions and visited links concatenate; one source's insertions are its own turn's |
| Agent.ExtractVisitsHits | main.py:134-146 | the links marked visited are exactly those of the fetched sources |
| Agent.LatchedSourcesAddNothing | main.py:143-145 | when every fetched source is latched, nothing is filtered into the store |
| Agent.ExtractTwiceNoInserts | main.py:133-146 | a second pass over the same pages succeeds and adds nothing to the store |
| Agent.FetchListed | main.py:130-146 | visited links grow, latches stay, the store only grows; an empty worklist or loader answer changes nothing; an error is the error of some source's turn |
| Agent.SourceErrors | main.py:134-144 | under the session's filter a source's turn raises only the missing `link` or the unbound `headers` |
| Agent.FetchListedErrors | main.py:130-146 | under the session's filter the worklist fetch raises only the missing `link` or the unbound `headers` |
| Agent.AdditionalLinks | main.py:150-151 | the unvisited filter followed by the robots.txt filter keeps exactly the fetchable relevant links, in order |
| Agent.CrawledMetadata | main.py:157-160 | a crawled page's metadata gains its url as `link` |
| Agent.CrawlLoaded | main.py:156-168 | succeeds exactly when every page's filtering succeeds, otherwise raises the first failing page's error; every page becomes a latched source with its url, in loader order |
| Agent.CrawlVisitsPages | main.py:156-168 | exactly the loaded urls are marked visited |
| Agent.CrawlLoadedConcat | main.py:156-168 | the loop over two runs of pages is the loop over the first, then the second; one page's insertions are its own filtering's |
| Agent.CrawlAdditional | main.py:150-168 | the crawl depth grows by one exactly when there are links to fetch; the new sources are latched and follow the old ones; store and visited links only grow; an error is the crawl loop's |
| Agent.CrawlAdditionalErrors | main.py:153-168 | under the session's filter the crawled-links fetch raises only the unbound `headers` |
| Agent.CrawlAdditionalAsWritten | main.py:153-156 | as written, the crawled-links half raises exactly when there is a link to fetch, and otherwise changes nothing |
| Agent.DataExtracter | main.py:115-169 | with the loader awaited: visited links grow, latches stay, the store only grows, the crawl depth grows by at most one; the errors are a missing analysis, a missing `link` and the unbound `headers` |
| Agent.DataExtracterCrawls | main.py:150-168 | with the loader awaited, every source the extracter adds is latched, and the crawl depth grows by one exactly when the worklist pass leaves a crawled link to fetch |
| Agent.DataExtracterAsWritten | main.py:115-169 | as written: a missing analysis raises first; the other errors are a missing `link`, the unbound `headers` and the coroutine's missing `items`; on success no crawled link was left, no source was added and the crawl depth and relevant links are unchanged |
| Agent.AsWrittenExtracterFailsOnCrawledLinks | main.py:153-156 | as written, the extracter raises whenever a crawled link is left to fetch, and otherwise agrees with the awaited version |
| Agent.NoRelevantLinksVersionsAgree | main.py:150-156 | without relevant links both versions of the extracter agree |
| Agent.NewDocs | main.py:188 | exactly the documents not retrieved before, never more than the batch; documents compare by store id, text and metadata |
| Agent.RestoredCopyIsNew | main.py:188 | of two documents with the same text and metadata, the later one counts as already retrieved exactly when the ids agree, so a chunk stored again under a fresh id is new |
| Agent.NewDocsInOrder | main.py:188 | new documents keep batch order across two runs of a batch, and each occurs as often as in the batch |
| Agent.CheckContexts | main.py:191-192 | succeeds exactly when every document has `link` and `source_reliability`; otherwise raises for the first document missing one, naming `link` when both are missing |
| Agent.Retriever | main.py:171-199 | the new documents are appended after the earlier ones, which keep their order, and exactly they become the contexts; a new document without `link` or `source_reliability` raises, with the error of the contexts check over the new documents |
| Agent.RetrieverIdempotent | main.py:188-198 | retrieving the same batch again adds nothing and leaves no contexts |
| Agent.ResponseGenerator | main.py:201-214 | exactly one model message is added; nothing else changes |
| Agent.ResponseEvaluator | main.py:216-230 | one more iteration; the rationale and the step are recorded; feedback is added exactly when the step is not `finish` |
| Agent.CrawlContexts | main.py:233-246 | as intended: the extracted urls become the relevant links and the crawl depth grows by one |
| Agent.CrawlContextsAsWritten | main.py:246 | as written, the node raises whatever the model answers |
| Agent.ConditionalEdge | main.py:248-259 | `finish` ends; `web_search` returns to the planner; the other two steps end over budget and otherwise go where they name; a session with no step recorded raises |
| Agent.WebSearchIgnoresBudgets | main.py:254-255 | a `web_search` step goes to the planner whatever the budgets |
| Agent.WithinBudgetNoEarlyEnd | main.py:252-259 | within the budgets only `finish` ends the run |
| Graph.Step | app.py:16-24 | every node hands over along the edge table, undoes nothing, only the evaluator counts an iteration, and no node raises the recursion error; as written, the crawl node always raises the missing `links` and no node changes the relevant links or the crawl depth |
| Graph.Run | app.py:27 | at most `budget` nodes run, starting from the given one, and `End` is never executed |
| Graph.InitialSession | app.py:45-57 | a process's first request starts at iteration 0, crawl depth 0, budgets 3 and 2, everything else empty, not over budget |
| Graph.MachineObeys | app.py:16-24 | the sub-graph follows its edge table, undoes nothing, never raises the recursion error itself and counts only evaluations |
| Graph.RunFollowsTable | app.py:16-24 | the executed nodes follow the edge table one after another |
| Graph.RunGrows | app.py:16-24 | a finished run never undoes visited links, stored chunks, retrieved documents or the counters |
| Graph.RequestGrows | app.py:45-58 | a finished first request keeps every invariant from the initial session on |
| Graph.AsWrittenMachine | main.py:246 | as written, the crawl node raises on every session and no node changes the relevant links or the crawl depth |
| Graph.CrawlEndsRun | app.py:23-24 | a run that reaches a crawl node that always raises ends there, with the missing `links` |
| Graph.RunKeepsCrawlState | app.py:16-24 | a finished run of nodes that keep the crawl state ends with the relevant links and crawl depth it started with |
| Graph.CrawlProposalFails | main.py:246-259 | as written, an evaluation proposing `crawl_contexts` within the budgets fails the run at the crawl node with the missing `links` |
| Graph.AsWrittenRequestNeverCrawls | main.py:246 | as written, a request that reaches the crawl node fails there, and a finished request never reached it and ends with no relevant links and crawl depth 0 |
| Graph.HarmfulRequestEndsAtOnce | app.py:16-17 | a harmful first request finishes after the analyzer alone, with the refusal as the only message |
| Graph.NeverEndingRunFails | app.py:27 | a run whose steps never end fails, by the recursion limit or an error |
| Graph.EvaluatorProposingWebSearch | main.py:254-255 | an evaluation proposing `web_search` always goes back to the planner |
| Graph.WebSearchLoopNeverEnds | main.py:252-259 | with every evaluation proposing `web_search`, no step past the analyzer ends the run |
| Graph.WebSearchRequestNeverFinishes | main.py:252-259 | such a request never finishes: no budget stops that route |
| Graph.RetrievalLoopEnds | main.py:256-258 | a retrieval loop entered anywhere in the cycle stops within the node executions the iteration budget allows |
| Graph.EvaluatorProposingRetrieval | main.py:256-259 | an evaluation proposing `retriever` ends over budget and otherwise goes to the retriever, having used an evaluation |
| Graph.RetrieverProposalsLoop | main.py:256-259 | with every evaluation proposing `retriever`, the evaluator only ends the run or loops back |
| Graph.RetrieverRequestEndsWithinLimit | main.py:256-258 | such a request ends, or stops with an error of its own, well inside the recursion limit |

## Left out

- Model calls: query analysis, planning, retrieval planning, response generation, evaluation and url extraction are answers passed in. Prompts, the rendering of the structured response and the conversation sent to each model are not modelled.
- Network and services: the search provider, robots.txt checks (`can_fetch_url` and its fallbacks), the Chromium loader with its Markdown conversion, and the spaCy, KeyBERT and cross-encoder models are oracle parameters.
- The vector store is modelled as the sequence of insertions made into it during the run. Similarity search is an oracle over that sequence; whatever the on-disk collection held before the run is part of that oracle. The store gives each insertion a fresh id, and the oracle supplies it on every document it returns.
- `url_loader` pairs pages with urls by position after dropping empty pages, and returns `None` on any exception. The model takes the loader's answer as url/page pairs and does not model that misalignment.
- The recursive character splitter and the Markdown header splitter are oracle functions. Their chunk-size and overlap behaviour is not modelled; only the dictionary-building loop around them is.
- `SourceEvaluator` is modelled on the lower-cased network location. `urlparse` is not modelled.
- The optional trailing dot in the `.edu` and `.gov` expressions is left out because it never changes whether a search succeeds.
- Agent.Worklist: a `link` that is present but not a string is skipped. The source does not skip it. A list or dictionary link raises `TypeError` (unhashable) at the visited-links test of main.py:120. A falsy one (`None`, `0`, `0.0`, `False`) passes `urlsplit` as an empty url; reading its robots.txt then fails, so `can_fetch_url` permits it, and the source lists it, takes one of the ten places of main.py:125 with it and hands it to the loader. Any other non-string link makes `urlsplit` raise `AttributeError`. None of these behaviours is modelled.
- Agent.ExtractSources: the link marked visited is the source's link before the page metadata is merged in. The source reads it after the merge, which differs only when the page metadata has its own `link`.
- Agent.FetchListed: on an error the model discards the whole pass. The source would already have made some insertions into the store and mutated some sources in place.
- Agent.CrawlAdditional: on an error the model discards the whole crawl. The source would already have raised the crawl depth, stored the earlier pages' chunks and appended their sources.
- Graph.HarmfulRequestEndsAtOnce: states one refusal message. `route_harmful_query` also appends a second refusal to the message list in place; routers are pure here, so that second message is not modelled.
- Graph.InitialSession: models a process's first request only. app.py:26-30 compiles the sub-graph with an in-memory checkpoint saver and one thread id per process, so a later request resumes the checkpointed session: messages accumulate, and the keys its input leaves out (analysis, next step, contexts, rationale) keep their earlier values. Later requests are not modelled.
- The message reducer is modelled as plain append. Message identifiers and in-place list sharing between nodes are not modelled.
- Graph.Run: the recursion limit is counted as 100 node executions. The framework's own superstep counting is not modelled.
- The `ensure_list` validator of `SearchPlan` (decoding a JSON string) is left out. The plan arrives already parsed, or as `None`.
- Logging, the Gradio interface and the outer chat graph are left out. Only the sub-graph's effect on a request is modelled, and the outer graph's query refinement is the request passed in.

## Findings

| source | as written | input that shows it | evidently intended | confidence | as-written member | corrected member |
|---|---|---|---|---|---|---|
| utils/web_processing.py:40-41 | a missing comma joins `\.top$` and `\.info$` into one expression, which needs the text to end twice and matches nothing | the domain `news.top` scores 0.5 | two flags, so `news.top` scores 0.35 and every `.top` or `.info` domain is penalised | high, not executed | WebProcessing.TopDomainNotPenalised | WebProcessing.IntendedPenalisesTopAndInfo |
| main.py:246 | `crawl_contexts` returns `response.links`, a field `URLExtraction` does not have | any evaluation proposing `crawl_contexts` within the budgets fails the run with `AttributeError` (`Graph.CrawlProposalFails`) | the extracted `urls` become the relevant links | high, not executed | Agent.CrawlContextsAsWritten | Agent.CrawlContexts |
| main.py:155-156 | `url_loader` is a coroutine called without `await`, and `.items()` is read from the coroutine | a session holding a relevant link not yet visited and permitted raises `AttributeError`; a whole run reaches that only once main.py:246 is repaired, since `Graph.AsWrittenRequestNeverCrawls` shows that as written no relevant link is ever stored | the crawled pages are loaded, filtered and recorded; the corrected member also assumes a guard against the loader's `None` answer, since adding only `await` would still raise at main.py:156 when `url_loader` returns `None` | high, not executed | Agent.DataExtracterAsWritten | Agent.DataExtracter |
