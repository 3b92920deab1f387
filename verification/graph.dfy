/**
 * app.py: the sub-graph that wires the nodes of main.py together, its
 * recursion limit and the session a request starts with.
 *
 * A run is a sequence of node executions; the oracles every node consults
 * are gathered in an `Env`.
 */
module Graph {
  import opened Wrappers
  import opened Documents
  import opened Schemas
  import opened TextProcessing
  import opened Agent
  import Retrieval

  /**
   * The answers of the models and services the nodes consult. `repaired`
   * selects the corrected crawl node and the awaited crawled-links loader;
   * when it is false the nodes run as written.
   */
  datatype Env = Env(
    repaired: bool,
    analyze: string -> QueryAnalysis,
    plan: Session -> Option<seq<SearchQuery>>,
    search: Provider,
    canFetch: CanFetch,
    load: Loader,
    tools: TextTools,
    dbPlan: Session -> seq<DBQuery>,
    storeSearch: seq<Insert> -> Retrieval.Store,
    scorer: Retrieval.Scorer,
    generate: Session -> string,
    evaluate: Session -> ResponseEvaluation,
    extractUrls: Session -> UrlExtraction)

  /** The edge table: the nodes each node may hand over to. */
  function Successors(n: Node): set<Node>
  {
    match n
    case AnalyzerNode => {End, PlannerNode}
    case PlannerNode => {WebSearchNode}
    case WebSearchNode => {ExtracterNode}
    case ExtracterNode => {RetrieverNode}
    case RetrieverNode => {GeneratorNode}
    case GeneratorNode => {EvaluatorNode}
    case EvaluatorNode => {End, RetrieverNode, PlannerNode, CrawlNode}
    case CrawlNode => {ExtracterNode}
    case End => {}
  }

  /**
   * What a step never undoes: visited links, the stored insertions and the
   * retrieved documents only grow, the counters never fall, the budgets
   * stay as they are.
   */
  predicate Grows(s: Session, t: Session)
  {
    && s.visitedLinks <= t.visitedLinks
    && |s.retrievedDocs| <= |t.retrievedDocs| && t.retrievedDocs[..|s.retrievedDocs|] == s.retrievedDocs
    && |s.stored| <= |t.stored| && t.stored[..|s.stored|] == s.stored
    && s.iteration <= t.iteration && s.crawlDepth <= t.crawlDepth
    && s.maxIterations == t.maxIterations && s.maxCrawlDepth == t.maxCrawlDepth
  }

  lemma GrowsTransitive(s: Session, t: Session, u: Session)
    requires Grows(s, t) && Grows(t, u)
    ensures Grows(s, u)
  {
    assert u.retrievedDocs[..|s.retrievedDocs|] == u.retrievedDocs[..|t.retrievedDocs|][..|s.retrievedDocs|];
    assert u.stored[..|s.stored|] == u.stored[..|t.stored|][..|s.stored|];
  }

  /** The documents the retriever node obtains for the session. */
  function RetrievedBatch(s: Session, env: Env): seq<Document>
  {
    Retrieval.Retrieve(env.dbPlan(s), env.storeSearch(s.stored), env.scorer)
  }

  /**
   * One node execution: the node's update and the node the edge table (or
   * its router) hands over to.
   */
  function Step(n: Node, s: Session, env: Env): (r: Result<(Session, Node), Error>)
    requires n != End
    ensures r.Success? ==> r.value.1 in Successors(n)
    ensures r.Success? ==> Grows(s, r.value.0)
    ensures r.Success? && n != EvaluatorNode ==> r.value.0.iteration == s.iteration
    ensures r.Failure? ==> r.error != GraphRecursion
    ensures !env.repaired && n == CrawlNode ==> r == Failure(MissingAttribute("links"))
    ensures !env.repaired && r.Success? ==>
      r.value.0.relevantLinks == s.relevantLinks && r.value.0.crawlDepth == s.crawlDepth
  {
    match n
    case AnalyzerNode =>
      var t := UserQueryAnalyzer(s, env.analyze(s.userRequest));
      (match RouteHarmfulQuery(t)
       case Failure(e) => Failure(e)
       case Success(next) => Success((t, next)))
    case PlannerNode =>
      (match SearchQueryPlanner(s, env.plan(s))
       case Failure(e) => Failure(e)
       case Success(t) => Success((t, WebSearchNode)))
    case WebSearchNode =>
      Success((WebSearch(s, env.search).0, ExtracterNode))
    case ExtracterNode =>
      var x := if env.repaired then DataExtracter(s, env.canFetch, env.load, env.tools)
               else DataExtracterAsWritten(s, env.canFetch, env.load, env.tools);
      (match x
       case Failure(e) => Failure(e)
       case Success(t) => Success((t, RetrieverNode)))
    case RetrieverNode =>
      (match Retriever(s, RetrievedBatch(s, env))
       case Failure(e) => Failure(e)
       case Success(t) => Success((t, GeneratorNode)))
    case GeneratorNode =>
      Success((ResponseGenerator(s, env.generate(s)), EvaluatorNode))
    case EvaluatorNode =>
      var t := ResponseEvaluator(s, env.evaluate(s));
      (match ConditionalEdge(t)
       case Failure(e) => Failure(e)
       case Success(next) => Success((t, next)))
    case CrawlNode =>
      if env.repaired then Success((CrawlContexts(s, env.extractUrls(s)), ExtracterNode))
      else Failure(CrawlContextsAsWritten(s, env.extractUrls(s)).error)
  }

  /** One node execution, as a function of the node and the session. */
  type Stepper = (Node, Session) -> Result<(Session, Node), Error>

  /** The sub-graph's step function for the given oracles. */
  function Machine(env: Env): Stepper
  {
    (n: Node, s: Session) => if n == End then Success((s, End)) else Step(n, s, env)
  }

  /** A run ends at `End` with the final session, or with the error that stopped it. */
  datatype Outcome =
    | Finished(final: Session, trace: seq<Node>)
    | Failed(error: Error, trace: seq<Node>)

  /** The graph's `recursion_limit`. */
  const RecursionLimit: nat := 100

  /**
   * Executes nodes from `n` until `End`, an error, or `budget` node
   * executions without reaching `End`; the trace lists the executed nodes.
   */
  function Run(step: Stepper, n: Node, s: Session, budget: nat): (r: Outcome)
    ensures |r.trace| <= budget
    ensures n != End && budget > 0 ==> |r.trace| >= 1 && r.trace[0] == n
    ensures End !in r.trace
    decreases budget
  {
    if n == End then Finished(s, [])
    else if budget == 0 then Failed(GraphRecursion, [])
    else
      match step(n, s)
      case Failure(e) => Failed(e, [n])
      case Success((t, next)) =>
        var rest := Run(step, next, t, budget - 1);
        rest.(trace := [n] + rest.trace)
  }

  /** A successful step hands the rest of the run to the next node. */
  lemma RunAfterStep(step: Stepper, n: Node, s: Session, budget: nat, t: Session, next: Node)
    requires n != End && budget > 0 && step(n, s) == Success((t, next))
    ensures Run(step, n, s, budget) == Run(step, next, t, budget - 1).(trace := [n] + Run(step, next, t, budget - 1).trace)
  {
  }

  /**
   * The session `generate_websearch_response` starts the sub-graph with on
   * the first request of a process, when the checkpoint saver holds nothing
   * yet. Later requests share the process's one thread, so they resume the
   * checkpointed session; those are not modelled.
   */
  function InitialSession(request: string): (r: Session)
    ensures r.userRequest == request && r.analysis.None? && r.nextStep.None?
    ensures r.iteration == 0 && r.crawlDepth == 0 && r.maxIterations == 3 && r.maxCrawlDepth == 2
    ensures r.messages == [] && r.searchQueries == [] && r.sourcesData == [] && r.relevantLinks == []
    ensures r.visitedLinks == {} && r.retrievedDocs == [] && r.stored == []
    ensures !OverBudget(r)
  {
    Session(request, None, [], [], [], [], [], [], {}, [], "", None, 0, 0, 3, 2)
  }

  /** A process's first request, run from the analyzer under the recursion limit. */
  function Invoke(request: string, env: Env): Outcome
  {
    Run(Machine(env), AnalyzerNode, InitialSession(request), RecursionLimit)
  }

  // ---------------------------------------------------------------------
  // What the sub-graph's step function guarantees
  // ---------------------------------------------------------------------

  /** Every step hands over along the edge table. */
  ghost predicate FollowsTable(step: Stepper)
  {
    forall n, s :: n != End && step(n, s).Success? ==> step(n, s).value.1 in Successors(n)
  }

  /** No step undoes anything. */
  ghost predicate AlwaysGrows(step: Stepper)
  {
    forall n, s :: step(n, s).Success? ==> Grows(s, step(n, s).value.0)
  }

  /** No step raises the recursion-limit error itself. */
  ghost predicate OwnErrorsOnly(step: Stepper)
  {
    forall n, s :: step(n, s).Failure? ==> step(n, s).error != GraphRecursion
  }

  /** Only the evaluator changes how many evaluations the iteration budget still allows. */
  ghost predicate KeepsCount(step: Stepper)
  {
    forall n, s :: n != EvaluatorNode && step(n, s).Success? ==>
      EvaluationsLeft(step(n, s).value.0) == EvaluationsLeft(s)
  }

  /** The sub-graph's step follows the edge table, undoes nothing and counts only evaluations. */
  lemma MachineObeys(env: Env)
    ensures FollowsTable(Machine(env)) && AlwaysGrows(Machine(env)) && OwnErrorsOnly(Machine(env))
    ensures KeepsCount(Machine(env))
  {
  }

  // ---------------------------------------------------------------------
  // Properties of runs
  // ---------------------------------------------------------------------

  /** The executed nodes follow the edge table. */
  lemma {:induction false} RunFollowsTable(step: Stepper, n: Node, s: Session, budget: nat)
    requires FollowsTable(step)
    ensures var tr := Run(step, n, s, budget).trace;
      forall i :: 0 <= i < |tr| - 1 ==> tr[i + 1] in Successors(tr[i])
    decreases budget
  {
    if n != End && budget > 0 && step(n, s).Success? {
      var t := step(n, s).value.0;
      var next := step(n, s).value.1;
      RunAfterStep(step, n, s, budget, t, next);
      RunFollowsTable(step, next, t, budget - 1);
    }
  }

  /**
   * A finished run never undoes anything: visited links, the store and the
   * retrieved documents only grow, the counters never fall.
   */
  lemma {:induction false} RunGrows(step: Stepper, n: Node, s: Session, budget: nat)
    requires AlwaysGrows(step)
    requires Run(step, n, s, budget).Finished?
    ensures Grows(s, Run(step, n, s, budget).final)
    decreases budget
  {
    if n != End {
      var t := step(n, s).value.0;
      var next := step(n, s).value.1;
      RunAfterStep(step, n, s, budget, t, next);
      RunGrows(step, next, t, budget - 1);
      GrowsTransitive(s, t, Run(step, n, s, budget).final);
    }
  }

  /** A finished request never undoes anything the nodes recorded. */
  lemma RequestGrows(request: string, env: Env)
    requires Invoke(request, env).Finished?
    ensures Grows(InitialSession(request), Invoke(request, env).final)
  {
    MachineObeys(env);
    RunGrows(Machine(env), AnalyzerNode, InitialSession(request), RecursionLimit);
  }

  // ---------------------------------------------------------------------
  // The crawl route as written
  // ---------------------------------------------------------------------

  /** The crawl node raises the missing `links` attribute on every session. */
  ghost predicate CrawlRaises(step: Stepper)
  {
    forall s :: step(CrawlNode, s) == Failure(MissingAttribute("links"))
  }

  /** No step changes the relevant links or the crawl depth. */
  ghost predicate KeepsCrawlState(step: Stepper)
  {
    forall n, s :: step(n, s).Success? ==>
      step(n, s).value.0.relevantLinks == s.relevantLinks && step(n, s).value.0.crawlDepth == s.crawlDepth
  }

  /** As written, the crawl node always raises and no node touches the crawl state. */
  lemma AsWrittenMachine(env: Env)
    requires !env.repaired
    ensures CrawlRaises(Machine(env)) && KeepsCrawlState(Machine(env))
  {
  }

  /** A run that reaches a crawl node that always raises ends there, with that error. */
  lemma {:induction false} CrawlEndsRun(step: Stepper, n: Node, s: Session, budget: nat)
    requires CrawlRaises(step)
    requires CrawlNode in Run(step, n, s, budget).trace
    ensures Run(step, n, s, budget).Failed? && Run(step, n, s, budget).error == MissingAttribute("links")
    ensures var tr := Run(step, n, s, budget).trace; tr[|tr| - 1] == CrawlNode
    decreases budget
  {
    if n != End && budget > 0 && n != CrawlNode {
      match step(n, s)
      case Failure(_) =>
      case Success((t, next)) =>
        RunAfterStep(step, n, s, budget, t, next);
        CrawlEndsRun(step, next, t, budget - 1);
    }
  }

  /** A finished run whose steps keep the crawl state ends with the crawl state it started with. */
  lemma {:induction false} RunKeepsCrawlState(step: Stepper, n: Node, s: Session, budget: nat)
    requires KeepsCrawlState(step)
    requires Run(step, n, s, budget).Finished?
    ensures Run(step, n, s, budget).final.relevantLinks == s.relevantLinks
    ensures Run(step, n, s, budget).final.crawlDepth == s.crawlDepth
    decreases budget
  {
    if n != End {
      var t := step(n, s).value.0;
      var next := step(n, s).value.1;
      RunAfterStep(step, n, s, budget, t, next);
      RunKeepsCrawlState(step, next, t, budget - 1);
    }
  }

  /**
   * As written, an evaluation proposing `crawl_contexts` within the budgets
   * hands over to the crawl node, which ends the run with the missing
   * `links` attribute.
   */
  lemma CrawlProposalFails(s: Session, env: Env, budget: nat)
    requires !env.repaired
    requires env.evaluate(s).nextStep == CrawlContextsStep
    requires !OverBudget(ResponseEvaluator(s, env.evaluate(s)))
    requires budget >= 2
    ensures Run(Machine(env), EvaluatorNode, s, budget) == Failed(MissingAttribute("links"), [EvaluatorNode, CrawlNode])
  {
    var t := ResponseEvaluator(s, env.evaluate(s));
    assert t.nextStep == Some(CrawlContextsStep);
    assert Machine(env)(EvaluatorNode, s) == Success((t, CrawlNode));
    RunAfterStep(Machine(env), EvaluatorNode, s, budget, t, CrawlNode);
  }

  /**
   * As written, a request that reaches the crawl node fails there, and a
   * request that finishes never reached it: it ends with no relevant links
   * and crawl depth 0.
   */
  lemma AsWrittenRequestNeverCrawls(request: string, env: Env)
    requires !env.repaired
    ensures CrawlNode in Invoke(request, env).trace ==>
      Invoke(request, env).Failed? && Invoke(request, env).error == MissingAttribute("links")
    ensures Invoke(request, env).Finished? ==>
      CrawlNode !in Invoke(request, env).trace &&
      Invoke(request, env).final.relevantLinks == [] && Invoke(request, env).final.crawlDepth == 0
  {
    AsWrittenMachine(env);
    var s := InitialSession(request);
    if CrawlNode in Invoke(request, env).trace {
      CrawlEndsRun(Machine(env), AnalyzerNode, s, RecursionLimit);
    }
    if Invoke(request, env).Finished? {
      RunKeepsCrawlState(Machine(env), AnalyzerNode, s, RecursionLimit);
    }
  }

  /**
   * A harmful request, as the process's first, ends right after the analyzer,
   * with the refusal as the only message: the planner is never reached.
   */
  lemma HarmfulRequestEndsAtOnce(request: string, env: Env)
    requires env.analyze(request).isHarmful
    ensures Invoke(request, env).Finished?
    ensures Invoke(request, env).trace == [AnalyzerNode]
    ensures Invoke(request, env).final.messages == [AI(Refusal)]
  {
    var s := InitialSession(request);
    var t := UserQueryAnalyzer(s, env.analyze(request));
    assert Machine(env)(AnalyzerNode, s) == Success((t, End));
    RunAfterStep(Machine(env), AnalyzerNode, s, RecursionLimit, t, End);
  }

  /** Every evaluation proposes the same step. */
  ghost predicate AlwaysProposes(env: Env, step: NextStep)
  {
    forall s :: env.evaluate(s).nextStep == step
  }

  /** Past the analyzer, no step ends the run or returns to the analyzer. */
  ghost predicate NeverEndsAfterAnalysis(step: Stepper)
  {
    forall n, s :: n != End && n != AnalyzerNode && step(n, s).Success? ==>
      step(n, s).value.1 != End && step(n, s).value.1 != AnalyzerNode
  }

  /** Once past the analyzer, a run whose steps never end never finishes. */
  lemma {:induction false} NeverEndingRunFails(step: Stepper, n: Node, s: Session, budget: nat)
    requires NeverEndsAfterAnalysis(step)
    requires n != End && n != AnalyzerNode
    ensures Run(step, n, s, budget).Failed?
    decreases budget
  {
    if budget > 0 && step(n, s).Success? {
      var t := step(n, s).value.0;
      var next := step(n, s).value.1;
      RunAfterStep(step, n, s, budget, t, next);
      NeverEndingRunFails(step, next, t, budget - 1);
    }
  }

  /** An evaluation proposing `web_search` always hands back to the planner. */
  lemma EvaluatorProposingWebSearch(s: Session, env: Env)
    requires env.evaluate(s).nextStep == WebSearchStep
    ensures Step(EvaluatorNode, s, env) == Success((ResponseEvaluator(s, env.evaluate(s)), PlannerNode))
  {
    var t := ResponseEvaluator(s, env.evaluate(s));
    assert t.nextStep == Some(WebSearchStep);
  }

  /** With every evaluation proposing `web_search`, nothing past the analyzer ends a run. */
  lemma WebSearchLoopNeverEnds(env: Env)
    requires AlwaysProposes(env, WebSearchStep)
    ensures NeverEndsAfterAnalysis(Machine(env))
  {
    forall n, s | n != End && n != AnalyzerNode && Machine(env)(n, s).Success?
      ensures Machine(env)(n, s).value.1 != End && Machine(env)(n, s).value.1 != AnalyzerNode
    {
      if n == EvaluatorNode {
        EvaluatorProposingWebSearch(s, env);
      }
    }
  }

  /**
   * An evaluator that always asks for another web search never lets a
   * request finish: no budget stops that route, only the recursion limit or
   * an error does.
   */
  lemma WebSearchRequestNeverFinishes(request: string, env: Env)
    requires AlwaysProposes(env, WebSearchStep)
    requires !env.analyze(request).isHarmful
    ensures Invoke(request, env).Failed?
  {
    var s := InitialSession(request);
    var t := UserQueryAnalyzer(s, env.analyze(request));
    assert Machine(env)(AnalyzerNode, s) == Success((t, PlannerNode));
    RunAfterStep(Machine(env), AnalyzerNode, s, RecursionLimit, t, PlannerNode);
    WebSearchLoopNeverEnds(env);
    NeverEndingRunFails(Machine(env), PlannerNode, t, RecursionLimit - 1);
  }

  /** The evaluations still needed before the iteration budget is exceeded. */
  function EvaluationsLeft(s: Session): nat
  {
    if s.iteration >= s.maxIterations then 1 else s.maxIterations - s.iteration + 1
  }

  /** The nodes of the planner-to-evaluator cycle. */
  predicate InCycle(n: Node)
  {
    n in {PlannerNode, WebSearchNode, ExtracterNode, RetrieverNode, GeneratorNode, EvaluatorNode}
  }

  /** The node executions a retrieval loop still needs from `n`. */
  function LoopSteps(n: Node, s: Session): nat
  {
    match n
    case PlannerNode => 3 * EvaluationsLeft(s) + 3
    case WebSearchNode => 3 * EvaluationsLeft(s) + 2
    case ExtracterNode => 3 * EvaluationsLeft(s) + 1
    case RetrieverNode => 3 * EvaluationsLeft(s)
    case GeneratorNode => 3 * EvaluationsLeft(s) - 1
    case EvaluatorNode => 3 * EvaluationsLeft(s) - 2
    case _ => 0
  }

  /** The evaluator ends the run, or hands back to the retriever having used up an evaluation. */
  ghost predicate EvaluatorLoopsBack(step: Stepper)
  {
    forall s :: step(EvaluatorNode, s).Success? ==>
      step(EvaluatorNode, s).value.1 == End ||
      (step(EvaluatorNode, s).value.1 == RetrieverNode &&
       EvaluationsLeft(step(EvaluatorNode, s).value.0) < EvaluationsLeft(s))
  }

  /** A run that stops with an error of its own or at `End` was not cut by the recursion limit. */
  predicate NotCut(o: Outcome)
  {
    o.Finished? || o.error != GraphRecursion
  }

  /**
   * A retrieval loop, entered anywhere from the planner on, ends within the
   * executions the iteration budget allows.
   */
  lemma {:induction false} RetrievalLoopEnds(step: Stepper, n: Node, s: Session, budget: nat)
    requires FollowsTable(step) && OwnErrorsOnly(step) && KeepsCount(step) && EvaluatorLoopsBack(step)
    requires InCycle(n)
    requires budget >= LoopSteps(n, s)
    ensures NotCut(Run(step, n, s, budget))
    decreases budget
  {
    var r := step(n, s);
    if r.Success? {
      var t := r.value.0;
      var next := r.value.1;
      RunAfterStep(step, n, s, budget, t, next);
      if next != End {
        RetrievalLoopEnds(step, next, t, budget - 1);
      }
    }
  }

  /** An evaluation proposing `retriever` ends the run or hands back to the retriever within the budget. */
  lemma EvaluatorProposingRetrieval(s: Session, env: Env)
    requires env.evaluate(s).nextStep == RetrieverStep
    ensures var t := ResponseEvaluator(s, env.evaluate(s));
      && Step(EvaluatorNode, s, env) == Success((t, if OverBudget(t) then End else RetrieverNode))
      && t.iteration == s.iteration + 1
      && t.maxIterations == s.maxIterations
  {
    var t := ResponseEvaluator(s, env.evaluate(s));
    assert t.nextStep == Some(RetrieverStep);
  }

  /** With every evaluation proposing `retriever`, the evaluator only ends the run or loops back. */
  lemma RetrieverProposalsLoop(env: Env)
    requires AlwaysProposes(env, RetrieverStep)
    ensures EvaluatorLoopsBack(Machine(env))
  {
    forall s | Machine(env)(EvaluatorNode, s).Success?
      ensures Machine(env)(EvaluatorNode, s).value.1 == End ||
        (Machine(env)(EvaluatorNode, s).value.1 == RetrieverNode &&
         EvaluationsLeft(Machine(env)(EvaluatorNode, s).value.0) < EvaluationsLeft(s))
    {
      EvaluatorProposingRetrieval(s, env);
    }
  }

  /**
   * An evaluator that always asks for another retrieval lets a request end
   * well inside the recursion limit: the iteration budget stops that route.
   */
  lemma RetrieverRequestEndsWithinLimit(request: string, env: Env)
    requires AlwaysProposes(env, RetrieverStep)
    ensures NotCut(Invoke(request, env))
  {
    var m := Machine(env);
    MachineObeys(env);
    RetrieverProposalsLoop(env);
    var s0 := InitialSession(request);
    var r0 := m(AnalyzerNode, s0);
    if r0.Success? {
      var s1 := r0.value.0;
      RunAfterStep(m, AnalyzerNode, s0, RecursionLimit, s1, r0.value.1);
      if r0.value.1 == PlannerNode {
        assert EvaluationsLeft(s1) == 4;
        RetrievalLoopEnds(m, PlannerNode, s1, RecursionLimit - 1);
      }
    }
  }
}
