/** The whole graph: START -> screener -> (one analyst per ticker) ->
    publisher -> END. Branches complete in an order the model does not fix;
    it is a parameter `order`, any permutation of the branch indices, and
    every property below holds for all of them. */
module Orchestration {
  import opened Outcomes
  import opened Seqs
  import opened GraphStates
  import opened Screener
  import opened FanOut
  import opened Analyst
  import opened Publisher

  /** What a completed run leaves behind: the final state and the printed report. */
  datatype RunOutput = RunOutput(final: GraphState, report: string)

  /** The state after the screener's update has been merged. */
  function Screened(init: GraphState, scrape: Scrape): (s: GraphState)
    ensures s.nStocks == init.nStocks
    ensures s.results == init.results
    ensures s.tickers == Discover(RequestedCount(init), scrape)
  {
    Apply(init, ScreenerNode(init, scrape))
  }

  /** The number of analyst branches the run dispatches. */
  function BranchCount(init: GraphState, scrape: Scrape): nat
  {
    |Discover(RequestedCount(init), scrape)|
  }

  /** Every branch's outcome, in dispatch order. */
  function Branches(sends: seq<Send>, env: Env): (rs: seq<Result<Update>>)
    ensures |rs| == |sends|
    ensures forall i :: 0 <= i < |rs| ==> rs[i] == AnalyzeSubject(sends[i].arg, env)
  {
    if |sends| == 0 then []
    else [AnalyzeSubject(sends[0].arg, env)] + Branches(sends[1..], env)
  }

  /** The branch outcomes of a run, in dispatch order. */
  function BranchOutcomes(init: GraphState, scrape: Scrape, env: Env): seq<Result<Update>>
  {
    Branches(ContinueToAnalysts(Screened(init, scrape)), env)
  }

  /** Every outcome succeeded. */
  predicate AllOk(rs: seq<Result<Update>>)
  {
    forall i :: 0 <= i < |rs| ==> rs[i].Ok?
  }

  /** The updates of all branches, or the first error met: an exception in
      any branch propagates out of the graph's invocation. */
  function Collect(rs: seq<Result<Update>>): (r: Result<seq<Update>>)
    ensures r.Ok? <==> AllOk(rs)
    ensures r.Ok? ==> |r.value| == |rs|
    ensures r.Ok? ==> forall i :: 0 <= i < |rs| ==> rs[i] == Ok(r.value[i])
    ensures r.Err? ==> exists i :: 0 <= i < |rs| && rs[i] == Err(r.error)
  {
    if |rs| == 0 then Ok([])
    else match rs[0]
      case Err(e) => Err(e)
      case Ok(u) =>
        match Collect(rs[1..])
        case Err(e) => assert rs[1..][0] == rs[1]; Err(e)
        case Ok(us) => Ok([u] + us)
  }

  /** The analysts' texts in dispatch order, when every branch succeeded. */
  function Texts(us: seq<Update>): seq<string>
  {
    FlatMap(us, Written)
  }

  /** One graph invocation. */
  function Run(init: GraphState, scrape: Scrape, env: Env, order: seq<nat>): (r: Result<RunOutput>)
    requires IsPermutation(order, BranchCount(init, scrape))
    ensures r.Ok? <==> AllOk(BranchOutcomes(init, scrape, env))
    ensures r.Err? ==> exists i :: 0 <= i < |BranchOutcomes(init, scrape, env)|
                                 && BranchOutcomes(init, scrape, env)[i] == Err(r.error)
    ensures r.Ok? ==> r.value.report == Join(r.value.final.results, ReportSeparator)
  {
    var s1 := Screened(init, scrape);
    match Collect(Branches(ContinueToAnalysts(s1), env))
    case Err(e) => Err(e)
    case Ok(us) =>
      var s2 := ApplyAll(s1, Reorder(us, order));
      var published := PublisherNode(s2);
      Ok(RunOutput(Apply(s2, published.update), published.report))
  }

  /** Successful branches write nothing to `tickers`. */
  lemma BranchesKeepTickers(sends: seq<Send>, env: Env)
    requires Collect(Branches(sends, env)).Ok?
    ensures KeepsTickers(Collect(Branches(sends, env)).value)
  {
  }

  /** Fan-in under the add reducer: after a successful run, `results` holds
      the caller's initial results followed by one text per dispatched
      ticker in completion order; as a multiset it is the initial results
      plus the texts in dispatch order, whatever the completion order; the
      publisher's update removes nothing and the screener's tickers stay. */
  lemma RunFanIn(init: GraphState, scrape: Scrape, env: Env, order: seq<nat>)
    requires IsPermutation(order, BranchCount(init, scrape))
    requires Run(init, scrape, env, order).Ok?
    ensures var out := Run(init, scrape, env, order).value;
            && init.results <= out.final.results
            && |out.final.results| == |init.results| + BranchCount(init, scrape)
            && multiset(out.final.results)
               == multiset(init.results) + multiset(Texts(Collect(BranchOutcomes(init, scrape, env)).value))
            && out.final.tickers == Discover(RequestedCount(init), scrape)
            && out.final.nStocks == init.nStocks
  {
    var s1 := Screened(init, scrape);
    var rs := BranchOutcomes(init, scrape, env);
    var us := Collect(rs).value;
    var arrived := Reorder(us, order);
    ReorderPermutation(us, order);
    ApplyAllResults(s1, arrived);
    ApplyAllPermutation(s1, arrived, us);
    BranchesKeepTickers(ContinueToAnalysts(s1), env);
    KeepsTickersPermutation(arrived, us);
    FlatMapSingletons(us, Written);
  }

  /** Each dispatched ticker's text is the language model's answer to that
      ticker's prompt, in dispatch order. */
  lemma TextsAreAnswers(init: GraphState, scrape: Scrape, env: Env)
    requires AllOk(BranchOutcomes(init, scrape, env))
    ensures var tickers := Discover(RequestedCount(init), scrape);
            var texts := Texts(Collect(BranchOutcomes(init, scrape, env)).value);
            && |texts| == |tickers|
            && forall i :: 0 <= i < |tickers| ==>
                 env.llm(PromptFor(AnalystState(tickers[i]), env)) == Ok(texts[i])
  {
    var us := Collect(BranchOutcomes(init, scrape, env)).value;
    FlatMapSingletons(us, Written);
  }

  /** With no tickers nothing is dispatched and the report is built from the
      caller's initial results alone; empty when the caller gave none. */
  lemma NoTickersNoBranches(init: GraphState, scrape: Scrape, env: Env)
    requires BranchCount(init, scrape) == 0
    ensures BranchOutcomes(init, scrape, env) == []
    ensures Run(init, scrape, env, []).Ok?
    ensures Run(init, scrape, env, []).value.final.results == init.results
    ensures init.results == [] ==> Run(init, scrape, env, []).value.report == ""
  {
  }

  /** A permutation of two indices is one of the two orders. */
  lemma PermutationOfTwo(order: seq<nat>)
    requires IsPermutation(order, 2)
    ensures order == [0, 1] || order == [1, 0]
  {
    assert Range(2) == [0, 1];
    assert |order| == 2 by {
      assert |multiset(order)| == |multiset(Range(2))|;
    }
    assert order[0] in multiset(order) && order[1] in multiset(order);
  }

  /** After a successful run, `results` is the initial list followed by the
      branches' texts in completion order. */
  lemma RunResultsInArrivalOrder(init: GraphState, scrape: Scrape, env: Env, order: seq<nat>)
    requires IsPermutation(order, BranchCount(init, scrape))
    requires Run(init, scrape, env, order).Ok?
    ensures Run(init, scrape, env, order).value.final.results
         == init.results + Texts(Reorder(Collect(BranchOutcomes(init, scrape, env)).value, order))
  {
    var s1 := Screened(init, scrape);
    var us := Collect(BranchOutcomes(init, scrape, env)).value;
    ApplyAllResults(s1, Reorder(us, order));
  }

  /** With two branches and no initial results, the final results are the
      two texts in one order or the other. */
  lemma TwoBranchResults(init: GraphState, scrape: Scrape, env: Env, order: seq<nat>)
    requires BranchCount(init, scrape) == 2
    requires init.results == []
    requires IsPermutation(order, 2)
    requires Run(init, scrape, env, order).Ok?
    ensures var texts := Texts(Collect(BranchOutcomes(init, scrape, env)).value);
            var results := Run(init, scrape, env, order).value.final.results;
            |texts| == 2 && (results == [texts[0], texts[1]] || results == [texts[1], texts[0]])
  {
    var us := Collect(BranchOutcomes(init, scrape, env)).value;
    BranchesKeepTickers(ContinueToAnalysts(Screened(init, scrape)), env);
    TextsAreAnswers(init, scrape, env);
    FlatMapSingletons(us, Written);
    RunResultsInArrivalOrder(init, scrape, env, order);
    PermutationOfTwo(order);
    var arrived := Reorder(us, order);
    ReorderPair(us, order[0], order[1]);
    FlatMapSingletons(arrived, Written);
  }

  /** A failed scrape analyses the fallback pair whatever count was asked
      for; when both branches succeed and the caller started with no
      results, the report is the two answers separated by a blank line, in
      one completion order or the other. */
  lemma FallbackRun(init: GraphState, scrape: Scrape, env: Env, order: seq<nat>)
    requires FallsBack(scrape)
    requires init.results == []
    requires IsPermutation(order, BranchCount(init, scrape))
    requires AllOk(BranchOutcomes(init, scrape, env))
    ensures var nvda := env.llm(PromptFor(AnalystState("NVDA"), env)).value;
            var tsla := env.llm(PromptFor(AnalystState("TSLA"), env)).value;
            var report := Run(init, scrape, env, order).value.report;
            report == nvda + "\n\n" + tsla || report == tsla + "\n\n" + nvda
  {
    var texts := Texts(Collect(BranchOutcomes(init, scrape, env)).value);
    var tickers := Discover(RequestedCount(init), scrape);
    assert tickers == Fallback;
    TextsAreAnswers(init, scrape, env);
    assert env.llm(PromptFor(AnalystState(tickers[0]), env)) == Ok(texts[0]);
    assert env.llm(PromptFor(AnalystState(tickers[1]), env)) == Ok(texts[1]);
    TwoBranchResults(init, scrape, env, order);
    var out := Run(init, scrape, env, order).value;
    assert out.report == Join(out.final.results, ReportSeparator);
    assert Join([texts[0], texts[1]], ReportSeparator) == texts[0] + ReportSeparator + texts[1];
    assert Join([texts[1], texts[0]], ReportSeparator) == texts[1] + ReportSeparator + texts[0];
  }
}
