/** One analyst branch: price history, news search, then the language model.
    Only the history step recovers from failure; the search and model calls
    are not wrapped in a `try`, so their exceptions leave the branch. */
module Analyst {
  import opened Outcomes
  import opened Seqs
  import opened GraphStates
  import opened FanOut

  /** The five-day price history: the fetch raised, or the closes oldest first. */
  datatype History = HistoryFailed | Closes(closes: seq<real>)

  /** The percent change fed to the prompt: 0.0, or the change between the
      two most recent closes (the floating-point formula itself is not modelled). */
  datatype Move = Neutral | Change(previous: real, latest: real)

  /** The text handed to the language model, as its three ingredients. */
  datatype Prompt = Prompt(ticker: string, move: Move, news: string)

  /** The outside world as seen by one run. */
  datatype Env = Env(
    history: string -> History,
    search: string -> Result<seq<string>>,
    llm: Prompt -> Result<string>)

  /** The guard around the percent change. */
  function Technicals(h: History): (m: Move)
    ensures m.Neutral? <==> h.HistoryFailed? || |h.closes| < 2
    ensures m.Change? ==> m.previous == h.closes[|h.closes| - 2]
    ensures m.Change? ==> m.latest == h.closes[|h.closes| - 1]
  {
    match h
    case HistoryFailed => Neutral
    case Closes(closes) =>
      if |closes| >= 2 then Change(closes[|closes| - 2], closes[|closes| - 1]) else Neutral
  }

  /** The search query for a ticker. */
  function Query(ticker: string): string
  {
    "Why is " + ticker + " stock moving today?"
  }

  /** The news context: the search results' contents, one per line. */
  function NewsContext(contents: seq<string>): string
  {
    Join(contents, "\n")
  }

  /** The prompt a branch builds once its search has returned. */
  function PromptFor(a: AnalystState, env: Env): Prompt
    requires env.search(Query(a.ticker)).Ok?
  {
    Prompt(a.ticker, Technicals(env.history(a.ticker)), NewsContext(env.search(Query(a.ticker)).value))
  }

  /** The analyst node. A branch that succeeds writes exactly one string to
      `results` and nothing to `tickers`; it fails exactly when the search or
      the model raises, and then with that call's own error. */
  function AnalyzeSubject(a: AnalystState, env: Env): (r: Result<Update>)
    ensures env.search(Query(a.ticker)).Err? ==> r == Err(env.search(Query(a.ticker)).error)
    ensures env.search(Query(a.ticker)).Ok? && env.llm(PromptFor(a, env)).Err?
            ==> r == Err(env.llm(PromptFor(a, env)).error)
    ensures r.Ok? <==> (env.search(Query(a.ticker)).Ok? && env.llm(PromptFor(a, env)).Ok?)
    ensures r.Ok? ==> r.value.tickers.None? && |Written(r.value)| == 1
    ensures r.Ok? ==> env.llm(PromptFor(a, env)) == Ok(Written(r.value)[0])
  {
    var move := Technicals(env.history(a.ticker));
    match env.search(Query(a.ticker))
    case Err(e) => Err(e)
    case Ok(contents) =>
      match env.llm(Prompt(a.ticker, move, NewsContext(contents)))
      case Err(e) => Err(e)
      case Ok(text) => Ok(Update(None, Some([text])))
  }

  /** With fewer than two closes, or a failed history fetch, the prompt
      carries a neutral move and the branch still goes on to the search. */
  lemma ShortHistoryIsNeutral(a: AnalystState, env: Env)
    requires env.history(a.ticker).HistoryFailed? || |env.history(a.ticker).closes| < 2
    requires env.search(Query(a.ticker)).Ok?
    ensures AnalyzeSubject(a, env).Ok?
        <==> env.llm(Prompt(a.ticker, Neutral, NewsContext(env.search(Query(a.ticker)).value))).Ok?
  {
  }
}
