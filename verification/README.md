# Market-mover agent: orchestration model

A Dafny model of the LangGraph orchestration in `app.py` of the stock-agent
repository. One run of the graph goes START → screener → one analyst branch
per selected ticker → publisher → END, over a shared state with three keys:
`n_stocks`, `tickers` and `results`. The model covers four things:

- the **screener's selection policy**: the first `n` entries of the first
  table's `Symbol` column, the hard-coded `["NVDA", "TSLA"]` when anything
  raises, and `[]` when the parser returns no tables;
- the **fan-out** edge, which sends one `Send("analyst", {"ticker": t})` per
  ticker;
- the **analyst step**. Its price-change guard falls back to 0.0, its news
  context is the search contents joined by newlines, and it returns exactly
  one result string;
- the **fan-in and publish** steps. `results` carries the `operator.add`
  reducer, the report is `"\n\n".join(results)`, and the publisher's
  `{"results": []}` update.

Everything outside the process is a parameter. The scraped page is a
`Scrape` value (`FetchFailed` or the parsed tables). The price-history
provider, the web search and the language model are the three function
fields of `Analyst.Env`; search and model calls return `Ok` or `Err`.
The order in which the branches complete is a parameter `order`, any
permutation of the branch indices (`Seqs.IsPermutation`). The lemmas about
a run hold for every such order.

Modules, one per piece of the program:

| file | module | what it holds |
|---|---|---|
| outcomes.dfy | `Outcomes` | `Option` (a missing dictionary key), `Result` (a call that may raise) |
| seqs.dfy | `Seqs` | `str.join`, flat-map, reordering by a permutation |
| graph_state.dfy | `GraphStates` | `GraphState`, node updates, the reducers |
| screener.dfy | `Screener` | `market_screener_node` |
| fan_out.dfy | `FanOut` | `continue_to_analysts` and `Send` |
| analyst.dfy | `Analyst` | `stock_analyst_node` |
| publisher.dfy | `Publisher` | `publisher_node` |
| orchestration.dfy | `Orchestration` | the compiled graph and one invocation of it |

Behaviour of `app.py` that the model keeps as written:

- **Fallback length.** The fallback list always has two entries, so a count
  of 0 or 1 with a failed scrape selects more tickers than asked for
  (`Screener.FallbackExceedsCount`).
- **Branch failures.** Search and model exceptions are not caught
  (app.py:90, app.py:100), so one failing branch fails the whole invocation
  (`Orchestration.Run`).
- **Results are not cleared.** The publisher's `{"results": []}` appends
  nothing under `operator.add`, so the state keeps every result
  (`Publisher.PublisherNode`).
- **No tables.** The `[]` outcome for "no tables" is modelled as written
  (`if tables:`). pandas' `read_html` raises when it finds no table, so with
  the real parser a page without tables ends in the fallback instead. The
  model sees only the parser's outcome, so both paths are there.
- **Negative counts.** pandas' `head(n)` with a negative `n` keeps all
  but the last `-n` rows. `Screener.Head` models that explicitly.

## Model

| member | source | states |
|---|---|---|
| GraphStates.Apply | app.py:42-46 | merging a node's update keeps `n_stocks`, replaces `tickers` only when the update writes it, and appends the update's `results` to the old list (append-only: the old list is a prefix and the suffix is exactly what was written) |
| GraphStates.ApplyAllResults | app.py:46 | folding updates under the add reducer leaves the initial results followed by every update's list in arrival order; tickers nobody writes are unchanged |
| GraphStates.ApplyAllPermutation | app.py:46 | for any arrival order that is a rearrangement of the dispatched updates, the final results as a multiset are the initial results plus all contributions, and the length is the initial length plus the contributions' total |
| GraphStates.KeepsTickersPermutation | app.py:101 | rearranging updates that never write `tickers` gives updates that never write it |
| Screener.Head | app.py:68 | `head(n)` is a prefix of the column, of length `min(n, rows)` for `n >= 0` and `max(0, rows + n)` for negative `n` |
| Screener.RequestedCount | app.py:51 | the count is the state's `n_stocks` when present and 3 when absent |
| Screener.Discover | app.py:54-72 | fetch/parse failure and a missing `Symbol` column give exactly `["NVDA","TSLA"]`; no tables give `[]`; otherwise the result is a prefix of the first table's `Symbol` column, in page order, of length `min(n, rows)` for `n >= 0` |
| Screener.ScreenerNode | app.py:50-75 | the screener always writes `tickers` and never `results`; a failed scrape or missing Symbol column writes exactly `["NVDA","TSLA"]`, no tables write `[]`, and otherwise the tickers are a prefix of the Symbol column whose length is `min(3, rows)` when `n_stocks` is absent and `min(n_stocks, rows)` for a non-negative `n_stocks` |
| Screener.DiscoverBound | app.py:54-72 | for `n >= 0` the selection has at most `n` entries unless the fallback is taken, and the fallback always has exactly 2 |
| Screener.FallbackExceedsCount | app.py:69-72 | with a count below 2 a failed scrape selects 2 tickers, more than requested |
| FanOut.Sends | app.py:122-124 | one send per ticker: as many sends as tickers, each addressed to `"analyst"`, the i-th carrying the i-th ticker |
| FanOut.ContinueToAnalysts | app.py:122-124 | the edge dispatches exactly `len(tickers)` branches, none for an empty list |
| FanOut.SubjectsOfSends | app.py:124 | reading the tickers back off the sends returns exactly the dispatched list (nothing lost, invented or reordered) |
| Analyst.Technicals | app.py:81-87 | the guard takes its 0.0 branch exactly when the history fetch raised or has fewer than 2 closes; otherwise the move is taken from the last two closes |
| Analyst.AnalyzeSubject | app.py:77-101 | a search error propagates unchanged, and so does a model error after a successful search; the branch succeeds exactly when search and model both succeed; on success it writes no tickers and exactly one result, the model's answer to the prompt built from ticker, move and newline-joined news |
| Analyst.ShortHistoryIsNeutral | app.py:82-91 | with a short or failed history the branch still proceeds, and succeeds exactly when the model answers the neutral-move prompt |
| Seqs.JoinLength | app.py:91 | a join is as long as its parts plus one separator between each neighbouring pair, and empty for no parts |
| Seqs.JoinAppend | app.py:105 | joining two non-empty lists is joining each and putting one separator between them |
| Seqs.JoinLeft | app.py:105 | building the join left to right, as `str.join` does, gives the recursive join |
| Publisher.PublisherNode | app.py:103-109 | applying the publisher's `{"results": []}` update leaves the state unchanged; the report is empty for no results, the single result for one, and otherwise as long as the results plus a blank-line separator between each pair |
| Publisher.ReportSplits | app.py:105 | the report of a result list is the reports of any two non-empty halves joined by one blank line |
| Orchestration.Screened | app.py:113-126 | after the screener's update the state holds the selected tickers and the caller's `n_stocks` and results unchanged |
| Orchestration.Branches | app.py:122-129 | one outcome per send, the i-th the analyst's outcome for the i-th send |
| Orchestration.Collect | app.py:90-101 | the branches collect successfully exactly when every branch succeeded, giving each branch's update in order; otherwise the error is some branch's error |
| Orchestration.Run | app.py:113-130 | a run succeeds exactly when every dispatched branch succeeds; a failed run's error is one branch's error; a successful run's report is its final results joined by blank lines |
| Orchestration.BranchesKeepTickers | app.py:101 | successful analyst updates never write `tickers` |
| Orchestration.RunFanIn | app.py:46 | for every completion order, a successful run's results extend the initial results; their length is the initial length plus the number of dispatched tickers; their multiset is the initial results plus the branch texts; tickers and `n_stocks` are as the screener left them |
| Orchestration.RunResultsInArrivalOrder | app.py:46 | a successful run's results are the initial results followed by the branch texts in completion order |
| Orchestration.TextsAreAnswers | app.py:90-101 | the i-th dispatched branch contributes the model's answer for the i-th ticker, one text per ticker |
| Orchestration.NoTickersNoBranches | app.py:65-68 | with no tickers nothing is dispatched, the run succeeds, results are the caller's, and the report is empty when the caller gave none |
| Orchestration.TwoBranchResults | app.py:46 | with two branches and no initial results, the final results are the two texts in one order or the other |
| Orchestration.FallbackRun | app.py:69-72 | after a failed scrape and two successful branches, the report is the NVDA and TSLA answers separated by a blank line, in either completion order |

## Left out

- The network and data-source calls: `requests.get`, `pd.read_html`, `yf.Ticker().history`, the Tavily search and the Gemini call. These are foreign libraries. Their outcomes are the `Scrape` value and the `Env` functions.
- Analyst.Technicals: does not compute the percent change `(last - prev) / prev * 100`. That is floating-point arithmetic, and a previous close of 0 gives inf/NaN in pandas. The model keeps only the guard and the two closes used.
- The prompt's wording and the 2-decimal formatting of the move. `Analyst.Prompt` keeps the ticker, the move and the news context, with the move unrendered. So the model's language model can tell apart prompts the source renders identically: the guard's 0.0, two equal closes, and any move under 0.005%.
- Provider nondeterminism: the history, search and model providers are functions of their argument. Two branches for the same ticker therefore share their outcomes. In the source each branch calls the providers afresh, and the Symbol column may repeat a ticker, so one of two duplicate branches could fail while the other succeeds; the model does not represent that.
- The search's `max_results=3` cap. The search client enforces it, and nothing in the core depends on it.
- Orchestration.Run: which error surfaces when several branches fail is up to LangGraph. The model promises only that it is one branch's error.
- The LangGraph runtime. Concurrent execution of `Send`s is represented only by an arbitrary completion order. The model always runs the publisher after all branches, including the zero-send case, which the source does not settle.
- `print` output, `save_graph_image` (diagram file I/O), and the `__main__` entry point. Main's initial state `{"n_stocks": 2, "results": []}` is one `GraphState` value.
- Tables with duplicate column names and non-string cells in the `Symbol` column. A table is a map from column name to a list of strings.
- test_screener.py, a network diagnostic. Its only logic (first 5 symbols, `[]` on error) repeats the screener's.
- debug_search.py, a script that calls the search twice and compares the JSON. It is pure I/O.
