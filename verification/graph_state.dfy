/** The graph's shared state and how a node's returned update is merged
    into it: `tickers` keeps the last value written, `results` is annotated
    with the `operator.add` reducer, so every write is appended. */
module GraphStates {
  import opened Outcomes
  import opened Seqs

  /** The state dictionary; `n_stocks` may be missing from the caller's input. */
  datatype GraphState = GraphState(nStocks: Option<int>, tickers: seq<string>, results: seq<string>)

  /** A node's returned dictionary: a key it does not return is `None`. */
  datatype Update = Update(tickers: Option<seq<string>>, results: Option<seq<string>>)

  /** The strings an update hands to the `results` reducer. */
  function Written(u: Update): seq<string>
  {
    ValueOr(u.results, [])
  }

  /** Merge one update into the state. */
  function Apply(s: GraphState, u: Update): (t: GraphState)
    ensures t.nStocks == s.nStocks
    ensures u.tickers.Some? ==> t.tickers == u.tickers.value
    ensures u.tickers.None? ==> t.tickers == s.tickers
    // append-only: the old results stay as a prefix, the update's list follows
    ensures s.results <= t.results
    ensures t.results[|s.results|..] == Written(u)
  {
    GraphState(s.nStocks, ValueOr(u.tickers, s.tickers), s.results + Written(u))
  }

  /** Merge updates one after another, in the order they arrive. */
  function ApplyAll(s: GraphState, us: seq<Update>): GraphState
    decreases |us|
  {
    if |us| == 0 then s else ApplyAll(Apply(s, us[0]), us[1..])
  }

  /** No update in the list writes `tickers`. */
  predicate KeepsTickers(us: seq<Update>)
  {
    forall i :: 0 <= i < |us| ==> us[i].tickers.None?
  }

  /** Rearranging updates that leave `tickers` alone gives updates that leave it alone. */
  lemma KeepsTickersPermutation(arrived: seq<Update>, dispatched: seq<Update>)
    requires multiset(arrived) == multiset(dispatched)
    requires KeepsTickers(dispatched)
    ensures KeepsTickers(arrived)
  {
    forall k | 0 <= k < |arrived|
      ensures arrived[k].tickers.None?
    {
      assert arrived[k] in multiset(dispatched);
    }
  }

  /** Folding updates under the add reducer: the results are the initial
      list followed by every update's list in arrival order; tickers that no
      update writes are left alone. */
  lemma {:induction false} ApplyAllResults(s: GraphState, us: seq<Update>)
    ensures ApplyAll(s, us).results == s.results + FlatMap(us, Written)
    ensures ApplyAll(s, us).nStocks == s.nStocks
    ensures KeepsTickers(us) ==> ApplyAll(s, us).tickers == s.tickers
    decreases |us|
  {
    if |us| > 0 {
      var t := Apply(s, us[0]);
      ApplyAllResults(t, us[1..]);
      assert ApplyAll(s, us) == ApplyAll(t, us[1..]);
      assert t.results == s.results + Written(us[0]);
      assert FlatMap(us, Written) == Written(us[0]) + FlatMap(us[1..], Written);
      assert KeepsTickers(us) ==> KeepsTickers(us[1..]) && t.tickers == s.tickers;
    }
  }

  /** Concatenating branches' updates: the final results hold the initial
      list plus all branch contributions, whatever their arrival order. */
  lemma ApplyAllPermutation(s: GraphState, arrived: seq<Update>, dispatched: seq<Update>)
    requires multiset(arrived) == multiset(dispatched)
    ensures multiset(ApplyAll(s, arrived).results)
         == multiset(s.results) + multiset(FlatMap(dispatched, Written))
    ensures |ApplyAll(s, arrived).results|
         == |s.results| + |FlatMap(dispatched, Written)|
  {
    ApplyAllResults(s, arrived);
    FlatMapPermutation(arrived, dispatched, Written);
    assert |multiset(FlatMap(arrived, Written))| == |multiset(FlatMap(dispatched, Written))|;
  }
}
