/** The conditional edge after the screener: one `Send` to the analyst node
    per selected ticker. */
module FanOut {
  import opened GraphStates

  /** The private input of one analyst branch. */
  datatype AnalystState = AnalystState(ticker: string)

  /** A request to run `node` on its own input. */
  datatype Send = Send(node: string, arg: AnalystState)

  const AnalystNode: string := "analyst"

  /** One send per ticker, in ticker order. */
  function Sends(tickers: seq<string>): (sends: seq<Send>)
    ensures |sends| == |tickers|
    ensures forall i :: 0 <= i < |sends| ==> sends[i].node == AnalystNode
    ensures forall i :: 0 <= i < |sends| ==> sends[i].arg.ticker == tickers[i]
  {
    if |tickers| == 0 then []
    else [Send(AnalystNode, AnalystState(tickers[0]))] + Sends(tickers[1..])
  }

  /** The edge function reads the state's tickers. */
  function ContinueToAnalysts(s: GraphState): (sends: seq<Send>)
    ensures |sends| == |s.tickers|
    ensures s.tickers == [] ==> sends == []
  {
    Sends(s.tickers)
  }

  /** The tickers carried by a list of sends. */
  function Subjects(sends: seq<Send>): seq<string>
  {
    if |sends| == 0 then [] else [sends[0].arg.ticker] + Subjects(sends[1..])
  }

  /** The fan-out loses and invents nothing: reading the tickers back off the
      sends gives exactly the list that was sent out. */
  lemma {:induction false} SubjectsOfSends(tickers: seq<string>)
    ensures Subjects(Sends(tickers)) == tickers
  {
    if |tickers| > 0 {
      SubjectsOfSends(tickers[1..]);
      assert Sends(tickers)[1..] == Sends(tickers[1..]);
    }
  }
}
