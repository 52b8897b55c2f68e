/** The publisher node: compile the report from the accumulated results. */
module Publisher {
  import opened Outcomes
  import opened Seqs
  import opened GraphStates

  /** Separator between two results in the report: one blank line. */
  const ReportSeparator: string := "\n\n"

  /** The compiled report and the update the node returns. */
  datatype Published = Published(report: string, update: Update)

  /** The node returns `{"results": []}` meaning to clear the list, but under
      the add reducer appending nothing leaves the state exactly as it was. */
  function PublisherNode(s: GraphState): (p: Published)
    ensures Apply(s, p.update) == s
    ensures |s.results| == 0 ==> p.report == ""
    ensures |s.results| == 1 ==> p.report == s.results[0]
    ensures |s.results| > 0 ==> |p.report| == TotalLength(s.results) + 2 * (|s.results| - 1)
  {
    JoinLength(s.results, ReportSeparator);
    Published(Join(s.results, ReportSeparator), Update(None, Some([])))
  }

  /** The report of a longer result list is the reports of its two halves
      with one blank line between them. */
  lemma ReportSplits(s: GraphState, k: nat)
    requires 0 < k < |s.results|
    ensures PublisherNode(s).report
         == Join(s.results[..k], ReportSeparator) + ReportSeparator + Join(s.results[k..], ReportSeparator)
  {
    assert s.results == s.results[..k] + s.results[k..];
    JoinAppend(s.results[..k], s.results[k..], ReportSeparator);
  }
}
