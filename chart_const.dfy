/** The two chart-type tables of `chartConst.jsx` that pick a chart's data
    buffer policy: a global-update chart keeps only the latest snapshot, a
    sequence-update chart keeps a rolling history. */
module ChartConst {

  const GlobalUpdateChart: set<string> :=
    {"surface", "radar", "area", "areas", "pie", "text", "gauge"}

  const SequenceUpdateChart: set<string> :=
    {"line", "lines", "bar", "bars", "sequence", "sequences", "scatter"}

  /** `GLOBAL_UPDATE_CHART.has(chartType)`: the snapshot policy applies, and
      the chart may be paused by double-click. */
  predicate IsGlobalUpdate(chartType: string) {
    chartType in GlobalUpdateChart
  }

  /** No tag selects both policies. */
  lemma TablesDisjoint()
    ensures GlobalUpdateChart !! SequenceUpdateChart
    ensures forall t :: !(IsGlobalUpdate(t) && t in SequenceUpdateChart)
  {
  }

  /** A tag in neither table (an unknown tag, or one not yet lower-cased)
      falls to the rolling-history path, exactly like a sequence tag. */
  lemma UnknownTagIsRolling(t: string)
    requires t !in GlobalUpdateChart && t !in SequenceUpdateChart
    ensures !IsGlobalUpdate(t)
  {
  }

  /** "gauge" selects the snapshot policy. */
  lemma GaugeIsGlobal()
    ensures IsGlobalUpdate("gauge") && "gauge" !in SequenceUpdateChart
  {
  }
}
