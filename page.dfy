/** The values the home page derives from the hook's state. */
module Page {
  import opened Wrappers
  import opened Protocol
  import opened SimulationSocket

  /** `!!simulationId && !summaryData`: an empty id counts as absent. */
  function IsRunning(s: Session): bool {
    Truthy(s.simulationId) && s.summaryData.None?
  }

  /** The `agents` of the newest tick, or nothing before the first tick. */
  function LatestData(s: Session): (r: Option<map<string, AgentReport>>)
    ensures s.dataHistory == [] ==> r.None?
    ensures s.dataHistory != [] ==> r == Last(s.dataHistory).agents
  {
    if |s.dataHistory| > 0 then s.dataHistory[|s.dataHistory| - 1].agents else None
  }

  /** The summary report is rendered exactly when a summary is held. */
  function ShowsReport(s: Session): bool {
    s.summaryData.Some?
  }

  /** The properties the page hands to the control panel: `apiBaseUrl` is not among them. */
  datatype PanelProps = PanelProps(simulationId: Option<string>, isRunning: bool, apiBaseUrl: Option<string>)

  function PropsFor(s: Session): (p: PanelProps)
    ensures p.apiBaseUrl.None?
    ensures p.isRunning == IsRunning(s) && p.simulationId == s.simulationId
  {
    PanelProps(s.simulationId, IsRunning(s), None)
  }

  /** Running means: an id is known and no summary has arrived. */
  lemma RunningIff(s: Session)
    ensures IsRunning(s) <==> (s.simulationId.Some? && s.simulationId.value != "" && s.summaryData.None?)
  {
  }

  /** After a summary, further payloads of any kind never make the run "running" again. */
  lemma NotRunningAfterSummary(s: Session, ms: seq<Option<Payload>>)
    requires s.summaryData.Some?
    ensures !IsRunning(ReduceAll(s, ms))
    ensures ShowsReport(ReduceAll(s, ms))
  {
    SummaryIsSticky(s, ms);
  }

  /** After a non-empty run of ticks, the latest data is the last tick's agents. */
  lemma LatestIsLastTick(s: Session, ms: seq<Option<Payload>>)
    requires AllTicks(ms) && |ms| > 0
    ensures LatestData(ReduceAll(s, ms)) == ms[|ms| - 1].value.agents
    ensures LatestData(ReduceAll(s, ms)).Some?
  {
    TicksAppendInOrder(s, ms);
    var h := ReduceAll(s, ms).dataHistory;
    assert h[|h| - 1] == Payloads(ms)[|ms| - 1];
  }

  /**
   * The session scenario: start, receive the id, three ticks and a summary.
   * The run is live after the id, stops with the summary, and the history
   * keeps its three ticks.
   */
  lemma StartIdTicksSummary(s: Session, id: string, t1: Payload, t2: Payload, t3: Payload, summary: Payload)
    requires id != ""
    requires AllTicks([Some(t1), Some(t2), Some(t3)])
    requires summary.typ == Some(FinalSummaryType)
    ensures var s1 := Reduce(StartReset(s), Some(IdPayload(id)));
      && s1.simulationId == Some(id) && IsRunning(s1) && s1.dataHistory == []
      && var s2 := ReduceAll(s1, [Some(t1), Some(t2), Some(t3)]);
      && |s2.dataHistory| == 3 && IsRunning(s2)
      && var s3 := Reduce(s2, Some(summary));
      && !IsRunning(s3) && s3.summaryData == Some(summary) && |s3.dataHistory| == 3
  {
    var s1 := Reduce(StartReset(s), Some(IdPayload(id)));
    TicksAppendInOrder(s1, [Some(t1), Some(t2), Some(t3)]);
  }

  /** An id followed by a summary, with no tick in between, is finished with an empty history. */
  lemma IdThenSummary(s: Session, id: string, summary: Payload)
    requires summary.typ == Some(FinalSummaryType)
    ensures var r := ReduceAll(StartReset(s), [Some(IdPayload(id)), Some(summary)]);
      !IsRunning(r) && r.dataHistory == []
  {
    var s0 := StartReset(s);
    var first := [Some(IdPayload(id))];
    assert [Some(IdPayload(id)), Some(summary)][..1] == first;
    assert first[..0] == [];
    assert ReduceAll(s0, []) == s0;
    var s1 := ReduceAll(s0, first);
    assert s1 == Reduce(s0, Some(IdPayload(id)));
    assert s1.dataHistory == [];
  }
}
