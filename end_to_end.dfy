/**
 * Both halves together: the frames the WebSocket handler sends for a
 * session, folded by the client hook into the state the page renders.
 */
module EndToEnd {
  import opened Wrappers
  import opened Protocol
  import opened Agents
  import opened EngineSpec
  import opened SimulationSocket
  import opened Page
  import opened ServerSpec
  import ControlPanel

  /** Frames as the client's socket hands them over: every JSON object is truthy. */
  function Received(frames: seq<Payload>): (ms: seq<Option<Payload>>)
    ensures |ms| == |frames| && forall i :: 0 <= i < |frames| ==> ms[i] == Some(frames[i])
  {
    seq(|frames|, i requires 0 <= i < |frames| => Some(frames[i]))
  }

  /** An untyped frame with agents, whose events (if any) are WARNINGs. */
  predicate WarningTick(t: Payload) {
    t.typ.None? && t.agents.Some?
    && (t.events.Some? ==> forall i :: 0 <= i < |t.events.value| ==> t.events.value[i].severity == Warning)
  }

  /**
   * The client side of a session: an id, then ticks, then a summary, folded
   * into a freshly started hook, leave the id and the summary in place, the
   * ticks as the history in arrival order and only WARNINGs in the log.
   */
  lemma ClientFollowsFrames(s: Session, id: string, ticks: seq<Payload>, summary: Payload)
    requires forall k :: 0 <= k < |ticks| ==> WarningTick(ticks[k])
    requires summary.typ == Some(FinalSummaryType)
    ensures var r := ReduceAll(StartReset(s), Received([IdPayload(id)] + ticks + [summary]));
      r.simulationId == Some(id) && r.summaryData == Some(summary) && !IsRunning(r) && ShowsReport(r)
      && r.dataHistory == ticks
      && forall i :: 0 <= i < |r.eventHistory| ==> r.eventHistory[i].severity == Warning
  {
    var s1 := Reduce(StartReset(s), Some(IdPayload(id)));
    var s2 := ReduceAll(s1, Received(ticks));
    ReceivedInThreeParts(StartReset(s), id, ticks, summary);
    assert s1 == StartReset(s).(simulationId := Some(id)) by {
      SessionIdOnlySetsId(StartReset(s), IdPayload(id));
    }
    assert s2 == s1.(dataHistory := ticks, eventHistory := AllEvents(ticks)) by {
      assert AllTicks(Received(ticks));
      TicksAppendInOrder(s1, Received(ticks));
      assert Payloads(Received(ticks)) == ticks;
    }
    SummaryOverwrites(s2, summary);
    AllEventsOfSeverity(ticks, Warning);
  }

  /**
   * The socket closing after the summary: the client forgets the id, and the
   * summary, the history and the shown report stay.
   */
  lemma FramesThenClose(s: Session, id: string, ticks: seq<Payload>, summary: Payload)
    requires forall k :: 0 <= k < |ticks| ==> WarningTick(ticks[k])
    requires summary.typ == Some(FinalSummaryType)
    ensures var r := Close(ReduceAll(StartReset(s), Received([IdPayload(id)] + ticks + [summary])));
      r.simulationId.None? && r.summaryData == Some(summary) && !IsRunning(r) && ShowsReport(r)
      && r.dataHistory == ticks
  {
    ClientFollowsFrames(s, id, ticks, summary);
  }

  /** Folding the frames of a session is folding the id, then the ticks, then the summary. */
  lemma ReceivedInThreeParts(s: Session, id: string, ticks: seq<Payload>, summary: Payload)
    ensures ReduceAll(s, Received([IdPayload(id)] + ticks + [summary]))
         == Reduce(ReduceAll(Reduce(s, Some(IdPayload(id))), Received(ticks)), Some(summary))
  {
    var first := [Some(IdPayload(id))];
    var ms := Received(ticks);
    assert Received([IdPayload(id)] + ticks + [summary]) == first + ms + [Some(summary)];
    ReduceAllAppend(s, first + ms, [Some(summary)]);
    ReduceAllAppend(s, first, ms);
    assert first[..0] == [];
    assert [Some(summary)][..0] == [];
  }

  /**
   * A client that starts a run and takes every frame of it holds, after the
   * summary frame, the run's id and summary, is no longer running, has one
   * history entry per week in week order, and its analyst log holds WARNING
   * events only.
   */
  lemma ClientFollowsSession(s: Session, id: string, e0: EngineState, weeks: nat, config: map<string, string>,
                             week: Weekly, summarize: Summarizer)
    requires Recorded(e0.agents) && KeepsRecorded(week) && WarnsOnly(week)
    ensures var frames := SessionFrames(id, e0, weeks, config, week, TickPayload, summarize);
      var r := ReduceAll(StartReset(s), Received(frames));
      r.simulationId == Some(id) && r.summaryData == Some(Last(frames)) && !IsRunning(r) && ShowsReport(r)
      && |r.dataHistory| == weeks
      && (forall k :: 0 <= k < weeks ==> r.dataHistory[k] == frames[k + 1] && r.dataHistory[k].week == Some(k + 1))
      && forall i :: 0 <= i < |r.eventHistory| ==> r.eventHistory[i].severity == Warning
  {
    var ticks := Ticks(e0, weeks, week, TickPayload);
    var summary := SummaryPayload(config, Trace(e0, weeks, week).agents, summarize);
    var frames := SessionFrames(id, e0, weeks, config, week, TickPayload, summarize);
    assert frames == [IdPayload(id)] + ticks + [summary];
    TicksCarryOnlyWarnings(e0, weeks, week);
    var r := ReduceAll(StartReset(s), Received(frames));
    assert r.simulationId == Some(id) && r.summaryData == Some(summary) && !IsRunning(r) && ShowsReport(r)
      && r.dataHistory == ticks
      && forall i :: 0 <= i < |r.eventHistory| ==> r.eventHistory[i].severity == Warning
    by {
      ClientFollowsFrames(s, id, ticks, summary);
    }
    assert Last(frames) == summary;
    assert forall k :: 0 <= k < weeks ==> frames[k + 1] == ticks[k];
  }

  /**
   * Once the handler has sent the summary it returns and the socket closes:
   * the client forgets the id, stays stopped, and keeps the summary and one
   * history entry per week.
   */
  lemma SessionEndsWithClose(s: Session, id: string, e0: EngineState, weeks: nat, config: map<string, string>,
                             week: Weekly, summarize: Summarizer)
    requires Recorded(e0.agents) && KeepsRecorded(week) && WarnsOnly(week)
    ensures var frames := SessionFrames(id, e0, weeks, config, week, TickPayload, summarize);
      var closed := Close(ReduceAll(StartReset(s), Received(frames)));
      closed.simulationId.None? && closed.summaryData == Some(Last(frames)) && !IsRunning(closed) && ShowsReport(closed)
      && |closed.dataHistory| == weeks
  {
    var ticks := Ticks(e0, weeks, week, TickPayload);
    var summary := SummaryPayload(config, Trace(e0, weeks, week).agents, summarize);
    assert [IdPayload(id)] + ticks + [summary] == SessionFrames(id, e0, weeks, config, week, TickPayload, summarize);
    TicksCarryOnlyWarnings(e0, weeks, week);
    FramesThenClose(s, id, ticks, summary);
  }

  /**
   * The handler's own run, as the page sees it: the engine's CRITICAL
   * disruption commentary and demand-shift INFO never reach the analyst log.
   */
  lemma ClientSeesHandlerRun(s: Session, id: string, start: Option<StartData>, modelLoaded: bool,
                             predict: Predictor, analyst: Analyst, summarize: Summarizer)
    requires Accepted(start)
    ensures KeepsRecorded(HandlerWeek(predict, analyst))
    ensures var r := ReduceAll(StartReset(s), Received(Conversation(id, start, modelLoaded, HandlerWeek(predict, analyst), summarize)));
      r.simulationId == Some(id) && !IsRunning(r) && ShowsReport(r)
      && |r.dataHistory| == Max(0, start.value.weeks.GetOr(DefaultWeeks))
      && forall i :: 0 <= i < |r.eventHistory| ==> r.eventHistory[i].severity == Warning
  {
    HandlerWeekKeepsRecorded(predict, analyst);
    HandlerWeekWarnsOnly(predict, analyst);
    var config := start.value.config.GetOr(map[]);
    ClientFollowsSession(s, id, StartEngine(config, modelLoaded), Max(0, start.value.weeks.GetOr(DefaultWeeks)),
                         config, HandlerWeek(predict, analyst), summarize);
  }

  /** With its switches untouched, the panel's start message builds four rule-based agents. */
  lemma UntouchedPanelBuildsRuleChain(modelLoaded: bool)
    ensures forall i :: 0 <= i < 4 ==> KindFor(ControlPanel.InitialConfig(), Roles[i], modelLoaded) == RuleBased
    ensures InitialAgents(ControlPanel.InitialConfig(), modelLoaded)
      == seq(4, i requires 0 <= i < 4 => NewAgent(Roles[i], RuleBased, DefaultTargetInventory))
  {
    var c := ControlPanel.InitialConfig();
    assert "Factory" !in c;
    forall i | 0 <= i < 4
      ensures KindFor(c, Roles[i], modelLoaded) == RuleBased
    {
      if RoleName(Roles[i]) in c {
        assert c[RoleName(Roles[i])] == ControlPanel.Rule;
      }
    }
  }
}
