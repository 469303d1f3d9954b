/**
 * The backend's request handlers over a registry of running engines: the
 * disrupt endpoint and the WebSocket session loop.
 */
module Server {
  import opened Wrappers
  import opened Protocol
  import opened Agents
  import opened EngineSpec
  import opened Engine
  import opened ServerSpec

  /** The disrupt endpoint's answer: HTTP 404, or the confirmation message. */
  datatype DisruptResponse = NotFound(status: int, detail: string) | Injected(message: string)

  const NotFoundDetail := "Simulation not found"

  function InjectedMessage(kind: string, simulationId: string): string {
    "Disruption '" + kind + "' injected into simulation " + simulationId
  }

  /** The validated request body as the engine receives it: every key present. */
  function Dumped(request: DisruptionRequest): DisruptionEvent {
    DisruptionEvent(Some(request.kind), Some(request.value), Some(request.duration))
  }

  class Server {
    var activeSimulations: map<string, SimulationEngine>

    constructor()
      ensures activeSimulations == map[]
    {
      activeSimulations := map[];
    }

    /** `disrupt_simulation`: an unknown id is a 404 and touches nothing; a known one gets the disruption. */
    method DisruptSimulation(simulationId: string, request: DisruptionRequest, analyst: Analyst) returns (response: DisruptResponse)
      modifies if simulationId in activeSimulations then {activeSimulations[simulationId]} else {}
      ensures activeSimulations == old(activeSimulations)
      ensures simulationId !in activeSimulations ==> response == NotFound(404, NotFoundDetail)
      ensures simulationId in activeSimulations ==>
        var engine := activeSimulations[simulationId];
        response == Injected(InjectedMessage(request.kind, simulationId))
        && engine.State() == Inject(old(engine.State()), Dumped(request), analyst, engine.enableAnalyst)
    {
      if simulationId !in activeSimulations {
        response := NotFound(404, NotFoundDetail);
        return;
      }
      var engine := activeSimulations[simulationId];
      engine.InjectDisruption(Dumped(request), analyst);
      response := Injected(InjectedMessage(request.kind, simulationId));
    }

    /**
     * `websocket_endpoint`: `start` is the first message (`None` if the
     * client left before sending one), `capacity` the number of frames the
     * client takes before disconnecting. Whatever happens, the session's id
     * is gone from the registry at the end.
     */
    method WebsocketEndpoint(simulationId: string, start: Option<StartData>, capacity: nat, modelLoaded: bool,
                             predict: Predictor, analyst: Analyst, summarize: Summarizer, ghost weekly: Weekly)
      returns (sent: seq<Payload>)
      requires KeepsRecorded(weekly) && RunsHandler(weekly, predict, analyst)
      modifies this
      ensures activeSimulations == old(activeSimulations) - {simulationId}
      ensures sent == Delivered(Conversation(simulationId, start, modelLoaded, weekly, summarize), capacity)
    {
      TickPayloadSends();
      sent := [];
      if start.Some? && start.value.typ == Some(StartSimulationType) {
        var config := start.value.config.GetOr(map[]);
        var numWeeks := start.value.weeks.GetOr(DefaultWeeks);
        var engine := new SimulationEngine(config, true, modelLoaded);
        assert engine.State() == StartEngine(config, modelLoaded);
        activeSimulations := activeSimulations[simulationId := engine];
        sent := RunSession(simulationId, engine, numWeeks, capacity, predict, analyst, weekly, TickPayload, summarize);
      }
      if simulationId in activeSimulations {
        activeSimulations := activeSimulations - {simulationId};
      }
    }
  }

  /** The `current_state` frame: one report per agent, filled in agent order, and the step's events if any. */
  method CurrentState(engine: SimulationEngine, week: int, ghost tick: Ticker) returns (state: Payload)
    requires engine.Valid() && Recorded(engine.Chain()) && SendsTicks(tick)
    ensures state == tick(week, engine.State())
  {
    var agents: map<string, AgentReport> := map[];
    var i := 0;
    while i < |engine.agents|
      invariant 0 <= i <= 4
      invariant agents == Reports(engine.Chain()[..i])
    {
      var agent := engine.agents[i];
      ReportsExtend(engine.Chain(), i);
      agents := agents[RoleName(agent.role) := AgentReport(Last(agent.inventoryHistory), Last(agent.orderHistory),
                                                           agent.backlog, Last(agent.costHistory))];
      i := i + 1;
    }
    assert engine.Chain()[..4] == engine.Chain();
    var events := if engine.eventsThisStep != [] then Some(engine.eventsThisStep) else None;
    state := Payload(None, None, Some(week), Some(agents), events, None);
    assert state == TickPayload(week, engine.State());
  }

  /**
   * One week of the session: the engine's step at the scheduled demand,
   * the week's tick, and its send, which fails once the client has taken
   * `capacity` frames.
   */
  method SessionWeek(simulationId: string, engine: SimulationEngine, ghost e0: EngineState, week: int, customerDemand: int,
                     sent: seq<Payload>, capacity: nat, predict: Predictor, analyst: Analyst,
                     ghost weekly: Weekly, ghost tick: Ticker)
    returns (sentNow: seq<Payload>, disconnected: bool)
    requires engine.Valid() && engine.enableAnalyst && 1 <= week
    requires Recorded(e0.agents) && KeepsRecorded(weekly) && RunsHandler(weekly, predict, analyst) && SendsTicks(tick)
    requires engine.State() == Trace(e0, week - 1, weekly)
    requires customerDemand == WeekDemand(week)
    requires sent == [IdPayload(simulationId)] + Ticks(e0, week - 1, weekly, tick) && |sent| <= capacity
    modifies engine, engine.factory, engine.distributor, engine.wholesaler, engine.retailer
    ensures engine.Valid()
    ensures engine.State() == Trace(e0, week, weekly)
    ensures disconnected <==> |sent| == capacity
    ensures !disconnected ==> sentNow == [IdPayload(simulationId)] + Ticks(e0, week, weekly, tick)
    ensures disconnected ==> sentNow == sent
  {
    AdvanceWeek(engine, e0, week, customerDemand, predict, analyst, weekly);
    var currentState := CurrentState(engine, week, tick);
    disconnected := |sent| == capacity;
    if disconnected {
      sentNow := sent;
    } else {
      TicksSnoc(e0, week, weekly, tick);
      sentNow := sent + [currentState];
    }
  }

  /** `engine.run_step(week, customer_demand)` inside the loop: the trace moves on by one week. */
  method AdvanceWeek(engine: SimulationEngine, ghost e0: EngineState, week: int, customerDemand: int,
                     predict: Predictor, analyst: Analyst, ghost weekly: Weekly)
    requires engine.Valid() && engine.enableAnalyst && 1 <= week
    requires Recorded(e0.agents) && KeepsRecorded(weekly) && RunsHandler(weekly, predict, analyst)
    requires engine.State() == Trace(e0, week - 1, weekly)
    requires customerDemand == WeekDemand(week)
    modifies engine, engine.factory, engine.distributor, engine.wholesaler, engine.retailer
    ensures engine.Valid()
    ensures engine.State() == Trace(e0, week, weekly)
  {
    ghost var before := engine.State();
    engine.RunStep(week, customerDemand, predict, analyst);
    assert engine.State() == weekly(before, week);
  }

  /**
   * The body of the handler once the engine is registered: the id frame,
   * one step and one tick per week, the summary. Sending stops for good at
   * the first frame the client no longer takes.
   */
  method RunSession(simulationId: string, engine: SimulationEngine, numWeeks: int, capacity: nat,
                    predict: Predictor, analyst: Analyst, ghost weekly: Weekly, ghost tick: Ticker, summarize: Summarizer)
    returns (sent: seq<Payload>)
    requires engine.Valid() && engine.enableAnalyst && Startable(engine.State())
    requires KeepsRecorded(weekly) && RunsHandler(weekly, predict, analyst) && SendsTicks(tick)
    modifies engine, engine.factory, engine.distributor, engine.wholesaler, engine.retailer
    ensures sent == Delivered(SessionFrames(simulationId, old(engine.State()), Max(0, numWeeks), engine.agentConfig,
                                            weekly, tick, summarize), capacity)
  {
    ghost var e0 := engine.State();
    ghost var weeks := Max(0, numWeeks);
    ghost var full := SessionFrames(simulationId, e0, weeks, engine.agentConfig, weekly, tick, summarize);
    ghost var summary := SummaryPayload(engine.agentConfig, Trace(e0, weeks, weekly).agents, summarize);
    assert full == [IdPayload(simulationId)] + Ticks(e0, weeks, weekly, tick) + [summary];
    if capacity == 0 {
      return [];
    }
    var disconnected;
    ghost var ticksSent;
    sent, disconnected, ticksSent := StreamTicks(simulationId, engine, e0, numWeeks, capacity, predict, analyst, weekly, tick);
    if disconnected {
      TicksPrefix(e0, ticksSent, weeks, weekly, tick);
      DeliveredPrefix(IdPayload(simulationId), Ticks(e0, weeks, weekly, tick), summary, ticksSent);
    } else {
      var finalSummary := SummaryPayload(engine.agentConfig, engine.Chain(), summarize);
      if |sent| < capacity {
        sent := sent + [finalSummary];
      }
      DeliveredAll(IdPayload(simulationId), Ticks(e0, weeks, weekly, tick), summary, capacity);
    }
  }

  /**
   * The id frame and the weekly loop: the demand schedule, one engine step
   * and one tick per week. `disconnected` says the client stopped taking
   * frames, after `capacity` of them, in the middle of the run.
   */
  method StreamTicks(simulationId: string, engine: SimulationEngine, ghost e0: EngineState, numWeeks: int, capacity: nat,
                     predict: Predictor, analyst: Analyst, ghost weekly: Weekly, ghost tick: Ticker)
    returns (sent: seq<Payload>, disconnected: bool, ghost ticksSent: nat)
    requires engine.Valid() && engine.enableAnalyst && engine.State() == e0 && Recorded(e0.agents) && capacity > 0
    requires KeepsRecorded(weekly) && RunsHandler(weekly, predict, analyst) && SendsTicks(tick)
    modifies engine, engine.factory, engine.distributor, engine.wholesaler, engine.retailer
    ensures engine.Valid()
    ensures ticksSent <= Max(0, numWeeks) && |sent| <= capacity
    ensures sent == [IdPayload(simulationId)] + Ticks(e0, ticksSent, weekly, tick)
    ensures disconnected ==> |sent| == capacity && ticksSent < Max(0, numWeeks)
    ensures !disconnected ==>
      ticksSent == Max(0, numWeeks) && engine.State() == Trace(e0, ticksSent, weekly)
  {
    ghost var weeks := Max(0, numWeeks);
    sent := [IdPayload(simulationId)];
    disconnected := false;

    var customerDemand := BaseDemand;
    var week := 1;
    while week <= numWeeks
      invariant 1 <= week <= weeks + 1
      invariant engine.Valid()
      invariant engine.State() == Trace(e0, week - 1, weekly)
      invariant customerDemand == WeekDemand(week - 1)
      invariant sent == [IdPayload(simulationId)] + Ticks(e0, week - 1, weekly, tick)
      invariant |sent| <= capacity
      invariant !disconnected
      decreases weeks + 1 - week
    {
      if week == RaiseWeek {
        customerDemand := RaisedDemand;
      }
      sent, disconnected := SessionWeek(simulationId, engine, e0, week, customerDemand, sent, capacity, predict, analyst, weekly, tick);
      if disconnected {
        break;
      }
      week := week + 1;
    }
    ticksSent := week - 1;
  }

  /** A client that disconnects after `k + 1` frames got the id and the first `k` ticks. */
  lemma DeliveredPrefix(id: Payload, ticks: seq<Payload>, summary: Payload, k: nat)
    requires k <= |ticks|
    ensures Delivered([id] + ticks + [summary], k + 1) == [id] + ticks[..k]
  {
    assert ([id] + ticks + [summary])[..k + 1] == [id] + ticks[..k];
  }

  /** A client that stays got the id and every tick, and the summary if it took one more frame. */
  lemma DeliveredAll(id: Payload, ticks: seq<Payload>, summary: Payload, capacity: nat)
    requires capacity > |ticks|
    ensures Delivered([id] + ticks + [summary], capacity)
      == if capacity == |ticks| + 1 then [id] + ticks else [id] + ticks + [summary]
  {
    assert ([id] + ticks + [summary])[..|ticks| + 1] == [id] + ticks;
  }
}
