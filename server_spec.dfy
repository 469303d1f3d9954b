/**
 * The WebSocket handler's output as a value: the `simulation_id` frame, one
 * tick per week with the weekly demand schedule, then the final summary.
 */
module ServerSpec {
  import opened Wrappers
  import opened Protocol
  import opened Agents
  import opened EngineSpec
  import opened EngineProperties

  const DefaultWeeks := 50
  const BaseDemand := 20
  const RaisedDemand := 25
  const RaiseWeek := 10
  const SummaryTitle := "Simulation Complete: AI-Generated Performance Dashboard"
  const HoldingCostName := "Holding Cost"
  const StockoutCostName := "Stockout Cost"

  /** The final-summary text service, given the agent configuration and the total costs. */
  type Summarizer = (map<string, string>, seq<(string, int)>) -> string

  /** The handler's demand variable: 20, raised to 25 in week 10 and kept there. */
  function WeekDemand(week: int): int {
    if week >= RaiseWeek then RaisedDemand else BaseDemand
  }

  /** Every agent has at least the initial entry in each history. */
  predicate Recorded(c: seq<AgentState>) {
    ChainShape(c)
    && forall i :: 0 <= i < 4 ==>
      |c[i].inventoryHistory| > 0 && |c[i].orderHistory| > 0 && |c[i].costHistory| > 0
  }

  /** One agent's entry in a tick: last inventory, last order, current backlog, last cost. */
  function Report(a: AgentState): (r: AgentReport)
    requires |a.inventoryHistory| > 0 && |a.orderHistory| > 0 && |a.costHistory| > 0
  {
    AgentReport(Last(a.inventoryHistory), Last(a.orderHistory), a.backlog, Last(a.costHistory))
  }

  /** The `agents` dictionary, filled in agent order (a later agent with the same name would win). */
  function Reports(c: seq<AgentState>): map<string, AgentReport>
    requires forall i :: 0 <= i < |c| ==>
      |c[i].inventoryHistory| > 0 && |c[i].orderHistory| > 0 && |c[i].costHistory| > 0
    decreases |c|
  {
    if c == [] then map[]
    else Reports(c[..|c| - 1])[RoleName(Last(c).role) := Report(Last(c))]
  }

  /** A tick: the week, the agents, and the `events` key only when the step produced events. */
  function TickPayload(week: int, e: EngineState): Payload
    requires Recorded(e.agents)
  {
    Payload(None, None, Some(week), Some(Reports(e.agents)), if e.events == [] then None else Some(e.events), None)
  }

  /** One pass of the handler's loop body over the engine, as a value, given the week number. */
  type Weekly = (EngineState, int) -> EngineState

  /** The handler's week: the engine's step with the scheduled demand and the analyst on. */
  function HandlerWeek(predict: Predictor, analyst: Analyst): Weekly {
    (e: EngineState, week: int) => if |e.agents| == 4 then Step(e, week, WeekDemand(week), predict, analyst, true) else e
  }

  /** A week function that never loses an agent or a history entry. */
  ghost predicate KeepsRecorded(week: Weekly) {
    forall e: EngineState, w: int :: Recorded(e.agents) ==> Recorded(week(e, w).agents)
  }

  /** The engine state after weeks 1..n of the loop. */
  function Trace(e0: EngineState, n: nat, week: Weekly): (r: EngineState)
    ensures Recorded(e0.agents) && KeepsRecorded(week) ==> Recorded(r.agents)
    decreases n
  {
    if n == 0 then e0 else week(Trace(e0, n - 1, week), n)
  }

  lemma HandlerWeekKeepsRecorded(predict: Predictor, analyst: Analyst)
    ensures KeepsRecorded(HandlerWeek(predict, analyst))
  {
    forall e: EngineState, w: int | Recorded(e.agents)
      ensures Recorded(HandlerWeek(predict, analyst)(e, w).agents)
    {
      StepAppendsOneRecord(e, w, WeekDemand(w), predict, analyst, true);
    }
  }

  /** The engine the handler builds: analyst on, one agent per role. */
  function StartEngine(config: map<string, string>, modelLoaded: bool): (e: EngineState)
    ensures Startable(e)
  {
    InitialState(config, modelLoaded)
  }

  /**
   * The invariant the handler's loop keeps: roles in place, every history
   * `n + 1` long and starting with the initial entry, quantities
   * non-negative, and each recorded cost above the recorded inventory by a
   * multiple of the stockout cost.
   */
  predicate TraceInvariant(e0: EngineState, e: EngineState, n: nat) {
    Recorded(e0.agents) && Recorded(e.agents) && AllNonNegative(e.agents)
    && e.disruptionValue == e0.disruptionValue && e0.disruptionValue >= 0
    && forall i :: 0 <= i < 4 ==>
      var (a0, a) := (e0.agents[i], e.agents[i]);
      |a.inventoryHistory| == n + 1 && HistoriesAligned(a)
      && a.inventoryHistory[0] == a0.inventoryHistory[0] && a.costHistory[0] == a0.costHistory[0]
      && CostsCoverHoldings(a)
  }

  /** Every recorded cost (after the initial entry) is the inventory plus a stockout charge. */
  predicate CostsCoverHoldings(a: AgentState) {
    |a.costHistory| == |a.inventoryHistory|
    && forall k :: 1 <= k < |a.costHistory| ==>
      a.costHistory[k] - a.inventoryHistory[k] >= 0 && (a.costHistory[k] - a.inventoryHistory[k]) % StockoutCost == 0
  }

  /** Recording appends a cost that exceeds the recorded inventory by five times the backlog. */
  lemma RecordKeepsCostsCover(a: AgentState, b: AgentState, n: nat)
    requires CostsCoverHoldings(a) && |a.inventoryHistory| == n && b.backlog >= 0
    requires b.inventoryHistory == a.inventoryHistory + [b.inventory]
    requires b.costHistory == a.costHistory + [WeeklyCost(b.inventory, b.backlog)]
    ensures CostsCoverHoldings(b)
  {
    assert b.costHistory[n] - b.inventoryHistory[n] == StockoutCost * b.backlog;
  }

  lemma StepKeepsTraceInvariant(e0: EngineState, e: EngineState, n: nat, predict: Predictor, analyst: Analyst)
    requires TraceInvariant(e0, e, n)
    ensures TraceInvariant(e0, Step(e, n + 1, WeekDemand(n + 1), predict, analyst, true), n + 1)
  {
    var next := Step(e, n + 1, WeekDemand(n + 1), predict, analyst, true);
    StepAppendsOneRecord(e, n + 1, WeekDemand(n + 1), predict, analyst, true);
    StepKeepsNonNegative(e, n + 1, WeekDemand(n + 1), predict, analyst, true);
    forall i | 0 <= i < 4
      ensures CostsCoverHoldings(next.agents[i])
    {
      RecordKeepsCostsCover(e.agents[i], next.agents[i], n + 1);
    }
  }

  /** An engine as built: one entry per history, nothing negative, no spike value below zero. */
  predicate Startable(e0: EngineState) {
    Recorded(e0.agents) && AllNonNegative(e0.agents) && e0.disruptionValue >= 0
    && forall i :: 0 <= i < 4 ==> |e0.agents[i].inventoryHistory| == 1 && HistoriesAligned(e0.agents[i])
  }

  /** A week function that keeps the loop invariant. */
  ghost predicate KeepsInvariant(week: Weekly) {
    forall e0: EngineState, e: EngineState, n: nat ::
      TraceInvariant(e0, e, n) ==> TraceInvariant(e0, week(e, n + 1), n + 1)
  }

  lemma HandlerWeekKeepsInvariant(predict: Predictor, analyst: Analyst)
    ensures KeepsInvariant(HandlerWeek(predict, analyst))
  {
    forall e0: EngineState, e: EngineState, n: nat | TraceInvariant(e0, e, n)
      ensures TraceInvariant(e0, HandlerWeek(predict, analyst)(e, n + 1), n + 1)
    {
      StepKeepsTraceInvariant(e0, e, n, predict, analyst);
    }
  }

  lemma {:induction false} TraceKeepsInvariant(e0: EngineState, n: nat, week: Weekly)
    requires Startable(e0) && KeepsRecorded(week) && KeepsInvariant(week)
    ensures TraceInvariant(e0, Trace(e0, n, week), n)
    decreases n
  {
    if n > 0 {
      TraceKeepsInvariant(e0, n - 1, week);
    }
  }

  /** How a week's engine becomes the frame sent for it; the handler's is `TickPayload`. */
  type Ticker = (int, EngineState) --> Payload

  /** A ticker that can build the tick of any recorded engine. */
  ghost predicate Defined(tick: Ticker) {
    forall w: int, e: EngineState {:trigger tick.requires(w, e)} :: Recorded(e.agents) ==> tick.requires(w, e)
  }

  /** The handler's ticker: `TickPayload` on every recorded engine. */
  ghost predicate SendsTicks(tick: Ticker) {
    Defined(tick)
    && forall w: int, e: EngineState {:trigger TickPayload(w, e)} :: Recorded(e.agents) ==> tick(w, e) == TickPayload(w, e)
  }

  lemma TickPayloadSends()
    ensures SendsTicks(TickPayload)
  {
  }

  /** The ticks of the first `n` weeks, in week order: entry `k` is the tick of week `k + 1`. */
  function Ticks(e0: EngineState, n: nat, week: Weekly, tick: Ticker): (ts: seq<Payload>)
    requires Recorded(e0.agents) && KeepsRecorded(week) && Defined(tick)
  {
    seq(n, k requires 0 <= k < n => tick(k + 1, Trace(e0, k + 1, week)))
  }

  /** One more week of the loop sends one more tick, after the others. */
  lemma TicksSnoc(e0: EngineState, n: nat, week: Weekly, tick: Ticker)
    requires Recorded(e0.agents) && KeepsRecorded(week) && Defined(tick) && n >= 1
    ensures Ticks(e0, n, week, tick) == Ticks(e0, n - 1, week, tick) + [tick(n, Trace(e0, n, week))]
  {
    assert forall k :: 0 <= k < n - 1 ==> Ticks(e0, n, week, tick)[k] == Ticks(e0, n - 1, week, tick)[k];
  }

  /** `{name: int(sum(cost history))}` in agent order. */
  function TotalCosts(c: seq<AgentState>): (costs: seq<(string, int)>)
    ensures |costs| == |c|
  {
    seq(|c|, i requires 0 <= i < |c| => (RoleName(c[i].role), Sum(c[i].costHistory)))
  }

  /** `dict.get(name, 0)` on the total costs. */
  function CostOf(costs: seq<(string, int)>, name: string): int
    decreases |costs|
  {
    if costs == [] then 0
    else if Last(costs).0 == name then Last(costs).1
    else CostOf(costs[..|costs| - 1], name)
  }

  /** Each week's inventory times the holding cost, summed. */
  function HoldingTotal(inventoryHistory: seq<int>): int
    decreases |inventoryHistory|
  {
    if inventoryHistory == [] then 0
    else HoldingTotal(inventoryHistory[..|inventoryHistory| - 1]) + Last(inventoryHistory) * HoldingCost
  }

  function StabilityData(inventoryHistory: seq<int>): (data: seq<(int, int)>)
    ensures |data| == |inventoryHistory|
  {
    seq(|inventoryHistory|, i requires 0 <= i < |inventoryHistory| => (i, inventoryHistory[i]))
  }

  /** The retailer's holding and stockout figures; stockout is whatever of the total holding does not explain. */
  function CostBreakdown(c: seq<AgentState>): seq<(string, int)>
    requires ChainShape(c)
  {
    var holding := HoldingTotal(c[3].inventoryHistory);
    var total := CostOf(TotalCosts(c), RoleName(Retailer));
    [(HoldingCostName, holding), (StockoutCostName, total - holding)]
  }

  function SummaryPayload(config: map<string, string>, c: seq<AgentState>, summarize: Summarizer): Payload
    requires ChainShape(c)
  {
    var totals := TotalCosts(c);
    var body := SummaryBody(SummaryTitle, summarize(config, totals), totals,
                            StabilityData(c[3].inventoryHistory), CostBreakdown(c));
    Payload(Some(FinalSummaryType), None, None, None, None, Some(body))
  }

  /** The start message is taken only when its `type` is `start_simulation`. */
  predicate Accepted(start: Option<StartData>) {
    start.Some? && start.value.typ == Some(StartSimulationType)
  }

  /**
   * Every frame the handler sends for a session, if the client stays: the
   * id, one tick per week 1..weeks, the summary. A missing or wrong start
   * message gives nothing.
   */
  function Conversation(id: string, start: Option<StartData>, modelLoaded: bool, week: Weekly, summarize: Summarizer): seq<Payload>
    requires KeepsRecorded(week)
  {
    if !Accepted(start) then []
    else
      var config := start.value.config.GetOr(map[]);
      var weeks := Max(0, start.value.weeks.GetOr(DefaultWeeks));
      SessionFrames(id, StartEngine(config, modelLoaded), weeks, config, week, TickPayload, summarize)
  }

  /** The frames of an accepted session run for `weeks` weeks from `e0`. */
  function SessionFrames(id: string, e0: EngineState, weeks: nat, config: map<string, string>,
                         week: Weekly, tick: Ticker, summarize: Summarizer): seq<Payload>
    requires Recorded(e0.agents) && KeepsRecorded(week) && Defined(tick)
  {
    [IdPayload(id)] + Ticks(e0, weeks, week, tick) + [SummaryPayload(config, Trace(e0, weeks, week).agents, summarize)]
  }

  /** What a client that takes `capacity` frames before disconnecting receives. */
  function Delivered(frames: seq<Payload>, capacity: nat): (r: seq<Payload>)
    ensures |r| == Min(|frames|, capacity)
  {
    frames[..Min(|frames|, capacity)]
  }

  /**
   * The handler already raises demand to 25 in week 10, so the engine's own
   * week-10 shift never fires from the handler: a step's demand is the
   * schedule's, unless a spike overrides it.
   */
  lemma ScheduleNeverShifts(e: EngineState, week: int)
    requires week >= 1
    ensures !ShiftsDemand(week, WeekDemand(week))
    ensures !(DisruptionRunning(e) && e.disruptionType == Some(DemandSpikeType)) ==>
      EffectiveDemand(e, week, WeekDemand(week)) == WeekDemand(week)
    ensures week < RaiseWeek ==> WeekDemand(week) == 20
    ensures week >= RaiseWeek ==> WeekDemand(week) == 25
  {
  }

  /** Tick `k` (from zero) is the payload of week `k + 1`, built from the engine after that week. */
  /**
   * Driven by the handler, a step's events are at most one WARNING dated
   * with the step's week: no demand-shift INFO ever, and no CRITICAL.
   */
  lemma HandlerStepEvents(e: EngineState, week: int, predict: Predictor, analyst: Analyst)
    requires |e.agents| == 4 && week >= 1
    ensures var events := Step(e, week, WeekDemand(week), predict, analyst, true).events;
      |events| <= 1 && forall i :: 0 <= i < |events| ==> events[i].severity == Warning && events[i].week == week
  {
    var demand := WeekDemand(week);
    var begun := BeginStep(e, week, demand, analyst, true);
    var agents := Phases(e.agents, EffectiveDemand(e, week, demand), predict);
    assert Step(e, week, demand, predict, analyst, true).events == BullwhipCheck(begun.events, week, demand, agents, analyst, true);
    BeginStepEvents(e, week, demand, analyst, true);
    BullwhipCheckAppendsOneWarning(begun.events, week, demand, agents, analyst, true);
  }

  /** At most one event, a WARNING dated with the given week. */
  predicate OnlyWarning(events: seq<Event>, week: int) {
    |events| <= 1 && forall i :: 0 <= i < |events| ==> events[i].severity == Warning && events[i].week == week
  }

  /** A week function whose events are at most one WARNING for that week. */
  ghost predicate WarnsOnly(week: Weekly) {
    forall e: EngineState, w: int :: Recorded(e.agents) && w >= 1 ==> OnlyWarning(week(e, w).events, w)
  }

  lemma HandlerWeekWarnsOnly(predict: Predictor, analyst: Analyst)
    ensures WarnsOnly(HandlerWeek(predict, analyst))
  {
    forall e: EngineState, w: int | Recorded(e.agents) && w >= 1
      ensures OnlyWarning(HandlerWeek(predict, analyst)(e, w).events, w)
    {
      HandlerStepEvents(e, w, predict, analyst);
    }
  }

  /**
   * Every tick is an untyped frame carrying the agents of its week, and its
   * `events`, when present, are one WARNING for that week.
   */
  lemma TicksCarryOnlyWarnings(e0: EngineState, n: nat, week: Weekly)
    requires Recorded(e0.agents) && KeepsRecorded(week) && WarnsOnly(week)
    ensures forall k :: 0 <= k < n ==>
      var t := Ticks(e0, n, week, TickPayload)[k];
      t.typ.None? && t.id.None? && t.summary.None? && t.week == Some(k + 1) && t.agents.Some?
      && (t.events.Some? ==> |t.events.value| == 1 && t.events.value[0].severity == Warning && t.events.value[0].week == k + 1)
  {
    forall k | 0 <= k < n
      ensures var t := Ticks(e0, n, week, TickPayload)[k];
        t.typ.None? && t.id.None? && t.summary.None? && t.week == Some(k + 1) && t.agents.Some?
        && (t.events.Some? ==> |t.events.value| == 1 && t.events.value[0].severity == Warning && t.events.value[0].week == k + 1)
    {
      assert Ticks(e0, n, week, TickPayload)[k] == TickPayload(k + 1, Trace(e0, k + 1, week));
      assert Trace(e0, k + 1, week) == week(Trace(e0, k, week), k + 1);
    }
  }

  /** The `agents` dictionary of a tick has exactly the four role names, each with its own agent's report. */
  lemma ReportsCoverRoles(c: seq<AgentState>)
    requires Recorded(c)
    ensures Reports(c).Keys == {"Factory", "Distributor", "Wholesaler", "Retailer"}
    ensures forall i :: 0 <= i < 4 ==> Reports(c)[RoleName(Roles[i])] == Report(c[i])
  {
    ReportsOfFour(c);
  }

  /**
   * A tick for `week` reports every agent under its name with its last
   * inventory, last order, current backlog and last cost, and carries the
   * step's events exactly when there are any.
   */
  lemma TickReportsEveryAgent(week: int, e: EngineState)
    requires Recorded(e.agents)
    ensures var t := TickPayload(week, e);
      t.typ.None? && t.week == Some(week) && t.agents.Some?
      && t.agents.value.Keys == {"Factory", "Distributor", "Wholesaler", "Retailer"}
      && (forall i :: 0 <= i < 4 ==>
            var a := e.agents[i];
            t.agents.value[RoleName(Roles[i])]
              == AgentReport(Last(a.inventoryHistory), Last(a.orderHistory), a.backlog, Last(a.costHistory)))
      && (t.events.Some? <==> e.events != [])
      && (t.events.Some? ==> t.events.value == e.events)
  {
    ReportsCoverRoles(e.agents);
  }

  /** The dictionary is built by four updates, one per agent in engine order. */
  lemma ReportsOfFour(c: seq<AgentState>)
    requires Recorded(c)
    ensures Reports(c) == map[RoleName(c[0].role) := Report(c[0])][RoleName(c[1].role) := Report(c[1])]
                             [RoleName(c[2].role) := Report(c[2])][RoleName(c[3].role) := Report(c[3])]
  {
    ReportsExtend(c, 0);
    ReportsExtend(c, 1);
    ReportsExtend(c, 2);
    ReportsExtend(c, 3);
    assert c[..4] == c;
  }

  lemma ReportsExtend(c: seq<AgentState>, n: nat)
    requires Recorded(c) && n < 4
    ensures Reports(c[..n + 1]) == Reports(c[..n])[RoleName(c[n].role) := Report(c[n])]
  {
    assert c[..n + 1][..n] == c[..n];
  }

  /** With the holding cost at one per unit, the holding figure is the plain sum of the inventory history. */
  lemma {:induction false} HoldingIsInventorySum(h: seq<int>)
    ensures HoldingTotal(h) == Sum(h)
    decreases |h|
  {
    if h != [] {
      HoldingIsInventorySum(h[..|h| - 1]);
    }
  }

  /** The costs recorded after the first entry exceed the inventories recorded with them by a multiple of five. */
  lemma {:induction false} CostGap(inv: seq<int>, cost: seq<int>)
    requires |inv| == |cost| >= 1
    requires forall k :: 1 <= k < |cost| ==> cost[k] - inv[k] >= 0 && (cost[k] - inv[k]) % StockoutCost == 0
    ensures var gap := (Sum(cost) - cost[0]) - (Sum(inv) - inv[0]); gap >= 0 && gap % StockoutCost == 0
    decreases |inv|
  {
    var n := |inv|;
    if n > 1 {
      CostGap(inv[..n - 1], cost[..n - 1]);
    }
  }

  /** The retailer's is the last of the four totals and the only one under its name. */
  lemma RetailerTotal(c: seq<AgentState>)
    requires ChainShape(c)
    ensures CostOf(TotalCosts(c), RoleName(Retailer)) == Sum(c[3].costHistory)
  {
    assert Last(TotalCosts(c)) == (RoleName(Retailer), Sum(c[3].costHistory));
  }

  /**
   * The cost breakdown: holding is the sum of the retailer's inventory
   * history and holding plus stockout is the retailer's total cost. Because
   * the inventory history starts with the initial stock while the cost
   * history starts at zero, stockout is five times the recorded backlogs
   * minus the initial stock, so it is negative whenever the backlogs are small.
   */
  lemma BreakdownAccounts(e0: EngineState, n: nat, week: Weekly)
    requires Startable(e0) && KeepsRecorded(week) && KeepsInvariant(week)
    ensures var c := Trace(e0, n, week).agents;
      var b := CostBreakdown(c);
      var initial := e0.agents[3].inventoryHistory[0];
      b[0] == (HoldingCostName, Sum(c[3].inventoryHistory))
      && b[0].1 + b[1].1 == Sum(c[3].costHistory)
      && b[1].0 == StockoutCostName
      && b[1].1 + initial - e0.agents[3].costHistory[0] >= 0
      && (b[1].1 + initial - e0.agents[3].costHistory[0]) % StockoutCost == 0
  {
    TraceKeepsInvariant(e0, n, week);
    var c := Trace(e0, n, week).agents;
    RetailerBreakdown(c, e0.agents[3].inventoryHistory[0], e0.agents[3].costHistory[0]);
  }

  lemma RetailerBreakdown(c: seq<AgentState>, initialInventory: int, initialCost: int)
    requires ChainShape(c) && |c[3].inventoryHistory| >= 1 && CostsCoverHoldings(c[3])
    requires c[3].inventoryHistory[0] == initialInventory && c[3].costHistory[0] == initialCost
    ensures var b := CostBreakdown(c);
      b[0] == (HoldingCostName, Sum(c[3].inventoryHistory))
      && b[0].1 + b[1].1 == Sum(c[3].costHistory)
      && b[1].0 == StockoutCostName
      && b[1].1 + initialInventory - initialCost >= 0
      && (b[1].1 + initialInventory - initialCost) % StockoutCost == 0
  {
    HoldingIsInventorySum(c[3].inventoryHistory);
    RetailerTotal(c);
    CostGap(c[3].inventoryHistory, c[3].costHistory);
  }

  /** The stability series has one point per week 0..n, week 0 being the initial stock. */
  lemma StabilityCoversEveryWeek(e0: EngineState, n: nat, week: Weekly)
    requires Startable(e0) && KeepsRecorded(week) && KeepsInvariant(week)
    ensures var h := Trace(e0, n, week).agents[3].inventoryHistory;
      var data := StabilityData(h);
      |data| == n + 1 && data[0] == (0, e0.agents[3].inventoryHistory[0])
      && forall k :: 0 <= k <= n ==> data[k] == (k, h[k])
  {
    TraceKeepsInvariant(e0, n, week);
  }

  /** The ticks of the first `k` weeks are the first `k` ticks of any longer run. */
  lemma TicksPrefix(e0: EngineState, k: nat, n: nat, week: Weekly, tick: Ticker)
    requires Recorded(e0.agents) && KeepsRecorded(week) && Defined(tick) && k <= n
    ensures Ticks(e0, n, week, tick)[..k] == Ticks(e0, k, week, tick)
  {
  }

  /**
   * A week function that is the handler's week: on a four-agent state it
   * is the engine's step with the scheduled demand and the analyst on.
   */
  ghost predicate RunsHandler(week: Weekly, predict: Predictor, analyst: Analyst) {
    forall e: EngineState, w: int {:trigger Step(e, w, WeekDemand(w), predict, analyst, true)} ::
      |e.agents| == 4 ==> week(e, w) == Step(e, w, WeekDemand(w), predict, analyst, true)
  }

  lemma HandlerWeekRuns(predict: Predictor, analyst: Analyst)
    ensures RunsHandler(HandlerWeek(predict, analyst), predict, analyst)
  {
  }

  /** The id frame, the ticks of weeks 1..n in order, the summary frame. */
  lemma FramesInOrder(id: string, e0: EngineState, n: nat, week: Weekly, summary: Payload)
    requires Recorded(e0.agents) && KeepsRecorded(week)
    ensures var frames := [IdPayload(id)] + Ticks(e0, n, week, TickPayload) + [summary];
      |frames| == n + 2 && frames[0] == IdPayload(id) && Last(frames) == summary
      && forall k :: 1 <= k <= n ==> frames[k].typ.None? && frames[k].week == Some(k) && frames[k].agents.Some?
  {
    var frames := [IdPayload(id)] + Ticks(e0, n, week, TickPayload) + [summary];
    forall k | 1 <= k <= n
      ensures frames[k].typ.None? && frames[k].week == Some(k) && frames[k].agents.Some?
    {
      assert frames[k] == Ticks(e0, n, week, TickPayload)[k - 1] == TickPayload(k, Trace(e0, k, week));
    }
  }

  /**
   * An accepted session sends the id first, then the ticks of weeks 1..weeks
   * in order (none for zero or negative weeks), then the summary; anything
   * else sends nothing. Missing `config` and `weeks` default to `{}` and 50.
   */
  lemma ConversationShape(id: string, start: Option<StartData>, modelLoaded: bool, week: Weekly, summarize: Summarizer)
    requires KeepsRecorded(week)
    ensures var frames := Conversation(id, start, modelLoaded, week, summarize);
      !Accepted(start) ==> frames == []
    ensures var frames := Conversation(id, start, modelLoaded, week, summarize);
      Accepted(start) ==>
        var weeks := Max(0, start.value.weeks.GetOr(DefaultWeeks));
        var config := start.value.config.GetOr(map[]);
        |frames| == weeks + 2 && frames[0] == IdPayload(id)
        && (forall k :: 1 <= k <= weeks ==> frames[k].typ.None? && frames[k].week == Some(k) && frames[k].agents.Some?)
        && Last(frames) == SummaryPayload(config, Trace(StartEngine(config, modelLoaded), weeks, week).agents, summarize)
  {
    if Accepted(start) {
      var config := start.value.config.GetOr(map[]);
      var weeks := Max(0, start.value.weeks.GetOr(DefaultWeeks));
      var e0 := StartEngine(config, modelLoaded);
      FramesInOrder(id, e0, weeks, week, SummaryPayload(config, Trace(e0, weeks, week).agents, summarize));
    }
  }

  /** A run of zero (or negative) weeks ends with a holding cost of 100 and a stockout cost of -100. */
  lemma ZeroWeekBreakdown(config: map<string, string>, modelLoaded: bool)
    ensures CostBreakdown(StartEngine(config, modelLoaded).agents) == [(HoldingCostName, 100), (StockoutCostName, -100)]
  {
    var c := StartEngine(config, modelLoaded).agents;
    RetailerTotal(c);
    assert HoldingTotal(c[3].inventoryHistory) == 100 by {
      assert c[3].inventoryHistory == [100];
      assert c[3].inventoryHistory[..0] == [];
    }
    assert Sum(c[3].costHistory) == 0 by {
      assert c[3].costHistory == [0];
      assert c[3].costHistory[..0] == [];
    }
  }
}
