/** What a step of the engine guarantees, proved on the functions of `EngineSpec`. */
module EngineProperties {
  import opened Wrappers
  import opened Protocol
  import opened Agents
  import opened EngineSpec

  /** The fields a phase other than recording never changes. */
  predicate SameIdentity(a: AgentState, b: AgentState) {
    a.role == b.role && a.kind == b.kind && a.targetInventory == b.targetInventory
    && a.inventoryHistory == b.inventoryHistory && a.orderHistory == b.orderHistory
    && a.costHistory == b.costHistory
  }

  predicate AllNonNegative(c: seq<AgentState>) {
    forall i :: 0 <= i < |c| ==> NonNegative(c[i])
  }

  lemma {:induction false} FulfilOthersKeepsIdentity(c: seq<AgentState>, n: nat)
    requires |c| == 4 && n <= 4
    ensures forall i :: 0 <= i < 4 ==> SameIdentity(FulfilOthers(c, n)[i], c[i])
    decreases n
  {
    if n > 0 {
      FulfilOthersKeepsIdentity(c, n - 1);
    }
  }

  lemma {:induction false} OrderPrefixKeepsIdentity(c: seq<AgentState>, n: nat, predict: Predictor)
    requires |c| == 4 && n <= 4
    ensures forall i :: 0 <= i < 4 ==> SameIdentity(OrderPrefix(c, n, predict)[i], c[i])
    decreases n
  {
    if n > 0 {
      OrderPrefixKeepsIdentity(c, n - 1, predict);
    }
  }

  /** Receiving, fulfilling and ordering leave every history and every role where it was. */
  lemma MovesKeepIdentity(c: seq<AgentState>, demand: int, predict: Predictor)
    requires |c| == 4
    ensures var fulfilled := FulfilAll(ReceiveAll(c), demand);
      var moved := OrderPrefix(fulfilled, |fulfilled|, predict);
      forall i :: 0 <= i < 4 ==> SameIdentity(moved[i], c[i])
  {
    var received := ReceiveAll(c);
    var first := FulfilAt(received, 3, demand);
    FulfilOthersKeepsIdentity(first, |first|);
    OrderPrefixKeepsIdentity(FulfilAll(received, demand), |c|, predict);
  }

  /**
   * Every step appends exactly one entry to each of every agent's three
   * histories: the inventory, order and weekly cost the agent ends the week
   * with. Roles stay in place and equal-length histories stay equal.
   */
  lemma StepAppendsOneRecord(e: EngineState, week: int, customerDemand: int, predict: Predictor, analyst: Analyst, enableAnalyst: bool)
    requires ChainShape(e.agents)
    ensures var r := Step(e, week, customerDemand, predict, analyst, enableAnalyst);
      ChainShape(r.agents)
      && forall i :: 0 <= i < 4 ==>
        var (a, b) := (e.agents[i], r.agents[i]);
        b.inventoryHistory == a.inventoryHistory + [b.inventory]
        && b.orderHistory == a.orderHistory + [b.placedOrderAmount]
        && b.costHistory == a.costHistory + [WeeklyCost(b.inventory, b.backlog)]
        && (HistoriesAligned(a) ==> HistoriesAligned(b))
  {
    MovesKeepIdentity(e.agents, EffectiveDemand(e, week, customerDemand), predict);
  }

  lemma {:induction false} FulfilOthersNonNegative(c: seq<AgentState>, n: nat)
    requires |c| == 4 && n <= 4 && AllNonNegative(c)
    ensures AllNonNegative(FulfilOthers(c, n))
    decreases n
  {
    if n > 0 {
      FulfilOthersNonNegative(c, n - 1);
    }
  }

  lemma OrderAtNonNegative(c: seq<AgentState>, i: nat, predict: Predictor)
    requires ChainShape(c) && i < 4 && AllNonNegative(c)
    ensures AllNonNegative(OrderAt(c, i, predict))
  {
    var a := Order(c[i], predict);
    assert NonNegative(a) by {
      if i == 0 {
        assert c[i].role == Factory;
      } else {
        assert c[i].role != Factory;
      }
    }
    assert a.placedOrderAmount >= 0;
  }

  lemma {:induction false} OrderPrefixNonNegative(c: seq<AgentState>, n: nat, predict: Predictor)
    requires ChainShape(c) && n <= 4 && AllNonNegative(c)
    ensures AllNonNegative(OrderPrefix(c, n, predict))
    ensures ChainShape(OrderPrefix(c, n, predict))
    decreases n
  {
    if n > 0 {
      OrderPrefixNonNegative(c, n - 1, predict);
      OrderPrefixKeepsIdentity(c, n - 1, predict);
      OrderAtNonNegative(OrderPrefix(c, n - 1, predict), n - 1, predict);
    }
  }

  /**
   * With non-negative customer demand and spike value, a step keeps every
   * inventory, backlog, shipment and order of every agent non-negative.
   */
  lemma StepKeepsNonNegative(e: EngineState, week: int, customerDemand: int, predict: Predictor, analyst: Analyst, enableAnalyst: bool)
    requires ChainShape(e.agents) && AllNonNegative(e.agents)
    requires customerDemand >= 0 && e.disruptionValue >= 0
    ensures AllNonNegative(Step(e, week, customerDemand, predict, analyst, enableAnalyst).agents)
  {
    var demand := EffectiveDemand(e, week, customerDemand);
    var received := ReceiveAll(e.agents);
    var first := FulfilAt(received, 3, demand);
    FulfilOthersNonNegative(first, |first|);
    var fulfilled := FulfilAll(received, demand);
    FulfilOthersKeepsIdentity(first, |first|);
    OrderPrefixNonNegative(fulfilled, |fulfilled|, predict);
  }

  /** The week-10 shift is applied first; a running spike then replaces whatever demand that gave. */
  lemma ShiftThenSpike(e: EngineState, week: int, customerDemand: int)
    ensures DisruptionRunning(e) && e.disruptionType == Some(DemandSpikeType) ==>
      EffectiveDemand(e, week, customerDemand) == e.disruptionValue
    ensures !(DisruptionRunning(e) && e.disruptionType == Some(DemandSpikeType)) ==>
      EffectiveDemand(e, week, customerDemand) == (if week == 10 && customerDemand == 20 then 25 else customerDemand)
  {
  }

  /** Steps driven one week at a time, week `firstWeek` onward, with the given customer demands. */
  function Run(e: EngineState, firstWeek: int, demands: seq<int>, predict: Predictor, analyst: Analyst, enableAnalyst: bool): (r: EngineState)
    requires |e.agents| == 4
    ensures |r.agents| == 4
    decreases |demands|
  {
    if demands == [] then e
    else Run(Step(e, firstWeek, demands[0], predict, analyst, enableAnalyst), firstWeek + 1, demands[1..], predict, analyst, enableAnalyst)
  }

  /**
   * A disruption armed with duration `d` counts down one per step while it is
   * positive and keeps its type and value: after `k <= d` steps it is still
   * active with `d - k` weeks left, so a spike still sets the demand of the
   * next step while `k < d`.
   */
  lemma {:induction false} SpikeCountsDown(e: EngineState, firstWeek: int, demands: seq<int>, predict: Predictor, analyst: Analyst, enableAnalyst: bool)
    requires |e.agents| == 4 && e.disruptionActive && |demands| <= e.disruptionDuration
    ensures var r := Run(e, firstWeek, demands, predict, analyst, enableAnalyst);
      r.disruptionActive && r.disruptionDuration == e.disruptionDuration - |demands|
      && r.disruptionType == e.disruptionType && r.disruptionValue == e.disruptionValue
    ensures var r := Run(e, firstWeek, demands, predict, analyst, enableAnalyst);
      |demands| < e.disruptionDuration && e.disruptionType == Some(DemandSpikeType) ==>
        forall week, d :: EffectiveDemand(r, week, d) == e.disruptionValue
    decreases |demands|
  {
    if demands != [] {
      var next := Step(e, firstWeek, demands[0], predict, analyst, enableAnalyst);
      SpikeCountsDown(next, firstWeek + 1, demands[1..], predict, analyst, enableAnalyst);
    }
  }

  /** Once the countdown has reached zero, the next step switches the disruption off. */
  lemma SpentDisruptionSwitchesOff(e: EngineState, week: int, customerDemand: int, predict: Predictor, analyst: Analyst, enableAnalyst: bool)
    requires |e.agents| == 4 && e.disruptionDuration <= 0
    ensures !Step(e, week, customerDemand, predict, analyst, enableAnalyst).disruptionActive
    ensures EffectiveDemand(e, week, customerDemand) == ShiftedDemand(week, customerDemand)
  {
  }

  /**
   * A spike of value `v` and duration `d > 0` injected between steps sets
   * the demand of each of the next `d` steps to `v`, and the step after
   * those switches it off.
   */
  lemma SpikeLastsItsDuration(e: EngineState, v: int, d: int, firstWeek: int, demands: seq<int>, week: int, customerDemand: int,
                              predict: Predictor, analyst: Analyst, enableAnalyst: bool)
    requires |e.agents| == 4 && d > 0
    ensures var armed := Inject(e, DisruptionEvent(Some(DemandSpikeType), Some(v), Some(d)), analyst, enableAnalyst);
      |demands| < d ==> EffectiveDemand(Run(armed, firstWeek, demands, predict, analyst, enableAnalyst), week, customerDemand) == v
    ensures var armed := Inject(e, DisruptionEvent(Some(DemandSpikeType), Some(v), Some(d)), analyst, enableAnalyst);
      |demands| == d ==>
        var spent := Run(armed, firstWeek, demands, predict, analyst, enableAnalyst);
        EffectiveDemand(spent, week, customerDemand) == ShiftedDemand(week, customerDemand)
        && !Step(spent, week, customerDemand, predict, analyst, enableAnalyst).disruptionActive
  {
    var armed := Inject(e, DisruptionEvent(Some(DemandSpikeType), Some(v), Some(d)), analyst, enableAnalyst);
    if |demands| <= d {
      SpikeCountsDown(armed, firstWeek, demands, predict, analyst, enableAnalyst);
    }
  }

  function CountSeverity(events: seq<Event>, severity: Severity): (n: nat)
    ensures n <= |events|
  {
    if events == [] then 0
    else CountSeverity(events[..|events| - 1], severity) + (if Last(events).severity == severity then 1 else 0)
  }

  lemma {:induction false} NoSeverityCountsZero(events: seq<Event>, severity: Severity)
    requires forall i :: 0 <= i < |events| ==> events[i].severity != severity
    ensures CountSeverity(events, severity) == 0
    decreases |events|
  {
    if events != [] {
      NoSeverityCountsZero(events[..|events| - 1], severity);
    }
  }

  /** The bullwhip check either leaves the events alone or appends one WARNING for the week, and only when there was none. */
  lemma BullwhipCheckAppendsOneWarning(events: seq<Event>, week: int, customerDemand: int, agents: seq<AgentState>,
                                       analyst: Analyst, enableAnalyst: bool)
    requires |agents| == 4 && |agents[1].orderHistory| > 0 && |agents[3].orderHistory| > 0
    ensures var r := BullwhipCheck(events, week, customerDemand, agents, analyst, enableAnalyst);
      r == events
      || (enableAnalyst && !HasWarning(events) && |r| == |events| + 1 && r[..|events|] == events
          && Last(r).severity == Warning && Last(r).week == week)
  {
  }

  /** The events of the part of a step before the agents move: the demand-shift INFO or nothing. */
  lemma BeginStepEvents(e: EngineState, week: int, customerDemand: int, analyst: Analyst, enableAnalyst: bool)
    ensures var events := BeginStep(e, week, customerDemand, analyst, enableAnalyst).events;
      |events| <= 1 && (forall i :: 0 <= i < |events| ==> events[i].week == week && events[i].severity == Info)
      && (|events| == 1 <==> ShiftsDemand(week, customerDemand) && enableAnalyst)
  {
  }

  /**
   * A step's events are the ones it produced itself: all dated with the
   * step's week (a CRITICAL event injected before the step, dated -1, is
   * gone), none at all with the analyst off, at most one WARNING and no
   * CRITICAL.
   */
  lemma StepEventsAreFresh(e: EngineState, week: int, customerDemand: int, predict: Predictor, analyst: Analyst, enableAnalyst: bool)
    requires |e.agents| == 4
    ensures var events := Step(e, week, customerDemand, predict, analyst, enableAnalyst).events;
      (forall i :: 0 <= i < |events| ==> events[i].week == week && events[i].severity != Critical)
      && (!enableAnalyst ==> events == [])
      && CountSeverity(events, Warning) <= 1
      && |events| <= 2
  {
    var begun := BeginStep(e, week, customerDemand, analyst, enableAnalyst);
    var agents := Phases(e.agents, EffectiveDemand(e, week, customerDemand), predict);
    var events := BullwhipCheck(begun.events, week, customerDemand, agents, analyst, enableAnalyst);
    assert Step(e, week, customerDemand, predict, analyst, enableAnalyst).events == events;
    BeginStepEvents(e, week, customerDemand, analyst, enableAnalyst);
    BullwhipCheckAppendsOneWarning(begun.events, week, customerDemand, agents, analyst, enableAnalyst);
    NoSeverityCountsZero(begun.events, Warning);
    if events != begun.events {
      assert events[..|events| - 1] == begun.events;
    }
  }

  /** A disruption injected between two steps leaves no event behind once the next step has run. */
  lemma InjectedEventIsDiscarded(e: EngineState, event: DisruptionEvent, week: int, customerDemand: int,
                                 predict: Predictor, analyst: Analyst, enableAnalyst: bool)
    requires |e.agents| == 4
    ensures var r := Step(Inject(e, event, analyst, enableAnalyst), week, customerDemand, predict, analyst, enableAnalyst);
      forall i :: 0 <= i < |r.events| ==> r.events[i].severity != Critical
  {
    StepEventsAreFresh(Inject(e, event, analyst, enableAnalyst), week, customerDemand, predict, analyst, enableAnalyst);
  }
}
