/**
 * One participant of the beer-game supply chain. The rule-based agent and
 * its learned variant share one class; `kind` says which one was built and,
 * for the learned one, whether its model file loaded.
 */
module Agents {
  import opened Wrappers
  import opened Protocol

  const HoldingCost := 1
  const StockoutCost := 5
  const DefaultTargetInventory := 100
  /** How many past weekly demands the learned agent remembers. */
  const DemandWindow := 4

  datatype Kind = RuleBased | Learned(modelLoaded: bool)

  /**
   * The learned model's answer, already truncated to an integer, for the
   * agent's inventory, backlog and remembered demands (from which the source
   * computes the average it feeds the model).
   */
  type Predictor = (int, int, seq<int>) -> int

  /** Everything an agent holds, as one value. */
  datatype AgentState = AgentState(
    role: Role,
    kind: Kind,
    targetInventory: int,
    inventory: int,
    backlog: int,
    incomingShipment: int,
    placedOrderAmount: int,
    shippedThisWeek: int,
    inventoryHistory: seq<int>,
    orderHistory: seq<int>,
    costHistory: seq<int>,
    demandHistory: seq<int>)

  function WeeklyCost(inventory: int, backlog: int): int {
    inventory * HoldingCost + backlog * StockoutCost
  }

  /** A freshly built agent: stock at target, nothing owed or in transit. */
  function NewAgent(role: Role, kind: Kind, target: int): AgentState {
    AgentState(role, kind, target, target, 0, 0, 0, 0, [target], [0], [0], [])
  }

  /** `receive_shipment`: the goods in transit join the stock. */
  function Receive(a: AgentState): (r: AgentState)
    ensures r.inventory == a.inventory + a.incomingShipment && r.incomingShipment == 0
    ensures r == a.(inventory := r.inventory, incomingShipment := 0)
  {
    a.(inventory := a.inventory + a.incomingShipment, incomingShipment := 0)
  }

  /** What the agent owes downstream this week: the retailer adds its customers' demand. */
  function TotalDemand(a: AgentState, customerDemand: int): int {
    if a.role == Retailer then a.backlog + customerDemand else a.backlog
  }

  /** The learned agent's window: append this week's demand, drop the oldest beyond four. */
  function Slide(window: seq<int>, demand: int): (w: seq<int>)
    ensures |window| <= DemandWindow ==> |w| <= DemandWindow
    ensures |w| > 0 && Last(w) == demand
    ensures |window| < DemandWindow ==> w == window + [demand]
    ensures |window| >= DemandWindow ==> w == window[1..] + [demand]
  {
    var appended := window + [demand];
    if |appended| > DemandWindow then appended[1..] else appended
  }

  /**
   * `fulfill_downstream_orders`: ship as much of the demand as the stock
   * allows and owe the rest. The downstream neighbour's incoming shipment is
   * set by the caller (see `Agent.FulfillDownstreamOrders`).
   */
  function Fulfil(a: AgentState, customerDemand: int): (r: AgentState)
    ensures r.shippedThisWeek + r.backlog == TotalDemand(a, customerDemand)
    ensures r.inventory == a.inventory - r.shippedThisWeek
    ensures r.shippedThisWeek <= a.inventory && r.shippedThisWeek <= TotalDemand(a, customerDemand)
    ensures r.shippedThisWeek == a.inventory || r.shippedThisWeek == TotalDemand(a, customerDemand)
    ensures a.inventory >= 0 && TotalDemand(a, customerDemand) >= 0 ==>
      r.shippedThisWeek >= 0 && r.inventory >= 0 && r.backlog >= 0 && (r.inventory == 0 || r.backlog == 0)
    ensures a.kind.Learned? ==> r.demandHistory == Slide(a.demandHistory, TotalDemand(a, customerDemand))
    ensures !a.kind.Learned? ==> r.demandHistory == a.demandHistory
    ensures r.incomingShipment == a.incomingShipment && r.placedOrderAmount == a.placedOrderAmount
    ensures r.role == a.role && r.kind == a.kind && r.targetInventory == a.targetInventory
    ensures r.inventoryHistory == a.inventoryHistory && r.orderHistory == a.orderHistory
    ensures r.costHistory == a.costHistory
  {
    var total := TotalDemand(a, customerDemand);
    var window := if a.kind.Learned? then Slide(a.demandHistory, total) else a.demandHistory;
    var units := Min(a.inventory, total);
    a.(demandHistory := window, shippedThisWeek := units, inventory := a.inventory - units, backlog := total - units)
  }

  /** The learned path is taken only by a non-factory agent whose model loaded. */
  predicate UsesModel(a: AgentState) {
    a.role != Factory && a.kind == Learned(true)
  }

  /** The order a non-factory agent places upstream this week. */
  function OrderAmount(a: AgentState, predict: Predictor): (placed: int)
    ensures placed >= 0
    ensures UsesModel(a) ==> placed == Max(0, predict(a.inventory, a.backlog, a.demandHistory))
    ensures !UsesModel(a) ==> placed >= a.shippedThisWeek + a.targetInventory - a.inventory
    ensures !UsesModel(a) && placed > 0 ==> placed == a.shippedThisWeek + a.targetInventory - a.inventory
  {
    if UsesModel(a) then Max(0, predict(a.inventory, a.backlog, a.demandHistory))
    else Max(0, a.shippedThisWeek + (a.targetInventory - a.inventory))
  }

  /**
   * `place_upstream_order`: the factory produces what it shipped; any other
   * agent orders (its amount is added to the upstream backlog by the caller).
   */
  function Order(a: AgentState, predict: Predictor): (r: AgentState)
    ensures r.shippedThisWeek == 0
    ensures a.role == Factory ==>
      r.inventory == a.inventory + a.shippedThisWeek && r.placedOrderAmount == a.shippedThisWeek
    ensures a.role != Factory ==> r.inventory == a.inventory && r.placedOrderAmount == OrderAmount(a, predict)
    ensures a.role != Factory ==> r.placedOrderAmount >= 0
    ensures r.backlog == a.backlog && r.incomingShipment == a.incomingShipment
    ensures r.role == a.role && r.kind == a.kind && r.targetInventory == a.targetInventory
    ensures r.inventoryHistory == a.inventoryHistory && r.orderHistory == a.orderHistory
    ensures r.costHistory == a.costHistory && r.demandHistory == a.demandHistory
  {
    if a.role == Factory then
      a.(inventory := a.inventory + a.shippedThisWeek, placedOrderAmount := a.shippedThisWeek, shippedThisWeek := 0)
    else
      a.(placedOrderAmount := OrderAmount(a, predict), shippedThisWeek := 0)
  }

  /** `record_state`: one new entry in each of the three histories. */
  function Record(a: AgentState): (r: AgentState)
    ensures r.inventoryHistory == a.inventoryHistory + [a.inventory]
    ensures r.orderHistory == a.orderHistory + [a.placedOrderAmount]
    ensures r.costHistory == a.costHistory + [WeeklyCost(a.inventory, a.backlog)]
    ensures r.(inventoryHistory := a.inventoryHistory, orderHistory := a.orderHistory, costHistory := a.costHistory) == a
  {
    a.(inventoryHistory := a.inventoryHistory + [a.inventory],
       orderHistory := a.orderHistory + [a.placedOrderAmount],
       costHistory := a.costHistory + [a.inventory * HoldingCost + a.backlog * StockoutCost])
  }

  /** The window after a run of weekly demands starting from an empty one. */
  function SlideAll(demands: seq<int>): seq<int>
    decreases |demands|
  {
    if demands == [] then [] else Slide(SlideAll(demands[..|demands| - 1]), demands[|demands| - 1])
  }

  /** The learned agent remembers exactly the last (up to) four weekly demands, oldest first. */
  lemma {:induction false} WindowIsLatestDemands(demands: seq<int>)
    ensures |SlideAll(demands)| == Min(|demands|, DemandWindow)
    ensures SlideAll(demands) == demands[|demands| - Min(|demands|, DemandWindow)..]
    decreases |demands|
  {
    if demands != [] {
      var n := |demands|;
      var init := demands[..n - 1];
      WindowIsLatestDemands(init);
      assert SlideAll(demands) == Slide(SlideAll(init), demands[n - 1]);
      if n - 1 >= DemandWindow {
        assert SlideAll(init) == demands[n - 1 - DemandWindow..n - 1];
        assert demands[n - 1 - DemandWindow..n - 1][1..] == demands[n - DemandWindow..n - 1];
      } else {
        assert SlideAll(init) == demands[..n - 1];
      }
      var m := Min(n, DemandWindow);
      assert demands[n - m..] == demands[n - m..n - 1] + [demands[n - 1]];
    }
  }

  /** The scalar fields are never negative. */
  predicate NonNegative(a: AgentState) {
    a.inventory >= 0 && a.backlog >= 0 && a.incomingShipment >= 0
    && a.placedOrderAmount >= 0 && a.shippedThisWeek >= 0
  }

  /** The three histories have one entry per recorded week (and the initial one). */
  predicate HistoriesAligned(a: AgentState) {
    |a.orderHistory| == |a.inventoryHistory| && |a.costHistory| == |a.inventoryHistory|
  }

  /** An agent as the source builds it (`Agent.__init__`, `AIAgent.__init__`). */
  class Agent {
    const role: Role
    const kind: Kind
    const targetInventory: int
    var upstreamAgent: Agent?
    var downstreamAgent: Agent?
    var inventory: int
    var backlog: int
    var incomingShipment: int
    var placedOrderAmount: int
    var shippedThisWeek: int
    var inventoryHistory: seq<int>
    var orderHistory: seq<int>
    var costHistory: seq<int>
    var demandHistory: seq<int>

    function Value(): AgentState
      reads this
    {
      AgentState(role, kind, targetInventory, inventory, backlog, incomingShipment, placedOrderAmount,
                 shippedThisWeek, inventoryHistory, orderHistory, costHistory, demandHistory)
    }

    constructor(role: Role, kind: Kind, target: int)
      ensures Value() == NewAgent(role, kind, target)
      ensures upstreamAgent == null && downstreamAgent == null
    {
      this.role := role;
      this.kind := kind;
      targetInventory := target;
      upstreamAgent := null;
      downstreamAgent := null;
      inventory := target;
      backlog := 0;
      incomingShipment := 0;
      placedOrderAmount := 0;
      shippedThisWeek := 0;
      inventoryHistory := [target];
      orderHistory := [0];
      costHistory := [0];
      demandHistory := [];
    }

    method ReceiveShipment()
      modifies this
      ensures Value() == Receive(old(Value()))
      ensures upstreamAgent == old(upstreamAgent) && downstreamAgent == old(downstreamAgent)
    {
      inventory := inventory + incomingShipment;
      incomingShipment := 0;
    }

    /** Ships and overwrites (does not add to) the downstream neighbour's incoming shipment. */
    method FulfillDownstreamOrders(customerDemand: int)
      requires downstreamAgent != this
      modifies this, downstreamAgent
      ensures Value() == Fulfil(old(Value()), customerDemand)
      ensures downstreamAgent == old(downstreamAgent) && upstreamAgent == old(upstreamAgent)
      ensures downstreamAgent != null ==>
        downstreamAgent.Value() == old(downstreamAgent.Value()).(incomingShipment := shippedThisWeek)
      ensures downstreamAgent != null ==>
        downstreamAgent.upstreamAgent == old(downstreamAgent.upstreamAgent)
        && downstreamAgent.downstreamAgent == old(downstreamAgent.downstreamAgent)
    {
      var totalDemand := if role == Retailer then backlog + customerDemand else backlog;
      if kind.Learned? {
        demandHistory := demandHistory + [totalDemand];
        if |demandHistory| > DemandWindow {
          demandHistory := demandHistory[1..];
        }
      }
      var unitsToShip := Min(inventory, totalDemand);
      shippedThisWeek := unitsToShip;
      if downstreamAgent != null {
        downstreamAgent.incomingShipment := unitsToShip;
      }
      inventory := inventory - unitsToShip;
      backlog := totalDemand - unitsToShip;
    }

    /** Orders upstream: the upstream neighbour's backlog grows by exactly the amount placed. */
    method PlaceUpstreamOrder(predict: Predictor)
      requires upstreamAgent != this
      modifies this, upstreamAgent
      ensures Value() == Order(old(Value()), predict)
      ensures downstreamAgent == old(downstreamAgent) && upstreamAgent == old(upstreamAgent)
      ensures upstreamAgent != null && role != Factory ==>
        upstreamAgent.Value() == old(upstreamAgent.Value()).(backlog := old(upstreamAgent.backlog) + placedOrderAmount)
      ensures upstreamAgent != null && role == Factory ==>
        upstreamAgent.Value() == old(upstreamAgent.Value())
      ensures upstreamAgent != null ==>
        upstreamAgent.upstreamAgent == old(upstreamAgent.upstreamAgent)
        && upstreamAgent.downstreamAgent == old(upstreamAgent.downstreamAgent)
    {
      if role == Factory || kind != Learned(true) {
        if role == Factory {
          var unitsToProduce := shippedThisWeek;
          inventory := inventory + unitsToProduce;
          placedOrderAmount := unitsToProduce;
        } else {
          var inventoryDiscrepancy := targetInventory - inventory;
          var orderAmount := shippedThisWeek + inventoryDiscrepancy;
          placedOrderAmount := Max(0, orderAmount);
          if upstreamAgent != null {
            upstreamAgent.backlog := upstreamAgent.backlog + placedOrderAmount;
          }
        }
        shippedThisWeek := 0;
        return;
      }
      var predictedOrder := predict(inventory, backlog, demandHistory);
      placedOrderAmount := Max(0, predictedOrder);
      if upstreamAgent != null {
        upstreamAgent.backlog := upstreamAgent.backlog + placedOrderAmount;
      }
      shippedThisWeek := 0;
    }

    method RecordState()
      modifies this
      ensures Value() == Record(old(Value()))
      ensures upstreamAgent == old(upstreamAgent) && downstreamAgent == old(downstreamAgent)
    {
      inventoryHistory := inventoryHistory + [inventory];
      orderHistory := orderHistory + [placedOrderAmount];
      var costThisWeek := inventory * HoldingCost + backlog * StockoutCost;
      costHistory := costHistory + [costThisWeek];
    }
  }
}
