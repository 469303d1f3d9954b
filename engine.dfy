/** The engine object: four linked agents and the step's event and disruption state. */
module Engine {
  import opened Wrappers
  import opened Protocol
  import opened Agents
  import opened EngineSpec

  class SimulationEngine {
    const enableAnalyst: bool
    const agentConfig: map<string, string>
    const agents: seq<Agent>
    const factory: Agent
    const distributor: Agent
    const wholesaler: Agent
    const retailer: Agent
    var eventsThisStep: seq<Event>
    var disruptionActive: bool
    var disruptionType: Option<string>
    var disruptionValue: int
    var disruptionDuration: int

    /**
     * Four distinct agents in role order, each linked to its neighbours as
     * `_link_agents` sets them; the ends of the chain have none.
     */
    ghost predicate Valid()
      reads factory, distributor, wholesaler, retailer
    {
      agents == [factory, distributor, wholesaler, retailer]
      && factory != distributor && factory != wholesaler && factory != retailer
      && distributor != wholesaler && distributor != retailer && wholesaler != retailer
      && factory.role == Factory && distributor.role == Distributor
      && wholesaler.role == Wholesaler && retailer.role == Retailer
      && factory.upstreamAgent == null && factory.downstreamAgent == distributor
      && distributor.upstreamAgent == factory && distributor.downstreamAgent == wholesaler
      && wholesaler.upstreamAgent == distributor && wholesaler.downstreamAgent == retailer
      && retailer.upstreamAgent == wholesaler && retailer.downstreamAgent == null
    }

    function Chain(): seq<AgentState>
      reads factory, distributor, wholesaler, retailer
    {
      [factory.Value(), distributor.Value(), wholesaler.Value(), retailer.Value()]
    }

    function State(): EngineState
      reads this, factory, distributor, wholesaler, retailer
    {
      EngineState(Chain(), eventsThisStep, disruptionActive, disruptionType, disruptionValue, disruptionDuration)
    }

    /** Builds one agent per role, in role order, with the kind the configuration asks for. */
    constructor(config: map<string, string>, enableAnalyst: bool, modelLoaded: bool)
      ensures Valid()
      ensures State() == InitialState(config, modelLoaded)
      ensures this.enableAnalyst == enableAnalyst && agentConfig == config
      ensures fresh(factory) && fresh(distributor) && fresh(wholesaler) && fresh(retailer)
    {
      this.enableAnalyst := enableAnalyst;
      var made: seq<Agent> := [];
      var i := 0;
      while i < |Roles|
        invariant 0 <= i <= |Roles| && |made| == i
        invariant forall j :: 0 <= j < i ==> fresh(made[j])
        invariant forall j, k :: 0 <= j < k < i ==> made[j] != made[k]
        invariant forall j :: 0 <= j < i ==>
          made[j].role == Roles[j]
          && made[j].Value() == NewAgent(Roles[j], KindFor(config, Roles[j], modelLoaded), DefaultTargetInventory)
          && made[j].upstreamAgent == null && made[j].downstreamAgent == null
      {
        var role := Roles[i];
        var agent := new Agent(role, KindFor(config, role, modelLoaded), DefaultTargetInventory);
        made := made + [agent];
        i := i + 1;
      }
      agents := made;
      factory, distributor, wholesaler, retailer := made[0], made[1], made[2], made[3];
      agentConfig := config;
      eventsThisStep := [];
      disruptionActive := false;
      disruptionType := None;
      disruptionValue := 0;
      disruptionDuration := 0;
      new;
      LinkAgents();
    }

    /** Each agent's downstream neighbour is the next role, its upstream neighbour the previous one. */
    method LinkAgents()
      requires agents == [factory, distributor, wholesaler, retailer]
      requires factory != distributor && factory != wholesaler && factory != retailer
      requires distributor != wholesaler && distributor != retailer && wholesaler != retailer
      requires factory.role == Factory && distributor.role == Distributor
      requires wholesaler.role == Wholesaler && retailer.role == Retailer
      requires factory.upstreamAgent == null && retailer.downstreamAgent == null
      modifies factory, distributor, wholesaler, retailer
      ensures Valid()
      ensures Chain() == old(Chain())
    {
      retailer.upstreamAgent := wholesaler;
      wholesaler.downstreamAgent := retailer;
      wholesaler.upstreamAgent := distributor;
      distributor.downstreamAgent := wholesaler;
      distributor.upstreamAgent := factory;
      factory.downstreamAgent := distributor;
    }

    /** `inject_disruption`. */
    method InjectDisruption(event: DisruptionEvent, analyst: Analyst)
      modifies this
      ensures State() == Inject(old(State()), event, analyst, enableAnalyst)
    {
      disruptionActive := true;
      disruptionType := event.kind;
      disruptionValue := event.value.GetOr(0);
      disruptionDuration := event.duration.GetOr(0);
      if enableAnalyst {
        var commentary := analyst(DisruptionTopic(disruptionValue, disruptionDuration, -1));
        eventsThisStep := eventsThisStep + [Event(-1, Critical, commentary)];
      }
    }

    /** Every agent, retailer first, takes in its incoming shipment. */
    method ReceivePhase()
      requires Valid()
      modifies factory, distributor, wholesaler, retailer
      ensures Valid()
      ensures Chain() == ReceiveAll(old(Chain()))
    {
      ghost var c0 := Chain();
      var i := |agents|;
      while i > 0
        invariant 0 <= i <= 4 && Valid()
        invariant forall j :: 0 <= j < 4 ==> agents[j].Value() == if j < i then c0[j] else Receive(c0[j])
      {
        i := i - 1;
        agents[i].ReceiveShipment();
      }
    }

    /** The retailer serves the customers, then every other agent serves its backlog, factory first. */
    method FulfilPhase(customerDemand: int)
      requires Valid()
      modifies factory, distributor, wholesaler, retailer
      ensures Valid()
      ensures Chain() == FulfilAll(old(Chain()), customerDemand)
    {
      ghost var c0 := Chain();
      retailer.FulfillDownstreamOrders(customerDemand);
      ghost var c1 := Chain();
      assert c1 == FulfilAt(c0, 3, customerDemand);
      var i := 0;
      while i < |agents|
        invariant 0 <= i <= 4 && Valid()
        invariant Chain() == FulfilOthers(c1, i)
      {
        if agents[i] != retailer {
          FulfilAgent(i, 0);
        }
        i := i + 1;
      }
    }

    /** Agent `i` serves what it owes and ships to its downstream neighbour. */
    method FulfilAgent(i: nat, customerDemand: int)
      requires Valid() && i < 4
      modifies factory, distributor, wholesaler, retailer
      ensures Valid()
      ensures Chain() == FulfilAt(old(Chain()), i, customerDemand)
    {
      agents[i].FulfillDownstreamOrders(customerDemand);
    }

    /** Every agent, factory first, places (or, for the factory, produces) its order. */
    method OrderPhase(predict: Predictor)
      requires Valid()
      modifies factory, distributor, wholesaler, retailer
      ensures Valid()
      ensures Chain() == OrderPrefix(old(Chain()), |agents|, predict)
    {
      ghost var c0 := Chain();
      var i := 0;
      while i < |agents|
        invariant 0 <= i <= 4 && Valid()
        invariant Chain() == OrderPrefix(c0, i, predict)
      {
        OrderAgent(i, predict);
        i := i + 1;
      }
    }

    /** One pass of the order loop: agent `i` orders from its upstream neighbour. */
    method OrderAgent(i: nat, predict: Predictor)
      requires Valid() && i < 4
      modifies factory, distributor, wholesaler, retailer
      ensures Valid()
      ensures Chain() == OrderAt(old(Chain()), i, predict)
    {
      agents[i].PlaceUpstreamOrder(predict);
    }

    /** Every agent appends this week's inventory, order and cost to its history. */
    method RecordPhase()
      requires Valid()
      modifies factory, distributor, wholesaler, retailer
      ensures Valid()
      ensures Chain() == RecordAll(old(Chain()))
    {
      ghost var c0 := Chain();
      var i := 0;
      while i < |agents|
        invariant 0 <= i <= 4 && Valid()
        invariant forall j :: 0 <= j < 4 ==> agents[j].Value() == if j < i then Record(c0[j]) else c0[j]
      {
        agents[i].RecordState();
        i := i + 1;
      }
    }

    /** The four agent phases, in the order `run_step` runs them. */
    method AgentPhases(demand: int, predict: Predictor)
      requires Valid()
      modifies factory, distributor, wholesaler, retailer
      ensures Valid()
      ensures Chain() == Phases(old(Chain()), demand, predict)
    {
      ReceivePhase();
      FulfilPhase(demand);
      OrderPhase(predict);
      RecordPhase();
    }

    /** The part of `run_step` before the agents move; returns the demand the retailer will face. */
    method BeginStep(week: int, customerDemand: int, analyst: Analyst) returns (demand: int)
      modifies this
      ensures demand == EffectiveDemand(old(State()), week, customerDemand)
      ensures State() == EngineSpec.BeginStep(old(State()), week, customerDemand, analyst, enableAnalyst)
    {
      eventsThisStep := [];
      demand := customerDemand;
      if week == 10 && demand == 20 {
        demand := 25;
        if enableAnalyst {
          var commentary := analyst(DemandShift(week));
          eventsThisStep := eventsThisStep + [Event(week, Info, commentary)];
        }
      }
      if disruptionActive && disruptionDuration > 0 {
        if disruptionType == Some(DemandSpikeType) {
          demand := disruptionValue;
        }
        disruptionDuration := disruptionDuration - 1;
      } else {
        disruptionActive := false;
      }
    }

    /** The part of `run_step` after the agents have recorded their week. */
    method CheckBullwhip(week: int, originalDemand: int, analyst: Analyst)
      requires Valid() && |distributor.orderHistory| > 0 && |retailer.orderHistory| > 0
      modifies this
      ensures State() == old(State()).(events := BullwhipCheck(old(eventsThisStep), week, originalDemand, Chain(), analyst, enableAnalyst))
    {
      var retailerOrder := Last(retailer.orderHistory);
      var distributorOrder := Last(distributor.orderHistory);
      if week > 15 && distributorOrder > originalDemand * 3 && distributorOrder > 50 {
        if !HasWarning(eventsThisStep) {
          if enableAnalyst {
            var commentary := analyst(Bullwhip(week, retailerOrder, distributorOrder));
            eventsThisStep := eventsThisStep + [Event(week, Warning, commentary)];
          }
        }
      }
    }

    /** `run_step`: one week of the game. */
    method RunStep(week: int, customerDemand: int, predict: Predictor, analyst: Analyst)
      requires Valid()
      modifies this, factory, distributor, wholesaler, retailer
      ensures Valid()
      ensures State() == Step(old(State()), week, customerDemand, predict, analyst, enableAnalyst)
    {
      var demand := BeginStep(week, customerDemand, analyst);
      AgentPhases(demand, predict);
      CheckBullwhip(week, customerDemand, analyst);
    }
  }
}
