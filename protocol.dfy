/**
 * The JSON shapes exchanged between the browser client and the simulation
 * backend, shared by both halves of the model.
 */
module Protocol {
  import opened Wrappers

  /** The four fixed participants of the supply chain. */
  datatype Role = Factory | Distributor | Wholesaler | Retailer

  function RoleName(r: Role): string {
    match r
    case Factory => "Factory"
    case Distributor => "Distributor"
    case Wholesaler => "Wholesaler"
    case Retailer => "Retailer"
  }

  /** The order in which the engine creates, iterates and reports its agents. */
  const Roles: seq<Role> := [Factory, Distributor, Wholesaler, Retailer]

  /** The `type` field of an analyst event. */
  datatype Severity = Info | Warning | Critical

  /** `{week, type, text}`: one line of analyst commentary. */
  datatype Event = Event(week: int, severity: Severity, text: string)

  /** One agent's figures in a tick. */
  datatype AgentReport = AgentReport(inventory: int, placedOrderAmount: int, backlog: int, cost: int)

  /** The fields a `final_summary` message carries besides its `type`. */
  datatype SummaryBody = SummaryBody(
    title: string,
    summaryText: string,
    totalCostData: seq<(string, int)>,
    inventoryStabilityData: seq<(int, int)>,
    costBreakdownData: seq<(string, int)>)

  /**
   * One inbound JSON object as the client sees it. Every key may be absent;
   * `agents` is a JSON object (truthy whenever present) keyed by agent name.
   */
  datatype Payload = Payload(
    typ: Option<string>,
    id: Option<string>,
    week: Option<int>,
    agents: Option<map<string, AgentReport>>,
    events: Option<seq<Event>>,
    summary: Option<SummaryBody>)

  const SimulationIdType := "simulation_id"
  const FinalSummaryType := "final_summary"
  const StartSimulationType := "start_simulation"
  const DemandSpikeType := "DEMAND_SPIKE"

  /** The first message a client sends: `{type, config, weeks}`, every key optional. */
  datatype StartData = StartData(typ: Option<string>, config: Option<map<string, string>>, weeks: Option<int>)

  /** The body of a disruption request, `{type, value, duration}`. */
  datatype DisruptionRequest = DisruptionRequest(kind: string, value: int, duration: int)

  /** A session-identifier message. */
  function IdPayload(id: string): Payload {
    Payload(Some(SimulationIdType), Some(id), None, None, None, None)
  }
}
