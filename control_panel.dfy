/** The control panel: weeks input, per-role intelligence switches, start and disruption buttons. */
module ControlPanel {
  import opened Wrappers
  import opened Protocol
  import opened SimulationSocket

  const DefaultWeeks := 50
  const Rule := "RULE"
  const Ai := "AI"

  /** The switches start with three roles on rule-based play; the factory has no switch. */
  function InitialConfig(): (c: map<string, string>)
    ensures c.Keys == {"Retailer", "Wholesaler", "Distributor"}
    ensures forall k :: k in c ==> c[k] == Rule
  {
    map["Retailer" := Rule, "Wholesaler" := Rule, "Distributor" := Rule]
  }

  /** `{...prev, [name]: isAi ? "AI" : "RULE"}`. */
  function Toggle(config: map<string, string>, name: string, isAi: bool): (c: map<string, string>)
    ensures c.Keys == config.Keys + {name}
    ensures c[name] == (if isAi then Ai else Rule)
    ensures forall k :: k in config && k != name ==> c[k] == config[k]
  {
    config[name := if isAi then Ai else Rule]
  }

  /** `parseInt(value, 10) || 50`; `None` stands for `NaN`. */
  function WeeksFromInput(parsed: Option<int>): (w: int)
    ensures w != 0
    ensures parsed.None? || parsed == Some(0) ==> w == DefaultWeeks
    ensures parsed.Some? && parsed.value != 0 ==> w == parsed.value
  {
    if parsed.None? || parsed.value == 0 then DefaultWeeks else parsed.value
  }

  /** The fixed disruption every click requests. */
  const SpikeEvent := DisruptionRequest(DemandSpikeType, 80, 3)

  /** A template literal renders an absent value as the text `undefined`. */
  function TemplateText(v: Option<string>): string {
    if v.Some? then v.value else "undefined"
  }

  function DisruptUrl(apiBaseUrl: Option<string>, id: string): string {
    TemplateText(apiBaseUrl) + "/simulation/" + id + "/disrupt"
  }

  datatype HttpRequest = Post(url: string, body: DisruptionRequest)

  /** What a click on "Trigger Demand Spike" does; a failed request is only logged. */
  datatype DisruptOutcome = NotSent | Sent(request: HttpRequest, errorLogged: bool)

  /** Which controls are enabled. */
  datatype Enabled = Enabled(weeksInput: bool, switches: bool, start: bool, disrupt: bool)

  function ControlsEnabled(isRunning: bool): (e: Enabled)
    ensures e.start <==> !isRunning
    ensures e.disrupt <==> isRunning
    ensures e.weeksInput == e.start && e.switches == e.start
  {
    Enabled(!isRunning, !isRunning, !isRunning, isRunning)
  }

  /** The panel's own state, updated by its handlers. */
  class Panel {
    var numWeeks: int
    var agentConfig: map<string, string>

    constructor()
      ensures numWeeks == DefaultWeeks && agentConfig == InitialConfig()
    {
      numWeeks := DefaultWeeks;
      agentConfig := InitialConfig();
    }

    method HandleToggle(agentName: string, isAi: bool)
      modifies this
      ensures agentConfig == Toggle(old(agentConfig), agentName, isAi)
      ensures numWeeks == old(numWeeks)
    {
      agentConfig := agentConfig[agentName := if isAi then Ai else Rule];
    }

    method OnWeeksChange(parsed: Option<int>)
      modifies this
      ensures numWeeks == WeeksFromInput(parsed)
      ensures agentConfig == old(agentConfig)
    {
      if parsed.Some? && parsed.value != 0 {
        numWeeks := parsed.value;
      } else {
        numWeeks := DefaultWeeks;
      }
    }

    /** Start hands the current config and weeks to the hook's `startSimulation`. */
    method HandleStart(hook: SocketHook) returns (sent: StartData)
      modifies hook
      ensures hook.State() == StartReset(old(hook.State()))
      ensures sent == StartMessage(agentConfig, numWeeks)
    {
      sent := hook.StartSimulation(agentConfig, numWeeks);
    }

    /**
     * Without a (truthy) session id nothing is sent. Otherwise the fixed
     * spike is posted to the session's disrupt path; `fetchRejects` says
     * whether the request promise rejects, which is caught and logged.
     */
    method HandleDisrupt(simulationId: Option<string>, apiBaseUrl: Option<string>, fetchRejects: bool)
      returns (outcome: DisruptOutcome)
      ensures !Truthy(simulationId) <==> outcome.NotSent?
      ensures Truthy(simulationId) ==>
        outcome.Sent? && outcome.request.body == DisruptionRequest("DEMAND_SPIKE", 80, 3)
        && outcome.request.url == TemplateText(apiBaseUrl) + "/simulation/" + simulationId.value + "/disrupt"
        && outcome.errorLogged == fetchRejects
    {
      if !Truthy(simulationId) {
        return NotSent;
      }
      var event := SpikeEvent;
      var request := Post(DisruptUrl(apiBaseUrl, simulationId.value), event);
      outcome := Sent(request, fetchRejects);
    }
  }

  /**
   * The page never passes `apiBaseUrl`, so the panel's request path begins
   * with the text `undefined` rather than the base derived from the socket URL.
   */
  lemma PageDisruptUrlIsUndefined(id: string, hookBase: string)
    requires hookBase != "undefined"
    ensures DisruptUrl(None, id) == "undefined/simulation/" + id + "/disrupt"
    ensures DisruptUrl(None, id) != DisruptUrl(Some(hookBase), id)
  {
    var tail := "/simulation/" + id + "/disrupt";
    assert DisruptUrl(None, id) == "undefined" + tail;
    assert DisruptUrl(Some(hookBase), id) == hookBase + tail;
    if "undefined" + tail == hookBase + tail {
      SameTailSameHead("undefined", hookBase, tail);
    }
  }

  lemma SameTailSameHead(x: string, y: string, tail: string)
    requires x + tail == y + tail
    ensures x == y
  {
    assert x == (x + tail)[..|x|];
    assert y == (y + tail)[..|y|];
  }
}
