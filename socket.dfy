/**
 * The client hook that owns one streaming connection and folds every
 * inbound payload into four pieces of session state: the session id, the
 * tick history, the event log and the final summary.
 */
module SimulationSocket {
  import opened Wrappers
  import opened Protocol
  import opened Text

  const DefaultSimulationUrl := "ws://127.0.0.1:8001/ws/simulation"
  const EndpointSuffix := "/ws/simulation"

  /** The endpoint: the environment override when it is a non-empty string, else the default. */
  function SimulationUrl(env: Option<string>): (url: string)
    ensures Truthy(env) ==> url == env.value
    ensures !Truthy(env) ==> url == DefaultSimulationUrl
  {
    if Truthy(env) then env.value else DefaultSimulationUrl
  }

  /** The request base: three first-occurrence replacements applied in turn. */
  function ApiBaseUrl(url: string): string {
    ReplaceFirst(ReplaceFirst(ReplaceFirst(url, "ws://", "http://"), "wss://", "https://"), EndpointSuffix, "")
  }

  /** The connection states of the socket library. */
  datatype ReadyState = Uninstantiated | Connecting | Open | Closing | Closed

  function ConnectionStatus(rs: ReadyState): (text: string)
    ensures rs == Open <==> text == "Live Simulation Running"
    ensures rs == Closed <==> text == "Disconnected"
    ensures rs == Connecting <==> text == "Connecting..."
    ensures rs == Closing <==> text == "Closing..."
    ensures rs == Uninstantiated <==> text == "Uninstantiated"
  {
    match rs
    case Connecting => "Connecting..."
    case Open => "Live Simulation Running"
    case Closing => "Closing..."
    case Closed => "Disconnected"
    case Uninstantiated => "Uninstantiated"
  }

  /** The socket library's reconnect policy as configured: every close reconnects. */
  function ShouldReconnect(): bool { true }

  /** The four state slots of the hook as one value. */
  datatype Session = Session(
    simulationId: Option<string>,
    dataHistory: seq<Payload>,
    eventHistory: seq<Event>,
    summaryData: Option<Payload>)

  const EmptySession := Session(None, [], [], None)

  /** What the effect does with one payload, decided in a fixed priority order. */
  datatype Classified =
    | SessionIdentifier(id: Option<string>)
    | FinalSummary(message: Payload)
    | Tick(message: Payload)
    | Discarded

  function Classify(m: Option<Payload>): (k: Classified)
    ensures k.SessionIdentifier? <==> m.Some? && m.value.typ == Some(SimulationIdType)
    ensures k.FinalSummary? <==> m.Some? && m.value.typ == Some(FinalSummaryType)
    ensures k.Tick? <==> m.Some? && m.value.typ != Some(SimulationIdType)
                         && m.value.typ != Some(FinalSummaryType) && m.value.agents.Some?
    ensures k.SessionIdentifier? ==> k.id == m.value.id
    ensures k.FinalSummary? || k.Tick? ==> k.message == m.value
  {
    match m
    case None => Discarded
    case Some(msg) =>
      if msg.typ == Some(SimulationIdType) then SessionIdentifier(msg.id)
      else if msg.typ == Some(FinalSummaryType) then FinalSummary(msg)
      else if msg.agents.Some? then Tick(msg)
      else Discarded
  }

  /** The events a tick carries; a tick without `events` carries none. */
  function EventsOf(msg: Payload): seq<Event> {
    if msg.events.Some? then msg.events.value else []
  }

  /** The effect run for each new `lastJsonMessage`. */
  function Reduce(s: Session, m: Option<Payload>): Session {
    match Classify(m)
    case SessionIdentifier(id) => s.(simulationId := id)
    case FinalSummary(msg) => s.(summaryData := Some(msg))
    case Tick(msg) => s.(dataHistory := s.dataHistory + [msg], eventHistory := s.eventHistory + EventsOf(msg))
    case Discarded => s
  }

  /** The state after a sequence of payloads delivered in order. */
  function ReduceAll(s: Session, ms: seq<Option<Payload>>): Session
    decreases |ms|
  {
    if ms == [] then s else Reduce(ReduceAll(s, ms[..|ms| - 1]), ms[|ms| - 1])
  }

  /** `startSimulation` clears history, events and summary; the session id stays. */
  function StartReset(s: Session): Session {
    s.(dataHistory := [], eventHistory := [], summaryData := None)
  }

  /** `onClose`: the id of the run is forgotten; everything else stays. */
  function Close(s: Session): Session {
    s.(simulationId := None)
  }

  /** The message `startSimulation` sends. */
  function StartMessage(config: map<string, string>, weeks: int): StartData {
    StartData(Some(StartSimulationType), Some(config), Some(weeks))
  }

  predicate IsTick(m: Option<Payload>) { m.Some? && Classify(m).Tick? }

  /** Every payload of `ms` is a tick. */
  predicate AllTicks(ms: seq<Option<Payload>>) {
    forall i :: 0 <= i < |ms| ==> ms[i].Some? && Classify(ms[i]).Tick?
  }

  predicate IsIgnored(m: Option<Payload>) { Classify(m).Discarded? }

  function Payloads(ms: seq<Option<Payload>>): (r: seq<Payload>)
    requires forall i :: 0 <= i < |ms| ==> ms[i].Some?
    ensures |r| == |ms| && forall i :: 0 <= i < |ms| ==> r[i] == ms[i].value
    decreases |ms|
  {
    if ms == [] then [] else Payloads(ms[..|ms| - 1]) + [ms[|ms| - 1].value]
  }

  function AllEvents(ms: seq<Payload>): seq<Event>
    decreases |ms|
  {
    if ms == [] then [] else AllEvents(ms[..|ms| - 1]) + EventsOf(ms[|ms| - 1])
  }

  /** The hook's state, updated in place by the socket callbacks. */
  class SocketHook {
    const simulationUrl: string
    const apiBaseUrl: string
    var simulationId: Option<string>
    var dataHistory: seq<Payload>
    var eventHistory: seq<Event>
    var summaryData: Option<Payload>

    function State(): Session
      reads this
    {
      Session(simulationId, dataHistory, eventHistory, summaryData)
    }

    constructor(env: Option<string>)
      ensures simulationUrl == SimulationUrl(env)
      ensures apiBaseUrl == ApiBaseUrl(simulationUrl)
      ensures State() == EmptySession
    {
      simulationUrl := SimulationUrl(env);
      apiBaseUrl := ApiBaseUrl(SimulationUrl(env));
      simulationId := None;
      dataHistory := [];
      eventHistory := [];
      summaryData := None;
    }

    /** The effect on `lastJsonMessage`; `None` stands for a falsy payload. */
    method OnMessage(lastJsonMessage: Option<Payload>)
      modifies this
      ensures State() == Reduce(old(State()), lastJsonMessage)
    {
      if lastJsonMessage.Some? {
        var message := lastJsonMessage.value;
        if message.typ == Some(SimulationIdType) {
          simulationId := message.id;
        } else if message.typ == Some(FinalSummaryType) {
          summaryData := Some(message);
        } else if message.agents.Some? {
          dataHistory := dataHistory + [message];
          if message.events.Some? {
            eventHistory := eventHistory + message.events.value;
          }
        }
      }
    }

    /** `startSimulation`: resets three slots, then returns the message it sends. */
    method StartSimulation(config: map<string, string>, weeks: int) returns (sent: StartData)
      modifies this
      ensures State() == StartReset(old(State()))
      ensures sent == StartMessage(config, weeks)
      ensures sent.typ == Some(StartSimulationType) && sent.config == Some(config) && sent.weeks == Some(weeks)
    {
      dataHistory := [];
      eventHistory := [];
      summaryData := None;
      sent := StartData(Some(StartSimulationType), Some(config), Some(weeks));
    }

    /** `onClose`: the id of the run is forgotten; the socket library then reconnects. */
    method OnClose()
      modifies this
      ensures State() == Close(old(State()))
    {
      simulationId := None;
    }
  }

  // ---------------------------------------------------------------------
  // Properties of the reducer

  /** A `simulation_id` message sets the id and leaves the other three slots alone. */
  lemma SessionIdOnlySetsId(s: Session, msg: Payload)
    requires msg.typ == Some(SimulationIdType)
    ensures Reduce(s, Some(msg)) == s.(simulationId := msg.id)
  {
  }

  /**
   * A `final_summary` message replaces the summary and nothing else, even
   * when it also carries `agents`: typed messages are never ticks.
   */
  lemma SummaryOverwrites(s: Session, msg: Payload)
    requires msg.typ == Some(FinalSummaryType)
    ensures Reduce(s, Some(msg)) == s.(summaryData := Some(msg))
    ensures !IsTick(Some(msg))
  {
  }

  /** A falsy payload, or one with no known `type` and no `agents`, changes nothing. */
  lemma MalformedIgnored(s: Session, m: Option<Payload>)
    requires m.None? || (m.value.typ != Some(SimulationIdType) && m.value.typ != Some(FinalSummaryType) && m.value.agents.None?)
    ensures Reduce(s, m) == s
  {
  }

  /**
   * Ticks are appended in arrival order and their events concatenated in
   * order; the id and the summary are untouched.
   */
  lemma {:induction false} TicksAppendInOrder(s: Session, ms: seq<Option<Payload>>)
    requires AllTicks(ms)
    ensures ReduceAll(s, ms).dataHistory == s.dataHistory + Payloads(ms)
    ensures ReduceAll(s, ms).eventHistory == s.eventHistory + AllEvents(Payloads(ms))
    ensures ReduceAll(s, ms).simulationId == s.simulationId
    ensures ReduceAll(s, ms).summaryData == s.summaryData
    decreases |ms|
  {
    if ms != [] {
      var init := ms[..|ms| - 1];
      TicksAppendInOrder(s, init);
      assert Payloads(ms) == Payloads(init) + [ms[|ms| - 1].value];
      assert AllEvents(Payloads(ms)) == AllEvents(Payloads(init)) + EventsOf(ms[|ms| - 1].value);
    }
  }

  /** N ticks delivered to a session with no history give a history of length N. */
  lemma {:induction false} TickCount(s: Session, ms: seq<Option<Payload>>)
    requires s.dataHistory == []
    requires AllTicks(ms)
    ensures |ReduceAll(s, ms).dataHistory| == |ms|
    ensures forall i :: 0 <= i < |ms| ==> ReduceAll(s, ms).dataHistory[i] == ms[i].value
  {
    TicksAppendInOrder(s, ms);
    assert ReduceAll(s, ms).dataHistory == Payloads(ms);
  }

  /** The reducer does not deduplicate: the same tick twice is appended twice. */
  lemma DuplicateTicksAppended(s: Session, m: Option<Payload>)
    requires IsTick(m)
    ensures Reduce(Reduce(s, m), m).dataHistory == s.dataHistory + [m.value, m.value]
  {
  }

  /** Payloads that are all discarded leave the state exactly as it was. */
  lemma {:induction false} IgnoredLeaveStateUnchanged(s: Session, ms: seq<Option<Payload>>)
    requires forall i :: 0 <= i < |ms| ==> IsIgnored(ms[i])
    ensures ReduceAll(s, ms) == s
    decreases |ms|
  {
    if ms != [] {
      IgnoredLeaveStateUnchanged(s, ms[..|ms| - 1]);
    }
  }

  /** Once a summary is held, no payload removes it (only a new start does). */
  lemma {:induction false} SummaryIsSticky(s: Session, ms: seq<Option<Payload>>)
    requires s.summaryData.Some?
    ensures ReduceAll(s, ms).summaryData.Some?
    decreases |ms|
  {
    if ms != [] {
      SummaryIsSticky(s, ms[..|ms| - 1]);
    }
  }

  /** The history only grows: every earlier tick stays where it was. */
  lemma {:induction false} HistoryOnlyGrows(s: Session, ms: seq<Option<Payload>>)
    ensures |s.dataHistory| <= |ReduceAll(s, ms).dataHistory|
    ensures ReduceAll(s, ms).dataHistory[..|s.dataHistory|] == s.dataHistory
    decreases |ms|
  {
    if ms != [] {
      HistoryOnlyGrows(s, ms[..|ms| - 1]);
    }
  }

  /** Delivering `a` and then `b` is delivering `a + b`. */
  lemma {:induction false} ReduceAllAppend(s: Session, a: seq<Option<Payload>>, b: seq<Option<Payload>>)
    ensures ReduceAll(s, a + b) == ReduceAll(ReduceAll(s, a), b)
    decreases |b|
  {
    if b == [] {
      assert a + b == a;
    } else {
      var init := b[..|b| - 1];
      ReduceAllAppend(s, a, init);
      assert (a + b)[..|a + b| - 1] == a + init;
    }
  }

  /** The event log of a run of ticks holds only the severity every one of their events has. */
  lemma {:induction false} AllEventsOfSeverity(ms: seq<Payload>, severity: Severity)
    requires forall k :: 0 <= k < |ms| ==> forall i :: 0 <= i < |EventsOf(ms[k])| ==> EventsOf(ms[k])[i].severity == severity
    ensures forall i :: 0 <= i < |AllEvents(ms)| ==> AllEvents(ms)[i].severity == severity
    decreases |ms|
  {
    if ms != [] {
      AllEventsOfSeverity(ms[..|ms| - 1], severity);
    }
  }

  // ---------------------------------------------------------------------
  // The request base derived from the streaming URL

  lemma NoSecureScheme(pre: string, h: string, j: nat)
    requires pre == "http://" || pre == "https://"
    requires |h| > 0 && NoSlash(h)
    ensures !At(pre + h + EndpointSuffix, "wss://", j)
  {
    var u := pre + h + EndpointSuffix;
    var n := |pre|;
    if j < n {
      assert u[j] == pre[j] != 'w';
      NotAt(u, "wss://", j, 0);
    } else if j + 4 < n + |h| {
      assert u[j + 4] == h[j + 4 - n];
      NotAt(u, "wss://", j, 4);
    } else if j + 6 <= |u| {
      var t := j + 4 - n - |h|;
      if t == 0 || t == 3 {
        assert u[j + 5] == EndpointSuffix[t + 1];
        NotAt(u, "wss://", j, 5);
      } else {
        assert u[j + 4] == EndpointSuffix[t];
        NotAt(u, "wss://", j, 4);
      }
    }
  }

  lemma NoPlainScheme(h: string, j: nat)
    requires |h| > 0 && NoSlash(h)
    ensures !At("wss://" + h + EndpointSuffix, "ws://", j)
  {
    var u := "wss://" + h + EndpointSuffix;
    if j == 0 {
      NotAt(u, "ws://", j, 2);
    } else if j < 6 {
      assert u[j] != 'w';
      NotAt(u, "ws://", j, 0);
    } else if j + 3 < 6 + |h| {
      assert u[j + 3] == h[j + 3 - 6];
      NotAt(u, "ws://", j, 3);
    } else if j + 5 <= |u| {
      var t := j + 3 - 6 - |h|;
      if t == 0 || t == 3 {
        assert u[j + 4] == EndpointSuffix[t + 1];
        NotAt(u, "ws://", j, 4);
      } else {
        assert u[j + 3] == EndpointSuffix[t];
        NotAt(u, "ws://", j, 3);
      }
    }
  }

  lemma SuffixFirstAfterHost(pre: string, h: string)
    requires pre == "http://" || pre == "https://"
    requires |h| > 0 && NoSlash(h)
    ensures IndexOf(pre + h + EndpointSuffix, EndpointSuffix) == Some(|pre| + |h|)
  {
    var u := pre + h + EndpointSuffix;
    var n := |pre|;
    var k := n + |h|;
    assert u[k..] == EndpointSuffix;
    forall j | 0 <= j < k
      ensures !At(u, EndpointSuffix, j)
    {
      if j >= n {
        assert u[j] == h[j - n];
        NotAt(u, EndpointSuffix, j, 0);
      } else if j < n - 2 {
        assert u[j] == pre[j];
        NotAt(u, EndpointSuffix, j, 0);
      } else if j == n - 2 {
        assert u[j + 1] == pre[n - 1];
        NotAt(u, EndpointSuffix, j, 1);
      } else if |h| >= 3 {
        assert u[j + 3] == h[2];
        NotAt(u, EndpointSuffix, j, 3);
      } else if |h| == 1 {
        assert u[j + 2] == EndpointSuffix[0];
        NotAt(u, EndpointSuffix, j, 2);
      } else {
        assert u[j + 4] == EndpointSuffix[1];
        NotAt(u, EndpointSuffix, j, 4);
      }
    }
    FirstAt(u, EndpointSuffix, k);
  }

  /** `ws://<host>/ws/simulation` gives `http://<host>` for any host without `/`. */
  lemma PlainBaseUrl(h: string)
    requires |h| > 0 && NoSlash(h)
    ensures ApiBaseUrl("ws://" + h + EndpointSuffix) == "http://" + h
  {
    var u := "ws://" + h + EndpointSuffix;
    assert At(u, "ws://", 0);
    FirstAt(u, "ws://", 0);
    var u1 := "http://" + h + EndpointSuffix;
    assert ReplaceFirst(u, "ws://", "http://") == u1;
    forall j | 0 <= j <= |u1| ensures !At(u1, "wss://", j) {
      NoSecureScheme("http://", h, j);
    }
    ReplaceFirstAbsent(u1, "wss://", "https://");
    SuffixFirstAfterHost("http://", h);
    assert u1[..7 + |h|] == "http://" + h;
  }

  /** `wss://<host>/ws/simulation` gives `https://<host>` for any host without `/`. */
  lemma SecureBaseUrl(h: string)
    requires |h| > 0 && NoSlash(h)
    ensures ApiBaseUrl("wss://" + h + EndpointSuffix) == "https://" + h
  {
    var u := "wss://" + h + EndpointSuffix;
    forall j | 0 <= j <= |u| ensures !At(u, "ws://", j) {
      NoPlainScheme(h, j);
    }
    ReplaceFirstAbsent(u, "ws://", "http://");
    assert At(u, "wss://", 0);
    FirstAt(u, "wss://", 0);
    var u1 := "https://" + h + EndpointSuffix;
    assert ReplaceFirst(u, "wss://", "https://") == u1;
    SuffixFirstAfterHost("https://", h);
    assert u1[..8 + |h|] == "https://" + h;
  }

  /** Without an override the requests go to `http://127.0.0.1:8001`. */
  lemma DefaultBaseUrl()
    ensures ApiBaseUrl(SimulationUrl(None)) == "http://127.0.0.1:8001"
  {
    var h := DefaultHost();
    PlainBaseUrl(h);
  }

  function DefaultHost(): (h: string)
    ensures |h| > 0 && NoSlash(h)
    ensures "ws://" + h + EndpointSuffix == DefaultSimulationUrl
    ensures "http://" + h == "http://127.0.0.1:8001"
  {
    "127.0.0.1:8001"
  }
}
