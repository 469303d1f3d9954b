# ChainReact in Dafny

ChainReact is a supply-chain "beer game" digital twin. The Python backend
runs four agents, Factory, Distributor, Wholesaler and Retailer, week by
week. Each agent receives shipments, serves its downstream neighbour (the
Retailer serves the customers), orders from its upstream neighbour (the
Factory produces instead) and records inventory, order and cost. A WebSocket
handler streams one frame per week and a final cost summary. A demand spike
can be injected into a running session over HTTP. The Next.js client folds
the streamed frames into four pieces of session state and derives what the
page shows and which controls are enabled.

This project models both halves and what connects them:

- `protocol.dfy` (`Protocol`): the JSON shapes the two halves exchange: payloads, events, start and disruption requests.
- `agent.dfy` (`Agents`): one agent.
  - `AgentState` is a value with pure step functions (`Receive`, `Fulfil`, `Order`, `Record`).
  - `class Agent` updates its fields, and its neighbour's, in place and is proved against those functions.
  - The learned agent is the same class with `kind == Learned(modelLoaded)`. Its model is an integer-valued `Predictor` parameter.
- `engine_spec.dfy` (`EngineSpec`): `run_step` as a function of the engine state. Each phase is a function on the four agents.
- `engine.dfy` (`Engine`): `class SimulationEngine`, holding four linked `Agent` objects. Each phase is a loop over them, proved to compute the corresponding `EngineSpec` function.
- `engine_props.dfy` (`EngineProperties`): what a step promises. This covers identity and history growth, non-negativity, the disruption countdown and the events of a step.
- `server_spec.dfy` (`ServerSpec`): the pure parts of `main.py`: demand schedule, tick payload, summary figures, and the whole frame sequence of a session.
- `server.dfy` (`Server`): the registry of running engines, the disrupt endpoint and the WebSocket loop. The loop is proved to send a prefix of `ServerSpec.Conversation`.
- `socket.dfy` (`SimulationSocket`), `text.dfy` (`Text`): the client hook.
  - `class SocketHook` has `OnMessage`, `StartSimulation` and `OnClose`, proved against the reducer `Reduce`.
  - The API base URL is derived by first-occurrence string replacement.
- `page.dfy` (`Page`): the page's derived view (`isRunning`, `latestData`, report shown).
- `control_panel.dfy` (`ControlPanel`): the panel's state and handlers, and which controls are enabled.
- `end_to_end.dfy` (`EndToEnd`): the frames a session sends, folded by the client. After the summary frame the client holds the id, the summary, one history entry per week, and WARNING events only. After the socket closes it forgets the id and keeps the rest.

Quirks of the program are reproduced as written, and proved:

- `run_step` empties the event list first (engine.py:52).
  - A CRITICAL event from `inject_disruption` is therefore gone after the next step (`EngineProperties.InjectedEventIsDiscarded`).
  - The rewrite loop at engine.py:54-56 never runs.
- The handler raises demand to 25 in week 10 itself. The engine's week-10 shift therefore never fires from the handler (`ServerSpec.ScheduleNeverShifts`).
- Retailer holding cost sums the inventory history including the initial 100, while the cost history starts at 0. The stockout figure can therefore be negative (`ServerSpec.ZeroWeekBreakdown`: -100 for a zero-week run).
- The page never passes `apiBaseUrl` to the control panel, so the disrupt request path starts with the text `undefined` (`ControlPanel.PageDisruptUrlIsUndefined`).

## Model

| member | source | states |
|---|---|---|
| `SimulationSocket.SimulationUrl` | frontend/src/hooks/useSimulationSocket.ts:15 | the environment URL when it is a non-empty string, the local default otherwise |
| `SimulationSocket.ConnectionStatus` | frontend/src/hooks/useSimulationSocket.ts:52-58 | each of the five ready states has its own text: "Live Simulation Running" exactly for OPEN, "Disconnected" exactly for CLOSED, "Connecting..." exactly for CONNECTING, "Closing..." exactly for CLOSING, "Uninstantiated" exactly for UNINSTANTIATED |
| `SimulationSocket.Classify` | frontend/src/hooks/useSimulationSocket.ts:41-45 | the priority order: `simulation_id`, then `final_summary`, then a payload with `agents` is a tick, anything else (or a falsy payload) is discarded; both directions |
| `SimulationSocket.SocketHook.constructor` | frontend/src/hooks/useSimulationSocket.ts:15-26 | URL, derived base URL and the four empty state slots |
| `SimulationSocket.SocketHook.OnMessage` | frontend/src/hooks/useSimulationSocket.ts:40-50 | the four slots after the effect are the reducer applied to the old slots and the payload |
| `SimulationSocket.SocketHook.StartSimulation` | frontend/src/hooks/useSimulationSocket.ts:33-38 | history, events and summary cleared, id kept; sends exactly `{type: start_simulation, config, weeks}` |
| `SimulationSocket.SocketHook.OnClose` | frontend/src/hooks/useSimulationSocket.ts:30 | only the session id is cleared |
| `SimulationSocket.SessionIdOnlySetsId` | frontend/src/hooks/useSimulationSocket.ts:43 | a `simulation_id` payload sets the id to its `id` and leaves the other three slots unchanged |
| `SimulationSocket.SummaryOverwrites` | frontend/src/hooks/useSimulationSocket.ts:43-45 | a `final_summary` payload replaces the summary (last wins), touches nothing else, and is never a tick |
| `SimulationSocket.MalformedIgnored` | frontend/src/hooks/useSimulationSocket.ts:41-48 | a falsy payload, or one with no known type and no `agents`, leaves all four slots unchanged |
| `SimulationSocket.TicksAppendInOrder` | frontend/src/hooks/useSimulationSocket.ts:45-47 | ticks append to the history in arrival order and their events to the log in order; id and summary unchanged |
| `SimulationSocket.TickCount` | frontend/src/hooks/useSimulationSocket.ts:45-46 | N ticks into an empty history give N entries, entry i being tick i |
| `SimulationSocket.DuplicateTicksAppended` | frontend/src/hooks/useSimulationSocket.ts:46 | the same tick twice is appended twice: no deduplication |
| `SimulationSocket.IgnoredLeaveStateUnchanged` | frontend/src/hooks/useSimulationSocket.ts:41-48 | any run of discarded payloads leaves the state as it was |
| `SimulationSocket.SummaryIsSticky` | frontend/src/hooks/useSimulationSocket.ts:44 | once a summary is held, no later payload removes it |
| `SimulationSocket.HistoryOnlyGrows` | frontend/src/hooks/useSimulationSocket.ts:46 | the tick history is never shortened or rewritten, only extended |
| `SimulationSocket.ReduceAllAppend` | frontend/src/hooks/useSimulationSocket.ts:40-50 | folding two runs of payloads is folding the first, then the second |
| `SimulationSocket.AllEventsOfSeverity` | frontend/src/hooks/useSimulationSocket.ts:47 | if every tick's events have one severity, so does the whole event log they form |
| `Text.IndexFrom` | frontend/src/hooks/useSimulationSocket.ts:18-21 | the search `replace` uses: the first occurrence at or after a position, or none at all |
| `Text.ReplaceFirstOccurrence` | frontend/src/hooks/useSimulationSocket.ts:18-21 | string `replace` substitutes exactly the first occurrence |
| `Text.ReplaceFirstAbsent` | frontend/src/hooks/useSimulationSocket.ts:18-21 | without an occurrence the string is unchanged |
| `SimulationSocket.PlainBaseUrl` | frontend/src/hooks/useSimulationSocket.ts:18-21 | `ws://host/ws/simulation` gives `http://host` |
| `SimulationSocket.SecureBaseUrl` | frontend/src/hooks/useSimulationSocket.ts:18-21 | `wss://host/ws/simulation` gives `https://host` |
| `SimulationSocket.DefaultBaseUrl` | frontend/src/hooks/useSimulationSocket.ts:15-21 | with no environment URL the base is `http://127.0.0.1:8001` |
| `SimulationSocket.DefaultHost` | frontend/src/hooks/useSimulationSocket.ts:15 | the default URL is `ws://` + a slash-free host + `/ws/simulation` |
| `Page.LatestData` | frontend/src/app/page.tsx:28 | nothing before the first tick, otherwise the `agents` of the last tick |
| `Page.PropsFor` | frontend/src/app/page.tsx:48-52 | the panel gets the id and `isRunning`, and no `apiBaseUrl` |
| `Page.RunningIff` | frontend/src/app/page.tsx:27 | running iff a non-empty id is held and no summary |
| `Page.NotRunningAfterSummary` | frontend/src/app/page.tsx:27 | after a summary, any further payloads leave the run not running and the report shown |
| `Page.LatestIsLastTick` | frontend/src/app/page.tsx:28 | after ticks arrive, the latest data is the last tick's agents |
| `Page.StartIdTicksSummary` | frontend/src/app/page.tsx:27 | start, id, three ticks, summary: running after the id and the ticks, stopped after the summary, three history entries |
| `Page.IdThenSummary` | frontend/src/app/page.tsx:27 | an id followed directly by a summary is finished with an empty history |
| `ControlPanel.InitialConfig` | frontend/src/app/components/ControlPanel.tsx:25-27 | exactly Retailer, Wholesaler and Distributor, all "RULE"; no Factory |
| `ControlPanel.Toggle` | frontend/src/app/components/ControlPanel.tsx:30 | the named role becomes "AI" or "RULE", every other key unchanged |
| `ControlPanel.WeeksFromInput` | frontend/src/app/components/ControlPanel.tsx:63 | NaN or 0 becomes 50, any other integer (negatives too) is kept; never 0 |
| `ControlPanel.ControlsEnabled` | frontend/src/app/components/ControlPanel.tsx:64-85 | start, weeks input and switches enabled iff not running; disruption button iff running |
| `ControlPanel.Panel.constructor` | frontend/src/app/components/ControlPanel.tsx:24-27 | 50 weeks and the initial configuration |
| `ControlPanel.Panel.HandleToggle` | frontend/src/app/components/ControlPanel.tsx:29-31 | the configuration is updated by `Toggle`; weeks unchanged |
| `ControlPanel.Panel.OnWeeksChange` | frontend/src/app/components/ControlPanel.tsx:63 | weeks set by the fallback rule; configuration unchanged |
| `ControlPanel.Panel.HandleStart` | frontend/src/app/components/ControlPanel.tsx:32-34 | the hook is reset and sent the current configuration and weeks |
| `ControlPanel.Panel.HandleDisrupt` | frontend/src/app/components/ControlPanel.tsx:36-49 | nothing sent without an id; otherwise the fixed spike (80 for 3 weeks) POSTed to `<base>/simulation/<id>/disrupt`, a failure only logged |
| `ControlPanel.PageDisruptUrlIsUndefined` | frontend/src/app/components/ControlPanel.tsx:41 | as the page renders the panel, the URL starts with `undefined`, never with the hook's base URL |
| `Agents.Receive` | backend/simulation/agent.py:27-29 | inventory grows by the incoming shipment, which becomes 0; nothing else changes |
| `Agents.Slide` | backend/simulation/ai_agent.py:23-25 | the window keeps at most 4 demands, appends the new one last, and drops the oldest when full |
| `Agents.Fulfil` | backend/simulation/ai_agent.py:17-27 | shipped + new backlog = total demand, inventory drops by exactly the shipped units, shipped is the smaller of stock and demand, one of inventory or backlog ends at 0 for non-negative inputs; the learned agent also slides its demand window |
| `Agents.OrderAmount` | backend/simulation/ai_agent.py:29-45 | never negative; with a loaded model `max(0, prediction)`, otherwise `max(0, shipped + target - inventory)` |
| `Agents.Order` | backend/simulation/agent.py:43-54 | the factory adds what it shipped to its stock and "orders" that; others place `OrderAmount`; shipped becomes 0 |
| `Agents.Record` | backend/simulation/agent.py:56-61 | one entry appended to each history, the cost being inventory*1 + backlog*5; nothing else changes |
| `Agents.WindowIsLatestDemands` | backend/simulation/ai_agent.py:17-25 | after any sequence of weeks the window holds exactly the last min(n, 4) demands |
| `Agents.Agent.constructor` | backend/simulation/agent.py:2-21 | inventory = target, zero counters, histories `[target]`, `[0]`, `[0]`, no neighbours |
| `Agents.Agent.ReceiveShipment` | backend/simulation/agent.py:27-29 | the agent's new value is `Receive` of its old one; links unchanged |
| `Agents.Agent.FulfillDownstreamOrders` | backend/simulation/agent.py:31-41 | new value is `Fulfil`; the downstream neighbour's incoming shipment is overwritten (not added to) with the shipped units |
| `Agents.Agent.PlaceUpstreamOrder` | backend/simulation/ai_agent.py:29-45 | new value is `Order`; a non-factory's upstream backlog grows by exactly the placed amount |
| `Agents.Agent.RecordState` | backend/simulation/agent.py:56-61 | new value is `Record` of the old one |
| `EngineSpec.KindFor` | backend/simulation/engine.py:17-18 | a missing role or any type other than "AI" gives a rule-based agent |
| `EngineSpec.InitialAgents` | backend/simulation/engine.py:12-21 | four fresh agents in order Factory, Distributor, Wholesaler, Retailer with the configured kinds |
| `EngineSpec.Inject` | backend/simulation/engine.py:39-49 | disruption active with the given type, value and duration (missing ones 0); agents untouched; with the analyst off the events are unchanged, with it on they are the earlier events followed by one CRITICAL event dated week -1 carrying the analyst's text on the disruption |
| `EngineSpec.AdvanceDisruption` | backend/simulation/engine.py:66-71 | the duration never grows and never drops below 0; an inactive disruption stays inactive |
| `EngineSpec.ReceiveAll` | backend/simulation/engine.py:73-74 | every agent receives its shipment |
| `EngineSpec.RecordAll` | backend/simulation/engine.py:84-85 | every agent records its week |
| `EngineProperties.FulfilOthersKeepsIdentity` | backend/simulation/engine.py:77-79 | the backlog pass changes no agent's role, kind, target or histories |
| `EngineProperties.OrderPrefixKeepsIdentity` | backend/simulation/engine.py:81-82 | the order pass changes no agent's role, kind, target or histories |
| `EngineProperties.MovesKeepIdentity` | backend/simulation/engine.py:73-82 | receive, fulfil and order together keep every agent's identity and histories |
| `EngineProperties.StepAppendsOneRecord` | backend/simulation/engine.py:84-85 | each step appends exactly one entry to every history of every agent, so equal lengths stay equal |
| `EngineProperties.FulfilOthersNonNegative` | backend/simulation/engine.py:77-79 | the backlog pass keeps all counters non-negative |
| `EngineProperties.OrderAtNonNegative` | backend/simulation/engine.py:82 | one agent's order keeps all counters non-negative |
| `EngineProperties.OrderPrefixNonNegative` | backend/simulation/engine.py:81-82 | the order pass keeps all counters non-negative and the chain's shape |
| `EngineProperties.StepKeepsNonNegative` | backend/simulation/engine.py:51-85 | with non-negative demand and spike value, a step keeps every counter non-negative |
| `EngineProperties.ShiftThenSpike` | backend/simulation/engine.py:58-68 | a running spike overrides the demand; otherwise the week-10 20-to-25 shift applies |
| `EngineProperties.SpikeCountsDown` | backend/simulation/engine.py:66-69 | each step of a running disruption lowers the duration by one and keeps type and value |
| `EngineProperties.SpentDisruptionSwitchesOff` | backend/simulation/engine.py:70-71 | with the duration spent, the next step clears the flag and uses the normal demand |
| `EngineProperties.SpikeLastsItsDuration` | backend/simulation/engine.py:66-71 | a spike injected for d weeks sets the demand of the next d steps, and the step after those switches it off |
| `EngineProperties.BullwhipCheckAppendsOneWarning` | backend/simulation/engine.py:87-94 | the check adds nothing, or one WARNING for the week when the analyst is on and none was there |
| `EngineProperties.BeginStepEvents` | backend/simulation/engine.py:52-64 | the events before the agents move are one INFO exactly when demand shifts with the analyst on, else none |
| `EngineProperties.StepEventsAreFresh` | backend/simulation/engine.py:52-94 | a step's events are all dated with its week and none is CRITICAL; none with the analyst off; at most one WARNING, at most two events |
| `EngineProperties.InjectedEventIsDiscarded` | backend/simulation/engine.py:52 | the CRITICAL event of an injection does not survive the next step |
| `Engine.SimulationEngine.constructor` | backend/simulation/engine.py:8-29 | four fresh, distinct, linked agents in role order, with the state `InitialState` describes |
| `Engine.SimulationEngine.LinkAgents` | backend/simulation/engine.py:31-37 | each agent's upstream is the previous role, downstream the next; factory has no upstream, retailer no downstream |
| `Engine.SimulationEngine.InjectDisruption` | backend/simulation/engine.py:39-49 | the engine state becomes `Inject` of the old one |
| `Engine.SimulationEngine.ReceivePhase` | backend/simulation/engine.py:73-74 | the chain becomes `ReceiveAll` of the old one |
| `Engine.SimulationEngine.FulfilPhase` | backend/simulation/engine.py:76-79 | the retailer serves the customers, then the others their backlog, factory first |
| `Engine.SimulationEngine.OrderPhase` | backend/simulation/engine.py:81-82 | all four agents order, factory first |
| `Engine.SimulationEngine.RecordPhase` | backend/simulation/engine.py:84-85 | the chain becomes `RecordAll` of the old one |
| `Engine.SimulationEngine.AgentPhases` | backend/simulation/engine.py:73-85 | the four phases in the fixed order |
| `Engine.SimulationEngine.BeginStep` | backend/simulation/engine.py:52-71 | events emptied, demand shifted and spiked, disruption advanced; returns the demand the retailer faces |
| `Engine.SimulationEngine.CheckBullwhip` | backend/simulation/engine.py:87-94 | only the events change, as `BullwhipCheck` says |
| `Engine.SimulationEngine.RunStep` | backend/simulation/engine.py:51-94 | the engine state becomes `Step` of the old one; links intact |
| `ServerSpec.ScheduleNeverShifts` | backend/main.py:78-81 | demand is 20 before week 10 and 25 from then on, so the engine's own shift never fires from the handler |
| `ServerSpec.StartEngine` | backend/main.py:73 | the engine starts with four agents holding their initial history entries |
| `ServerSpec.StepKeepsTraceInvariant` | backend/main.py:78-83 | one handler step at week n+1 with the scheduled demand carries the loop invariant from n to n+1 weeks |
| `ServerSpec.TraceKeepsInvariant` | backend/main.py:79-83 | after n handler weeks every agent has n+1 aligned history entries starting with its initial ones, no negative counter, and every recorded cost exceeds the recorded inventory by a non-negative multiple of 5 |
| `ServerSpec.HandlerStepEvents` | backend/main.py:83 | a handler-driven step produces at most one event, a WARNING dated with the week |
| `ServerSpec.TickReportsEveryAgent` | backend/main.py:85-95 | a tick reports each agent under its name with last inventory, last order, backlog and last cost; `events` present exactly when the step produced some |
| `ServerSpec.ReportsCoverRoles` | backend/main.py:86-92 | the agents dictionary has exactly the four role names, each mapped to that agent's report |
| `ServerSpec.TicksCarryOnlyWarnings` | backend/main.py:79-97 | tick k is for week k+1, untyped, with agents, and its events (if any) one WARNING for that week |
| `ServerSpec.FramesInOrder` | backend/main.py:76-97 | the id frame first, ticks for weeks 1..n in order, the summary last |
| `ServerSpec.ConversationShape` | backend/main.py:65-124 | a wrong or missing start message sends nothing; otherwise id, one tick per week (config defaults to `{}`, weeks to 50), then the summary |
| `ServerSpec.HoldingIsInventorySum` | backend/main.py:110 | the retailer holding cost is the sum of its inventory history |
| `ServerSpec.RetailerTotal` | backend/main.py:100-109 | the retailer's total cost is the sum of its cost history |
| `ServerSpec.RetailerBreakdown` | backend/main.py:110-111 | holding + stockout = retailer total, and stockout + initial stock is a non-negative multiple of 5 |
| `ServerSpec.BreakdownAccounts` | backend/main.py:108-122 | after any number of handler weeks, holding is the sum of the retailer's inventory history, holding + stockout is its total cost, and stockout + initial stock - initial cost is a non-negative multiple of 5 |
| `ServerSpec.StabilityCoversEveryWeek` | backend/main.py:118 | the stability series has weeks+1 points indexed 0..weeks, point 0 the initial stock |
| `ServerSpec.ZeroWeekBreakdown` | backend/main.py:108-122 | a zero-week run reports holding 100 and stockout -100 |
| `Server.Server.constructor` | backend/main.py:40 | the registry starts empty |
| `Server.Server.DisruptSimulation` | backend/main.py:51-58 | an unknown id is a 404 that changes nothing; a known id's engine gets the disruption and the reply names type and id |
| `Server.Server.WebsocketEndpoint` | backend/main.py:60-142 | the client receives a prefix, as long as it stays, of the session's frames, and the id is gone from the registry at the end |
| `Server.CurrentState` | backend/main.py:85-95 | the frame built is the tick of the engine's state for the week |
| `Server.AdvanceWeek` | backend/main.py:79-83 | one pass of the loop leaves the engine at the next week of the handler's trace |
| `Server.SessionWeek` | backend/main.py:79-98 | one week stepped and its tick sent, unless the client has gone |
| `Server.StreamTicks` | backend/main.py:76-98 | the id and then ticks for weeks 1..k are sent; a disconnect stops the loop early |
| `Server.RunSession` | backend/main.py:78-124 | everything sent is the session's frames cut at the client's capacity |
| `Server.DeliveredPrefix` | backend/main.py:135-136 | a client leaving after k+1 frames got the id and the first k ticks |
| `Server.DeliveredAll` | backend/main.py:124 | a client that stays gets every frame including the summary |
| `EndToEnd.ClientFollowsFrames` | frontend/src/hooks/useSimulationSocket.ts:40-50 | id, warning-only ticks and a summary leave the id, the summary, the ticks as history and only WARNINGs in the log |
| `EndToEnd.FramesThenClose` | frontend/src/hooks/useSimulationSocket.ts:30 | a close after those frames clears the id and keeps the summary, the ticks as history, the stopped state and the shown report |
| `EndToEnd.ClientFollowsSession` | backend/main.py:76-124 | a client that has received a whole session, up to and including the summary frame, holds its id and summary, is not running, has one history entry per week in week order, and has only WARNING events |
| `EndToEnd.SessionEndsWithClose` | frontend/src/hooks/useSimulationSocket.ts:30 | when the socket closes after the summary, the client forgets the id, stays stopped, shows the report, and keeps the summary and one history entry per week |
| `EndToEnd.ClientSeesHandlerRun` | backend/main.py:60-124 | for the handler's own run the analyst log never shows the CRITICAL or INFO commentary, and the history has one entry per requested week |
| `EndToEnd.UntouchedPanelBuildsRuleChain` | frontend/src/app/components/ControlPanel.tsx:25-27 | starting without touching the switches builds four rule-based agents |

## Left out

- The WebSocket transport and its reconnect policy are left out; they belong to the socket library. Frames are lists of payloads, a falsy payload is `None`, `ShouldReconnect` is the constant `true`, and a disconnect is a frame `capacity` for the handler.
- The `fetch` call is left out (I/O). Whether the request promise rejects is the `fetchRejects` parameter of `HandleDisrupt`, and a rejection is only logged. An HTTP error response, such as the disrupt endpoint's 404 for an unknown id, resolves the promise. The handler then logs nothing and the model does not distinguish it from a success.
- The FastAPI application, CORS settings, `read_root`, `uuid` generation are left out; the session id is a parameter.
- `asyncio.sleep`, the MongoDB insert and the log prints are left out (I/O, timing).
- Other exceptions are not modelled: only the normal path and a client disconnect are.
- Concurrency between the disrupt endpoint and the WebSocket loop on the same engine is not modelled. At the engine level an injection is a sequential call between steps (`EngineProperties.InjectedEventIsDiscarded`, `EngineProperties.SpikeLastsItsDuration`).
- ServerSpec.TraceKeepsInvariant, ServerSpec.BreakdownAccounts, ServerSpec.StabilityCoversEveryWeek, Server.Server.WebsocketEndpoint, Server.RunSession, Server.StreamTicks, EndToEnd.ClientFollowsSession, EndToEnd.SessionEndsWithClose, EndToEnd.ClientSeesHandlerRun: these session-level results hold only for runs with no disruption injected between weeks. `ServerSpec.Trace` applies the weekly step alone, and `ServerSpec.TraceInvariant` fixes the disruption value at its starting value. A disrupt request arriving during a session is proved only at the engine level, by the two lemmas above.
- The LLM commentary and final-summary text are the opaque functions `Analyst` and `Summarizer`.
- The ML model (joblib load, pandas frame, `predict`) is left out.
  - `Predictor` stands for it and already returns the integer after truncation.
  - It receives the demand window, from which the source computes the float average.
  - Whether the model file loaded is the `modelLoaded` flag of the learned kind.
- The engine.py:54-56 loop is not written out; it runs over a list emptied on the line before and has no effect.
- `Agent.__repr__`, the data generator, the training script and `run.py` are not part of this model.
- Rendering is left out: the KPI cards, chart, analyst panel, summary report and context plumbing. The page is modelled only through `isRunning`, `latestData`, the panel props and whether the report shows.
- `Server.Server.WebsocketEndpoint`, `Server.RunSession`, `Server.StreamTicks`, `Server.SessionWeek`, `Server.AdvanceWeek` and `Server.CurrentState` take the weekly step and the tick builder as ghost function parameters.
  - Their hypotheses (`KeepsRecorded`, `RunsHandler`, `SendsTicks`) are proved of the handler's own step and tick by `HandlerWeekKeepsRecorded`, `HandlerWeekRuns` and `TickPayloadSends`.
  - This keeps the loop proofs small.
- The handler's engine is assumed to hold four agents. `HandlerWeek` leaves any other engine unchanged, a case the handler never reaches.
