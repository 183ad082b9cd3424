/**
  The AgentOps telemetry client. A client holds an initialised flag, at most
  one active session and the active traces keyed by trace id. Every operation
  builds one event, stores it where the client does (a session's or a
  trace's event list), and hands it to delivery, which posts it to the
  collector when an API key is configured.

  Ids, clock readings and the network are outside the client: `Env` supplies
  the ids and timestamps as two streams read in call order, and records
  every delivery in a ghost outbox.
 */
module AgentOps {
  import opened Wrappers

  const DefaultEndpoint: string := "https://api.agentops.ai/v2/events"

  /** The error every facade call throws before `init`. Its stack text is not modelled. */
  const NotInitialized: JsError := JsError("AgentOps not initialized", None)

  datatype TraceState = Success | Fail | Indeterminate

  datatype EventType = Llm | Tool | Action | Error | Custom

  /** A value the client passes along without looking into it (`any`). */
  type Json = string

  datatype LlmCallData = LlmCallData(
    model: string, prompt: string, response: string,
    tokens: Option<int>, cost: Option<real>, latency: Option<int>)

  datatype ToolCallData = ToolCallData(
    name: string, input: Json, output: Json, cost: Option<real>, latency: Option<int>)

  datatype ActionData = ActionData(action: string, params: Json, result: Json)

  /** A thrown error: its `message` and `stack`. */
  datatype JsError = JsError(message: string, stack: Option<string>)

  /** The `context` given to `recordError`: a caller's own value, or the
      object a wrapper builds from its name and the call's arguments. */
  datatype ErrorContext =
    | Supplied(value: Json)
    | OperationContext(operation: string, args: Json)
    | ToolContext(tool: string, args: Json)
    | TraceContext(trace: string, args: Json)

  /** An event's `data`; the constructor stands for its `event_type`. */
  datatype Payload =
    | SessionStart(sessionId: string, tags: seq<string>, traceName: Option<string>)
    | SessionEnd(sessionId: string, endState: TraceState, duration: int)
    | TraceStart(traceId: string, name: string, traceTags: Option<seq<string>>)
    | TraceEnd(traceId: string, endState: TraceState, duration: int)
    | LlmCall(llm: LlmCallData)
    | ToolCall(tool: ToolCallData)
    | ActionTaken(action: ActionData)
    | ErrorReport(message: string, stack: Option<string>, context: Option<ErrorContext>)

  datatype Event = Event(
    id: string, kind: EventType, timestamp: int, data: Payload,
    sessionId: Option<string>, traceId: Option<string>)

  datatype Session = Session(
    id: string, startTime: int, endTime: Option<int>, tags: seq<string>,
    traceName: Option<string>, events: seq<Event>, state: Option<TraceState>)

  datatype Trace = Trace(
    id: string, name: string, startTime: int, endTime: Option<int>, tags: seq<string>,
    events: seq<Event>, state: Option<TraceState>, sessionId: string)

  datatype Config = Config(
    apiKey: string, tags: Option<seq<string>>, traceName: Option<string>,
    autoStartSession: Option<bool>, endpoint: Option<string>)

  /** `Partial<AgentOpsConfig>`: the options `init` accepts. */
  datatype Options = Options(
    apiKey: Option<string>, tags: Option<seq<string>>, traceName: Option<string>,
    autoStartSession: Option<bool>, endpoint: Option<string>)

  /** One POST to the collector: where, the `Authorization` header, the body. */
  datatype Delivery = Delivery(endpoint: string, authorization: string, event: Event)

  /** A call that returns a value or throws. */
  datatype Outcome<T> = Returned(value: T) | Threw(error: JsError)

  // ---------------------------------------------------------------------------
  // Configuration and delivery

  /** `{ apiKey, ...options }`: every option that is given wins. */
  function MergeOptions(apiKey: string, options: Option<Options>): (c: Config)
    ensures options.None? ==> c == Config(apiKey, None, None, None, None)
    ensures options.Some? ==> c.apiKey == options.value.apiKey.GetOr(apiKey) && c.tags == options.value.tags
    ensures options.Some? ==> c.traceName == options.value.traceName && c.autoStartSession == options.value.autoStartSession
    ensures options.Some? ==> c.endpoint == options.value.endpoint
  {
    match options
    case None => Config(apiKey, None, None, None, None)
    case Some(o) => Config(o.apiKey.GetOr(apiKey), o.tags, o.traceName, o.autoStartSession, o.endpoint)
  }

  /** `config.endpoint || default`: an empty endpoint falls back too. */
  function EndpointOf(config: Config): (url: string)
    ensures url != ""
    ensures url == DefaultEndpoint || config.endpoint == Some(url)
    ensures config.endpoint.Some? && config.endpoint.value != "" ==> url == config.endpoint.value
    ensures config.endpoint.None? || config.endpoint.value == "" ==> url == DefaultEndpoint
  {
    if config.endpoint.Some? && config.endpoint.value != "" then config.endpoint.value else DefaultEndpoint
  }

  /** What `sendEvent` posts for an event: nothing without an API key,
      otherwise one POST with the bearer token. */
  function Dispatched(config: Config, e: Event): (posts: seq<Delivery>)
    ensures |posts| <= 1
    ensures posts == [] <==> config.apiKey == ""
    ensures posts != [] ==> posts[0].event == e && posts[0].endpoint == EndpointOf(config)
    ensures posts != [] ==> posts[0].authorization == "Bearer " + config.apiKey
  {
    if config.apiKey == "" then [] else [Delivery(EndpointOf(config), "Bearer " + config.apiKey, e)]
  }

  // ---------------------------------------------------------------------------
  // Sessions, traces and events as values

  /** An active session: its first event is its `session_start` marker, every
      event carries its id, and it has no end yet. */
  ghost predicate SessionOpen(s: Session) {
    && |s.events| >= 1
    && s.events[0].data.SessionStart? && s.events[0].data.sessionId == s.id
    && (forall k :: 0 <= k < |s.events| ==> s.events[k].sessionId == Some(s.id))
    && s.endTime.None? && s.state.None?
  }

  /** An active trace: its only event is its `trace_start` marker, and it has
      no end yet. Recorded events never reach a trace. */
  ghost predicate TraceOpen(t: Trace) {
    && |t.events| == 1
    && t.events[0].data.TraceStart? && t.events[0].data.traceId == t.id
    && t.events[0].traceId == Some(t.id) && t.events[0].sessionId == Some(t.sessionId)
    && t.endTime.None? && t.state.None?
  }

  /** Every trace is open and filed under its own id. */
  ghost predicate TracesOpen(traces: map<string, Trace>) {
    forall id :: id in traces ==> traces[id].id == id && TraceOpen(traces[id])
  }

  lemma FileKeepsOpen(traces: map<string, Trace>, t: Trace)
    requires TracesOpen(traces) && TraceOpen(t)
    ensures TracesOpen(traces[t.id := t])
  {
  }

  /** Filing a trace and then removing it leaves the other traces as they were. */
  lemma FiledThenDropped(traces: map<string, Trace>, t: Trace)
    ensures traces[t.id := t] - {t.id} == traces - {t.id}
  {
  }

  /** `tags || config.tags || []`: an argument array wins even when empty. */
  function SessionTags(config: Config, tags: Option<seq<string>>): seq<string> {
    if tags.Some? then tags.value else config.tags.GetOr([])
  }

  /** `traceName || config.traceName`: an empty name falls back. */
  function SessionTraceName(config: Config, traceName: Option<string>): Option<string> {
    if traceName.Some? && traceName.value != "" then traceName else config.traceName
  }

  /** The session `startSession` creates, given the ids and readings it draws. */
  function OpenSession(config: Config, tags: Option<seq<string>>, traceName: Option<string>,
                       sessionId: string, startTime: int, eventId: string, timestamp: int): (s: Session)
    ensures SessionOpen(s) && |s.events| == 1
    ensures s.id == sessionId && s.startTime == startTime
    ensures s.tags == (if tags.Some? then tags.value else config.tags.GetOr([]))
    ensures s.traceName == (if traceName.Some? && traceName.value != "" then traceName else config.traceName)
    ensures s.events[0].id == eventId && s.events[0].kind == Custom && s.events[0].timestamp == timestamp
    ensures s.events[0].traceId.None?
    ensures s.events[0].data == SessionStart(sessionId, s.tags, s.traceName)
  {
    var resolved := SessionTags(config, tags);
    var name := SessionTraceName(config, traceName);
    Session(sessionId, startTime, None, resolved, name,
            [Event(eventId, Custom, timestamp, SessionStart(sessionId, resolved, name), Some(sessionId), None)], None)
  }

  /** The session `endSession` finishes: end time and state set and one
      `session_end` event, carrying the elapsed time, appended. */
  function CloseSession(s: Session, endState: TraceState, endTime: int, eventId: string, timestamp: int): (r: Session)
    ensures r.id == s.id && r.startTime == s.startTime && r.tags == s.tags && r.traceName == s.traceName
    ensures r.endTime == Some(endTime) && r.state == Some(endState)
    ensures |r.events| == |s.events| + 1 && r.events[..|s.events|] == s.events
    ensures r.events[|s.events|].data == SessionEnd(s.id, endState, endTime - s.startTime)
    ensures r.events[|s.events|].sessionId == Some(s.id) && r.events[|s.events|].traceId.None?
    ensures r.events[|s.events|].id == eventId && r.events[|s.events|].kind == Custom && r.events[|s.events|].timestamp == timestamp
  {
    var e := Event(eventId, Custom, timestamp, SessionEnd(s.id, endState, endTime - s.startTime), Some(s.id), None);
    s.(endTime := Some(endTime), state := Some(endState), events := s.events + [e])
  }

  /** The trace `startTrace` creates in session `sessionId`. */
  function OpenTrace(name: string, tags: Option<seq<string>>, sessionId: string,
                     traceId: string, startTime: int, eventId: string, timestamp: int): (t: Trace)
    ensures TraceOpen(t)
    ensures t.id == traceId && t.name == name && t.sessionId == sessionId && t.startTime == startTime
    ensures t.tags == (if tags.Some? then tags.value else [])
    ensures t.events[0].id == eventId && t.events[0].kind == Custom && t.events[0].timestamp == timestamp
    ensures t.events[0].data == TraceStart(traceId, name, tags)
  {
    var e := Event(eventId, Custom, timestamp, TraceStart(traceId, name, tags), Some(sessionId), Some(traceId));
    Trace(traceId, name, startTime, None, tags.GetOr([]), [e], None, sessionId)
  }

  /** The trace `endTrace` finishes. */
  function CloseTrace(t: Trace, endState: TraceState, endTime: int, eventId: string, timestamp: int): (r: Trace)
    ensures r.id == t.id && r.name == t.name && r.tags == t.tags && r.sessionId == t.sessionId && r.startTime == t.startTime
    ensures r.endTime == Some(endTime) && r.state == Some(endState)
    ensures |r.events| == |t.events| + 1 && r.events[..|t.events|] == t.events
    ensures r.events[|t.events|].data == TraceEnd(t.id, endState, endTime - t.startTime)
    ensures r.events[|t.events|].traceId == Some(t.id) && r.events[|t.events|].sessionId == Some(t.sessionId)
    ensures r.events[|t.events|].id == eventId && r.events[|t.events|].kind == Custom && r.events[|t.events|].timestamp == timestamp
  {
    var e := Event(eventId, Custom, timestamp, TraceEnd(t.id, endState, endTime - t.startTime), Some(t.sessionId), Some(t.id));
    t.(endTime := Some(endTime), state := Some(endState), events := t.events + [e])
  }

  /** The event a `record*` call builds: it names the active session, if any,
      and no trace. */
  function RecordedEvent(kind: EventType, data: Payload, session: Option<Session>, eventId: string, timestamp: int): (e: Event)
    ensures e.kind == kind && e.data == data && e.traceId.None?
    ensures e.id == eventId && e.timestamp == timestamp
    ensures e.sessionId == (if session.Some? then Some(session.value.id) else None)
  {
    Event(eventId, kind, timestamp, data, if session.Some? then Some(session.value.id) else None, None)
  }

  /** `activeSession?.events.push(e)` */
  function Appended(session: Option<Session>, e: Event): (r: Option<Session>)
    ensures r.None? <==> session.None?
    ensures r.Some? ==> r.value == session.value.(events := session.value.events + [e])
  {
    match session
    case None => None
    case Some(s) => Some(s.(events := s.events + [e]))
  }

  /** Appending an event that names the session keeps the session open. */
  lemma AppendKeepsOpen(s: Session, e: Event)
    requires SessionOpen(s) && e.sessionId == Some(s.id)
    ensures SessionOpen(s.(events := s.events + [e]))
  {
    var r := s.(events := s.events + [e]);
    assert r.events[0] == s.events[0];
    forall k | 0 <= k < |r.events| ensures r.events[k].sessionId == Some(s.id) {
      if k < |s.events| {
        assert r.events[k] == s.events[k];
      }
    }
  }

  /** `operation(name)`: `name || ClassName.methodName`. */
  function OperationName(name: Option<string>, className: string, propertyKey: string): (r: string)
    ensures name.Some? && name.value != "" ==> r == name.value
    ensures name.None? || name.value == "" ==> r == className + "." + propertyKey
  {
    if name.Some? && name.value != "" then name.value else className + "." + propertyKey
  }

  // ---------------------------------------------------------------------------
  // The environment: ids, clock and network

  /** `generateId()` and `Date.now()` as streams read in call order, and the
      network as the sequence of deliveries handed to it. */
  class Env {
    const ids: nat -> string
    const clock: nat -> int
    var idsDrawn: nat
    var clockReads: nat
    ghost var outbox: seq<Delivery>

    constructor(ids: nat -> string, clock: nat -> int)
      ensures this.ids == ids && this.clock == clock
      ensures idsDrawn == 0 && clockReads == 0 && outbox == []
    {
      this.ids := ids;
      this.clock := clock;
      idsDrawn := 0;
      clockReads := 0;
      outbox := [];
    }

    /** `generateId()` followed by `Date.now()`, the pair every event and
        every new session or trace starts with. */
    method Stamp() returns (id: string, time: int)
      modifies this
      ensures id == ids(old(idsDrawn)) && idsDrawn == old(idsDrawn) + 1
      ensures time == clock(old(clockReads)) && clockReads == old(clockReads) + 1
      ensures outbox == old(outbox)
    {
      id := ids(idsDrawn);
      idsDrawn := idsDrawn + 1;
      time := clock(clockReads);
      clockReads := clockReads + 1;
    }

    method Now() returns (t: int)
      modifies this
      ensures t == clock(old(clockReads)) && clockReads == old(clockReads) + 1
      ensures idsDrawn == old(idsDrawn) && outbox == old(outbox)
    {
      t := clock(clockReads);
      clockReads := clockReads + 1;
    }

    method Post(d: Delivery)
      modifies this
      ensures outbox == old(outbox) + [d]
      ensures idsDrawn == old(idsDrawn) && clockReads == old(clockReads)
    {
      outbox := outbox + [d];
    }
  }

  // ---------------------------------------------------------------------------
  // The effect of each client operation, as a relation between snapshots of
  // the state before and after. `ids` and `clock` are the environment's
  // streams; `i` and `t` are how many ids and readings were drawn before.

  /** The client's state and what its environment has drawn and been handed,
      at one moment. */
  datatype Snapshot = Snapshot(session: Option<Session>, traces: map<string, Trace>,
                               idsDrawn: nat, clockReads: nat, outbox: seq<Delivery>)

  ghost function Snap(c: Client): Snapshot
    reads c, c.env
  {
    Snapshot(c.activeSession, c.activeTraces, c.env.idsDrawn, c.env.clockReads, c.env.outbox)
  }

  /** `startSession`: the new session replaces any active one, and its start
      is posted. */
  ghost predicate SessionStartedFrom(config: Config, ids: nat -> string, clock: nat -> int, s0: Snapshot, s1: Snapshot,
                                     tags: Option<seq<string>>, traceName: Option<string>, sessionId: string)
  {
    var i := s0.idsDrawn;
    var t := s0.clockReads;
    var s := OpenSession(config, tags, traceName, ids(i), clock(t), ids(i + 1), clock(t + 1));
    && sessionId == s.id
    && s1.session == Some(s) && s1.traces == s0.traces
    && s1.idsDrawn == i + 2 && s1.clockReads == t + 2
    && s1.outbox == s0.outbox + Dispatched(config, s.events[0])
  }

  /** `endSession` with a session active: it is closed, its end posted, and
      no session is active any more. */
  ghost predicate SessionEndedFrom(config: Config, ids: nat -> string, clock: nat -> int, s0: Snapshot, s1: Snapshot,
                                   endState: TraceState, ended: Session)
  {
    var i := s0.idsDrawn;
    var t := s0.clockReads;
    && s0.session.Some?
    && ended == CloseSession(s0.session.value, endState, clock(t), ids(i), clock(t + 1))
    && s1.session == None && s1.traces == s0.traces
    && s1.idsDrawn == i + 1 && s1.clockReads == t + 2
    && s1.outbox == s0.outbox + Dispatched(config, ended.events[|ended.events| - 1])
  }

  /** A trace just started, named `name` and tagged `tags`, in session
      `sessionId`: it is open and holds only its start marker. */
  ghost predicate Begun(t: Trace, sessionId: string, name: string, tags: Option<seq<string>>) {
    && TraceOpen(t) && t.sessionId == sessionId
    && t.name == name && t.tags == tags.GetOr([])
    && t.events[0].data == TraceStart(t.id, name, tags)
  }

  /** The session a trace started from `s` goes into: the active one, or
      else the one opened from the next two ids and readings. */
  function HostSession(config: Config, ids: nat -> string, clock: nat -> int, s: Snapshot): Session {
    if s.session.Some? then s.session.value
    else OpenSession(config, None, None, ids(s.idsDrawn), clock(s.clockReads), ids(s.idsDrawn + 1), clock(s.clockReads + 1))
  }

  /** The trace `startTrace` opens from `s`, in its host session, once the
      session's draws are made. */
  function StartingTrace(config: Config, ids: nat -> string, clock: nat -> int, s: Snapshot,
                         name: string, tags: Option<seq<string>>): Trace
  {
    var k := if s.session.Some? then 0 else 2;
    OpenTrace(name, tags, HostSession(config, ids, clock, s).id, ids(s.idsDrawn + k), clock(s.clockReads + k),
              ids(s.idsDrawn + k + 1), clock(s.clockReads + k + 1))
  }

  /** `startTrace` from `s`: a session is opened first when none is active,
      and its start posted; then the trace is opened in the session, filed
      under its id, and its start posted. */
  function AfterStart(config: Config, ids: nat -> string, clock: nat -> int, s: Snapshot,
                      name: string, tags: Option<seq<string>>): Snapshot
  {
    var k := if s.session.Some? then 0 else 2;
    var session := HostSession(config, ids, clock, s);
    var trace := StartingTrace(config, ids, clock, s, name, tags);
    Snapshot(Some(session), s.traces[trace.id := trace], s.idsDrawn + k + 2, s.clockReads + k + 2,
             s.outbox + (if s.session.Some? then [] else Dispatched(config, session.events[0]))
                      + Dispatched(config, trace.events[0]))
  }

  ghost predicate TraceStartedFrom(config: Config, ids: nat -> string, clock: nat -> int, s0: Snapshot, s1: Snapshot,
                                   name: string, tags: Option<seq<string>>, traceId: string)
  {
    && traceId == StartingTrace(config, ids, clock, s0, name, tags).id
    && s1 == AfterStart(config, ids, clock, s0, name, tags)
  }

  /** After `startTrace` the new trace is begun and filed under its id in
      the session then active, and no other trace changes; the session is
      the one that was active, or else a fresh one holding only its start. */
  lemma StartedTraceBegun(config: Config, ids: nat -> string, clock: nat -> int, s0: Snapshot, s1: Snapshot,
                          name: string, tags: Option<seq<string>>, traceId: string)
    requires TraceStartedFrom(config, ids, clock, s0, s1, name, tags, traceId)
    ensures s1.session.Some? && traceId in s1.traces
    ensures Begun(s1.traces[traceId], s1.session.value.id, name, tags)
    ensures s1.traces == s0.traces[traceId := s1.traces[traceId]]
    ensures s0.session.Some? ==> s1.session == s0.session && traceId == ids(s0.idsDrawn)
    ensures s0.session.None? ==> traceId == ids(s0.idsDrawn + 2) && |s1.session.value.events| == 1
    ensures s0.session.None? ==> s1.session.value.events[0].data == SessionStart(ids(s0.idsDrawn), SessionTags(config, None), SessionTraceName(config, None))
  {
  }

  /** The part of `startTrace` once a session is active: the trace is opened
      in it and filed, and its start posted. */
  ghost predicate TraceFiledFrom(config: Config, ids: nat -> string, clock: nat -> int, s0: Snapshot, s1: Snapshot,
                                 name: string, tags: Option<seq<string>>, traceId: string)
  {
    var i := s0.idsDrawn;
    var t := s0.clockReads;
    && s0.session.Some?
    && var trace := OpenTrace(name, tags, s0.session.value.id, ids(i), clock(t), ids(i + 1), clock(t + 1));
    && traceId == trace.id
    && s1.session == s0.session && s1.traces == s0.traces[traceId := trace]
    && s1.idsDrawn == i + 2 && s1.clockReads == t + 2
    && s1.outbox == s0.outbox + Dispatched(config, trace.events[0])
  }

  /** A session started when none was active, then a trace filed in the
      active session, is `startTrace`. */
  lemma StartComposes(config: Config, ids: nat -> string, clock: nat -> int, s0: Snapshot, mid: Snapshot, s1: Snapshot,
                      name: string, tags: Option<seq<string>>, traceId: string)
    requires s0.session.Some? ==> mid == s0
    requires s0.session.None? ==> mid.session.Some? && SessionStartedFrom(config, ids, clock, s0, mid, None, None, mid.session.value.id)
    requires TraceFiledFrom(config, ids, clock, mid, s1, name, tags, traceId)
    ensures TraceStartedFrom(config, ids, clock, s0, s1, name, tags, traceId)
  {
    var after := AfterStart(config, ids, clock, s0, name, tags);
    var session := HostSession(config, ids, clock, s0);
    assert mid.session == Some(session);
    if s0.session.None? {
      assert mid.outbox == s0.outbox + Dispatched(config, session.events[0]);
    }
    assert s1.traces == after.traces && s1.outbox == after.outbox;
  }

  /** `endTrace` with the trace active: it is closed, removed, and its end
      posted. */
  ghost predicate TraceEndedFrom(config: Config, ids: nat -> string, clock: nat -> int, s0: Snapshot, s1: Snapshot,
                                 traceId: string, endState: TraceState, ended: Trace)
  {
    var i := s0.idsDrawn;
    var t := s0.clockReads;
    && traceId in s0.traces
    && ended == CloseTrace(s0.traces[traceId], endState, clock(t), ids(i), clock(t + 1))
    && s1.session == s0.session && s1.traces == s0.traces - {traceId}
    && s1.idsDrawn == i + 1 && s1.clockReads == t + 2
    && s1.outbox == s0.outbox + Dispatched(config, ended.events[|ended.events| - 1])
  }

  /** A `record*` call whose timestamp is clock reading `t`: the event is
      appended to the active session, if any, and posted. */
  ghost predicate RecordedFrom(config: Config, ids: nat -> string, clock: nat -> int, s0: Snapshot, s1: Snapshot,
                               kind: EventType, data: Payload, t: nat)
  {
    var e := RecordedEvent(kind, data, s0.session, ids(s0.idsDrawn), clock(t));
    && s1.session == Appended(s0.session, e) && s1.traces == s0.traces
    && s1.idsDrawn == s0.idsDrawn + 1 && s1.clockReads == t + 1
    && s1.outbox == s0.outbox + Dispatched(config, e)
  }

  /** The events a traced call appends to its session: one error event,
      naming the session and no trace, when the call threw, and none when it
      returned. */
  function Failures(body: Outcome<Json>, context: ErrorContext, session: Option<Session>, eventId: string, timestamp: int): (r: seq<Event>)
    ensures body.Returned? ==> r == []
    ensures body.Threw? ==> |r| == 1 && r[0].kind == Error && r[0].data == ErrorReport(body.error.message, body.error.stack, Some(context))
    ensures body.Threw? ==> r[0].id == eventId && r[0].timestamp == timestamp
    ensures body.Threw? ==> r[0].sessionId == (if session.Some? then Some(session.value.id) else None) && r[0].traceId.None?
  {
    if body.Threw? then [RecordedEvent(Error, ErrorReport(body.error.message, body.error.stack, Some(context)), session, eventId, timestamp)]
    else []
  }

  /** The end of a traced call, once its trace is active: on a throw the
      error is recorded first, drawing an id and a reading; then the trace
      is ended as `Success` or `Fail` and removed. `closed` is the trace as
      `endTrace` finished it. */
  ghost predicate TraceConcludedFrom(config: Config, ids: nat -> string, clock: nat -> int, s1: Snapshot, s2: Snapshot,
                                     traceId: string, context: ErrorContext, body: Outcome<Json>, closed: Trace)
  {
    var i := s1.idsDrawn;
    var t := s1.clockReads;
    var d := if body.Threw? then 1 else 0;
    var failures := Failures(body, context, s1.session, ids(i), clock(t));
    && s1.session.Some? && traceId in s1.traces
    && closed == CloseTrace(s1.traces[traceId], if body.Returned? then Success else Fail,
                            clock(t + d), ids(i + d), clock(t + d + 1))
    && s2.session == Some(s1.session.value.(events := s1.session.value.events + failures))
    && s2.traces == s1.traces - {traceId}
    && s2.idsDrawn == i + d + 1 && s2.clockReads == t + d + 2
    && s2.outbox == s1.outbox + (if body.Threw? then Dispatched(config, failures[0]) else [])
                              + Dispatched(config, closed.events[|closed.events| - 1])
  }

  /** On a return, ending the trace as `Success` is the end of the call. */
  lemma ReturnConcludes(config: Config, ids: nat -> string, clock: nat -> int, s1: Snapshot, s2: Snapshot,
                        traceId: string, context: ErrorContext, body: Outcome<Json>, closed: Trace)
    requires body.Returned? && s1.session.Some?
    requires TraceEndedFrom(config, ids, clock, s1, s2, traceId, Success, closed)
    ensures TraceConcludedFrom(config, ids, clock, s1, s2, traceId, context, body, closed)
  {
    assert s1.session.value.(events := s1.session.value.events + []) == s1.session.value;
  }

  /** On a throw, recording the error with `context` and then ending the
      trace as `Fail` is the end of the call. */
  lemma ThrowConcludes(config: Config, ids: nat -> string, clock: nat -> int, s1: Snapshot, mid: Snapshot, s2: Snapshot,
                       traceId: string, context: ErrorContext, body: Outcome<Json>, closed: Trace)
    requires body.Threw? && s1.session.Some?
    requires RecordedFrom(config, ids, clock, s1, mid, Error, ErrorReport(body.error.message, body.error.stack, Some(context)), s1.clockReads)
    requires TraceEndedFrom(config, ids, clock, mid, s2, traceId, Fail, closed)
    ensures TraceConcludedFrom(config, ids, clock, s1, s2, traceId, context, body, closed)
  {
  }

  /** A whole traced call: `startTrace`, then the end of the call by its
      outcome. `before` is the session's event list when the call ran. */
  ghost predicate TracedFrom(config: Config, ids: nat -> string, clock: nat -> int, s0: Snapshot, s2: Snapshot,
                             name: string, tags: Option<seq<string>>, context: ErrorContext,
                             body: Outcome<Json>, closed: Trace, before: seq<Event>)
  {
    var s1 := AfterStart(config, ids, clock, s0, name, tags);
    && before == s1.session.value.events
    && TraceConcludedFrom(config, ids, clock, s1, s2, StartingTrace(config, ids, clock, s0, name, tags).id, context, body, closed)
  }

  /** `startTrace` followed by the end of the call is the whole traced call,
      the call running on the session's events as `startTrace` left them. */
  lemma TracedComposes(config: Config, ids: nat -> string, clock: nat -> int, s0: Snapshot, s1: Snapshot, s2: Snapshot,
                       name: string, tags: Option<seq<string>>, traceId: string,
                       context: ErrorContext, body: Outcome<Json>, closed: Trace)
    requires TraceStartedFrom(config, ids, clock, s0, s1, name, tags, traceId)
    requires TraceConcludedFrom(config, ids, clock, s1, s2, traceId, context, body, closed)
    ensures TracedFrom(config, ids, clock, s0, s2, name, tags, context, body, closed, s1.session.value.events)
  {
  }

  /** What a traced call leaves behind: the trace, named and tagged as
      asked, belongs to the session the call ran in and is no longer active;
      it holds its start marker and an end marker that carries the call's
      outcome and the elapsed time. The session gains the error event, and
      only it, when the call threw. */
  lemma TracedTrace(config: Config, ids: nat -> string, clock: nat -> int, s0: Snapshot, s2: Snapshot,
                    name: string, tags: Option<seq<string>>, context: ErrorContext,
                    body: Outcome<Json>, closed: Trace, before: seq<Event>)
    requires TracedFrom(config, ids, clock, s0, s2, name, tags, context, body, closed, before)
    ensures closed.name == name && closed.tags == tags.GetOr([]) && closed.id !in s2.traces
    ensures s2.session.Some? && closed.sessionId == s2.session.value.id == HostSession(config, ids, clock, s0).id
    ensures closed.state == Some(if body.Returned? then Success else Fail) && closed.endTime.Some?
    ensures |closed.events| == 2 && closed.events[0].data == TraceStart(closed.id, name, tags)
    ensures closed.events[1].data == TraceEnd(closed.id, closed.state.value, closed.endTime.value - closed.startTime)
    ensures closed.events[1].traceId == Some(closed.id) && closed.events[1].sessionId == Some(closed.sessionId)
    ensures body.Returned? ==> s2.session.value.events == before
    ensures body.Threw? ==> |s2.session.value.events| == |before| + 1 && s2.session.value.events[..|before|] == before
    ensures body.Threw? ==> s2.session.value.events[|before|].data == ErrorReport(body.error.message, body.error.stack, Some(context))
  {
    var s1 := AfterStart(config, ids, clock, s0, name, tags);
    var trace := StartingTrace(config, ids, clock, s0, name, tags);
    assert s1.traces[trace.id] == trace;
  }

  // The same effects on a client, between the heap before a call and after.

  twostate predicate StartedSession(c: Client, tags: Option<seq<string>>, traceName: Option<string>, sessionId: string)
    reads c, c.env
  {
    SessionStartedFrom(c.config, c.env.ids, c.env.clock, Snapshot(old(c.activeSession), old(c.activeTraces), old(c.env.idsDrawn), old(c.env.clockReads), old(c.env.outbox)),
               Snapshot(c.activeSession, c.activeTraces, c.env.idsDrawn, c.env.clockReads, c.env.outbox), tags, traceName, sessionId)
  }

  twostate predicate EndedSession(c: Client, endState: TraceState, ended: Session)
    reads c, c.env
  {
    SessionEndedFrom(c.config, c.env.ids, c.env.clock, Snapshot(old(c.activeSession), old(c.activeTraces), old(c.env.idsDrawn), old(c.env.clockReads), old(c.env.outbox)),
               Snapshot(c.activeSession, c.activeTraces, c.env.idsDrawn, c.env.clockReads, c.env.outbox), endState, ended)
  }

  twostate predicate StartedTrace(c: Client, name: string, tags: Option<seq<string>>, traceId: string)
    reads c, c.env
  {
    TraceStartedFrom(c.config, c.env.ids, c.env.clock, Snapshot(old(c.activeSession), old(c.activeTraces), old(c.env.idsDrawn), old(c.env.clockReads), old(c.env.outbox)),
               Snapshot(c.activeSession, c.activeTraces, c.env.idsDrawn, c.env.clockReads, c.env.outbox), name, tags, traceId)
  }

  twostate predicate FiledTrace(c: Client, name: string, tags: Option<seq<string>>, traceId: string)
    reads c, c.env
  {
    TraceFiledFrom(c.config, c.env.ids, c.env.clock, Snapshot(old(c.activeSession), old(c.activeTraces), old(c.env.idsDrawn), old(c.env.clockReads), old(c.env.outbox)),
               Snapshot(c.activeSession, c.activeTraces, c.env.idsDrawn, c.env.clockReads, c.env.outbox), name, tags, traceId)
  }

  twostate predicate EndedTrace(c: Client, traceId: string, endState: TraceState, ended: Trace)
    reads c, c.env
  {
    TraceEndedFrom(c.config, c.env.ids, c.env.clock, Snapshot(old(c.activeSession), old(c.activeTraces), old(c.env.idsDrawn), old(c.env.clockReads), old(c.env.outbox)),
               Snapshot(c.activeSession, c.activeTraces, c.env.idsDrawn, c.env.clockReads, c.env.outbox), traceId, endState, ended)
  }

  twostate predicate Recorded(c: Client, kind: EventType, data: Payload, t: nat)
    reads c, c.env
  {
    RecordedFrom(c.config, c.env.ids, c.env.clock, Snapshot(old(c.activeSession), old(c.activeTraces), old(c.env.idsDrawn), old(c.env.clockReads), old(c.env.outbox)),
               Snapshot(c.activeSession, c.activeTraces, c.env.idsDrawn, c.env.clockReads, c.env.outbox), kind, data, t)
  }

  twostate predicate Concluded(c: Client, traceId: string, context: ErrorContext, body: Outcome<Json>, closed: Trace)
    reads c, c.env
  {
    TraceConcludedFrom(c.config, c.env.ids, c.env.clock, Snapshot(old(c.activeSession), old(c.activeTraces), old(c.env.idsDrawn), old(c.env.clockReads), old(c.env.outbox)),
               Snapshot(c.activeSession, c.activeTraces, c.env.idsDrawn, c.env.clockReads, c.env.outbox), traceId, context, body, closed)
  }

  twostate predicate TracedRun(c: Client, name: string, tags: Option<seq<string>>, context: ErrorContext,
                               body: Outcome<Json>, closed: Trace, before: seq<Event>)
    reads c, c.env
  {
    TracedFrom(c.config, c.env.ids, c.env.clock, Snapshot(old(c.activeSession), old(c.activeTraces), old(c.env.idsDrawn), old(c.env.clockReads), old(c.env.outbox)),
               Snapshot(c.activeSession, c.activeTraces, c.env.idsDrawn, c.env.clockReads, c.env.outbox), name, tags, context, body, closed, before)
  }

  // ---------------------------------------------------------------------------
  // The client

  class Client {
    const config: Config
    const env: Env
    var isInitialized: bool
    var activeSession: Option<Session>
    var activeTraces: map<string, Trace>

    /** The active session, if any, is open; every active trace is open and
        filed under its own id. */
    ghost predicate Valid()
      reads this
    {
      && (activeSession.Some? ==> SessionOpen(activeSession.value))
      && TracesOpen(activeTraces)
    }

    constructor(config: Config, env: Env)
      ensures Valid() && this.config == config && this.env == env
      ensures !isInitialized && activeSession == None && activeTraces == map[]
    {
      this.config := config;
      this.env := env;
      isInitialized := false;
      activeSession := None;
      activeTraces := map[];
    }

    /** `init`: sets the flag once, and starts a session unless
        `autoStartSession` is `false`. */
    method Init()
      requires Valid()
      modifies this, env
      ensures Valid() && isInitialized
      ensures old(isInitialized) ==> unchanged(this) && unchanged(env)
      ensures !old(isInitialized) && config.autoStartSession == Some(false) ==>
                activeSession == old(activeSession) && activeTraces == old(activeTraces) && unchanged(env)
      ensures !old(isInitialized) && config.autoStartSession != Some(false) ==>
                StartedSession(this, None, None, env.ids(old(env.idsDrawn)))
    {
      if isInitialized {
        return;
      }
      isInitialized := true;
      if config.autoStartSession != Some(false) {
        var sessionId := StartSession(None, None);
      }
    }

    /** `sendEvent`: posts the event unless the API key is empty. */
    method SendEvent(e: Event)
      modifies env
      ensures env.outbox == old(env.outbox) + Dispatched(config, e)
      ensures env.idsDrawn == old(env.idsDrawn) && env.clockReads == old(env.clockReads)
    {
      if config.apiKey == "" {
        return;
      }
      env.Post(Delivery(EndpointOf(config), "Bearer " + config.apiKey, e));
    }

    /** `startSession`: replaces the active session, without ending it, by a
        new one whose only event is its `session_start` marker. */
    method StartSession(tags: Option<seq<string>>, traceName: Option<string>) returns (sessionId: string)
      requires Valid()
      modifies this, env
      ensures Valid() && isInitialized == old(isInitialized)
      ensures StartedSession(this, tags, traceName, sessionId)
    {
      var startTime;
      sessionId, startTime := env.Stamp();
      var session := Session(sessionId, startTime, None, SessionTags(config, tags), SessionTraceName(config, traceName), [], None);
      activeSession := Some(session);
      var eventId, timestamp := env.Stamp();
      var event := Event(eventId, Custom, timestamp, SessionStart(sessionId, session.tags, session.traceName), Some(sessionId), None);
      activeSession := Some(session.(events := session.events + [event]));
      assert activeSession.value == OpenSession(config, tags, traceName, sessionId, startTime, eventId, timestamp);
      SendEvent(event);
    }

    /** `endSession`: without an active session nothing happens; otherwise
        the session is finished with one `session_end` event and dropped.
        `ended` is the finished session. */
    method EndSession(endState: TraceState) returns (ghost ended: Option<Session>)
      requires Valid()
      modifies this, env
      ensures Valid() && isInitialized == old(isInitialized)
      ensures old(activeSession).None? ==> ended == None && unchanged(this) && unchanged(env)
      ensures old(activeSession).Some? ==> ended.Some? && EndedSession(this, endState, ended.value)
    {
      if activeSession.None? {
        return None;
      }
      var session := activeSession.value;
      var endTime := env.Now();
      session := session.(endTime := Some(endTime), state := Some(endState));
      var eventId, timestamp := env.Stamp();
      var event := Event(eventId, Custom, timestamp, SessionEnd(session.id, endState, endTime - session.startTime), Some(session.id), None);
      session := session.(events := session.events + [event]);
      SendEvent(event);
      activeSession := None;
      ended := Some(session);
    }

    /** `startTrace`: opens a session first when there is none, then files a
        new trace under its id; other traces stay as they were. */
    method StartTrace(name: string, tags: Option<seq<string>>) returns (traceId: string)
      requires Valid()
      modifies this, env
      ensures Valid() && isInitialized == old(isInitialized)
      ensures StartedTrace(this, name, tags, traceId)
    {
      ghost var s0 := Snap(this);
      if activeSession.None? {
        var sessionId := StartSession(None, None);
      }
      ghost var mid := Snap(this);
      traceId := FileTrace(name, tags);
      StartComposes(config, env.ids, env.clock, s0, mid, Snap(this), name, tags, traceId);
    }

    /** The part of `startTrace` after a session is known to be active. */
    method FileTrace(name: string, tags: Option<seq<string>>) returns (traceId: string)
      requires Valid() && activeSession.Some?
      modifies this, env
      ensures Valid() && isInitialized == old(isInitialized) && activeSession == old(activeSession)
      ensures FiledTrace(this, name, tags, traceId)
    {
      var startTime;
      traceId, startTime := env.Stamp();
      var eventId, timestamp := env.Stamp();
      var trace := OpenTrace(name, tags, activeSession.value.id, traceId, startTime, eventId, timestamp);
      FileKeepsOpen(activeTraces, trace);
      activeTraces := activeTraces[traceId := trace];
      SendEvent(trace.events[0]);
    }

    /** `endTrace`: an id that is not active changes nothing; otherwise the
        trace is finished with one `trace_end` event and removed. */
    method EndTrace(traceId: string, endState: TraceState) returns (ghost ended: Option<Trace>)
      requires Valid()
      modifies this, env
      ensures Valid() && isInitialized == old(isInitialized)
      ensures traceId !in old(activeTraces) ==> ended == None && unchanged(this) && unchanged(env)
      ensures traceId in old(activeTraces) ==> ended.Some? && EndedTrace(this, traceId, endState, ended.value)
    {
      if traceId !in activeTraces {
        return None;
      }
      var trace := activeTraces[traceId];
      var endTime := env.Now();
      trace := trace.(endTime := Some(endTime), state := Some(endState));
      var eventId, timestamp := env.Stamp();
      var event := Event(eventId, Custom, timestamp, TraceEnd(traceId, endState, endTime - trace.startTime), Some(trace.sessionId), Some(traceId));
      trace := trace.(events := trace.events + [event]);
      SendEvent(event);
      activeTraces := activeTraces - {traceId};
      ended := Some(trace);
    }

    /** The common body of the four `record*` methods: one event, appended to
        the active session if there is one, and sent. */
    method Record(kind: EventType, data: Payload)
      requires Valid()
      modifies this, env
      ensures Valid() && isInitialized == old(isInitialized)
      ensures Recorded(this, kind, data, old(env.clockReads))
    {
      var eventId, timestamp := env.Stamp();
      var event := Event(eventId, kind, timestamp, data, if activeSession.Some? then Some(activeSession.value.id) else None, None);
      if activeSession.Some? {
        AppendKeepsOpen(activeSession.value, event);
        activeSession := Some(activeSession.value.(events := activeSession.value.events + [event]));
      }
      SendEvent(event);
    }

    method RecordLLMEvent(data: LlmCallData)
      requires Valid()
      modifies this, env
      ensures Valid() && isInitialized == old(isInitialized)
      ensures Recorded(this, Llm, LlmCall(data), old(env.clockReads))
    {
      Record(Llm, LlmCall(data));
    }

    method RecordToolEvent(data: ToolCallData)
      requires Valid()
      modifies this, env
      ensures Valid() && isInitialized == old(isInitialized)
      ensures Recorded(this, Tool, ToolCall(data), old(env.clockReads))
    {
      Record(Tool, ToolCall(data));
    }

    method RecordActionEvent(data: ActionData)
      requires Valid()
      modifies this, env
      ensures Valid() && isInitialized == old(isInitialized)
      ensures Recorded(this, Action, ActionTaken(data), old(env.clockReads))
    {
      Record(Action, ActionTaken(data));
    }

    method RecordError(error: JsError, context: Option<ErrorContext>)
      requires Valid()
      modifies this, env
      ensures Valid() && isInitialized == old(isInitialized)
      ensures Recorded(this, Error, ErrorReport(error.message, error.stack, context), old(env.clockReads))
    {
      Record(Error, ErrorReport(error.message, error.stack, context));
    }

    method GetActiveSession() returns (session: Option<Session>)
      requires Valid()
      ensures session == activeSession
      ensures session.Some? ==> SessionOpen(session.value)
    {
      session := activeSession;
    }

    /** `Array.from(activeTraces.values())`: every active trace once. */
    method GetActiveTraces() returns (traces: seq<Trace>)
      requires Valid()
      ensures |traces| == |activeTraces|
      ensures forall t :: t in traces <==> t in activeTraces.Values
      ensures forall j, k :: 0 <= j < k < |traces| ==> traces[j].id != traces[k].id
    {
      ghost var keys;
      traces, keys := ValuesOf(activeTraces);
      assert forall k :: 0 <= k < |traces| ==> traces[k].id == keys[k];
    }
  }

  /** The values of a map, each once, with the keys they were found under. */
  method ValuesOf(m: map<string, Trace>) returns (values: seq<Trace>, ghost keys: seq<string>)
    ensures |values| == |keys| == |m|
    ensures forall k :: 0 <= k < |keys| ==> keys[k] in m && values[k] == m[keys[k]]
    ensures forall j, k :: 0 <= j < k < |keys| ==> keys[j] != keys[k]
    ensures forall t :: t in values <==> t in m.Values
  {
    values, keys := [], [];
    var remaining := m.Keys;
    while remaining != {}
      invariant remaining <= m.Keys && |keys| == |values|
      invariant |values| + |remaining| == |m.Keys|
      invariant forall k :: 0 <= k < |keys| ==> keys[k] in m && keys[k] !in remaining && values[k] == m[keys[k]]
      invariant forall id :: id in m && id !in remaining ==> id in keys
      invariant forall j, k :: 0 <= j < k < |keys| ==> keys[j] != keys[k]
      decreases |remaining|
    {
      var id :| id in remaining;
      values := values + [m[id]];
      keys := keys + [id];
      remaining := remaining - {id};
    }
    forall t | t in m.Values ensures t in values {
      var id :| id in m && m[id] == t;
      var k :| 0 <= k < |keys| && keys[k] == id;
      assert values[k] == t;
    }
  }

  // ---------------------------------------------------------------------------
  // The module-level `agentOps` object

  /** The exported `agentOps` object and the one client behind it, `null`
      until `init`. Every call but the getters throws before `init`. */
  class Facade {
    var client: Client?
    const env: Env

    ghost predicate Valid()
      reads this, client
    {
      client != null ==> client.Valid() && client.isInitialized && client.env == env
    }

    constructor(env: Env)
      ensures Valid() && this.env == env && client == null
    {
      this.env := env;
      client := null;
    }

    /** `init`: only the first call creates a client, from the key and the
        options; later calls change nothing. */
    method Init(apiKey: string, options: Option<Options>)
      requires Valid()
      modifies this, env
      ensures Valid() && client != null
      ensures old(client) != null ==> client == old(client) && unchanged(client) && unchanged(env)
      ensures old(client) == null ==> fresh(client) && client.config == MergeOptions(apiKey, options) && client.activeTraces == map[]
      ensures old(client) == null && client.config.autoStartSession == Some(false) ==>
                client.activeSession == None && unchanged(env)
      ensures old(client) == null && client.config.autoStartSession != Some(false) ==>
                var i := old(env.idsDrawn);
                var t := old(env.clockReads);
                && client.activeSession == Some(OpenSession(client.config, None, None, env.ids(i), env.clock(t), env.ids(i + 1), env.clock(t + 1)))
                && env.idsDrawn == i + 2 && env.clockReads == t + 2
                && env.outbox == old(env.outbox) + Dispatched(client.config, client.activeSession.value.events[0])
    {
      if client != null {
        return;
      }
      var c := new Client(MergeOptions(apiKey, options), env);
      c.Init();
      client := c;
    }

    method StartSession(tags: Option<seq<string>>, traceName: Option<string>) returns (r: Outcome<string>)
      requires Valid()
      modifies client, env
      ensures Valid()
      ensures client == null ==> r == Threw(NotInitialized) && unchanged(env)
      ensures client != null ==> r.Returned? && StartedSession(client, tags, traceName, r.value)
    {
      if client == null {
        return Threw(NotInitialized);
      }
      var sessionId := client.StartSession(tags, traceName);
      r := Returned(sessionId);
    }

    /** `endSession`, whose state defaults to `Success`. */
    method EndSession(endState: Option<TraceState>) returns (r: Outcome<()>, ghost ended: Option<Session>)
      requires Valid()
      modifies client, env
      ensures Valid()
      ensures client == null ==> r == Threw(NotInitialized) && ended == None && unchanged(env)
      ensures client != null ==> r == Returned(())
      ensures client != null && old(client.activeSession).None? ==> ended == None && unchanged(client) && unchanged(env)
      ensures client != null && old(client.activeSession).Some? ==>
                ended.Some? && EndedSession(client, endState.GetOr(Success), ended.value)
    {
      if client == null {
        return Threw(NotInitialized), None;
      }
      ended := client.EndSession(endState.GetOr(Success));
      r := Returned(());
    }

    method StartTrace(name: string, tags: Option<seq<string>>) returns (r: Outcome<string>)
      requires Valid()
      modifies client, env
      ensures Valid()
      ensures client == null ==> r == Threw(NotInitialized) && unchanged(env)
      ensures client != null ==> r.Returned? && StartedTrace(client, name, tags, r.value)
    {
      if client == null {
        return Threw(NotInitialized);
      }
      var traceId := client.StartTrace(name, tags);
      r := Returned(traceId);
    }

    /** `endTrace`, whose state defaults to `Success`. */
    method EndTrace(traceId: string, endState: Option<TraceState>) returns (r: Outcome<()>, ghost ended: Option<Trace>)
      requires Valid()
      modifies client, env
      ensures Valid()
      ensures client == null ==> r == Threw(NotInitialized) && ended == None && unchanged(env)
      ensures client != null ==> r == Returned(())
      ensures client != null && traceId !in old(client.activeTraces) ==> ended == None && unchanged(client) && unchanged(env)
      ensures client != null && traceId in old(client.activeTraces) ==>
                ended.Some? && EndedTrace(client, traceId, endState.GetOr(Success), ended.value)
    {
      if client == null {
        return Threw(NotInitialized), None;
      }
      ended := client.EndTrace(traceId, endState.GetOr(Success));
      r := Returned(());
    }

    method RecordLLM(data: LlmCallData) returns (r: Outcome<()>)
      requires Valid()
      modifies client, env
      ensures Valid()
      ensures client == null ==> r == Threw(NotInitialized) && unchanged(env)
      ensures client != null ==> r == Returned(()) && Recorded(client, Llm, LlmCall(data), old(env.clockReads))
    {
      if client == null {
        return Threw(NotInitialized);
      }
      client.RecordLLMEvent(data);
      r := Returned(());
    }

    method RecordTool(data: ToolCallData) returns (r: Outcome<()>)
      requires Valid()
      modifies client, env
      ensures Valid()
      ensures client == null ==> r == Threw(NotInitialized) && unchanged(env)
      ensures client != null ==> r == Returned(()) && Recorded(client, Tool, ToolCall(data), old(env.clockReads))
    {
      if client == null {
        return Threw(NotInitialized);
      }
      client.RecordToolEvent(data);
      r := Returned(());
    }

    method RecordAction(data: ActionData) returns (r: Outcome<()>)
      requires Valid()
      modifies client, env
      ensures Valid()
      ensures client == null ==> r == Threw(NotInitialized) && unchanged(env)
      ensures client != null ==> r == Returned(()) && Recorded(client, Action, ActionTaken(data), old(env.clockReads))
    {
      if client == null {
        return Threw(NotInitialized);
      }
      client.RecordActionEvent(data);
      r := Returned(());
    }

    method RecordError(error: JsError, context: Option<ErrorContext>) returns (r: Outcome<()>)
      requires Valid()
      modifies client, env
      ensures Valid()
      ensures client == null ==> r == Threw(NotInitialized) && unchanged(env)
      ensures client != null ==> r == Returned(()) && Recorded(client, Error, ErrorReport(error.message, error.stack, context), old(env.clockReads))
    {
      if client == null {
        return Threw(NotInitialized);
      }
      client.RecordError(error, context);
      r := Returned(());
    }

    /** `getActiveSession`: `null` before `init`. */
    method GetActiveSession() returns (session: Option<Session>)
      requires Valid()
      ensures client == null ==> session == None
      ensures client != null ==> session == client.activeSession
    {
      if client == null {
        return None;
      }
      session := client.GetActiveSession();
    }

    /** `getActiveTraces`: `[]` before `init`. */
    method GetActiveTraces() returns (traces: seq<Trace>)
      requires Valid()
      ensures client == null ==> traces == []
      ensures client != null ==> |traces| == |client.activeTraces| && forall t :: t in traces <==> t in client.activeTraces.Values
    {
      if client == null {
        return [];
      }
      traces := client.GetActiveTraces();
    }

    // -------------------------------------------------------------------------
    // The instrumentation wrappers. `body` is what the wrapped call returns
    // or throws when it runs; it does not touch the client itself.

    /** The shared shape of the `operation` and `trace` wrappers: the call runs
        inside a new trace; on return the trace ends as `Success`, on a throw
        the error is recorded with `context`, the trace ends as `Fail`, and
        the error is rethrown. Before `init` the trace cannot start and the
        call never runs. `closed` is the finished trace; `before` is the
        session's event list just before the call ran. */
    method Traced(name: string, tags: Option<seq<string>>, context: ErrorContext, body: Outcome<Json>)
      returns (r: Outcome<Json>, ghost closed: Option<Trace>, ghost before: seq<Event>)
      requires Valid()
      modifies client, env
      ensures Valid()
      ensures client == null ==> r == Threw(NotInitialized) && closed == None && unchanged(env)
      ensures client != null ==> r == body && closed.Some? && TracedRun(client, name, tags, context, body, closed.value, before)
    {
      var started := StartTrace(name, tags);
      if started.Threw? {
        return Threw(started.error), None, [];
      }
      var traceId := started.value;
      before := client.activeSession.value.events;
      ghost var mid := Snap(client);
      ghost var finished := Finish(traceId, context, body);
      TracedComposes(client.config, env.ids, env.clock, old(Snap(client)), mid, Snap(client), name, tags, traceId, context, body, finished);
      closed := Some(finished);
      r := body;
    }

    /** The part of `Traced` after its trace has started: the call's outcome
        ends the trace, after recording the error when there is one. */
    method Finish(traceId: string, context: ErrorContext, body: Outcome<Json>) returns (ghost closed: Trace)
      requires Valid() && client != null
      requires traceId in client.activeTraces && client.activeSession.Some?
      modifies client, env
      ensures Valid()
      ensures Concluded(client, traceId, context, body, closed)
    {
      match body {
        case Returned(_) =>
          closed := EndReturned(traceId, context, body);
        case Threw(error) =>
          closed := EndThrown(traceId, context, body);
      }
    }

    /** `endTrace(traceId, 'Success')` after the call returned. */
    method EndReturned(traceId: string, context: ErrorContext, body: Outcome<Json>) returns (ghost closed: Trace)
      requires Valid() && client != null && body.Returned?
      requires traceId in client.activeTraces && client.activeSession.Some?
      modifies client, env
      ensures Valid()
      ensures Concluded(client, traceId, context, body, closed)
    {
      var ended, finished := EndTrace(traceId, Some(Success));
      closed := finished.value;
      ReturnConcludes(client.config, env.ids, env.clock, old(Snap(client)), Snap(client), traceId, context, body, closed);
    }

    /** `recordError(error, context)`, then `endTrace(traceId, 'Fail')`,
        after the call threw. */
    method EndThrown(traceId: string, context: ErrorContext, body: Outcome<Json>) returns (ghost closed: Trace)
      requires Valid() && client != null && body.Threw?
      requires traceId in client.activeTraces && client.activeSession.Some?
      modifies client, env
      ensures Valid()
      ensures Concluded(client, traceId, context, body, closed)
    {
      var reported := RecordError(body.error, Some(context));
      ghost var mid := Snap(client);
      var ended, finished := EndTrace(traceId, Some(Fail));
      closed := finished.value;
      ThrowConcludes(client.config, env.ids, env.clock, old(Snap(client)), mid, Snap(client), traceId, context, body, closed);
    }

    /** `@operation(name)` on method `propertyKey` of class `className`: a
        trace named `name || className.propertyKey` and tagged `operation`. */
    method OperationWrapper(name: Option<string>, className: string, propertyKey: string, args: Json, body: Outcome<Json>)
      returns (r: Outcome<Json>, ghost closed: Option<Trace>, ghost before: seq<Event>)
      requires Valid()
      modifies client, env
      ensures Valid()
      ensures client == null ==> r == Threw(NotInitialized) && closed == None && unchanged(env)
      ensures client != null ==>
                var operation := OperationName(name, className, propertyKey);
                && r == body && closed.Some?
                && TracedRun(client, operation, Some(["operation"]), OperationContext(operation, args), body, closed.value, before)
    {
      var operationName := OperationName(name, className, propertyKey);
      r, closed, before := Traced(operationName, Some(["operation"]), OperationContext(operationName, args), body);
    }

    /** `@trace(name, tags)`. */
    method TraceWrapper(name: string, tags: Option<seq<string>>, args: Json, body: Outcome<Json>)
      returns (r: Outcome<Json>, ghost closed: Option<Trace>, ghost before: seq<Event>)
      requires Valid()
      modifies client, env
      ensures Valid()
      ensures client == null ==> r == Threw(NotInitialized) && closed == None && unchanged(env)
      ensures client != null ==> r == body && closed.Some? && TracedRun(client, name, tags, TraceContext(name, args), body, closed.value, before)
    {
      r, closed, before := Traced(name, tags, TraceContext(name, args), body);
    }

    /** `@tool(name, cost)`: the clock is read before the call, even before
        `init`. On return the call is recorded with its latency; on a throw
        the error is recorded with the tool's context and rethrown. Before
        `init` the recording throws, and that error replaces the call's. */
    method ToolWrapper(name: string, cost: Option<real>, args: Json, body: Outcome<Json>) returns (r: Outcome<Json>)
      requires Valid()
      modifies client, env
      ensures Valid()
      ensures client == null ==> r == Threw(NotInitialized) && env.outbox == old(env.outbox)
      ensures client == null ==> env.idsDrawn == old(env.idsDrawn) && env.clockReads == old(env.clockReads) + (if body.Returned? then 2 else 1)
      ensures client != null ==> r == body
      ensures client != null && body.Returned? ==>
                var t := old(env.clockReads);
                Recorded(client, Tool, ToolCall(ToolCallData(name, args, body.value, cost, Some(env.clock(t + 1) - env.clock(t)))), t + 2)
      ensures client != null && body.Threw? ==>
                Recorded(client, Error, ErrorReport(body.error.message, body.error.stack, Some(ToolContext(name, args))), old(env.clockReads) + 1)
    {
      var startTime := env.Now();
      match body {
        case Returned(result) =>
          r := ToolReturned(name, cost, args, result, startTime);
        case Threw(error) =>
          var reported := RecordError(error, Some(ToolContext(name, args)));
          r := if reported.Threw? then Threw(reported.error) else body;
      }
    }

    /** The `@tool` wrapper once the call has returned `result`: the clock
        is read again and the call recorded with its latency. If recording
        throws, recording that error throws too, and its error propagates. */
    method ToolReturned(name: string, cost: Option<real>, args: Json, result: Json, startTime: int) returns (r: Outcome<Json>)
      requires Valid()
      modifies client, env
      ensures Valid()
      ensures client == null ==> r == Threw(NotInitialized) && env.outbox == old(env.outbox)
      ensures client == null ==> env.idsDrawn == old(env.idsDrawn) && env.clockReads == old(env.clockReads) + 1
      ensures client != null ==> r == Returned(result)
      ensures client != null ==>
                var t := old(env.clockReads);
                Recorded(client, Tool, ToolCall(ToolCallData(name, args, result, cost, Some(env.clock(t) - startTime))), t + 1)
    {
      var endTime := env.Now();
      var recorded := RecordTool(ToolCallData(name, args, result, cost, Some(endTime - startTime)));
      if recorded.Threw? {
        var thrown := recorded.error;
        var reported := RecordError(thrown, Some(ToolContext(name, args)));
        return if reported.Threw? then Threw(reported.error) else Threw(thrown);
      }
      r := Returned(result);
    }
  }

  // ---------------------------------------------------------------------------
  // Whole runs from a fresh module state

  /** The only value of a one-entry map. */
  lemma SingleValue(m: map<string, Trace>, k: string, v: Trace)
    requires m == map[k := v]
    ensures m.Values == {v} && |m| == 1
  {
    assert m[k] == v;
    forall x | x in m.Values ensures x == v {
      var j :| j in m && m[j] == x;
    }
  }

  /** A client with no active session starts a trace: a session opens
      first, drawing the first two ids, and the trace takes the third. */
  method TraceOpensSessionRun(ids: nat -> string, clock: nat -> int)
    returns (traceId: string, session: Option<Session>)
    ensures traceId == ids(2)
    ensures session.Some? && session.value.id == ids(0) && |session.value.events| == 1
    ensures session.value.events[0].data == SessionStart(ids(0), [], None)
  {
    var env := new Env(ids, clock);
    var client := new Client(Config("key1", None, None, None, None), env);
    traceId := client.StartTrace("checkout", Some(["flow"]));
    session := client.GetActiveSession();
  }

  /** After that, the trace "checkout" tagged "flow" is the one active
      trace, filed in the session that opened for it. */
  method TraceRun(ids: nat -> string, clock: nat -> int) returns (during: seq<Trace>)
    ensures |during| == 1 && during[0].id == ids(2) && during[0].name == "checkout" && during[0].tags == ["flow"]
    ensures during[0].sessionId == ids(0)
  {
    var env := new Env(ids, clock);
    var client := new Client(Config("key1", None, None, None, None), env);
    var traceId := client.StartTrace("checkout", Some(["flow"]));
    ghost var trace := client.activeTraces[traceId];
    assert trace.id == ids(2) && trace.sessionId == ids(0);
    SingleValue(client.activeTraces, traceId, trace);
    during := client.GetActiveTraces();
    assert during[0] in during;
  }

  /** With sessions not started automatically, `recordError` still posts
      the error, naming no session, and no session appears. */
  method ErrorWithoutSessionRun(ids: nat -> string, clock: nat -> int)
    returns (r: Outcome<()>, session: Option<Session>, ghost sent: seq<Delivery>)
    ensures r == Returned(()) && session == None
    ensures |sent| == 1 && sent[0].event.sessionId == None && sent[0].event.kind == Error
    ensures sent[0].event.data == ErrorReport("boom", None, Some(Supplied("step 3")))
  {
    var env := new Env(ids, clock);
    var agentOps := new Facade(env);
    agentOps.Init("key1", Some(Options(None, None, None, Some(false), None)));
    r := agentOps.RecordError(JsError("boom", None), Some(Supplied("step 3")));
    session := agentOps.GetActiveSession();
    sent := env.outbox;
  }

  /** Before `init`, starting a trace throws and the getters answer with
      nothing; a tool call still runs but its recording throws. */
  method UninitializedRun(ids: nat -> string, clock: nat -> int)
    returns (started: Outcome<string>, session: Option<Session>, traces: seq<Trace>, tooled: Outcome<Json>, ghost sent: seq<Delivery>)
    ensures started == Threw(NotInitialized) && started.error.message == "AgentOps not initialized"
    ensures session == None && traces == []
    ensures tooled == Threw(NotInitialized)
    ensures sent == []
  {
    var env := new Env(ids, clock);
    var agentOps := new Facade(env);
    started := agentOps.StartTrace("checkout", None);
    session := agentOps.GetActiveSession();
    traces := agentOps.GetActiveTraces();
    tooled := agentOps.ToolWrapper("search", None, "[]", Returned("ok"));
    sent := env.outbox;
  }

  /** A second `init` is ignored: its key is never used and no second
      session starts. */
  method InitTwiceRun(ids: nat -> string, clock: nat -> int)
    returns (session: Option<Session>, ghost sent: seq<Delivery>)
    ensures session.Some? && session.value.id == ids(0)
    ensures |sent| == 1 && sent[0].authorization == "Bearer key1" && sent[0].event.data.SessionStart?
  {
    var env := new Env(ids, clock);
    var agentOps := new Facade(env);
    agentOps.Init("key1", None);
    agentOps.Init("key2", None);
    session := agentOps.GetActiveSession();
    sent := env.outbox;
  }

  /** Without an API key a session still starts, but nothing is posted. */
  method NoKeyRun(ids: nat -> string, clock: nat -> int)
    returns (session: Option<Session>, ghost sent: seq<Delivery>)
    ensures session.Some? && session.value.id == ids(0)
    ensures sent == []
  {
    var env := new Env(ids, clock);
    var agentOps := new Facade(env);
    agentOps.Init("", None);
    session := agentOps.GetActiveSession();
    sent := env.outbox;
  }
}
