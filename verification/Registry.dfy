/**
 Provider registration and liveness as a state machine over integer time: registrations step by step, heartbeats,
 the offline sweep, and agents that beat by the clock.
 */
module Registry {
  import opened Store
  import opened Counting
  import opened Addresses

  // Time is counted in microseconds, the resolution of TIMESTAMPTZ.
  const SECOND := 1_000_000
  const OFFLINE_AFTER := 90 * SECOND
  const SWEEP_PERIOD := 60 * SECOND
  const BEAT_PERIOD := 30 * SECOND
  const CLIENT_TIMEOUT := 15 * SECOND

  datatype RegisterRequest = RegisterRequest(token: string, pubKey: string, cpu: int)

  /** A registration in flight, with the counter values it has taken. */
  datatype Registration =
    | Validated(request: RegisterRequest)
    | Addressed(request: RegisterRequest, ip: Index)
    | Ported(request: RegisterRequest, ip: Index, port: Index)

  /** A heartbeat on its way, and whether the control plane has stored it yet. */
  datatype Beat = Beat(at: int, stored: bool)

  /** An agent's heartbeat loop: its next tick, the request in flight, and how many failed since the last success. */
  datatype Agent = Agent(nextBeat: int, sent: Option<Beat>, missed: nat)

  /** Who holds a counter value. */
  datatype Holder = InFlight(c: nat) | Row(id: ProviderId)

  datatype Slot = Slot(ip: Index, port: Index)

  datatype State = State(
    now: int,
    providers: map<ProviderId, Provider>,
    // Redis
    tokens: set<string>,
    wgCounter: nat,
    portCounter: nat,
    // clients in flight
    regs: map<nat, Registration>,
    agents: map<ProviderId, Agent>,
    // history
    issued: set<string>,                // every token issued so far
    requests: map<ProviderId, RegisterRequest>,   // the request behind each row
    slots: map<ProviderId, Slot>,       // the counter values behind each row
    ipHolder: map<Index, Holder>,
    portHolder: map<Index, Holder>,
    skipped: nat,                       // registrations abandoned with an address and no port
    heartbeated: set<ProviderId>,       // rows that a heartbeat has updated
    lastSweep: Option<int>)

  function Initial(now: int): State {
    State(now, map[], {}, 0, 0, map[], map[], {}, map[], map[], map[], map[], 0, {}, None)
  }

  datatype RegisterStep =
    | Validate(request: RegisterRequest)
    | TakeAddress
    | TakePort
    | Upsert(id: ProviderId)
    | Abandon                           // fault

  datatype AgentStep =
    | Start
    | Send
    | Arrive(activeVms: int, memFree: int)
    | Heard
    | Miss                              // fault: the request or its reply is lost
    | Stop                              // fault

  datatype Event =
    | Tick(elapsed: nat)
    | Issue(token: string)
    | Revoke(token: string)
    | Registering(c: nat, register: RegisterStep)
    | Heartbeat(id: ProviderId, activeVms: int, memFree: int)
    | Sweep
    | Beating(id: ProviderId, agent: AgentStep)

  /** TokenValid. */
  predicate TokenValid(tokens: set<string>, token: string) {
    token != "" && token in tokens
  }

  // ---- Register ----

  ghost predicate RegisterEnabled(s: State, c: nat, step: RegisterStep) {
    if step.Validate? then
      c !in s.regs && TokenValid(s.tokens, step.request.token)
    else
      && c in s.regs
      && match step
         case TakeAddress => s.regs[c].Validated?
         case TakePort => s.regs[c].Addressed?
         case Upsert(id) => s.regs[c].Ported? && id != UNASSIGNED && id !in s.providers
         case _ => true
  }

  function NewRow(m: Registration, now: int): Provider
    requires m.Ported?
  {
    Provider(m.request.token, m.request.pubKey, WgAddress(m.ip), Port(m.port), m.request.cpu, Online, 0, 0, now, now)
  }

  ghost function ApplyRegister(s: State, c: nat, step: RegisterStep): State
    requires RegisterEnabled(s, c, step)
  {
    match step
    case Validate(request) => s.(regs := s.regs[c := Validated(request)])
    case TakeAddress =>
      var n := s.wgCounter + 1;
      s.(wgCounter := n, regs := s.regs[c := Addressed(s.regs[c].request, n)], ipHolder := s.ipHolder[n := InFlight(c)])
    case TakePort =>
      var n := s.portCounter + 1;
      s.(portCounter := n, regs := s.regs[c := Ported(s.regs[c].request, s.regs[c].ip, n)],
         portHolder := s.portHolder[n := InFlight(c)])
    case Upsert(id) =>
      var m := s.regs[c];
      s.(providers := UpsertProvider(s.providers, id, NewRow(m, s.now), s.now), regs := s.regs - {c},
         requests := s.requests[id := m.request], slots := s.slots[id := Slot(m.ip, m.port)],
         ipHolder := s.ipHolder[m.ip := Row(id)], portHolder := s.portHolder[m.port := Row(id)])
    case Abandon =>
      s.(regs := s.regs - {c}, skipped := s.skipped + Bit(s.regs[c].Addressed?))
  }

  // ---- agents ----

  function Punctual(a: Agent, now: int): bool {
    match a.sent
    case None => now <= a.nextBeat
    case Some(beat) => now <= beat.at + CLIENT_TIMEOUT
  }

  /**
   An agent starts its ticker when its register call returns, and sends only while no request is in flight. One that
   arrives after the agent gave it up is a Heartbeat.
   */
  ghost predicate AgentEnabled(s: State, id: ProviderId, step: AgentStep) {
    if step.Start? then
      id in s.providers && id !in s.agents && s.now <= s.providers[id].registeredAt + CLIENT_TIMEOUT
    else
      && id in s.agents
      && match step
         case Send => s.agents[id].sent.None? && s.now == s.agents[id].nextBeat
         case Arrive(_, _) => s.agents[id].sent.Some? && !s.agents[id].sent.value.stored
         case Heard => s.agents[id].sent.Some? && s.agents[id].sent.value.stored
         case Miss => s.agents[id].sent.Some?
         case _ => true
  }

  ghost function ApplyAgent(s: State, id: ProviderId, step: AgentStep): State
    requires AgentEnabled(s, id, step)
  {
    match step
    case Start => s.(agents := s.agents[id := Agent(s.now + BEAT_PERIOD, None, 0)])
    case Send =>
      s.(agents := s.agents[id := s.agents[id].(nextBeat := s.now + BEAT_PERIOD, sent := Some(Beat(s.now, false)))])
    case Arrive(activeVms, memFree) =>
      s.(agents := s.agents[id := s.agents[id].(sent := Some(Beat(s.agents[id].sent.value.at, true)))],
         providers := UpdateHeartbeat(s.providers, id, activeVms, memFree, s.now),
         heartbeated := s.heartbeated + (if id in s.providers then {id} else {}))
    case Heard => s.(agents := s.agents[id := s.agents[id].(sent := None, missed := 0)])
    case Miss =>
      s.(agents := s.agents[id := s.agents[id].(sent := None, missed := s.agents[id].missed + 1)])
    case Stop => s.(agents := s.agents - {id})
  }

  // ---- all events ----

  ghost predicate Enabled(s: State, e: Event) {
    match e
    case Tick(elapsed) => forall id | id in s.agents :: Punctual(s.agents[id], s.now + elapsed)
    case Registering(c, step) => RegisterEnabled(s, c, step)
    case Beating(id, step) => AgentEnabled(s, id, step)
    case _ => true
  }

  ghost function Apply(s: State, e: Event): State
    requires Enabled(s, e)
  {
    match e
    case Tick(elapsed) => s.(now := s.now + elapsed)
    case Issue(token) => s.(tokens := s.tokens + {token}, issued := s.issued + {token})
    case Revoke(token) => s.(tokens := s.tokens - {token})
    case Registering(c, step) => ApplyRegister(s, c, step)
    case Heartbeat(id, activeVms, memFree) =>
      s.(providers := UpdateHeartbeat(s.providers, id, activeVms, memFree, s.now),
         heartbeated := s.heartbeated + (if id in s.providers then {id} else {}))
    case Sweep =>
      s.(providers := MarkOffline(s.providers, s.now, OFFLINE_AFTER), lastSweep := Some(s.now))
    case Beating(id, step) => ApplyAgent(s, id, step)
  }

  ghost predicate ValidRun(s: State, es: seq<Event>)
    decreases |es|
  {
    es == [] || (Enabled(s, es[0]) && ValidRun(Apply(s, es[0]), es[1..]))
  }

  ghost function Exec(s: State, es: seq<Event>): State
    requires ValidRun(s, es)
    decreases |es|
  {
    if es == [] then s else Exec(Apply(s, es[0]), es[1..])
  }
}
