/** What holds of every run of registrations, heartbeats, sweeps and agents. */
module RegistryTheorems {
  import opened Store
  import opened Counting
  import opened Addresses
  import opened Registry

  // ---- the invariant ----

  ghost predicate HoldsIp(s: State, ip: Index, holder: Holder) {
    ip <= s.wgCounter && ip in s.ipHolder && s.ipHolder[ip] == holder
  }

  ghost predicate HoldsPort(s: State, port: Index, holder: Holder) {
    port <= s.portCounter && port in s.portHolder && s.portHolder[port] == holder
  }

  /** A row shows the two counter values its registration took, and nobody else holds them. */
  ghost predicate SlotOk(s: State, id: ProviderId) {
    id in s.providers ==>
      && id in s.slots
      && s.providers[id].wgIp == WgAddress(s.slots[id].ip) && HoldsIp(s, s.slots[id].ip, Row(id))
      && s.providers[id].port == Port(s.slots[id].port) && HoldsPort(s, s.slots[id].port, Row(id))
  }

  /** A row is offline only when long unseen, online only when seen in the 90 s before the last sweep. */
  ghost predicate RowOk(s: State, id: ProviderId) {
    id in s.providers ==>
      var row := s.providers[id];
      && id != UNASSIGNED
      && row.registeredAt <= row.lastSeen <= s.now
      && (row.status.Offline? ==> row.lastSeen < s.now - OFFLINE_AFTER)
      && (row.status.Online? && s.lastSweep.Some? ==> row.lastSeen >= s.lastSweep.value - OFFLINE_AFTER)
      && (row.memFree > 0 ==> id in s.heartbeated)
  }

  ghost predicate RegistrationOk(s: State, c: nat) {
    c in s.regs ==>
      match s.regs[c]
      case Validated(_) => true
      case Addressed(_, ip) => HoldsIp(s, ip, InFlight(c))
      case Ported(_, ip, port) => HoldsIp(s, ip, InFlight(c)) && HoldsPort(s, port, InFlight(c))
  }

  /** A row shows what its request said. */
  ghost predicate OriginOk(s: State, id: ProviderId) {
    id in s.providers ==>
      && id in s.requests
      && s.providers[id].token == s.requests[id].token && s.providers[id].pubKey == s.requests[id].pubKey
      && s.providers[id].cpu == s.requests[id].cpu
      && s.requests[id].token != "" && s.requests[id].token in s.issued
  }

  /** A registration in flight came with a token that had been issued, and so had every token that is still valid. */
  ghost predicate TokensOk(s: State) {
    && s.tokens <= s.issued
    && forall c | c in s.regs :: s.regs[c].request.token != "" && s.regs[c].request.token in s.issued
  }

  /** How late an agent's next beat can be: one client timeout for the start, one period, and one more for each miss. */
  function Due(lastSeen: int, missed: nat): int {
    lastSeen + CLIENT_TIMEOUT + BEAT_PERIOD * (missed + 1)
  }

  ghost predicate AgentOk(s: State, id: ProviderId) {
    id in s.agents ==>
      var a := s.agents[id];
      && id in s.providers
      && Punctual(a, s.now)
      && match a.sent
         case None => a.nextBeat <= Due(s.providers[id].lastSeen, a.missed)
         case Some(Beat(at, stored)) =>
           && at <= Due(s.providers[id].lastSeen, a.missed) && a.nextBeat == at + BEAT_PERIOD && at <= s.now
           && (stored ==> at <= s.providers[id].lastSeen)
  }

  function IsAddressed(): Registration -> bool {
    (m: Registration) => m.Addressed?
  }

  /** The two counters drift apart by the registrations between them and the ones abandoned there. */
  ghost predicate CountersOk(s: State) {
    s.wgCounter == s.portCounter + Count(s.regs, IsAddressed()) + s.skipped
  }

  ghost predicate Inv(s: State) {
    && (forall id :: SlotOk(s, id))
    && (forall id :: RowOk(s, id))
    && (forall c :: RegistrationOk(s, c))
    && (forall id :: AgentOk(s, id))
    && (forall id :: OriginOk(s, id))
    && TokensOk(s) && CountersOk(s)
    && (s.lastSweep.Some? ==> s.lastSweep.value <= s.now)
  }

  // ---- preservation ----

  lemma RegisterKeepsSlot(s: State, c: nat, step: RegisterStep, id: ProviderId)
    requires Inv(s) && RegisterEnabled(s, c, step)
    ensures SlotOk(ApplyRegister(s, c, step), id)
  {
    assert SlotOk(s, id) && RegistrationOk(s, c);
  }

  lemma RegisterKeepsRow(s: State, c: nat, step: RegisterStep, id: ProviderId)
    requires Inv(s) && RegisterEnabled(s, c, step)
    ensures RowOk(ApplyRegister(s, c, step), id)
  {
    assert RowOk(s, id);
  }

  lemma RegisterKeepsRegistration(s: State, c: nat, step: RegisterStep, d: nat)
    requires Inv(s) && RegisterEnabled(s, c, step)
    ensures RegistrationOk(ApplyRegister(s, c, step), d)
  {
    assert RegistrationOk(s, c) && RegistrationOk(s, d);
  }

  lemma RegisterKeepsAgent(s: State, c: nat, step: RegisterStep, id: ProviderId)
    requires Inv(s) && RegisterEnabled(s, c, step)
    ensures AgentOk(ApplyRegister(s, c, step), id)
  {
    assert AgentOk(s, id);
  }

  lemma RegisterKeepsOrigin(s: State, c: nat, step: RegisterStep, id: ProviderId)
    requires Inv(s) && RegisterEnabled(s, c, step)
    ensures OriginOk(ApplyRegister(s, c, step), id)
  {
    assert OriginOk(s, id);
  }

  lemma RegisterKeepsTokens(s: State, c: nat, step: RegisterStep)
    requires Inv(s) && RegisterEnabled(s, c, step)
    ensures TokensOk(ApplyRegister(s, c, step))
  {
  }

  lemma RegisterKeepsCounters(s: State, c: nat, step: RegisterStep)
    requires Inv(s) && RegisterEnabled(s, c, step)
    ensures CountersOk(ApplyRegister(s, c, step))
  {
    var s' := ApplyRegister(s, c, step);
    match step
    case Validate(_) => CountInsert(s.regs, c, s'.regs[c], IsAddressed());
    case TakeAddress => CountUpdate(s.regs, c, s'.regs[c], IsAddressed());
    case TakePort => CountUpdate(s.regs, c, s'.regs[c], IsAddressed());
    case _ => CountRemove(s.regs, c, IsAddressed());
  }

  lemma RegisterKeepsInv(s: State, c: nat, step: RegisterStep)
    requires Inv(s) && RegisterEnabled(s, c, step)
    ensures Inv(ApplyRegister(s, c, step))
  {
    var s' := ApplyRegister(s, c, step);
    forall id ensures SlotOk(s', id) { RegisterKeepsSlot(s, c, step, id); }
    forall id ensures RowOk(s', id) { RegisterKeepsRow(s, c, step, id); }
    forall d ensures RegistrationOk(s', d) { RegisterKeepsRegistration(s, c, step, d); }
    forall id ensures AgentOk(s', id) { RegisterKeepsAgent(s, c, step, id); }
    forall id ensures OriginOk(s', id) { RegisterKeepsOrigin(s, c, step, id); }
    RegisterKeepsTokens(s, c, step);
    RegisterKeepsCounters(s, c, step);
    assert s'.lastSweep == s.lastSweep && s'.now == s.now;
  }

  lemma AgentKeepsInv(s: State, id: ProviderId, step: AgentStep)
    requires Inv(s) && AgentEnabled(s, id, step)
    ensures Inv(ApplyAgent(s, id, step))
  {
    var s' := ApplyAgent(s, id, step);
    forall other ensures SlotOk(s', other) { assert SlotOk(s, other); }
    forall other ensures RowOk(s', other) { assert RowOk(s, other); }
    forall d ensures RegistrationOk(s', d) { assert RegistrationOk(s, d); }
    forall other ensures AgentOk(s', other) { AgentKeepsAgent(s, id, step, other); }
    forall other ensures OriginOk(s', other) { assert OriginOk(s, other); }
    assert s'.regs == s.regs && s'.lastSweep == s.lastSweep && s'.now == s.now;
  }

  lemma AgentKeepsAgent(s: State, id: ProviderId, step: AgentStep, other: ProviderId)
    requires Inv(s) && AgentEnabled(s, id, step)
    ensures AgentOk(ApplyAgent(s, id, step), other)
  {
    assert AgentOk(s, id) && AgentOk(s, other) && RowOk(s, id);
  }

  lemma OtherKeepsRow(s: State, e: Event, id: ProviderId)
    requires Inv(s) && Enabled(s, e) && !e.Registering? && !e.Beating?
    ensures RowOk(Apply(s, e), id) && SlotOk(Apply(s, e), id) && OriginOk(Apply(s, e), id)
  {
    assert RowOk(s, id) && SlotOk(s, id) && OriginOk(s, id);
  }

  lemma OtherKeepsAgent(s: State, e: Event, id: ProviderId)
    requires Inv(s) && Enabled(s, e) && !e.Registering? && !e.Beating?
    ensures AgentOk(Apply(s, e), id)
  {
    assert AgentOk(s, id) && RowOk(s, id);
  }

  lemma OtherKeepsInv(s: State, e: Event)
    requires Inv(s) && Enabled(s, e) && !e.Registering? && !e.Beating?
    ensures Inv(Apply(s, e))
  {
    var s' := Apply(s, e);
    forall id ensures RowOk(s', id) && SlotOk(s', id) && OriginOk(s', id) { OtherKeepsRow(s, e, id); }
    forall id ensures AgentOk(s', id) { OtherKeepsAgent(s, e, id); }
    forall d ensures RegistrationOk(s', d) { assert RegistrationOk(s, d); }
    assert s'.regs == s.regs;
  }

  lemma InitialInv(now: int)
    ensures Inv(Initial(now))
  {
    CountZero(Initial(now).regs, IsAddressed());
  }

  lemma StepKeepsInv(s: State, e: Event)
    requires Inv(s) && Enabled(s, e)
    ensures Inv(Apply(s, e))
  {
    match e
    case Registering(c, step) => RegisterKeepsInv(s, c, step);
    case Beating(id, step) => AgentKeepsInv(s, id, step);
    case _ => OtherKeepsInv(s, e);
  }

  lemma {:induction false} RunKeepsInv(s: State, es: seq<Event>)
    requires Inv(s) && ValidRun(s, es)
    ensures Inv(Exec(s, es))
    decreases |es|
  {
    if es == [] {
    } else {
      StepKeepsInv(s, es[0]);
      RunKeepsInv(Apply(s, es[0]), es[1..]);
    }
  }

  lemma {:induction false} Extend(s: State, es: seq<Event>, e: Event)
    requires ValidRun(s, es) && Enabled(Exec(s, es), e)
    ensures ValidRun(s, es + [e]) && Exec(s, es + [e]) == Apply(Exec(s, es), e)
    decreases |es|
  {
    if es == [] {
      assert ([] + [e])[1..] == [];
    } else {
      Extend(Apply(s, es[0]), es[1..], e);
      assert (es + [e])[1..] == es[1..] + [e];
    }
  }

  // ---- liveness of providers ----

  /** A provider seen in the last 90 s is online, whatever the sweep times. */
  lemma NoFalseOffline(start: int, es: seq<Event>, id: ProviderId)
    requires ValidRun(Initial(start), es)
    requires var s := Exec(Initial(start), es); id in s.providers && s.now - s.providers[id].lastSeen <= OFFLINE_AFTER
    ensures Exec(Initial(start), es).providers[id].status == Online
  {
    InitialInv(start);
    RunKeepsInv(Initial(start), es);
    assert RowOk(Exec(Initial(start), es), id);
  }

  /**
   While the last sweep is no more than 60 s old, a provider marked online was seen in the last 150 s, over any
   interleaving of registrations, heartbeats and sweeps.
   */
  lemma BoundedStaleness(start: int, es: seq<Event>, id: ProviderId)
    requires ValidRun(Initial(start), es)
    requires var s := Exec(Initial(start), es);
      && s.lastSweep.Some? && s.now - s.lastSweep.value <= SWEEP_PERIOD
      && id in s.providers && s.providers[id].status.Online?
    ensures var s := Exec(Initial(start), es); s.now - s.providers[id].lastSeen <= 150 * SECOND
  {
    InitialInv(start);
    RunKeepsInv(Initial(start), es);
    assert RowOk(Exec(Initial(start), es), id);
  }

  /** Agents on a 30 s ticker with a 15 s client timeout stay online as long as they never miss two beats in a row. */
  lemma PunctualAgentStaysOnline(start: int, es: seq<Event>, id: ProviderId)
    requires ValidRun(Initial(start), es)
    requires var s := Exec(Initial(start), es); id in s.agents && s.agents[id].missed <= 1
    ensures var s := Exec(Initial(start), es); id in s.providers && s.providers[id].status == Online
  {
    InitialInv(start);
    RunKeepsInv(Initial(start), es);
    var s := Exec(Initial(start), es);
    assert AgentOk(s, id) && RowOk(s, id);
  }

  const DEMO_TOKEN := "t"
  const DEMO_ID: ProviderId := "p"
  const DEMO_REQUEST := RegisterRequest(DEMO_TOKEN, "k", 1)

  /** What the four steps of a lone registration come to. */
  ghost predicate Registers(s: State, s': State, id: ProviderId) {
    && s'.now == s.now && s'.agents == s.agents && s'.lastSweep == s.lastSweep
    && s'.regs == map[] && s'.tokens == s.tokens
    && s'.wgCounter == s.wgCounter + 1 && s'.portCounter == s.portCounter + 1
    && s'.providers == s.providers[id := NewRow(Ported(DEMO_REQUEST, s.wgCounter + 1, s.portCounter + 1), s.now)]
  }

  /** And of the first three. */
  ghost predicate Allocates(s: State, s': State) {
    && s'.now == s.now && s'.agents == s.agents && s'.lastSweep == s.lastSweep
    && s'.tokens == s.tokens && s'.providers == s.providers
    && s'.wgCounter == s.wgCounter + 1 && s'.portCounter == s.portCounter + 1
    && s'.regs == map[0 := Ported(DEMO_REQUEST, s.wgCounter + 1, s.portCounter + 1)]
  }

  lemma DemoAllocateEffect(s: State)
    requires s.regs == map[] && DEMO_TOKEN in s.tokens
    ensures RegisterEnabled(s, 0, Validate(DEMO_REQUEST))
    ensures var s1 := ApplyRegister(s, 0, Validate(DEMO_REQUEST));
      && RegisterEnabled(s1, 0, TakeAddress)
      && var s2 := ApplyRegister(s1, 0, TakeAddress);
      && RegisterEnabled(s2, 0, TakePort) && Allocates(s, ApplyRegister(s2, 0, TakePort))
  {
  }

  lemma DemoUpsertEffect(s: State, s3: State, id: ProviderId)
    requires Allocates(s, s3) && id != UNASSIGNED && id !in s.providers
    ensures RegisterEnabled(s3, 0, Upsert(id)) && Registers(s, ApplyRegister(s3, 0, Upsert(id)), id)
  {
  }

  lemma DemoRegisterEffect(s: State, id: ProviderId)
    requires s.regs == map[] && DEMO_TOKEN in s.tokens && id != UNASSIGNED && id !in s.providers
    ensures RegisterEnabled(s, 0, Validate(DEMO_REQUEST))
    ensures var s1 := ApplyRegister(s, 0, Validate(DEMO_REQUEST));
      && RegisterEnabled(s1, 0, TakeAddress)
      && var s2 := ApplyRegister(s1, 0, TakeAddress);
      && RegisterEnabled(s2, 0, TakePort)
      && var s3 := ApplyRegister(s2, 0, TakePort);
      && RegisterEnabled(s3, 0, Upsert(id)) && Registers(s, ApplyRegister(s3, 0, Upsert(id)), id)
  {
    DemoAllocateEffect(s);
    var s1 := ApplyRegister(s, 0, Validate(DEMO_REQUEST));
    var s3 := ApplyRegister(ApplyRegister(s1, 0, TakeAddress), 0, TakePort);
    DemoUpsertEffect(s, s3, id);
  }

  /** A run prolonged by one registration, from the token check to the row. */
  lemma DemoRegister(start: int, es: seq<Event>, id: ProviderId) returns (longer: seq<Event>)
    requires ValidRun(Initial(start), es)
    requires var s := Exec(Initial(start), es);
      s.regs == map[] && DEMO_TOKEN in s.tokens && id != UNASSIGNED && id !in s.providers
    ensures ValidRun(Initial(start), longer)
    ensures Registers(Exec(Initial(start), es), Exec(Initial(start), longer), id)
  {
    var s0 := Initial(start);
    DemoRegisterEffect(Exec(s0, es), id);
    Extend(s0, es, Registering(0, Validate(DEMO_REQUEST)));
    longer := es + [Registering(0, Validate(DEMO_REQUEST))];
    Extend(s0, longer, Registering(0, TakeAddress));
    longer := longer + [Registering(0, TakeAddress)];
    Extend(s0, longer, Registering(0, TakePort));
    longer := longer + [Registering(0, TakePort)];
    Extend(s0, longer, Registering(0, Upsert(id)));
    longer := longer + [Registering(0, Upsert(id))];
  }

  /** A run in which a provider registers at the start. */
  lemma DemoRegistration(start: int) returns (es: seq<Event>)
    ensures ValidRun(Initial(start), es)
    ensures var s := Exec(Initial(start), es);
      && s.now == start && s.agents == map[] && s.lastSweep == None && DEMO_ID in s.providers
      && var row := s.providers[DEMO_ID]; row.status == Online && row.lastSeen == start && row.registeredAt == start
  {
    Extend(Initial(start), [], Issue(DEMO_TOKEN));
    es := DemoRegister(start, [] + [Issue(DEMO_TOKEN)], DEMO_ID);
  }

  ghost predicate StaleYetOnline(s: State) {
    && s.lastSweep.Some? && s.now - s.lastSweep.value <= SWEEP_PERIOD
    && DEMO_ID in s.providers && s.providers[DEMO_ID].status == Online
    && s.now - s.providers[DEMO_ID].lastSeen == 150 * SECOND
  }

  /** The 150 s cannot be improved: some run with timely sweeps keeps a provider online that long unseen. */
  lemma StalenessBoundIsTight(start: int)
    ensures exists es :: ValidRun(Initial(start), es) && StaleYetOnline(Exec(Initial(start), es))
  {
    var es := DemoRegistration(start);
    var s0 := Initial(start);
    Extend(s0, es, Tick(OFFLINE_AFTER));
    es := es + [Tick(OFFLINE_AFTER)];
    Extend(s0, es, Sweep);
    es := es + [Sweep];
    Extend(s0, es, Tick(SWEEP_PERIOD));
    es := es + [Tick(SWEEP_PERIOD)];
  }

  /** Thirty seconds later the agent beats. */
  lemma DemoBeat(start: int, es: seq<Event>) returns (longer: seq<Event>)
    requires ValidRun(Initial(start), es)
    requires var s := Exec(Initial(start), es);
      && s.agents.Keys == {DEMO_ID} && DEMO_ID in s.providers
      && s.agents[DEMO_ID].sent == None && s.agents[DEMO_ID].nextBeat == s.now + BEAT_PERIOD
    ensures ValidRun(Initial(start), longer)
    ensures var s, s' := Exec(Initial(start), es), Exec(Initial(start), longer);
      && s'.agents == map[DEMO_ID := Agent(s'.now + BEAT_PERIOD, Some(Beat(s'.now, false)), s.agents[DEMO_ID].missed)]
      && s'.now == s.now + BEAT_PERIOD && s'.providers == s.providers
  {
    Extend(Initial(start), es, Tick(BEAT_PERIOD));
    longer := es + [Tick(BEAT_PERIOD)];
    Extend(Initial(start), longer, Beating(DEMO_ID, Send));
    longer := longer + [Beating(DEMO_ID, Send)];
  }

  /** A run in which an agent starts at once and misses its first beats. */
  lemma {:induction false} DemoMisses(start: int, misses: nat) returns (es: seq<Event>)
    ensures ValidRun(Initial(start), es)
    ensures var s := Exec(Initial(start), es);
      && s.now == start + misses * BEAT_PERIOD && s.agents == map[DEMO_ID := Agent(s.now + BEAT_PERIOD, None, misses)]
      && DEMO_ID in s.providers && s.providers[DEMO_ID].status == Online && s.providers[DEMO_ID].lastSeen == start
  {
    if misses == 0 {
      es := DemoRegistration(start);
      Extend(Initial(start), es, Beating(DEMO_ID, Start));
      es := es + [Beating(DEMO_ID, Start)];
    } else {
      es := DemoMisses(start, misses - 1);
      es := DemoBeat(start, es);
      Extend(Initial(start), es, Beating(DEMO_ID, Miss));
      es := es + [Beating(DEMO_ID, Miss)];
    }
  }

  ghost predicate OnlineWithMisses(s: State, misses: nat) {
    forall id | id in s.agents && s.agents[id].missed == misses :: id in s.providers && s.providers[id].status == Online
  }

  /** A sweep just after the next beat was sent marks the provider offline, if two or more beats were missed. */
  lemma DemoSweptOffline(start: int, misses: nat) returns (es: seq<Event>)
    requires misses >= 2
    ensures ValidRun(Initial(start), es) && !OnlineWithMisses(Exec(Initial(start), es), misses)
  {
    es := DemoMisses(start, misses);
    es := DemoBeat(start, es);
    Extend(Initial(start), es, Tick(1));
    es := es + [Tick(1)];
    Extend(Initial(start), es, Sweep);
    es := es + [Sweep];
    assert DEMO_ID in Exec(Initial(start), es).agents;
  }

  /** One missed beat is all an agent can afford: those with so many misses are online in every run exactly up to 1. */
  lemma OnlineExactlyUpToOneMiss(start: int, misses: nat)
    ensures (forall es | ValidRun(Initial(start), es) :: OnlineWithMisses(Exec(Initial(start), es), misses))
            <==> misses <= 1
  {
    if misses <= 1 {
      forall es, id | ValidRun(Initial(start), es) && id in Exec(Initial(start), es).agents
        && Exec(Initial(start), es).agents[id].missed == misses
        ensures var s := Exec(Initial(start), es); id in s.providers && s.providers[id].status == Online
      {
        PunctualAgentStaysOnline(start, es, id);
      }
    } else {
      var es := DemoSweptOffline(start, misses);
    }
  }

  // ---- what a row says of its provider ----

  /** Every row carries the token, the key and the cores of the request it came from, whose token had been issued. */
  lemma RowsShowTheirRequests(start: int, es: seq<Event>, id: ProviderId)
    requires ValidRun(Initial(start), es) && id in Exec(Initial(start), es).providers
    ensures var s := Exec(Initial(start), es);
      && id in s.requests
      && s.providers[id].token == s.requests[id].token && s.providers[id].pubKey == s.requests[id].pubKey
      && s.providers[id].cpu == s.requests[id].cpu
      && s.providers[id].token != "" && s.providers[id].token in s.issued
  {
    InitialInv(start);
    RunKeepsInv(Initial(start), es);
    assert OriginOk(Exec(Initial(start), es), id);
  }

  ghost predicate SameColumns(row: Provider, row': Provider) {
    && row'.token == row.token && row'.pubKey == row.pubKey && row'.wgIp == row.wgIp && row'.port == row.port
    && row'.cpu == row.cpu && row'.registeredAt == row.registeredAt
  }

  /** What registration wrote of a provider, liveness aside, no later step changes. */
  ghost predicate SameIdentity(s: State, s': State, id: ProviderId) {
    && id in s.providers && id in s'.providers
    && SameColumns(s.providers[id], s'.providers[id])
    && (id in s.requests ==> id in s'.requests && s'.requests[id] == s.requests[id])
  }

  /** What a registration's step cannot touch. */
  lemma RegisterFrame(s: State, c: nat, step: RegisterStep)
    requires RegisterEnabled(s, c, step)
    ensures var s' := ApplyRegister(s, c, step);
      && s'.tokens == s.tokens && s'.heartbeated == s.heartbeated
      && (forall id | id in s.providers :: id in s'.providers && s'.providers[id] == s.providers[id])
      && (forall id | id in s.providers && id in s.requests :: id in s'.requests && s'.requests[id] == s.requests[id])
      && (forall id | id in s'.providers && id !in s.providers ::
            step == Upsert(id) && s'.providers[id].token == s.regs[c].request.token)
      && (forall d | d != c :: (d in s'.regs <==> d in s.regs) && (d in s.regs ==> s'.regs[d] == s.regs[d]))
      && (c in s'.regs ==> s'.regs[c].request == if step.Validate? then step.request else s.regs[c].request)
  {
  }

  /** What the steps of agents, heartbeats, sweeps and the clock cannot touch. */
  ghost predicate LivenessOnly(s: State, s': State) {
    && s'.regs == s.regs && s'.requests == s.requests && s.heartbeated <= s'.heartbeated
    && s'.providers.Keys == s.providers.Keys
    && (forall id | id in s.providers :: SameColumns(s.providers[id], s'.providers[id]))
  }

  lemma AgentFrame(s: State, id: ProviderId, step: AgentStep)
    requires AgentEnabled(s, id, step)
    ensures LivenessOnly(s, ApplyAgent(s, id, step)) && ApplyAgent(s, id, step).tokens == s.tokens
  {
  }

  lemma OtherFrame(s: State, e: Event)
    requires Enabled(s, e) && !e.Registering? && !e.Beating?
    ensures LivenessOnly(s, Apply(s, e))
    ensures forall token | token in Apply(s, e).tokens :: token in s.tokens || e == Issue(token)
  {
  }

  lemma StepKeepsIdentity(s: State, e: Event, id: ProviderId)
    requires Enabled(s, e) && id in s.providers
    ensures SameIdentity(s, Apply(s, e), id)
  {
    match e
    case Registering(c, step) => RegisterFrame(s, c, step);
    case Beating(agent, step) => AgentFrame(s, agent, step);
    case _ => OtherFrame(s, e);
  }

  lemma {:induction false} IdentityIsForEver(s: State, es: seq<Event>, id: ProviderId)
    requires ValidRun(s, es) && id in s.providers
    ensures SameIdentity(s, Exec(s, es), id)
    decreases |es|
  {
    if es == [] {
    } else {
      StepKeepsIdentity(s, es[0], id);
      IdentityIsForEver(Apply(s, es[0]), es[1..], id);
    }
  }

  // ---- tokens ----

  /** Nobody registers with this token, now or before it is issued again. */
  ghost predicate Unusable(s: State, token: string) {
    token !in s.tokens && forall c | c in s.regs :: s.regs[c].request.token != token
  }

  lemma StepKeepsUnusable(s: State, e: Event, token: string, id: ProviderId)
    requires Enabled(s, e) && Unusable(s, token) && e != Issue(token)
    ensures Unusable(Apply(s, e), token)
    ensures id in Apply(s, e).providers && Apply(s, e).providers[id].token == token ==> id in s.providers
  {
    match e
    case Registering(c, step) => RegisterFrame(s, c, step);
    case Beating(agent, step) => AgentFrame(s, agent, step);
    case _ => OtherFrame(s, e);
  }

  /**
   Once a token is revoked, or was never issued, and no registration with it is in flight, it registers nobody until it
   is issued.
   */
  lemma {:induction false} UnusableTokenRegistersNobody(s: State, es: seq<Event>, token: string, id: ProviderId)
    requires ValidRun(s, es) && Unusable(s, token) && Issue(token) !in es
    requires id in Exec(s, es).providers && Exec(s, es).providers[id].token == token
    ensures id in s.providers && s.providers[id].token == token
    decreases |es|
  {
    if es == [] {
    } else {
      var s1 := Apply(s, es[0]);
      StepKeepsUnusable(s, es[0], token, id);
      UnusableTokenRegistersNobody(s1, es[1..], token, id);
      StepKeepsIdentity(s, es[0], id);
    }
  }

  // ---- addresses and ports ----

  /** The address that a row, or a registration past AllocWGIP, holds. */
  ghost function AddressOf(s: State, holder: Holder): Option<string> {
    match holder
    case Row(id) => if id in s.providers then Some(s.providers[id].wgIp) else None
    case InFlight(c) => if c in s.regs && !s.regs[c].Validated? then Some(WgAddress(s.regs[c].ip)) else None
  }

  /** The port that a row, or a registration past AllocPort, holds. */
  ghost function PortOf(s: State, holder: Holder): Option<int> {
    match holder
    case Row(id) => if id in s.providers then Some(s.providers[id].port) else None
    case InFlight(c) => if c in s.regs && s.regs[c].Ported? then Some(Port(s.regs[c].port)) else None
  }

  /** Printed addresses are pairwise distinct, for rows and registrations in flight alike, and outside 10.99.0.0/24. */
  lemma AddressesDistinct(start: int, es: seq<Event>, a: Holder, b: Holder)
    requires ValidRun(Initial(start), es) && AddressOf(Exec(Initial(start), es), a).Some?
    ensures var s := Exec(Initial(start), es);
      && (a != b ==> AddressOf(s, a) != AddressOf(s, b))
      && !(CONTROL_PLANE_BLOCK <= AddressOf(s, a).value)
  {
    InitialInv(start);
    RunKeepsInv(Initial(start), es);
    HoldersDiffer(Exec(Initial(start), es), a, b);
  }

  lemma HoldersDiffer(s: State, a: Holder, b: Holder)
    requires Inv(s) && AddressOf(s, a).Some?
    ensures a != b ==> AddressOf(s, a) != AddressOf(s, b)
    ensures !(CONTROL_PLANE_BLOCK <= AddressOf(s, a).value)
  {
    var m := HeldIp(s, a);
    AddressOutsideControlPlaneBlock(m);
    if AddressOf(s, b).Some? {
      var n := HeldIp(s, b);
      AddressInjective(m, n);
    }
  }

  lemma HeldIp(s: State, holder: Holder) returns (ip: Index)
    requires Inv(s) && AddressOf(s, holder).Some?
    ensures AddressOf(s, holder) == Some(WgAddress(ip)) && HoldsIp(s, ip, holder)
  {
    match holder
    case Row(id) => assert SlotOk(s, id); ip := s.slots[id].ip;
    case InFlight(c) => assert RegistrationOk(s, c); ip := s.regs[c].ip;
  }

  /** The counter value that the port of a row, or of a registration past AllocPort, was made of. */
  ghost function PortIndex(s: State, holder: Holder): Option<Index> {
    match holder
    case Row(id) => if id in s.providers && id in s.slots then Some(s.slots[id].port) else None
    case InFlight(c) => if c in s.regs && s.regs[c].Ported? then Some(s.regs[c].port) else None
  }

  lemma HeldPort(s: State, holder: Holder)
    requires Inv(s) && PortOf(s, holder).Some?
    ensures PortIndex(s, holder).Some?
    ensures var n := PortIndex(s, holder).value; PortOf(s, holder) == Some(Port(n)) && HoldsPort(s, n, holder)
  {
    match holder
    case Row(id) => assert SlotOk(s, id);
    case InFlight(c) => assert RegistrationOk(s, c);
  }

  /** No counter value is behind two ports, and two holders show one port exactly when theirs agree modulo 10000. */
  lemma SharedPortsExactly(start: int, es: seq<Event>, a: Holder, b: Holder)
    requires ValidRun(Initial(start), es)
    requires var s := Exec(Initial(start), es); PortOf(s, a).Some? && PortOf(s, b).Some?
    ensures var s := Exec(Initial(start), es);
      && 40000 <= PortOf(s, a).value <= 49999
      && PortIndex(s, a).Some? && PortIndex(s, b).Some?
      && var m, n := PortIndex(s, a).value, PortIndex(s, b).value;
      && m <= s.portCounter && n <= s.portCounter && (a != b ==> m != n)
      && (PortOf(s, a) == PortOf(s, b) <==> m % 10000 == n % 10000)
  {
    InitialInv(start);
    RunKeepsInv(Initial(start), es);
    HeldPort(Exec(Initial(start), es), a);
    HeldPort(Exec(Initial(start), es), b);
  }

  ghost predicate PortsDistinct(s: State) {
    forall a, b | PortOf(s, a).Some? && PortOf(s, b).Some? && a != b :: PortOf(s, a) != PortOf(s, b)
  }

  function NthId(i: nat): ProviderId {
    seq(i, _ => 'p')
  }

  /** A run in which n providers register one after the other. */
  lemma {:induction false} DemoFleet(start: int, n: nat) returns (es: seq<Event>)
    ensures ValidRun(Initial(start), es)
    ensures var s := Exec(Initial(start), es);
      && s.regs == map[] && DEMO_TOKEN in s.tokens && s.wgCounter == s.portCounter == n
      && (forall id | id in s.providers :: 1 <= |id| <= n)
      && (forall i: Index | i <= n ::
            && NthId(i) in s.providers
            && s.providers[NthId(i)].wgIp == WgAddress(i) && s.providers[NthId(i)].port == Port(i))
  {
    if n == 0 {
      Extend(Initial(start), [], Issue(DEMO_TOKEN));
      es := [] + [Issue(DEMO_TOKEN)];
    } else {
      es := DemoFleet(start, n - 1);
      assert |NthId(n)| == n;
      es := DemoRegister(start, es, NthId(n));
      assert forall i: Index | i < n :: |NthId(i)| == i;
    }
  }

  /**
   Tunnel ports are pairwise distinct in every run that has allocated n of them exactly if n is at most 10000: beyond
   that some run has two rows with one port.
   */
  lemma PortsDistinctExactlyUntilWrap(start: int, n: nat)
    ensures (forall es | ValidRun(Initial(start), es) && Exec(Initial(start), es).portCounter == n ::
               PortsDistinct(Exec(Initial(start), es)))
            <==> n <= 10000
  {
    if n <= 10000 {
      forall es, a, b | ValidRun(Initial(start), es) && Exec(Initial(start), es).portCounter == n
        && PortOf(Exec(Initial(start), es), a).Some? && PortOf(Exec(Initial(start), es), b).Some? && a != b
        ensures PortOf(Exec(Initial(start), es), a) != PortOf(Exec(Initial(start), es), b)
      {
        SharedPortsExactly(start, es, a, b);
      }
    } else {
      var es := DemoFleet(start, n);
      TwoRowsShareAPort(Exec(Initial(start), es), n);
    }
  }

  lemma TwoRowsShareAPort(s: State, n: Index)
    requires n > 10000
    requires forall i: Index | i <= n :: NthId(i) in s.providers && s.providers[NthId(i)].port == Port(i)
    ensures !PortsDistinct(s)
  {
    var m: Index := n - 10000;
    assert |NthId(m)| != |NthId(n)|;
    assert PortOf(s, Row(NthId(m))) == Some(Port(m)) && PortOf(s, Row(NthId(n))) == Some(Port(n));
  }

  ghost predicate AddressesInPool(s: State) {
    forall holder | AddressOf(s, holder).Some? :: InPool(AddressOf(s, holder).value)
  }

  /**
   Addresses stay in 10.99.1.1 to 10.99.254.254 in every run that has allocated n of them exactly if n is at most 64516:
   beyond that some run has a row outside.
   */
  lemma AddressesInPoolExactly(start: int, n: nat)
    ensures (forall es | ValidRun(Initial(start), es) && Exec(Initial(start), es).wgCounter == n ::
               AddressesInPool(Exec(Initial(start), es)))
            <==> n <= 64516
  {
    if n <= 64516 {
      forall es, holder | ValidRun(Initial(start), es) && Exec(Initial(start), es).wgCounter == n
        && AddressOf(Exec(Initial(start), es), holder).Some?
        ensures InPool(AddressOf(Exec(Initial(start), es), holder).value)
      {
        InitialInv(start);
        RunKeepsInv(Initial(start), es);
        var ip := HeldIp(Exec(Initial(start), es), holder);
        InPoolExactly(ip);
      }
    } else {
      var es := DemoFleet(start, n);
      InPoolExactly(n);
      assert AddressOf(Exec(Initial(start), es), Row(NthId(n))) == Some(WgAddress(n));
    }
  }

  /** The address counter leads the port counter by the registrations that took an address and no port. */
  lemma CounterDrift(start: int, es: seq<Event>)
    requires ValidRun(Initial(start), es)
    ensures var s := Exec(Initial(start), es); s.wgCounter - s.portCounter == Count(s.regs, IsAddressed()) + s.skipped
  {
    InitialInv(start);
    RunKeepsInv(Initial(start), es);
  }
}
