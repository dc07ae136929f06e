/**
 The control plane's code, statement by statement, over the two stores it shares with every other client. Between any
 two statements other clients may take any steps of theirs, and any statement may fail, with or without its effect.
 Each method is shown to follow the platform's step relation, so what holds of every run holds of every call: see module
 PlatformTheorems.
 */
module ControlPlane {
  import opened Store
  import opened Counting
  import opened Addresses
  import opened Clients
  import opened Platform
  import R = Registry
  import D = Dispatch
  import DI = DispatchInvariant
  import RT = RegistryTheorems
  import DT = DispatchTheorems

  /**
   PostgreSQL. A method returns err when its caller sees an error, and errors counts those; applied says whether the
   statement took effect. The sweeps are counted too.
   */
  class PG {
    var now: int
    var providers: map<ProviderId, Provider>
    var jobs: map<JobId, Job>
    var locks: map<JobId, nat>
    var vms: map<JobId, VM>
    ghost var errors: nat
    ghost var sweeps: nat

    constructor (start: int)
      ensures now == start && providers == map[] && jobs == map[] && locks == map[] && vms == map[]
    {
      now, providers, jobs, locks, vms, errors, sweeps := start, map[], map[], map[], map[], 0, 0;
    }

    /** The online provider with most free memory that fits, or none exactly when none fits. */
    method BestProvider(cpu: int, mem: int) returns (err: bool, best: Option<ProviderId>)
      modifies this`errors
      ensures errors == old(errors) + Bit(err)
      ensures err ==> best.None?
      ensures !err ==>
        (best.None? <==>
         forall id | id in providers ::
           !(providers[id].status == Online && cpu <= providers[id].cpu && mem <= providers[id].memFree))
      ensures best.Some? ==>
        && best.value in providers && providers[best.value].status == Online
        && cpu <= providers[best.value].cpu && mem <= providers[best.value].memFree
        && (forall id | id in providers && providers[id].status == Online
                        && cpu <= providers[id].cpu && mem <= providers[id].memFree ::
              providers[id].memFree <= providers[best.value].memFree)
    {
      err, best := *, None;
      errors := errors + Bit(err);
      if err {
        return;
      }
      var rest := providers.Keys;
      while rest != {}
        invariant rest <= providers.Keys
        invariant best.None? ==> forall id | id in providers && id !in rest :: !Fits(providers[id], cpu, mem)
        invariant best.Some? ==>
          && best.value in providers && Fits(providers[best.value], cpu, mem)
          && forall id | id in providers && id !in rest && Fits(providers[id], cpu, mem) ::
               providers[id].memFree <= providers[best.value].memFree
      {
        var id :| id in rest;
        if Fits(providers[id], cpu, mem) && (best.None? || providers[best.value].memFree < providers[id].memFree) {
          best := Some(id);
        }
        rest := rest - {id};
      }
    }

    method InsertJob(job: JobId, request: Request, createdAt: int) returns (err: bool, ghost applied: bool)
      modifies this`jobs, this`errors
      ensures errors == old(errors) + Bit(err)
      ensures !err ==> applied
      ensures applied ==> job !in old(jobs)
      ensures jobs == if applied then old(jobs)[job := Job(request, UNASSIGNED, Pending, createdAt)] else old(jobs)
    {
      err, applied := true, false;
      if job !in jobs {
        if * {
          jobs := jobs[job := Job(request, UNASSIGNED, Pending, createdAt)];
          err := *;
          applied := true;
        }
      }
      errors := errors + Bit(err);
    }

    method AssignJob(job: JobId, provider: ProviderId) returns (err: bool, ghost applied: bool)
      modifies this`jobs, this`errors
      ensures errors == old(errors) + Bit(err)
      ensures !err ==> applied
      ensures jobs == if applied then Store.AssignJob(old(jobs), job, provider) else old(jobs)
    {
      err, applied := true, false;
      if * {
        jobs := Store.AssignJob(jobs, job, provider);
        err := *;
        applied := true;
      }
      errors := errors + Bit(err);
    }

    /** BEGIN, and SELECT ... ORDER BY created_at LIMIT 1 FOR UPDATE SKIP LOCKED, in transaction tx. */
    method LockNext(provider: ProviderId, tx: nat) returns (err: bool, row: Option<JobId>)
      modifies this`locks, this`errors
      ensures errors == old(errors) + Bit(err)
      ensures err ==> row.None?
      ensures !err ==> (row.None? <==> NothingClaimable(jobs, old(locks), provider))
      ensures row.None? ==> locks == old(locks)
      ensures row.Some? ==>
        OldestClaimable(jobs, old(locks), provider, row.value) && locks == old(locks)[row.value := tx]
    {
      err, row := *, None;
      errors := errors + Bit(err);
      if err {
        return;
      }
      var held, rest := locks, jobs.Keys;
      while rest != {}
        invariant rest <= jobs.Keys && locks == held
        invariant row.None? ==> forall job | job !in rest :: !Claimable(jobs, held, provider, job)
        invariant row.Some? ==>
          && Claimable(jobs, held, provider, row.value)
          && forall job | job !in rest && Claimable(jobs, held, provider, job) ::
               jobs[row.value].createdAt <= jobs[job].createdAt
      {
        var job :| job in rest;
        if Claimable(jobs, held, provider, job) && (row.None? || jobs[job].createdAt < jobs[row.value].createdAt) {
          row := Some(job);
        }
        rest := rest - {job};
      }
      if row.Some? {
        locks := held[row.value := tx];
      }
    }

    /** The UPDATE inside the claim's transaction, which nobody sees before the commit. */
    method WriteRunning() returns (err: bool)
      modifies this`errors
      ensures errors == old(errors) + Bit(err)
    {
      err := *;
      errors := errors + Bit(err);
    }

    /** The end of the claim's transaction: its one UPDATE becomes visible or nothing does; the lock goes either way. */
    method Commit(job: JobId) returns (err: bool, ghost applied: bool)
      modifies this`jobs, this`locks, this`errors
      ensures errors == old(errors) + Bit(err)
      ensures !err ==> applied
      ensures locks == old(locks) - {job}
      ensures jobs == if applied then MarkRunning(old(jobs), job) else old(jobs)
    {
      locks := locks - {job};
      err, applied := true, false;
      if * {
        jobs := MarkRunning(jobs, job);
        err := *;
        applied := true;
      }
      errors := errors + Bit(err);
    }

    method Rollback(job: JobId)
      modifies this`locks
      ensures locks == old(locks) - {job}
    {
      locks := locks - {job};
    }

    method UpsertProvider(id: ProviderId, row: Provider) returns (err: bool, ghost applied: bool)
      modifies this`providers, this`errors
      ensures errors == old(errors) + Bit(err)
      ensures !err ==> applied
      ensures providers == if applied then Store.UpsertProvider(old(providers), id, row, now) else old(providers)
    {
      err, applied := true, false;
      if * {
        providers := Store.UpsertProvider(providers, id, row, now);
        err := *;
        applied := true;
      }
      errors := errors + Bit(err);
    }

    method UpdateHeartbeat(id: ProviderId, activeVms: int, memFree: int) returns (err: bool, ghost applied: bool)
      modifies this`providers, this`errors
      ensures errors == old(errors) + Bit(err)
      ensures !err ==> applied
      ensures providers ==
        if applied then Store.UpdateHeartbeat(old(providers), id, activeVms, memFree, now) else old(providers)
    {
      err, applied := true, false;
      if * {
        providers := Store.UpdateHeartbeat(providers, id, activeVms, memFree, now);
        err := *;
        applied := true;
      }
      errors := errors + Bit(err);
    }

    method MarkOffline(olderThan: int) returns (err: bool, ghost applied: bool)
      modifies this`providers, this`errors, this`sweeps
      ensures errors == old(errors) + Bit(err) && sweeps == old(sweeps) + 1
      ensures !err ==> applied
      ensures providers == if applied then Store.MarkOffline(old(providers), now, olderThan) else old(providers)
    {
      sweeps := sweeps + 1;
      err, applied := true, false;
      if * {
        providers := Store.MarkOffline(providers, now, olderThan);
        err := *;
        applied := true;
      }
      errors := errors + Bit(err);
    }

    /** The foreign key refuses to insert a row whose provider has none. */
    method UpsertVM(vm: VM) returns (err: bool, ghost applied: bool)
      modifies this`vms, this`errors
      ensures errors == old(errors) + Bit(err)
      ensures !err ==> applied
      ensures applied ==> vm.job in old(vms) || vm.provider in providers
      ensures vms == if applied then Store.UpsertVM(old(vms), vm.job, vm) else old(vms)
    {
      err, applied := true, false;
      if vm.job in vms || vm.provider in providers {
        if * {
          vms := Store.UpsertVM(vms, vm.job, vm);
          err := *;
          applied := true;
        }
      }
      errors := errors + Bit(err);
    }
  }

  /** Redis, with its errors counted, and the pops. */
  class Redis {
    var tokens: set<string>
    var queues: map<ProviderId, seq<JobId>>
    var wgCounter: nat
    var portCounter: nat
    ghost var errors: nat
    ghost var pops: nat

    constructor ()
      ensures tokens == {} && queues == map[] && wgCounter == 0 && portCounter == 0
    {
      tokens, queues, wgCounter, portCounter, errors, pops := {}, map[], 0, 0, 0, 0;
    }

    function Queue(provider: ProviderId): seq<JobId>
      reads this
    {
      if provider in queues then queues[provider] else []
    }

    /** An empty token is refused without a look at the set. */
    method TokenValid(token: string) returns (err: bool, valid: bool)
      modifies this`errors
      ensures errors == old(errors) + Bit(err)
      ensures token == "" ==> !err
      ensures !err ==> (valid <==> token != "" && token in tokens)
    {
      err, valid := false, false;
      if token != "" {
        err, valid := *, token in tokens;
        errors := errors + Bit(err);
      }
    }

    /** LPUSH. */
    method PushJob(provider: ProviderId, job: JobId) returns (err: bool, ghost applied: bool)
      modifies this`queues, this`errors
      ensures errors == old(errors) + Bit(err)
      ensures !err ==> applied
      ensures queues == if applied then old(queues)[provider := LeftPush(old(Queue(provider)), job)] else old(queues)
    {
      err, applied := true, false;
      if * {
        queues := queues[provider := LeftPush(Queue(provider), job)];
        err := *;
        applied := true;
      }
      errors := errors + Bit(err);
    }

    /** BRPOP, once its wait is over: no token means that the list is empty. */
    method PopJob(provider: ProviderId) returns (err: bool, token: Option<JobId>, ghost applied: bool)
      modifies this`queues, this`errors, this`pops
      ensures errors == old(errors) + Bit(err) && pops == old(pops) + 1
      ensures applied ==> old(Queue(provider)) != []
      ensures !err ==> (token.Some? <==> applied)
      ensures !err && token.None? ==> Queue(provider) == []
      ensures var q := old(Queue(provider));
        && (applied && !err ==> token == Some(Tail(q)))
        && queues == if applied then old(queues)[provider := RightPop(q)] else old(queues)
    {
      pops := pops + 1;
      err, token, applied := true, None, false;
      if * {
        err := false;
        var q := Queue(provider);
        if q != [] {
          queues := queues[provider := RightPop(q)];
          token, applied := Some(Tail(q)), true;
          err := *;
        }
      }
      errors := errors + Bit(err);
    }

    method AllocPort() returns (err: bool, port: int, ghost applied: bool)
      modifies this`portCounter, this`errors
      ensures errors == old(errors) + Bit(err)
      ensures !err ==> applied
      ensures portCounter == if applied then old(portCounter) + 1 else old(portCounter)
      ensures !err ==> port == Port(portCounter)
    {
      err, port, applied := true, 0, false;
      if * {
        portCounter := portCounter + 1;
        port := portCounter % 10000 + 40000;
        err := *;
        applied := true;
      }
      errors := errors + Bit(err);
    }

    method AllocWGIP() returns (err: bool, ip: string, ghost applied: bool)
      modifies this`wgCounter, this`errors
      ensures errors == old(errors) + Bit(err)
      ensures !err ==> applied
      ensures wgCounter == if applied then old(wgCounter) + 1 else old(wgCounter)
      ensures !err ==> ip == WgAddress(wgCounter)
    {
      err, ip, applied := true, "", false;
      if * {
        wgCounter := wgCounter + 1;
        var n2 := (wgCounter - 1) / 254;
        var n3 := (wgCounter - 1) % 254 + 1;
        ip := "10.99." + Numeral(n2 + 1) + "." + Numeral(n3);
        err := *;
        applied := true;
      }
      errors := errors + Bit(err);
    }
  }

  datatype SubmitResult = NoProvider | SubmitFailed | Deployed(job: JobId, provider: ProviderId)

  datatype PollResult = PollFailed | NoJob | Found(job: JobId)

  /** What a poll's agent gets: a job, 204, 500, or nothing because the reply was lost. */
  datatype PollReply = JobReply(job: JobId) | NoContent | ServerError | ReplyLost

  datatype RegisterResult = InvalidToken | RegisterFailed | Registered(id: ProviderId, ip: string, port: int)

  /** What one statement of a submit does to the stores and to its own entry. */
  ghost predicate SubmitEffect(s: D.State, s': D.State, c: nat, step: D.SubmitStep)
    requires D.SubmitEnabled(s, c, step)
  {
    && s'.locks == s.locks && s'.vms == s.vms
    && match step
       case Select(job, p, request) =>
         s'.jobs == s.jobs && s'.queues == s.queues && s'.submits == s.submits[c := D.Selected(job, p, request)]
       case Insert(createdAt) =>
         var m := s.submits[c];
         && s'.jobs == s.jobs[m.job := Job(m.request, UNASSIGNED, Pending, createdAt)] && s'.queues == s.queues
         && s'.submits == s.submits[c := D.Inserted(m.job, m.provider)]
       case Assign =>
         var m := s.submits[c];
         && s'.jobs == Store.AssignJob(s.jobs, m.job, m.provider) && s'.queues == s.queues
         && s'.submits == s.submits[c := D.Assigned(m.job, m.provider)]
       case Push =>
         var m := s.submits[c];
         && s'.jobs == s.jobs && s'.queues == s.queues[m.provider := LeftPush(D.Queue(s, m.provider), m.job)]
         && s'.submits == s.submits - {c} && s'.pushed == s.pushed[m.job := m.provider]
       case Abandon => s'.jobs == s.jobs && s'.queues == s.queues && s'.submits == s.submits - {c}
  }

  lemma SubmitHasEffect(s: D.State, c: nat, step: D.SubmitStep)
    requires D.SubmitEnabled(s, c, step)
    ensures SubmitEffect(s, D.ApplySubmit(s, c, step), c, step)
  {
  }

  /** What one statement of a poll does to the stores, to its own entry and to the replies. */
  ghost predicate PollEffect(s: D.State, s': D.State, c: nat, step: D.PollStep)
    requires D.PollEnabled(s, c, step)
  {
    && s'.vms == s.vms && s'.reported == s.reported
    && (!step.Commit? ==> s'.jobs == s.jobs)
    && (!step.Lock? && !step.Commit? && !step.Rollback? ==> s'.locks == s.locks)
    && (!step.Pop? ==> s'.queues == s.queues)
    && (!step.Reply? ==> s'.delivered == s.delivered && s'.heard == s.heard)
    && (!step.LoseReply? ==> s'.unheard == s.unheard)
    && match step
       case Pop(p) =>
         && s'.queues == s.queues[p := RightPop(D.Queue(s, p))]
         && c in s'.polls && s'.polls[c].Popped? && s'.polls[c].provider == p
       case Lock(job) =>
         && s'.locks == s.locks[job := c]
         && s'.polls == s.polls[c := D.Locked(s.polls[c].provider, s.polls[c].token, job, false)]
       case Write => s'.polls == s.polls[c := s.polls[c].(wrote := true)]
       case Commit =>
         var m := s.polls[c];
         && s'.jobs == MarkRunning(s.jobs, m.job) && s'.locks == s.locks - {m.job}
         && s'.polls == s.polls[c := D.Committed(m.provider, m.token, m.job)]
       case Rollback => s'.locks == s.locks - {s.polls[c].job} && s'.polls == s.polls - {c}
       case Reply =>
         var m := s.polls[c];
         && s'.delivered == s.delivered + [D.Delivery(m.provider, m.token, m.job)]
         && s'.heard == s.heard[c := D.RepliesOf(s.heard, c) + [m.job]] && s'.polls == s.polls - {c}
       case LoseReply =>
         s'.unheard == s.unheard[c := D.RepliesOf(s.unheard, c) + [s.polls[c].job]] && s'.polls == s.polls - {c}
       case _ => s'.polls == s.polls - {c}
  }

  lemma PollHasEffect(s: D.State, c: nat, step: D.PollStep)
    requires D.PollEnabled(s, c, step)
    ensures PollEffect(s, D.ApplyPoll(s, c, step), c, step)
  {
  }

  /** What one statement of a registration does to the stores and to its own entry. */
  ghost predicate RegisterEffect(s: R.State, s': R.State, c: nat, step: R.RegisterStep)
    requires R.RegisterEnabled(s, c, step)
  {
    && s'.now == s.now && s'.tokens == s.tokens
    && s'.wgCounter == s.wgCounter + (if step.TakeAddress? then 1 else 0)
    && s'.portCounter == s.portCounter + (if step.TakePort? then 1 else 0)
    && s'.providers ==
       (if step.Upsert? then UpsertProvider(s.providers, step.id, R.NewRow(s.regs[c], s.now), s.now) else s.providers)
    && match step
       case Validate(request) => s'.regs == s.regs[c := R.Validated(request)]
       case TakeAddress => s'.regs == s.regs[c := R.Addressed(s.regs[c].request, s'.wgCounter)]
       case TakePort => s'.regs == s.regs[c := R.Ported(s.regs[c].request, s.regs[c].ip, s'.portCounter)]
       case _ => s'.regs == s.regs - {c}
  }

  lemma RegisterHasEffect(s: R.State, c: nat, step: R.RegisterStep)
    requires R.RegisterEnabled(s, c, step)
    ensures RegisterEffect(s, R.ApplyRegister(s, c, step), c, step)
  {
  }

  /** The row of a provider that has just registered: what the request and the allocators say, and nothing reported. */
  function FreshRow(request: R.RegisterRequest, ip: string, port: int, now: int): (row: Provider)
    ensures row.token == request.token && row.pubKey == request.pubKey && row.cpu == request.cpu
    ensures row.wgIp == ip && row.port == port && row.lastSeen == row.registeredAt == now
    ensures row.status == Online && row.activeVms == 0 && row.memFree == 0
  {
    Provider(request.token, request.pubKey, ip, port, request.cpu, Online, 0, 0, now, now)
  }

  /** No other row shows this row's address. */
  ghost predicate SoleHolder(providers: map<ProviderId, Provider>, id: ProviderId)
    requires id in providers
  {
    forall other | other in providers && other != id :: providers[other].wgIp != providers[id].wgIp
  }

  lemma RowsDiffer(s: R.State, id: ProviderId)
    requires RT.Inv(s) && id in s.providers
    ensures SoleHolder(s.providers, id)
  {
    forall other | other in s.providers && other != id ensures s.providers[other].wgIp != s.providers[id].wgIp {
      RT.HoldersDiffer(s, R.Row(id), R.Row(other));
    }
  }

  /** Poll c has locked the job's row, and may have written it. */
  ghost predicate Holding(w: World, c: nat, p: ProviderId, job: JobId, wrote: bool)
    requires c in w.disp.polls
  {
    var m := w.disp.polls[c];
    m.Locked? && m.provider == p && m.job == job && m.wrote == wrote
  }

  /** Poll c has committed its claim of the job. */
  ghost predicate Claimed(w: World, c: nat, p: ProviderId, job: JobId)
    requires c in w.disp.polls
  {
    var m := w.disp.polls[c];
    m.Committed? && m.provider == p && m.job == job
  }

  /** No report is processed or lost, nothing is delivered, and no reply is heard. */
  ghost predicate RepliesKept(w: World, w': World) {
    && w'.disp.reported == w.disp.reported && w'.disp.delivered == w.disp.delivered
    && w'.disp.heard == w.disp.heard
  }

  /**
   The last delivery is the first of this job, went to the provider its row names, and has not been reported.
   */
  ghost predicate JustDelivered(w: World, p: ProviderId, job: JobId) {
    var n := |w.disp.delivered|;
    && n > 0 && w.disp.delivered[n - 1].job == job && w.disp.delivered[n - 1].provider == p
    && (forall k | 0 <= k < n - 1 :: w.disp.delivered[k].job != job)
    && n - 1 !in w.disp.reported
    && job in w.disp.jobs && w.disp.jobs[job].provider == p
  }

  lemma DeliveriesOnlyGrow(w: World, es: seq<Event>)
    requires ValidRun(w, es)
    ensures |w.disp.delivered| <= |Exec(w, es).disp.delivered|
  {
    RunOnlyGrows(w, es);
  }

  /** Submit leaves CreatedAt at Go's zero time. */
  const ZERO_TIME := 0

  class Service {
    const pg: PG
    const redis: Redis
    ghost var world: World

    /** The stores hold what the platform's state says, and that state satisfies the platform's invariant. */
    ghost predicate Valid()
      reads this, pg, redis
    {
      && world.reg.now == pg.now && world.reg.providers == pg.providers
      && world.disp.jobs == pg.jobs && world.disp.locks == pg.locks && world.disp.vms == pg.vms
      && world.reg.tokens == redis.tokens && world.disp.queues == redis.queues
      && world.reg.wgCounter == redis.wgCounter && world.reg.portCounter == redis.portCounter
      && Inv(world)
    }

    /** The platform has taken the steps run since it was in state base. */
    ghost predicate Follows(base: World, run: seq<Event>)
      reads this
    {
      ValidRun(base, run) && Exec(base, run) == world
    }

    constructor (start: int)
      ensures Valid() && fresh(pg) && fresh(redis) && world == Initial(start)
    {
      pg := new PG(start);
      redis := new Redis();
      world := Initial(start);
      new;
      InitialInv(start);
    }

    /** Books the step that the last statement took. */
    ghost method Record(base: World, run: seq<Event>, e: Event) returns (longer: seq<Event>)
      requires Follows(base, run) && Inv(world) && Enabled(world, e)
      modifies this`world
      ensures world == Apply(old(world), e) && Inv(world)
      ensures longer == run + [e] && Follows(base, longer)
    {
      StepKeepsInv(world, e);
      Extend(base, run, e);
      longer := run + [e];
      world := Apply(world, e);
    }

    ghost method RecordSubmit(base: World, run: seq<Event>, c: nat, step: D.SubmitStep) returns (longer: seq<Event>)
      requires Follows(base, run) && Inv(world) && D.SubmitEnabled(world.disp, c, step)
      requires step.Select? ==> IsBest(world.reg.providers, step.request.cpu, step.request.mem, step.provider)
      modifies this`world
      ensures Inv(world) && world.reg == old(world).reg && SubmitEffect(old(world).disp, world.disp, c, step)
      ensures longer == run + [Jobs(D.Submitting(c, step))] && Follows(base, longer)
    {
      SubmitHasEffect(world.disp, c, step);
      longer := Record(base, run, Jobs(D.Submitting(c, step)));
    }

    ghost method RecordPoll(base: World, run: seq<Event>, c: nat, step: D.PollStep) returns (longer: seq<Event>)
      requires Follows(base, run) && Inv(world) && D.PollEnabled(world.disp, c, step)
      modifies this`world
      ensures Inv(world) && world.reg == old(world).reg && PollEffect(old(world).disp, world.disp, c, step)
      ensures longer == run + [Jobs(D.Polling(c, step))] && Follows(base, longer)
    {
      PollHasEffect(world.disp, c, step);
      longer := Record(base, run, Jobs(D.Polling(c, step)));
    }

    ghost method RecordRegister(base: World, run: seq<Event>, c: nat, step: R.RegisterStep) returns (longer: seq<Event>)
      requires Follows(base, run) && Inv(world) && R.RegisterEnabled(world.reg, c, step)
      modifies this`world
      ensures Inv(world) && world.disp == old(world).disp && RegisterEffect(old(world).reg, world.reg, c, step)
      ensures longer == run + [Fleet(R.Registering(c, step))] && Follows(base, longer)
    {
      RegisterHasEffect(world.reg, c, step);
      longer := Record(base, run, Fleet(R.Registering(c, step)));
    }

    /**
     Other clients run. Callers may rely on nothing but this contract: any steps but the caller's own may have been
     taken, and errors answered to others are not counted. The body takes none, which is one of the ways to meet it.
     */
    method Interference(ghost base: World, ghost run: seq<Event>, ghost me: Client) returns (ghost longer: seq<Event>)
      requires Valid() && Follows(base, run)
      requires LeftAlone(world, world, me)
      modifies this, pg, redis
      ensures Valid() && Follows(base, longer)
      ensures pg.errors == old(pg.errors) && redis.errors == old(redis.errors)
      ensures pg.sweeps == old(pg.sweeps) && redis.pops == old(redis.pops)
      ensures run <= longer && ValidRun(old(world), longer[|run|..]) && world == Exec(old(world), longer[|run|..])
      ensures forall i | 0 <= i < |longer| - |run| :: !IsStepOf(longer[|run|..][i], me)
      ensures LeftAlone(old(world), world, me)
      ensures forall j :: DT.Forward(old(world).disp, world.disp, j)
    {
      longer := run;
      assert longer[|run|..] == [];
      OthersLeaveAlone(old(world), longer[|run|..], me);
      forall j ensures DT.Forward(old(world).disp, world.disp, j) {
        RunMovesForward(old(world), longer[|run|..], j);
      }
    }

    // ---- Scheduler ----

    /** Books an INSERT or UPDATE of submit c that may have taken effect, and on failure the end of the submit. */
    ghost method BookSubmit(base: World, run: seq<Event>, c: nat, step: D.SubmitStep, applied: bool, failed: bool)
      returns (longer: seq<Event>)
      requires Follows(base, run) && Inv(world) && D.SubmitEnabled(world.disp, c, step)
      requires (step.Insert? || step.Assign?) && (applied || failed)
      modifies this`world
      ensures Inv(world) && Follows(base, longer) && world.reg == old(world).reg
      ensures var s, s', m := old(world).disp, world.disp, old(world).disp.submits[c];
        && s'.locks == s.locks && s'.vms == s.vms && s'.queues == s.queues
        && (!applied ==> s'.jobs == s.jobs)
        && (applied && step.Insert? ==> s'.jobs == s.jobs[m.job := Job(m.request, UNASSIGNED, Pending, step.createdAt)])
        && (applied && step.Assign? ==> s'.jobs == Store.AssignJob(s.jobs, m.job, m.provider))
        && (failed ==> c !in s'.submits)
        && (!failed && step.Insert? ==> c in s'.submits && s'.submits[c] == D.Inserted(m.job, m.provider))
        && (!failed && step.Assign? ==> c in s'.submits && s'.submits[c] == D.Assigned(m.job, m.provider))
    {
      longer := run;
      if applied {
        longer := RecordSubmit(base, longer, c, step);
      }
      if failed {
        longer := RecordSubmit(base, longer, c, D.Abandon);
      }
    }

    /** The INSERT of submit c. */
    method SubmitInsert(ghost base: World, ghost run: seq<Event>, ghost c: nat, ghost provider: ProviderId,
                        uuid: JobId, request: Request) returns (err: bool, ghost longer: seq<Event>)
      requires Valid() && Follows(base, run)
      requires c in world.disp.submits && world.disp.submits[c] == D.Selected(uuid, provider, request)
      modifies this`world, pg`jobs, pg`errors
      ensures Valid() && Follows(base, longer)
      ensures pg.errors == old(pg.errors) + Bit(err)
      ensures err ==> c !in world.disp.submits
      ensures !err ==> c in world.disp.submits && world.disp.submits[c] == D.Inserted(uuid, provider)
      ensures !err ==>
        && uuid in world.disp.jobs && world.disp.jobs[uuid].request == request
        && world.disp.jobs[uuid].createdAt == ZERO_TIME
    {
      assert DI.SubmitOk(world.disp, c);
      ghost var applied;
      err, applied := pg.InsertJob(uuid, request, ZERO_TIME);
      longer := BookSubmit(base, run, c, D.Insert(ZERO_TIME), applied, err);
    }

    /** The UPDATE of submit c. */
    method SubmitAssign(ghost base: World, ghost run: seq<Event>, ghost c: nat, uuid: JobId, provider: ProviderId)
      returns (err: bool, ghost longer: seq<Event>)
      requires Valid() && Follows(base, run)
      requires c in world.disp.submits && world.disp.submits[c] == D.Inserted(uuid, provider)
      modifies this`world, pg`jobs, pg`errors
      ensures Valid() && Follows(base, longer)
      ensures pg.errors == old(pg.errors) + Bit(err)
      ensures err ==> c !in world.disp.submits
      ensures !err ==> c in world.disp.submits && world.disp.submits[c] == D.Assigned(uuid, provider)
      ensures uuid in old(world).disp.jobs ==>
        && uuid in world.disp.jobs && world.disp.jobs[uuid].request == old(world).disp.jobs[uuid].request
        && world.disp.jobs[uuid].createdAt == old(world).disp.jobs[uuid].createdAt
    {
      ghost var applied;
      err, applied := pg.AssignJob(uuid, provider);
      longer := BookSubmit(base, run, c, D.Assign, applied, err);
    }

    /** The LPUSH of submit c. */
    method SubmitPush(ghost base: World, ghost run: seq<Event>, ghost c: nat, uuid: JobId, provider: ProviderId)
      returns (err: bool, ghost longer: seq<Event>)
      requires Valid() && Follows(base, run)
      requires c in world.disp.submits && world.disp.submits[c] == D.Assigned(uuid, provider)
      modifies this`world, redis`queues, redis`errors
      ensures Valid() && Follows(base, longer) && c !in world.disp.submits
      ensures redis.errors == old(redis.errors) + Bit(err)
      ensures world.disp.jobs == old(world).disp.jobs && world.reg == old(world).reg
      ensures !err ==> uuid in world.disp.pushed && world.disp.pushed[uuid] == provider
    {
      ghost var applied;
      err, applied := redis.PushJob(provider, uuid);
      if applied {
        longer := RecordSubmit(base, run, c, D.Push);
      } else {
        longer := RecordSubmit(base, run, c, D.Abandon);
      }
    }

    /** What is left of a submit once its row is assigned. */
    method SubmitAssigned(ghost base: World, ghost run: seq<Event>, ghost c: nat, uuid: JobId, provider: ProviderId)
      returns (err: bool, ghost longer: seq<Event>)
      requires Valid() && Follows(base, run)
      requires c in world.disp.submits && world.disp.submits[c] == D.Assigned(uuid, provider)
      modifies this, pg, redis
      ensures Valid() && Follows(base, longer) && c !in world.disp.submits
      ensures pg.errors + redis.errors == old(pg.errors + redis.errors) + Bit(err)
      ensures !err ==>
        && uuid in world.disp.pushed && world.disp.pushed[uuid] == provider
        && uuid in pg.jobs && pg.jobs[uuid].provider == provider && pg.jobs[uuid].status != Pending
        && Covers(world.reg, provider, pg.jobs[uuid].request)
      ensures uuid in old(pg.jobs) ==>
        && uuid in pg.jobs && pg.jobs[uuid].request == old(pg.jobs)[uuid].request
        && pg.jobs[uuid].createdAt == old(pg.jobs)[uuid].createdAt
    {
      longer := Interference(base, run, Submitter(c));
      assert DT.Forward(old(world).disp, world.disp, uuid);
      assert DI.SubmitOk(world.disp, c) && SubmitPlaced(world, c);
      err, longer := SubmitPush(base, longer, c, uuid, provider);
    }

    /** What is left of a submit once its provider is selected. */
    method SubmitSelected(ghost base: World, ghost run: seq<Event>, ghost c: nat, uuid: JobId, provider: ProviderId,
                          request: Request) returns (err: bool, ghost longer: seq<Event>)
      requires Valid() && Follows(base, run)
      requires c in world.disp.submits && world.disp.submits[c] == D.Selected(uuid, provider, request)
      modifies this, pg, redis
      ensures Valid() && Follows(base, longer) && c !in world.disp.submits
      ensures pg.errors + redis.errors == old(pg.errors + redis.errors) + Bit(err)
      ensures !err ==>
        && uuid in world.disp.pushed && world.disp.pushed[uuid] == provider
        && uuid in pg.jobs && pg.jobs[uuid].request == request && pg.jobs[uuid].provider == provider
        && pg.jobs[uuid].createdAt == ZERO_TIME
        && pg.jobs[uuid].status != Pending && Covers(world.reg, provider, request)
    {
      longer := Interference(base, run, Submitter(c));
      err, longer := SubmitInsert(base, longer, c, provider, uuid, request);
      if !err {
        label inserted:
        longer := Interference(base, longer, Submitter(c));
        assert DT.Forward(old@inserted(world).disp, world.disp, uuid);
        err, longer := SubmitAssign(base, longer, c, uuid, provider);
        if !err {
          err, longer := SubmitAssigned(base, longer, c, uuid, provider);
        }
      }
    }

    /**
     Deploys to the provider that was best on arrival. A success has pushed the token of a job row that carries the
     request and the provider; NoProvider means that no row fits, and SubmitFailed that a statement answered an error.
     */
    method Submit(request: Request, uuid: JobId, ghost c: nat) returns (r: SubmitResult, ghost run: seq<Event>)
      requires Valid() && c !in world.disp.submits && uuid !in world.disp.owner
      modifies this, pg, redis
      ensures Valid() && Follows(old(world), run) && c !in world.disp.submits
      ensures pg.errors + redis.errors == old(pg.errors + redis.errors) + Bit(r.SubmitFailed?)
      ensures r.NoProvider? ==> world == old(world)
      ensures r.NoProvider? ==> forall id | id in pg.providers ::
        !(pg.providers[id].status == Online
          && request.cpu <= pg.providers[id].cpu && request.mem <= pg.providers[id].memFree)
      ensures r.Deployed? ==>
        var row := old(pg.providers);
        && r.provider in row && row[r.provider].status == Online
        && request.cpu <= row[r.provider].cpu && request.mem <= row[r.provider].memFree
        && forall id | id in row && row[id].status == Online
                       && request.cpu <= row[id].cpu && request.mem <= row[id].memFree ::
             row[id].memFree <= row[r.provider].memFree
      ensures r.Deployed? ==>
        && r.job == uuid && uuid in world.disp.pushed && world.disp.pushed[uuid] == r.provider
        && uuid in pg.jobs && pg.jobs[uuid].request == request && pg.jobs[uuid].provider == r.provider
        && pg.jobs[uuid].createdAt == ZERO_TIME
        && pg.jobs[uuid].status != Pending && Covers(world.reg, r.provider, request)
    {
      ghost var base := world;
      run := [];
      var err, best := pg.BestProvider(request.cpu, request.mem);
      if err {
        return SubmitFailed, run;
      }
      if best.None? {
        return NoProvider, run;
      }
      var provider := best.value;
      assert RT.RowOk(world.reg, provider);
      run := RecordSubmit(base, run, c, D.Select(uuid, provider, request));
      err, run := SubmitSelected(base, run, c, uuid, provider, request);
      r := if err then SubmitFailed else Deployed(uuid, provider);
    }

    /** Books a pop that took its token, and on failure the loss of the token. */
    ghost method BookPop(base: World, run: seq<Event>, c: nat, provider: ProviderId, failed: bool)
      returns (longer: seq<Event>)
      requires Follows(base, run) && Inv(world) && D.PollEnabled(world.disp, c, D.Pop(provider))
      modifies this`world
      ensures Inv(world) && Follows(base, longer) && world.reg == old(world).reg
      ensures RepliesKept(old(world), world) && world.disp.unheard == old(world).disp.unheard
      ensures var s, s' := old(world).disp, world.disp;
        && s'.jobs == s.jobs && s'.locks == s.locks && s'.vms == s.vms
        && s'.queues == s.queues[provider := RightPop(D.Queue(s, provider))]
        && (failed ==> c !in s'.polls)
        && (!failed ==> c in s'.polls && s'.polls[c].Popped? && s'.polls[c].provider == provider)
    {
      longer := RecordPoll(base, run, c, D.Pop(provider));
      if failed {
        longer := RecordPoll(base, longer, c, D.Drop);
      }
    }

    /** The BRPOP of poll c, after its wait. */
    method PollPop(ghost base: World, ghost run: seq<Event>, c: nat, provider: ProviderId)
      returns (err: bool, popped: bool, ghost longer: seq<Event>)
      requires Valid() && Follows(base, run) && c !in world.disp.polls
      modifies this`world, redis`queues, redis`errors, redis`pops
      ensures Valid() && Follows(base, longer)
      ensures redis.errors == old(redis.errors) + Bit(err) && redis.pops == old(redis.pops) + 1
      ensures RepliesKept(old(world), world) && world.disp.unheard == old(world).disp.unheard
      ensures !err && popped <==> c in world.disp.polls
      ensures !err && popped ==> world.disp.polls[c].Popped? && world.disp.polls[c].provider == provider
      ensures !err && !popped ==> D.Queue(world.disp, provider) == []
    {
      var token;
      ghost var applied;
      err, token, applied := redis.PopJob(provider);
      popped := token.Some?;
      longer := run;
      if applied {
        longer := BookPop(base, run, c, provider, err);
      }
    }

    /** BEGIN and the locking SELECT of poll c, which never comes back empty. */
    method PollLock(ghost base: World, ghost run: seq<Event>, c: nat, provider: ProviderId)
      returns (err: bool, job: JobId, ghost longer: seq<Event>)
      requires Valid() && Follows(base, run)
      requires c in world.disp.polls && world.disp.polls[c].Popped? && world.disp.polls[c].provider == provider
      modifies this`world, pg`locks, pg`errors
      ensures Valid() && Follows(base, longer)
      ensures pg.errors == old(pg.errors) + Bit(err)
      ensures RepliesKept(old(world), world) && world.disp.unheard == old(world).disp.unheard
      ensures err ==> c !in world.disp.polls
      ensures !err ==> c in world.disp.polls && Holding(world, c, provider, job, false)
    {
      ghost var witnessed := DI.ClaimFindsRow(world.disp, c);
      assert !NothingClaimable(pg.jobs, pg.locks, provider) by {
        assert Claimable(pg.jobs, pg.locks, provider, witnessed);
      }
      var row;
      err, row := pg.LockNext(provider, c);
      if err {
        longer := RecordPoll(base, run, c, D.Drop);
        return true, "", longer;
      }
      if row.None? {
        // The code would answer "no job" here, and the token would be gone.
        assert false;
      }
      job := row.value;
      longer := RecordPoll(base, run, c, D.Lock(job));
    }

    /** The UPDATE of poll c's transaction, visible to nobody yet. */
    method PollWrite(ghost base: World, ghost run: seq<Event>, c: nat, provider: ProviderId, job: JobId)
      returns (err: bool, ghost longer: seq<Event>)
      requires Valid() && Follows(base, run)
      requires c in world.disp.polls && Holding(world, c, provider, job, false)
      modifies this`world, pg`locks, pg`errors
      ensures Valid() && Follows(base, longer)
      ensures pg.errors == old(pg.errors) + Bit(err)
      ensures RepliesKept(old(world), world) && world.disp.unheard == old(world).disp.unheard
      ensures err ==> c !in world.disp.polls
      ensures !err ==> c in world.disp.polls && Holding(world, c, provider, job, true)
    {
      err := pg.WriteRunning();
      if err {
        pg.Rollback(job);
        longer := RecordPoll(base, run, c, D.Rollback);
      } else {
        longer := RecordPoll(base, run, c, D.Write);
      }
    }

    /** The COMMIT of poll c's transaction. */
    method PollCommit(ghost base: World, ghost run: seq<Event>, c: nat, provider: ProviderId, job: JobId)
      returns (err: bool, ghost longer: seq<Event>)
      requires Valid() && Follows(base, run)
      requires c in world.disp.polls && Holding(world, c, provider, job, true)
      modifies this`world, pg`jobs, pg`locks, pg`errors
      ensures Valid() && Follows(base, longer)
      ensures pg.errors == old(pg.errors) + Bit(err)
      ensures RepliesKept(old(world), world)
      ensures !err ==> world.disp.unheard == old(world).disp.unheard
      ensures err ==> c !in world.disp.polls
      ensures !err ==> c in world.disp.polls && Claimed(world, c, provider, job)
      ensures !err ==> job in pg.jobs && pg.jobs[job].provider == provider && pg.jobs[job].status == Running
    {
      assert DI.PollOk(world.disp, c);
      ghost var applied;
      err, applied := pg.Commit(job);
      if applied {
        longer := RecordPoll(base, run, c, D.Commit);
        if err {
          longer := RecordPoll(base, longer, c, D.LoseReply);
        }
      } else {
        longer := RecordPoll(base, run, c, D.Rollback);
      }
    }

    /** The claim's transaction: a job found is running, assigned to the provider, and held by this poll alone. */
    method NextPendingJob(ghost base: World, ghost run: seq<Event>, provider: ProviderId, c: nat, ghost owed: set<nat>)
      returns (r: PollResult, ghost longer: seq<Event>)
      requires Valid() && Follows(base, run)
      requires c in world.disp.polls && world.disp.polls[c].Popped? && world.disp.polls[c].provider == provider
      requires Owing(world, owed)
      modifies this, pg, redis
      ensures Valid() && Follows(base, longer)
      ensures Owing(world, owed)
      ensures redis.pops == old(redis.pops)
      ensures D.RepliesOf(world.disp.heard, c) == D.RepliesOf(old(world).disp.heard, c)
      ensures !r.PollFailed? ==> SameAnswers(old(world), world, c)
      ensures pg.errors + redis.errors == old(pg.errors + redis.errors) + Bit(r.PollFailed?)
      ensures !r.NoJob? && (r.Found? <==> c in world.disp.polls)
      ensures r.Found? ==>
        && Claimed(world, c, provider, r.job)
        && r.job in pg.jobs && pg.jobs[r.job].provider == provider && pg.jobs[r.job].status == Running
    {
      var err, job;
      err, job, longer := PollLock(base, run, c, provider);
      if !err {
        longer := Interference(base, longer, Poller(c, owed));
        err, longer := PollWrite(base, longer, c, provider, job);
        if !err {
          longer := Interference(base, longer, Poller(c, owed));
          err, longer := PollCommit(base, longer, c, provider, job);
        }
      }
      r := if err then PollFailed else Found(job);
    }

    /** Waits for a token, then claims. Once a token was popped the answer is a job or an error, never NoJob. */
    method PollForProvider(provider: ProviderId, c: nat, ghost owed: set<nat>)
      returns (r: PollResult, ghost run: seq<Event>)
      requires Valid() && c !in world.disp.polls && Owing(world, owed)
      modifies this, pg, redis
      ensures Valid() && Follows(old(world), run)
      ensures Owing(world, owed)
      ensures redis.pops == old(redis.pops) + 1
      ensures D.RepliesOf(world.disp.heard, c) == D.RepliesOf(old(world).disp.heard, c)
      ensures !r.PollFailed? ==> SameAnswers(old(world), world, c)
      ensures pg.errors + redis.errors == old(pg.errors + redis.errors) + Bit(r.PollFailed?)
      ensures r.Found? <==> c in world.disp.polls
      ensures r.Found? ==>
        && Claimed(world, c, provider, r.job)
        && r.job in pg.jobs && pg.jobs[r.job].provider == provider && pg.jobs[r.job].status == Running
      ensures r.NoJob? ==> redis.Queue(provider) == []
    {
      ghost var base := world;
      run := Interference(base, [], Poller(c, owed));
      var err, popped;
      err, popped, run := PollPop(base, run, c, provider);
      if err {
        return PollFailed, run;
      }
      if !popped {
        return NoJob, run;
      }
      run := Interference(base, run, Poller(c, owed));
      r, run := NextPendingJob(base, run, provider, c, owed);
    }

    // ---- the poll handler ----

    ghost method BookReply(base: World, run: seq<Event>, provider: ProviderId, c: nat, job: JobId)
      returns (longer: seq<Event>)
      requires Valid() && Follows(base, run)
      requires c in world.disp.polls && Claimed(world, c, provider, job)
      modifies this`world
      ensures Valid() && Follows(base, longer) && c !in world.disp.polls
      ensures world.disp.reported == old(world).disp.reported && JustDelivered(world, provider, job)
      ensures |world.disp.delivered| == |old(world).disp.delivered| + 1
      ensures D.RepliesOf(world.disp.heard, c) == D.RepliesOf(old(world).disp.heard, c) + [job]
      ensures D.RepliesOf(world.disp.unheard, c) == D.RepliesOf(old(world).disp.unheard, c)
    {
      assert DI.DeliveryOk(world.disp, |world.disp.delivered|);
      longer := RecordPoll(base, run, c, D.Reply);
      ghost var n := |world.disp.delivered|;
      assert DI.DeliveryOk(world.disp, n - 1);
      forall k | 0 <= k < n - 1 ensures world.disp.delivered[k].job != job {
        assert DI.DeliveryOk(world.disp, k);
      }
    }

    /** The reply to poll c, which may be lost on the way. */
    method SendReply(ghost base: World, ghost run: seq<Event>, provider: ProviderId, c: nat, job: JobId)
      returns (lost: bool, ghost longer: seq<Event>)
      requires Valid() && Follows(base, run)
      requires c in world.disp.polls && Claimed(world, c, provider, job)
      modifies this`world
      ensures Valid() && Follows(base, longer) && c !in world.disp.polls
      ensures world.disp.reported == old(world).disp.reported
      ensures |world.disp.delivered| == |old(world).disp.delivered| + Bit(!lost)
      ensures D.RepliesOf(world.disp.heard, c) == D.RepliesOf(old(world).disp.heard, c) + if lost then [] else [job]
      ensures D.RepliesOf(world.disp.unheard, c) == D.RepliesOf(old(world).disp.unheard, c) + if lost then [job] else []
      ensures !lost ==> JustDelivered(world, provider, job)
    {
      lost := *;
      if lost {
        longer := RecordPoll(base, run, c, D.LoseReply);
      } else {
        longer := BookReply(base, run, provider, c, job);
      }
    }

    /** What is left of pollJobs once a job was found. */
    method ReplyToPoll(ghost base: World, ghost run: seq<Event>, provider: ProviderId, c: nat, job: JobId,
                       ghost owed: set<nat>)
      returns (lost: bool, ghost longer: seq<Event>)
      requires Valid() && Follows(base, run)
      requires c in world.disp.polls && Claimed(world, c, provider, job)
      requires Owing(world, owed)
      modifies this, pg, redis
      ensures Valid() && Follows(base, longer) && c !in world.disp.polls
      ensures Owing(world, owed) && pg.errors + redis.errors == old(pg.errors + redis.errors)
      ensures redis.pops == old(redis.pops)
      ensures D.RepliesOf(world.disp.heard, c) == D.RepliesOf(old(world).disp.heard, c) + if lost then [] else [job]
      ensures D.RepliesOf(world.disp.unheard, c) == D.RepliesOf(old(world).disp.unheard, c) + if lost then [job] else []
      ensures !lost ==> JustDelivered(world, provider, job) && |base.disp.delivered| < |world.disp.delivered|
    {
      longer := Interference(base, run, Poller(c, owed));
      DeliveriesOnlyGrow(base, longer);
      lost, longer := SendReply(base, longer, provider, c, job);
    }

    /** Replies with a job exactly when the poll found one; the reply may still be lost on the way. */
    method PollJobs(provider: ProviderId, c: nat, ghost owed: set<nat>)
      returns (reply: PollReply, ghost run: seq<Event>)
      requires Valid() && c !in world.disp.polls && Owing(world, owed)
      modifies this, pg, redis
      ensures Valid() && Follows(old(world), run) && c !in world.disp.polls
      ensures Owing(world, owed)
      ensures redis.pops == old(redis.pops) + 1
      ensures pg.errors + redis.errors == old(pg.errors + redis.errors) + Bit(reply.ServerError?)
      ensures D.RepliesOf(world.disp.heard, c) ==
        D.RepliesOf(old(world).disp.heard, c) + if reply.JobReply? then [reply.job] else []
      ensures !reply.ServerError? ==>
        |D.RepliesOf(world.disp.unheard, c)| == |D.RepliesOf(old(world).disp.unheard, c)| + Bit(reply.ReplyLost?)
      ensures reply.JobReply? ==>
        JustDelivered(world, provider, reply.job) && |old(world).disp.delivered| < |world.disp.delivered|
      ensures reply.NoContent? ==> redis.Queue(provider) == []
    {
      var r;
      r, run := PollForProvider(provider, c, owed);
      match r {
        case PollFailed => reply := ServerError;
        case NoJob => reply := NoContent;
        case Found(job) =>
          var lost;
          lost, run := ReplyToPoll(old(world), run, provider, c, job, owed);
          reply := if lost then ReplyLost else JobReply(job);
      }
    }

    // ---- the report handler ----

    /** Books a report that was processed or not: that of the k-th delivery, or a stray one. */
    ghost method BookReport(vm: VM, k: nat, own: bool, applied: bool) returns (run: seq<Event>)
      requires Inv(world) && own == D.ReportEnabled(world.disp, k, D.Process(vm)) && (applied ==> Storable(world, vm))
      modifies this`world
      ensures Inv(world) && Follows(old(world), run) && world.reg == old(world).reg
      ensures var s, s' := old(world).disp, world.disp;
        && s'.jobs == s.jobs && s'.locks == s.locks && s'.queues == s.queues
        && s'.polls == s.polls && s'.delivered == s.delivered && s'.repliedAt == s.repliedAt
        && s'.vms == (if applied then Store.UpsertVM(s.vms, vm.job, vm) else s.vms)
        && s'.heard == s.heard && s'.unheard == s.unheard && s'.reported == s.reported + (if own then {k} else {})
        && (own ==> s'.strays == s.strays)
    {
      run := [];
      if own {
        run := Record(world, [], Jobs(D.Reporting(k, if applied then D.Process(vm) else D.LoseReport)));
      } else if applied {
        run := Record(world, [], Jobs(D.Stray(vm)));
      }
    }

    /**
     Stores any report whose job or provider has a row. The report of a delivery is never refused by the foreign key,
     and unless a stray report named its job before, it is a plain insert.
     */
    method ReportVM(vm: VM, ghost k: nat) returns (err: bool, ghost run: seq<Event>)
      requires Valid()
      modifies this`world, pg`vms, pg`errors
      ensures Valid() && Follows(old(world), run)
      ensures pg.errors == old(pg.errors) + Bit(err)
      ensures world.disp.polls == old(world).disp.polls && world.disp.delivered == old(world).disp.delivered
      ensures world.disp.repliedAt == old(world).disp.repliedAt
      ensures world.disp.heard == old(world).disp.heard && world.disp.unheard == old(world).disp.unheard
      ensures world.disp.reported ==
        old(world).disp.reported + (if D.ReportEnabled(old(world).disp, k, D.Process(vm)) then {k} else {})
      ensures pg.vms - {vm.job} == old(pg.vms) - {vm.job}
      ensures !err ==> vm.job in pg.vms && pg.vms[vm.job].status == vm.status && pg.vms[vm.job].error == vm.error
      ensures D.ReportEnabled(old(world).disp, k, D.Process(vm)) ==>
        && vm.provider in pg.providers
        && world.disp.strays == old(world).disp.strays
        && (!err && vm.job !in world.disp.strays ==> vm.job !in old(pg.vms) && pg.vms == old(pg.vms)[vm.job := vm])
    {
      ghost var own := D.ReportEnabled(world.disp, k, D.Process(vm));
      if own {
        assert DI.DeliveryOk(world.disp, k) && JobPlaced(world, vm.job);
        if vm.job !in world.disp.strays {
          DI.ReportFindsNoRow(world.disp, k);
        }
      }
      ghost var applied;
      err, applied := pg.UpsertVM(vm);
      run := BookReport(vm, k, own, applied);
    }

    // ---- Registry ----

    /** The INCR of the address counter for registration c. */
    method RegisterAddress(ghost base: World, ghost run: seq<Event>, ghost c: nat, ghost request: R.RegisterRequest)
      returns (err: bool, ip: string, ghost longer: seq<Event>)
      requires Valid() && Follows(base, run)
      requires c in world.reg.regs && world.reg.regs[c] == R.Validated(request)
      modifies this`world, redis`wgCounter, redis`errors
      ensures Valid() && Follows(base, longer) && pg.providers == old(pg.providers)
      ensures redis.errors == old(redis.errors) + Bit(err)
      ensures err ==> c !in world.reg.regs
      ensures !err ==>
        && c in world.reg.regs && world.reg.regs[c].Addressed? && world.reg.regs[c].request == request
        && ip == WgAddress(world.reg.regs[c].ip)
    {
      ghost var applied;
      err, ip, applied := redis.AllocWGIP();
      longer := run;
      if applied {
        longer := RecordRegister(base, longer, c, R.TakeAddress);
      }
      if err {
        longer := RecordRegister(base, longer, c, R.Abandon);
      }
    }

    /** The INCR of the port counter for registration c. */
    method RegisterPort(ghost base: World, ghost run: seq<Event>, ghost c: nat)
      returns (err: bool, port: int, ghost longer: seq<Event>)
      requires Valid() && Follows(base, run)
      requires c in world.reg.regs && world.reg.regs[c].Addressed?
      modifies this`world, redis`portCounter, redis`errors
      ensures Valid() && Follows(base, longer) && pg.providers == old(pg.providers)
      ensures redis.errors == old(redis.errors) + Bit(err)
      ensures err ==> c !in world.reg.regs
      ensures !err ==>
        && c in world.reg.regs && world.reg.regs[c].Ported? && port == Port(world.reg.regs[c].port)
        && world.reg.regs[c].request == old(world).reg.regs[c].request
        && world.reg.regs[c].ip == old(world).reg.regs[c].ip
    {
      ghost var applied;
      err, port, applied := redis.AllocPort();
      longer := run;
      if applied {
        longer := RecordRegister(base, longer, c, R.TakePort);
      }
      if err {
        longer := RecordRegister(base, longer, c, R.Abandon);
      }
    }

    /** The INSERT of registration c's row. */
    method RegisterRow(ghost base: World, ghost run: seq<Event>, ghost c: nat, uuid: ProviderId,
                       request: R.RegisterRequest, ip: string, port: int) returns (err: bool, ghost longer: seq<Event>)
      requires Valid() && Follows(base, run)
      requires c in world.reg.regs && world.reg.regs[c].Ported? && world.reg.regs[c].request == request
      requires ip == WgAddress(world.reg.regs[c].ip) && port == Port(world.reg.regs[c].port)
      requires uuid != UNASSIGNED && uuid !in pg.providers
      modifies this`world, pg`providers, pg`errors
      ensures Valid() && Follows(base, longer) && c !in world.reg.regs
      ensures pg.errors == old(pg.errors) + Bit(err)
      ensures !err ==> uuid in pg.providers && pg.providers[uuid] == FreshRow(request, ip, port, pg.now)
      ensures !err ==>
        var row := pg.providers[uuid];
        && row.token == request.token && row.pubKey == request.pubKey && row.cpu == request.cpu
        && row.wgIp == ip && row.port == port && row.status == Online
        && row.activeVms == 0 && row.memFree == 0 && row.lastSeen == pg.now && row.registeredAt == pg.now
      ensures !err ==> SoleHolder(pg.providers, uuid)
    {
      ghost var applied;
      err, applied := pg.UpsertProvider(uuid, FreshRow(request, ip, port, pg.now));
      if applied {
        longer := RecordRegister(base, run, c, R.Upsert(uuid));
        RowsDiffer(world.reg, uuid);
      } else {
        longer := RecordRegister(base, run, c, R.Abandon);
      }
    }

    /** What is left of a registration once it has its port. */
    method RegisterPorted(ghost base: World, ghost run: seq<Event>, ghost c: nat, uuid: ProviderId,
                          request: R.RegisterRequest, ip: string, port: int)
      returns (err: bool, ghost longer: seq<Event>)
      requires Valid() && Follows(base, run)
      requires c in world.reg.regs && world.reg.regs[c].Ported? && world.reg.regs[c].request == request
      requires ip == WgAddress(world.reg.regs[c].ip) && port == Port(world.reg.regs[c].port)
      requires uuid != UNASSIGNED && uuid !in pg.providers
      modifies this, pg, redis
      ensures Valid() && Follows(base, longer) && c !in world.reg.regs
      ensures pg.errors + redis.errors == old(pg.errors + redis.errors) + Bit(err)
      ensures !err ==>
        && uuid in pg.providers && pg.providers[uuid] == FreshRow(request, ip, port, pg.now)
        && SoleHolder(pg.providers, uuid)
    {
      longer := Interference(base, run, Registrar(c, uuid));
      err, longer := RegisterRow(base, longer, c, uuid, request, ip, port);
    }

    /** What is left of a registration once it has its address. */
    method RegisterAddressed(ghost base: World, ghost run: seq<Event>, ghost c: nat, uuid: ProviderId,
                             request: R.RegisterRequest, ip: string)
      returns (err: bool, port: int, ghost longer: seq<Event>)
      requires Valid() && Follows(base, run)
      requires c in world.reg.regs && world.reg.regs[c].Addressed? && world.reg.regs[c].request == request
      requires ip == WgAddress(world.reg.regs[c].ip) && uuid != UNASSIGNED && uuid !in pg.providers
      modifies this, pg, redis
      ensures Valid() && Follows(base, longer) && c !in world.reg.regs
      ensures pg.errors + redis.errors == old(pg.errors + redis.errors) + Bit(err)
      ensures !err ==>
        && uuid in pg.providers && pg.providers[uuid] == FreshRow(request, ip, port, pg.now)
        && SoleHolder(pg.providers, uuid)
    {
      longer := Interference(base, run, Registrar(c, uuid));
      err, port, longer := RegisterPort(base, longer, c);
      if !err {
        err, longer := RegisterPorted(base, longer, c, uuid, request, ip, port);
      }
    }

    /** What is left of a registration once its token is validated. */
    method RegisterValidated(ghost base: World, ghost run: seq<Event>, ghost c: nat, uuid: ProviderId,
                             request: R.RegisterRequest)
      returns (err: bool, ip: string, port: int, ghost longer: seq<Event>)
      requires Valid() && Follows(base, run)
      requires c in world.reg.regs && world.reg.regs[c] == R.Validated(request)
      requires uuid != UNASSIGNED && uuid !in pg.providers
      modifies this, pg, redis
      ensures Valid() && Follows(base, longer) && c !in world.reg.regs
      ensures pg.errors + redis.errors == old(pg.errors + redis.errors) + Bit(err)
      ensures !err ==>
        && uuid in pg.providers && pg.providers[uuid] == FreshRow(request, ip, port, pg.now)
        && SoleHolder(pg.providers, uuid)
    {
      ip, port := "", 0;
      longer := Interference(base, run, Registrar(c, uuid));
      err, ip, longer := RegisterAddress(base, longer, c, request);
      if !err {
        err, port, longer := RegisterAddressed(base, longer, c, uuid, request, ip);
      }
    }

    /**
     Registers a provider under a fresh id. Success leaves an online row of the request's columns whose address no other
     row has; the token is reported invalid, before anything is allocated, only if it was empty, never issued or
     revoked.
     */
    method Register(request: R.RegisterRequest, uuid: ProviderId, ghost c: nat)
      returns (r: RegisterResult, ghost run: seq<Event>)
      requires Valid() && c !in world.reg.regs && uuid != UNASSIGNED && uuid !in pg.providers
      modifies this, pg, redis
      ensures Valid() && Follows(old(world), run) && c !in world.reg.regs
      ensures pg.errors + redis.errors == old(pg.errors + redis.errors) + Bit(r.RegisterFailed?)
      ensures r.InvalidToken? ==>
        world == old(world) && !(request.token != "" && request.token in old(redis.tokens))
      ensures r.Registered? ==>
        && request.token != "" && request.token in old(redis.tokens)
        && r.id == uuid && uuid in pg.providers
        && var row := pg.providers[uuid];
        && row.token == request.token && row.pubKey == request.pubKey && row.cpu == request.cpu
        && row.wgIp == r.ip && row.port == r.port && row.status == Online
        && row.activeVms == 0 && row.memFree == 0 && row.lastSeen == pg.now && row.registeredAt == pg.now
        && SoleHolder(pg.providers, uuid)
    {
      ghost var base := world;
      run := [];
      var err, valid := redis.TokenValid(request.token);
      if err {
        return RegisterFailed, run;
      }
      if !valid {
        return InvalidToken, run;
      }
      run := RecordRegister(base, run, c, R.Validate(request));
      var ip, port;
      err, ip, port, run := RegisterValidated(base, run, c, uuid, request);
      r := if err then RegisterFailed else Registered(uuid, ip, port);
    }

    method Heartbeat(id: ProviderId, activeVms: int, memFree: int) returns (err: bool, ghost run: seq<Event>)
      requires Valid()
      modifies this`world, pg`providers, pg`errors
      ensures Valid() && Follows(old(world), run)
      ensures pg.errors == old(pg.errors) + Bit(err)
      ensures pg.providers.Keys == old(pg.providers).Keys
      ensures !err && id in old(pg.providers) ==>
        && id in pg.providers
        && pg.providers[id] ==
             old(pg.providers)[id].(activeVms := activeVms, memFree := memFree, status := Online, lastSeen := pg.now)
      ensures forall other | other in old(pg.providers) && other != id ::
        other in pg.providers && pg.providers[other] == old(pg.providers)[other]
    {
      ghost var applied;
      err, applied := pg.UpdateHeartbeat(id, activeVms, memFree);
      run := [];
      if applied {
        run := Record(world, run, Fleet(R.Heartbeat(id, activeVms, memFree)));
      }
    }

    /** Right after a sweep that succeeded, the rows online are exactly those seen in the last 90 s. */
    method SweepOnce(ghost base: World, ghost run: seq<Event>) returns (err: bool, ghost longer: seq<Event>)
      requires Valid() && Follows(base, run)
      modifies this`world, pg`providers, pg`errors, pg`sweeps
      ensures Valid() && Follows(base, longer)
      ensures pg.errors == old(pg.errors) + Bit(err) && pg.sweeps == old(pg.sweeps) + 1
      ensures !err ==> world.reg.lastSweep == Some(pg.now)
      ensures !err ==> forall id | id in pg.providers ::
        pg.providers[id].status == Online <==> pg.now - pg.providers[id].lastSeen <= R.OFFLINE_AFTER
    {
      ghost var applied;
      err, applied := pg.MarkOffline(R.OFFLINE_AFTER);
      longer := run;
      if applied {
        longer := Record(base, run, Fleet(R.Sweep));
        forall id | id in pg.providers
          ensures pg.providers[id].status == Online <==> pg.now - pg.providers[id].lastSeen <= R.OFFLINE_AFTER
        {
          assert RT.RowOk(world.reg, id);
        }
      }
    }

    /** The ticker loop, for its first ticks: other clients run between one sweep and the next. */
    method SweepOffline(ticks: nat) returns (err: bool, failed: nat, ghost run: seq<Event>)
      requires Valid()
      modifies this, pg, redis
      ensures Valid() && Follows(old(world), run)
      ensures pg.errors + redis.errors == old(pg.errors + redis.errors) + failed && (err ==> failed > 0)
      ensures pg.sweeps == old(pg.sweeps) + ticks
      ensures ticks > 0 && !err ==>
        && world.reg.lastSweep == Some(pg.now)
        && forall id | id in pg.providers ::
             pg.providers[id].status == Online <==> pg.now - pg.providers[id].lastSeen <= R.OFFLINE_AFTER
    {
      ghost var base := world;
      err, failed, run := false, 0, [];
      for n := 0 to ticks
        invariant Valid() && Follows(base, run)
        invariant pg.errors + redis.errors == old(pg.errors + redis.errors) + failed && (err ==> failed > 0)
        invariant pg.sweeps == old(pg.sweeps) + n
        invariant n > 0 && !err ==>
          && world.reg.lastSweep == Some(pg.now)
          && forall id | id in pg.providers ::
               pg.providers[id].status == Online <==> pg.now - pg.providers[id].lastSeen <= R.OFFLINE_AFTER
      {
        run := Interference(base, run, Nobody);
        err, run := SweepOnce(base, run);
        failed := failed + Bit(err);
      }
    }
  }
}
