/** Registry and dispatch side by side: placement reads the provider rows that heartbeats and sweeps keep changing. */
module Platform {
  import opened Store
  import R = Registry
  import D = Dispatch
  import RT = RegistryTheorems
  import DI = DispatchInvariant
  import DT = DispatchTheorems

  datatype World = World(reg: R.State, disp: D.State)

  datatype Event = Fleet(fleet: R.Event) | Jobs(jobs: D.Event)

  function Initial(now: int): World {
    World(R.Initial(now), D.INITIAL)
  }

  /** The foreign key of vms.provider_id, which is checked where the row is inserted and not where it is updated. */
  predicate Storable(w: World, vm: VM) {
    vm.job in w.disp.vms || vm.provider in w.reg.providers
  }

  /** A submit selects what BestProvider answers now; a report meets the foreign key. */
  ghost predicate Enabled(w: World, e: Event) {
    match e
    case Fleet(f) => R.Enabled(w.reg, f)
    case Jobs(d) =>
      && D.Enabled(w.disp, d)
      && (d.Submitting? && d.submit.Select? ==>
            IsBest(w.reg.providers, d.submit.request.cpu, d.submit.request.mem, d.submit.provider))
      && (d.Reporting? && d.report.Process? ==> Storable(w, d.report.vm))
      && (d.Stray? ==> Storable(w, d.vm))
  }

  ghost function Apply(w: World, e: Event): World
    requires Enabled(w, e)
  {
    match e
    case Fleet(f) => World(R.Apply(w.reg, f), w.disp)
    case Jobs(d) => World(w.reg, D.Apply(w.disp, d))
  }

  ghost predicate ValidRun(w: World, es: seq<Event>)
    decreases |es|
  {
    es == [] || (Enabled(w, es[0]) && ValidRun(Apply(w, es[0]), es[1..]))
  }

  ghost function Exec(w: World, es: seq<Event>): World
    requires ValidRun(w, es)
    decreases |es|
  {
    if es == [] then w else Exec(Apply(w, es[0]), es[1..])
  }

  lemma {:induction false} Extend(w: World, es: seq<Event>, e: Event)
    requires ValidRun(w, es) && Enabled(Exec(w, es), e)
    ensures ValidRun(w, es + [e]) && Exec(w, es + [e]) == Apply(Exec(w, es), e)
    decreases |es|
  {
    if es == [] {
      assert ([] + [e])[1..] == [];
    } else {
      Extend(Apply(w, es[0]), es[1..], e);
      assert (es + [e])[1..] == es[1..] + [e];
    }
  }

  lemma {:induction false} Concat(w: World, es: seq<Event>, fs: seq<Event>)
    requires ValidRun(w, es) && ValidRun(Exec(w, es), fs)
    ensures ValidRun(w, es + fs) && Exec(w, es + fs) == Exec(Exec(w, es), fs)
    decreases |es|
  {
    if es == [] {
      assert [] + fs == fs;
    } else {
      Concat(Apply(w, es[0]), es[1..], fs);
      assert (es + fs)[1..] == es[1..] + fs;
    }
  }

  // ---- projections ----

  ghost function JobsOf(es: seq<Event>): seq<D.Event>
    decreases |es|
  {
    if es == [] then [] else (if es[0].Jobs? then [es[0].jobs] else []) + JobsOf(es[1..])
  }

  ghost function FleetOf(es: seq<Event>): seq<R.Event>
    decreases |es|
  {
    if es == [] then [] else (if es[0].Fleet? then [es[0].fleet] else []) + FleetOf(es[1..])
  }

  /** The dispatch events of a platform run are a dispatch run, to the platform's dispatch state. */
  lemma {:induction false} JobsRun(w: World, es: seq<Event>)
    requires ValidRun(w, es)
    ensures D.ValidRun(w.disp, JobsOf(es)) && D.Exec(w.disp, JobsOf(es)) == Exec(w, es).disp
    decreases |es|
  {
    if es == [] {
    } else {
      JobsRun(Apply(w, es[0]), es[1..]);
      if es[0].Jobs? {
        assert JobsOf(es)[1..] == JobsOf(es[1..]);
      } else {
        assert JobsOf(es) == JobsOf(es[1..]);
      }
    }
  }

  /** Its registry events are a registry run, to the platform's registry state. */
  lemma {:induction false} FleetRun(w: World, es: seq<Event>)
    requires ValidRun(w, es)
    ensures R.ValidRun(w.reg, FleetOf(es)) && R.Exec(w.reg, FleetOf(es)) == Exec(w, es).reg
    decreases |es|
  {
    if es == [] {
    } else {
      FleetRun(Apply(w, es[0]), es[1..]);
      if es[0].Fleet? {
        assert FleetOf(es)[1..] == FleetOf(es[1..]);
      } else {
        assert FleetOf(es) == FleetOf(es[1..]);
      }
    }
  }

  // ---- placement ----

  /** The provider exists, has the cores, and has reported free memory if any was asked for. */
  ghost predicate Covers(reg: R.State, p: ProviderId, request: Request) {
    && p in reg.providers && reg.providers[p].cpu >= request.cpu
    && (request.mem > 0 ==> p in reg.heartbeated)
  }

  ghost predicate SubmitPlaced(w: World, c: nat) {
    c in w.disp.submits ==>
      match w.disp.submits[c]
      case Selected(_, p, request) => Covers(w.reg, p, request)
      case Inserted(job, p) => job in w.disp.jobs && Covers(w.reg, p, w.disp.jobs[job].request)
      case Assigned(job, p) => job in w.disp.jobs && Covers(w.reg, p, w.disp.jobs[job].request)
  }

  ghost predicate JobPlaced(w: World, j: JobId) {
    j in w.disp.jobs && !w.disp.jobs[j].status.Pending? ==>
      Covers(w.reg, w.disp.jobs[j].provider, w.disp.jobs[j].request)
  }

  ghost predicate Inv(w: World) {
    && RT.Inv(w.reg) && DI.Inv(w.disp)
    && (forall c :: SubmitPlaced(w, c))
    && (forall j :: JobPlaced(w, j))
  }

  lemma FleetKeepsCover(s: R.State, e: R.Event, p: ProviderId, request: Request)
    requires R.Enabled(s, e) && Covers(s, p, request)
    ensures Covers(R.Apply(s, e), p, request)
  {
    match e
    case Registering(c, step) => RT.RegisterFrame(s, c, step);
    case Beating(id, step) => RT.AgentFrame(s, id, step);
    case _ => RT.OtherFrame(s, e);
  }

  lemma FleetKeepsInv(w: World, f: R.Event)
    requires Inv(w) && Enabled(w, Fleet(f))
    ensures Inv(Apply(w, Fleet(f)))
  {
    var w' := Apply(w, Fleet(f));
    RT.StepKeepsInv(w.reg, f);
    forall c ensures SubmitPlaced(w', c) {
      assert SubmitPlaced(w, c);
      if c in w.disp.submits {
        match w.disp.submits[c]
        case Selected(_, p, request) => FleetKeepsCover(w.reg, f, p, request);
        case Inserted(job, p) => FleetKeepsCover(w.reg, f, p, w.disp.jobs[job].request);
        case Assigned(job, p) => FleetKeepsCover(w.reg, f, p, w.disp.jobs[job].request);
      }
    }
    forall j ensures JobPlaced(w', j) {
      assert JobPlaced(w, j);
      if j in w.disp.jobs && !w.disp.jobs[j].status.Pending? {
        FleetKeepsCover(w.reg, f, w.disp.jobs[j].provider, w.disp.jobs[j].request);
      }
    }
  }

  lemma SubmitKeepsPlacement(w: World, c: nat, step: D.SubmitStep)
    requires Inv(w) && Enabled(w, Jobs(D.Submitting(c, step)))
    ensures var w' := World(w.reg, D.ApplySubmit(w.disp, c, step));
      (forall d :: SubmitPlaced(w', d)) && (forall j :: JobPlaced(w', j))
  {
    var w' := World(w.reg, D.ApplySubmit(w.disp, c, step));
    forall d ensures SubmitPlaced(w', d) {
      assert DI.SubmitOk(w.disp, c) && DI.SubmitOk(w.disp, d) && SubmitPlaced(w, c) && SubmitPlaced(w, d);
      if step.Select? {
        assert RT.RowOk(w.reg, step.provider);
      }
    }
    forall j ensures JobPlaced(w', j) {
      assert DI.SubmitOk(w.disp, c) && SubmitPlaced(w, c) && JobPlaced(w, j);
    }
  }

  lemma PollKeepsPlacement(w: World, c: nat, step: D.PollStep)
    requires Inv(w) && D.PollEnabled(w.disp, c, step)
    ensures var w' := World(w.reg, D.ApplyPoll(w.disp, c, step));
      (forall d :: SubmitPlaced(w', d)) && (forall j :: JobPlaced(w', j))
  {
    var w' := World(w.reg, D.ApplyPoll(w.disp, c, step));
    forall d ensures SubmitPlaced(w', d) {
      assert SubmitPlaced(w, d) && DI.PollOk(w.disp, c);
    }
    forall j ensures JobPlaced(w', j) {
      assert JobPlaced(w, j) && DI.PollOk(w.disp, c);
    }
  }

  lemma ReportKeepsPlacement(w: World, d: D.Event)
    requires Inv(w) && D.Enabled(w.disp, d) && (d.Reporting? || d.Stray?)
    ensures var w' := World(w.reg, D.Apply(w.disp, d));
      (forall c :: SubmitPlaced(w', c)) && (forall j :: JobPlaced(w', j))
  {
    var w' := World(w.reg, D.Apply(w.disp, d));
    forall c ensures SubmitPlaced(w', c) { assert SubmitPlaced(w, c); }
    forall j ensures JobPlaced(w', j) { assert JobPlaced(w, j); }
  }

  lemma StepKeepsInv(w: World, e: Event)
    requires Inv(w) && Enabled(w, e)
    ensures Inv(Apply(w, e))
  {
    match e
    case Fleet(f) => FleetKeepsInv(w, f);
    case Jobs(d) =>
      DI.StepKeepsInv(w.disp, d);
      match d {
        case Submitting(c, step) => SubmitKeepsPlacement(w, c, step);
        case Polling(c, step) => PollKeepsPlacement(w, c, step);
        case _ => ReportKeepsPlacement(w, d);
      }
  }

  lemma InitialInv(now: int)
    ensures Inv(Initial(now))
  {
    RT.InitialInv(now);
    DI.InitialInv();
  }

  lemma {:induction false} RunKeepsInv(w: World, es: seq<Event>)
    requires Inv(w) && ValidRun(w, es)
    ensures Inv(Exec(w, es))
    decreases |es|
  {
    if es == [] {
    } else {
      StepKeepsInv(w, es[0]);
      RunKeepsInv(Apply(w, es[0]), es[1..]);
    }
  }

  /** In any run, rows of vms and replies are never taken back. */
  lemma RunOnlyGrows(w: World, es: seq<Event>)
    requires ValidRun(w, es)
    ensures DT.Grows(w.disp, Exec(w, es).disp)
  {
    JobsRun(w, es);
    DT.RunGrows(w.disp, JobsOf(es));
  }

  /** From any reachable world on, a job row only moves forward. */
  lemma RunMovesForward(w: World, es: seq<Event>, j: JobId)
    requires Inv(w) && ValidRun(w, es)
    ensures DT.Forward(w.disp, Exec(w, es).disp, j)
  {
    JobsRun(w, es);
    DT.LifeCycle(w.disp, JobsOf(es), j);
  }

  /**
   Every scheduled or running job names a registered provider with the cores it asked for, and one that had already
   sent a heartbeat if it asked for memory, whatever happened between selection and assignment.
   */
  lemma Placement(start: int, es: seq<Event>, j: JobId)
    requires ValidRun(Initial(start), es)
    requires var w := Exec(Initial(start), es); j in w.disp.jobs && w.disp.jobs[j].status != Pending
    ensures var w := Exec(Initial(start), es);
      var job := w.disp.jobs[j];
      && job.provider in w.reg.providers && w.reg.providers[job.provider].cpu >= job.request.cpu
      && (job.request.mem > 0 ==> job.provider in w.reg.heartbeated)
  {
    InitialInv(start);
    RunKeepsInv(Initial(start), es);
    assert JobPlaced(Exec(Initial(start), es), j);
  }

  /** A submit only ever selects a provider that is online and has the cores and the free memory, most of all such. */
  lemma SelectionFits(w: World, c: nat, job: JobId, p: ProviderId, request: Request)
    requires Enabled(w, Jobs(D.Submitting(c, D.Select(job, p, request))))
    ensures p in w.reg.providers && w.reg.providers[p].status == Online
    ensures w.reg.providers[p].cpu >= request.cpu && w.reg.providers[p].memFree >= request.mem
    ensures forall other | other in w.reg.providers && w.reg.providers[other].status == Online
                           && w.reg.providers[other].cpu >= request.cpu
                           && w.reg.providers[other].memFree >= request.mem ::
              w.reg.providers[other].memFree <= w.reg.providers[p].memFree
  {
  }

  /** While sweeps are timely, a provider it selects has not been unseen for more than 150 s. */
  lemma SelectionIsFresh(start: int, es: seq<Event>, c: nat, job: JobId, p: ProviderId, request: Request)
    requires ValidRun(Initial(start), es)
    requires var w := Exec(Initial(start), es);
      && Enabled(w, Jobs(D.Submitting(c, D.Select(job, p, request))))
      && w.reg.lastSweep.Some? && w.reg.now - w.reg.lastSweep.value <= R.SWEEP_PERIOD
    ensures var w := Exec(Initial(start), es);
      && p in w.reg.providers && w.reg.now - w.reg.providers[p].lastSeen <= 150 * R.SECOND
      && w.reg.providers[p].cpu >= request.cpu && w.reg.providers[p].memFree >= request.mem
  {
    InitialInv(start);
    RunKeepsInv(Initial(start), es);
    var w := Exec(Initial(start), es);
    SelectionFits(w, c, job, p, request);
    assert RT.RowOk(w.reg, p);
  }

  /** The foreign key of vms never refuses the report of a delivered job. */
  lemma ReportMeetsForeignKey(start: int, es: seq<Event>, k: nat, vm: VM)
    requires ValidRun(Initial(start), es)
    requires D.Enabled(Exec(Initial(start), es).disp, D.Reporting(k, D.Process(vm)))
    ensures vm.provider in Exec(Initial(start), es).reg.providers
    ensures Enabled(Exec(Initial(start), es), Jobs(D.Reporting(k, D.Process(vm))))
  {
    InitialInv(start);
    RunKeepsInv(Initial(start), es);
    var w := Exec(Initial(start), es);
    assert DI.DeliveryOk(w.disp, k) && JobPlaced(w, w.disp.delivered[k].job);
  }
}
