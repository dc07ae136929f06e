/** What the provider's agent does with a job it receives. */
module Agent {
  import opened Store
  import opened Counting
  import opened Clients
  import opened Platform
  import opened ControlPlane
  import D = Dispatch
  import DI = DispatchInvariant
  import DT = DispatchTheorems

  /** What vm.Spawn, vm.SpawnContainer or vm.SpawnSSH answers; port is what SpawnSSH detected. */
  datatype Answer = Spawned(ip: string, port: int) | SpawnFailed(error: string)

  /** The modes in which handleJob spawns anything. */
  predicate KnownMode(mode: string) {
    mode == "firecracker" || mode == "container" || mode == "ssh"
  }

  /** What handling a job came to: in a mode that the switch does not list nobody is asked. */
  datatype Outcome = Asked(answer: Answer) | NothingSpawned

  function OutcomeOf(mode: string, answer: Answer): Outcome {
    if KnownMode(mode) then Asked(answer) else NothingSpawned
  }

  /** The report of handleJob. */
  function ReportOf(mode: string, job: JobId, provider: ProviderId, tunnelPort: int, outcome: Outcome): VM {
    match outcome
    case NothingSpawned => VM(job, provider, "", 0, "running", "")
    case Asked(Spawned(ip, port)) => VM(job, provider, ip, if mode == "ssh" then port else tunnelPort, "running", "")
    case Asked(SpawnFailed(error)) => VM(job, provider, "", 0, "failed", error)
  }

  /** answer is what the spawn function of the mode will say, if it is called at all. */
  method HandleJob(mode: string, job: JobId, provider: ProviderId, tunnelPort: int, answer: Answer) returns (report: VM)
    ensures report == ReportOf(mode, job, provider, tunnelPort, OutcomeOf(mode, answer))
    ensures report.job == job && report.provider == provider
    ensures KnownMode(mode) && answer.Spawned? ==>
      && report.status == "running" && report.error == "" && report.ip == answer.ip
      && report.port == (if mode == "ssh" then answer.port else tunnelPort)
    ensures KnownMode(mode) && answer.SpawnFailed? ==>
      report.status == "failed" && report.error == answer.error && report.ip == "" && report.port == 0
    ensures mode != "firecracker" && mode != "container" && mode != "ssh" ==>
      report.status == "running" && report.error == "" && report.ip == "" && report.port == 0
  {
    var vmIp, reportPort := "", 0;
    var spawnErr: Option<string> := None;
    if mode == "firecracker" || mode == "container" {
      match answer {
        case Spawned(ip, _) =>
          vmIp := ip;
          reportPort := tunnelPort;
        case SpawnFailed(error) =>
          spawnErr := Some(error);
      }
    } else if mode == "ssh" {
      match answer {
        case Spawned(ip, port) =>
          vmIp := ip;
          reportPort := port;
        case SpawnFailed(error) =>
          spawnErr := Some(error);
      }
    }
    report := VM(job, provider, "", reportPort, "", "");
    if spawnErr.Some? {
      report := report.(status := "failed", error := spawnErr.value);
    } else {
      report := report.(status := "running", ip := vmIp);
    }
  }

  /** The report is honest: it says running, with the machine's address, exactly when a machine was spawned. */
  predicate Honest(report: VM, outcome: Outcome) {
    && (report.status == "running" <==> outcome.Asked? && outcome.answer.Spawned?)
    && (report.status == "running" && outcome.Asked? && outcome.answer.Spawned? ==> report.ip == outcome.answer.ip)
  }

  /** Whatever a spawn would answer, the report is honest exactly in the three modes that the switch lists. */
  lemma HonestExactlyInKnownModes(mode: string, job: JobId, provider: ProviderId, tunnelPort: int, answer: Answer)
    ensures var outcome := OutcomeOf(mode, answer);
      Honest(ReportOf(mode, job, provider, tunnelPort, outcome), outcome) <==> KnownMode(mode)
  {
    assert "running"[0] != "failed"[0];
  }

  /** The job was delivered and runs for the provider, and unless a stray report named it, its vms row is the report. */
  ghost predicate Recorded(w: World, job: JobId, provider: ProviderId, report: VM) {
    && job in w.disp.vms && (job !in w.disp.strays ==> w.disp.vms[job] == report)
    && DI.RunningFor(w.disp, job, provider) && job in w.disp.repliedAt
  }

  /** So it stays, whatever anybody does later. */
  lemma RecordedLasts(w: World, es: seq<Event>, job: JobId, provider: ProviderId, report: VM)
    requires Inv(w) && ValidRun(w, es) && Recorded(w, job, provider, report)
    ensures Recorded(Exec(w, es), job, provider, report)
  {
    JobsRun(w, es);
    RunOnlyGrows(w, es);
    RunMovesForward(w, es, job);
    assert DI.JobOk(w.disp, job);
    DT.StraysOnlyGrow(w.disp, JobsOf(es));
    if job !in Exec(w, es).disp.strays {
      DT.VmRowsAreFinal(w.disp, JobsOf(es), job);
    }
  }

  /** A provider's agent, and what a spawn for each job would answer. */
  datatype Node = Node(provider: ProviderId, mode: string, tunnelPort: int, spawn: JobId -> Answer)

  function ReportBy(node: Node, job: JobId): VM {
    ReportOf(node.mode, job, node.provider, node.tunnelPort, OutcomeOf(node.mode, node.spawn(job)))
  }

  /** The handler of a job that was delivered as the k-th, once others have had their turn. */
  method HandleNow(service: Service, node: Node, job: JobId, ghost k: nat)
    returns (err: bool, report: VM, ghost run: seq<Event>)
    requires service.Valid()
    requires k < |service.world.disp.delivered| && k !in service.world.disp.reported
    requires service.world.disp.delivered[k].job == job && service.world.disp.delivered[k].provider == node.provider
    modifies service`world, service.pg`vms, service.pg`errors
    ensures service.Valid() && service.Follows(old(service.world), run)
    ensures service.pg.errors == old(service.pg.errors) + Bit(err)
    ensures var s, s' := old(service.world).disp, service.world.disp;
      && s'.polls == s.polls && s'.delivered == s.delivered && s'.reported == s.reported + {k}
      && s'.heard == s.heard && s'.unheard == s.unheard
    ensures report == ReportBy(node, job) && (!err ==> Recorded(service.world, job, node.provider, report))
  {
    assert DI.DeliveryOk(service.world.disp, k);
    report := HandleJob(node.mode, job, node.provider, node.tunnelPort, node.spawn(job));
    assert D.ReportEnabled(service.world.disp, k, D.Process(report));
    err, run := service.ReportVM(report, k);
  }

  /** Handle a job that was delivered as the k-th to an agent that polls as c and owes these reports, and report it. */
  method HandleAndReport(service: Service, node: Node, job: JobId, ghost c: nat, ghost owed: set<nat>, ghost k: nat)
    returns (err: bool, report: VM, ghost run: seq<Event>)
    requires service.Valid() && c !in service.world.disp.polls
    requires Owing(service.world, owed) && k in owed
    requires service.world.disp.delivered[k].job == job && service.world.disp.delivered[k].provider == node.provider
    modifies service, service.pg, service.redis
    ensures service.Valid() && service.Follows(old(service.world), run) && c !in service.world.disp.polls
    ensures service.pg.errors + service.redis.errors == old(service.pg.errors + service.redis.errors) + Bit(err)
    ensures service.redis.pops == old(service.redis.pops)
    ensures Owing(service.world, owed - {k}) && k in service.world.disp.reported
    ensures SameAnswers(old(service.world), service.world, c)
    ensures report == ReportBy(node, job) && (!err ==> Recorded(service.world, job, node.provider, report))
  {
    ghost var base := service.world;
    run := service.Interference(base, [], Poller(c, owed));
    RunOnlyGrows(base, run);
    ghost var tail;
    err, report, tail := HandleNow(service, node, job, k);
    Concat(base, run, tail);
    run := run + tail;
  }

  // ---- the jobs an agent has received ----

  datatype Progress = Handling | GotThrough(report: VM) | NotThrough

  datatype Work = Work(job: JobId, progress: Progress)

  function JobsIn(work: seq<Work>): seq<JobId> {
    seq(|work|, i requires 0 <= i < |work| => work[i].job)
  }

  function Tally(work: seq<Work>, f: Progress -> bool): nat {
    if work == [] then 0 else Tally(work[..|work| - 1], f) + Bit(f(work[|work| - 1].progress))
  }

  function IsFailure(): Progress -> bool {
    (p: Progress) => p.NotThrough?
  }

  function IsDone(): Progress -> bool {
    (p: Progress) => !p.Handling?
  }

  /** The k-th delivery was of this job to this agent; it owes the report exactly while it is handling the job. */
  ghost predicate WorkOk(w: World, node: Node, item: Work, k: nat) {
    && k < |w.disp.delivered|
    && w.disp.delivered[k].job == item.job && w.disp.delivered[k].provider == node.provider
    && (item.progress.Handling? <==> k !in w.disp.reported)
    && (item.progress.GotThrough? ==>
          && item.progress.report == ReportBy(node, item.job)
          && Recorded(w, item.job, node.provider, item.progress.report))
  }

  ghost predicate AllWorkOk(w: World, node: Node, work: seq<Work>, ks: seq<nat>) {
    && |work| == |ks|
    && (forall i | 0 <= i < |ks| :: WorkOk(w, node, work[i], ks[i]))
    && (forall i, j | 0 <= i < j < |ks| :: ks[i] != ks[j])
  }

  ghost function Owed(work: seq<Work>, ks: seq<nat>): set<nat>
    requires |work| == |ks|
  {
    set i | 0 <= i < |ks| && work[i].progress.Handling? :: ks[i]
  }

  /** Whatever others do, work that stands remains so while the reports that are owed are left alone. */
  lemma WorkLasts(w: World, es: seq<Event>, node: Node, work: seq<Work>, ks: seq<nat>, i: nat)
    requires Inv(w) && ValidRun(w, es) && AllWorkOk(w, node, work, ks) && i < |ks|
    requires work[i].progress.Handling? ==> ks[i] !in Exec(w, es).disp.reported
    ensures WorkOk(Exec(w, es), node, work[i], ks[i])
  {
    RunOnlyGrows(w, es);
    assert WorkOk(w, node, work[i], ks[i]);
    if work[i].progress.GotThrough? {
      RecordedLasts(w, es, work[i].job, node.provider, work[i].progress.report);
    }
  }

  lemma AllWorkLasts(w: World, es: seq<Event>, node: Node, work: seq<Work>, ks: seq<nat>)
    requires Inv(w) && ValidRun(w, es) && AllWorkOk(w, node, work, ks)
    requires Owing(Exec(w, es), Owed(work, ks))
    ensures AllWorkOk(Exec(w, es), node, work, ks)
  {
    forall i: nat | i < |ks| ensures WorkOk(Exec(w, es), node, work[i], ks[i]) {
      if work[i].progress.Handling? {
        assert ks[i] in Owed(work, ks);
      }
      WorkLasts(w, es, node, work, ks, i);
    }
  }

  /** A job just received is one job more to handle. */
  lemma JobReceived(before: World, w: World, node: Node, work: seq<Work>, ks: seq<nat>, job: JobId)
    requires AllWorkOk(before, node, work, ks) && AllWorkOk(w, node, work, ks)
    requires JustDelivered(w, node.provider, job) && |before.disp.delivered| < |w.disp.delivered|
    ensures AllWorkOk(w, node, work + [Work(job, Handling)], ks + [|w.disp.delivered| - 1])
    ensures JobsIn(work + [Work(job, Handling)]) == JobsIn(work) + [job]
    ensures forall f: Progress -> bool :: Tally(work + [Work(job, Handling)], f) == Tally(work, f) + Bit(f(Handling))
  {
    var more := work + [Work(job, Handling)];
    assert more[..|work|] == work;
    assert forall i | 0 <= i < |ks| :: WorkOk(before, node, work[i], ks[i]);
  }

  lemma {:induction false} TallyUpdate(work: seq<Work>, i: nat, item: Work, f: Progress -> bool)
    requires i < |work|
    ensures Tally(work[i := item], f) == Tally(work, f) - Bit(f(work[i].progress)) + Bit(f(item.progress))
  {
    var n := |work| - 1;
    if i < n {
      TallyUpdate(work[..n], i, item, f);
      assert work[i := item][..n] == work[..n][i := item];
    } else {
      assert work[i := item][..n] == work[..n];
    }
  }

  lemma StillDelivered(before: World, es: seq<Event>, node: Node, was: Work, item: Work, k: nat)
    requires ValidRun(before, es) && WorkOk(before, node, was, k)
    requires item.job == was.job && !item.progress.Handling? && k in Exec(before, es).disp.reported
    requires item.progress.GotThrough? ==>
      && item.progress.report == ReportBy(node, item.job)
      && Recorded(Exec(before, es), item.job, node.provider, item.progress.report)
    ensures WorkOk(Exec(before, es), node, item, k)
  {
    RunOnlyGrows(before, es);
  }

  /** A job whose handler has reported is handled no more. */
  lemma JobFinished(before: World, es: seq<Event>, node: Node, work: seq<Work>, ks: seq<nat>, i: nat, item: Work)
    requires Inv(before) && ValidRun(before, es) && AllWorkOk(before, node, work, ks)
    requires i < |ks| && work[i].progress.Handling? && item.job == work[i].job && !item.progress.Handling?
    requires ks[i] in Exec(before, es).disp.reported
    requires item.progress.GotThrough? ==>
      && item.progress.report == ReportBy(node, item.job)
      && Recorded(Exec(before, es), item.job, node.provider, item.progress.report)
    requires Owing(Exec(before, es), Owed(work, ks) - {ks[i]})
    ensures AllWorkOk(Exec(before, es), node, work[i := item], ks) && JobsIn(work[i := item]) == JobsIn(work)
    ensures Tally(work[i := item], IsDone()) == Tally(work, IsDone()) + 1
    ensures Tally(work[i := item], IsFailure()) == Tally(work, IsFailure()) + Bit(item.progress.NotThrough?)
  {
    StillDelivered(before, es, node, work[i], item, ks[i]);
    TallyUpdate(work, i, item, IsDone());
    TallyUpdate(work, i, item, IsFailure());
    forall j: nat | j < |ks| && j != i ensures WorkOk(Exec(before, es), node, work[j], ks[j]) {
      if work[j].progress.Handling? {
        assert ks[j] in Owed(work, ks) - {ks[i]};
      }
      WorkLasts(before, es, node, work, ks, j);
    }
  }

  lemma NeverDelivered(w: World, es: seq<Event>, job: JobId)
    requires Inv(w) && ValidRun(w, es)
    requires var n := |Exec(w, es).disp.delivered|;
      |w.disp.delivered| < n && forall k | 0 <= k < n - 1 :: Exec(w, es).disp.delivered[k].job != job
    ensures job !in w.disp.repliedAt
  {
    RunOnlyGrows(w, es);
    assert DI.ClaimOk(w.disp, job);
  }

  /**
   One turn of the job loop, end to end: poll, handle, report. A job that is received was never delivered before, and
   its report is answered with an error, or else it is running and assigned to this provider, and unless a stray report
   named it, its vms row is this agent's report.
   */
  method ServeOne(service: Service, node: Node, c: nat) returns (item: Option<Work>, ghost run: seq<Event>)
    requires service.Valid() && c !in service.world.disp.polls
    modifies service, service.pg, service.redis
    ensures service.Valid() && service.Follows(old(service.world), run) && c !in service.world.disp.polls
    ensures D.RepliesOf(service.world.disp.heard, c) ==
      D.RepliesOf(old(service.world).disp.heard, c) + if item.Some? then [item.value.job] else []
    ensures item.Some? ==>
      && item.value.job !in old(service.world).disp.repliedAt && !item.value.progress.Handling?
      && service.pg.errors + service.redis.errors
         == old(service.pg.errors + service.redis.errors) + Bit(item.value.progress.NotThrough?)
    ensures item.Some? && item.value.progress.GotThrough? ==>
      var report := item.value.progress.report;
      report == ReportBy(node, item.value.job) && Recorded(service.world, item.value.job, node.provider, report)
  {
    ghost var base := service.world;
    var reply;
    reply, run := service.PollJobs(node.provider, c, {});
    item := None;
    if reply.JobReply? {
      ghost var k := |service.world.disp.delivered| - 1;
      NeverDelivered(base, run, reply.job);
      var err, report;
      ghost var tail;
      err, report, tail := HandleAndReport(service, node, reply.job, c, {k}, k);
      Concat(base, run, tail);
      run := run + tail;
      item := Some(Work(reply.job, if err then NotThrough else GotThrough(report)));
    }
  }

  /** The jobs that an agent polling as c has heard of since its history of replies was this. */
  ghost predicate Received(w: World, c: nat, since: seq<JobId>, work: seq<Work>) {
    D.RepliesOf(w.disp.heard, c) == since + JobsIn(work)
  }

  /** An agent polling as c has received exactly these jobs, and of each the report is owed, got through or failed. */
  ghost predicate Working(w: World, c: nat, since: seq<JobId>, node: Node, work: seq<Work>, ks: seq<nat>) {
    c !in w.disp.polls && AllWorkOk(w, node, work, ks) && Received(w, c, since, work)
  }

  /** Other clients go on while the agent waits. */
  method WaitForOthers(service: Service, ghost c: nat, ghost since: seq<JobId>, ghost node: Node, ghost work: seq<Work>,
                       ghost ks: seq<nat>) returns (ghost run: seq<Event>)
    requires service.Valid() && Working(service.world, c, since, node, work, ks)
    modifies service, service.pg, service.redis
    ensures service.Valid() && service.Follows(old(service.world), run)
    ensures service.pg.errors + service.redis.errors == old(service.pg.errors + service.redis.errors)
    ensures service.redis.pops == old(service.redis.pops)
    ensures Working(service.world, c, since, node, work, ks)
  {
    ghost var before := service.world;
    run := service.Interference(before, [], Poller(c, Owed(work, ks)));
    AllWorkLasts(before, run, node, work, ks);
  }

  /** The job loop polls: a job it receives is handed to a handler of its own. */
  method PollNext(service: Service, node: Node, c: nat, ghost since: seq<JobId>, work: seq<Work>, ghost ks: seq<nat>)
    returns (failed: bool, more: seq<Work>, ghost moreKs: seq<nat>, ghost run: seq<Event>)
    requires service.Valid() && Working(service.world, c, since, node, work, ks)
    modifies service, service.pg, service.redis
    ensures service.Valid() && service.Follows(old(service.world), run)
    ensures service.pg.errors + service.redis.errors == old(service.pg.errors + service.redis.errors) + Bit(failed)
    ensures service.redis.pops == old(service.redis.pops) + 1
    ensures Working(service.world, c, since, node, more, moreKs)
    ensures Tally(more, IsFailure()) == Tally(work, IsFailure()) && Tally(more, IsDone()) == Tally(work, IsDone())
  {
    ghost var before := service.world;
    var reply;
    reply, run := service.PollJobs(node.provider, c, Owed(work, ks));
    AllWorkLasts(before, run, node, work, ks);
    failed, more, moreKs := reply.ServerError?, work, ks;
    if reply.JobReply? {
      JobReceived(before, service.world, node, work, ks, reply.job);
      more, moreKs := work + [Work(reply.job, Handling)], ks + [|service.world.disp.delivered| - 1];
    }
  }

  /** One of the handlers comes to its end. */
  method FinishOne(service: Service, node: Node, ghost c: nat, ghost since: seq<JobId>, work: seq<Work>,
                   ghost ks: seq<nat>, i: nat) returns (after: seq<Work>, ghost run: seq<Event>)
    requires service.Valid() && Working(service.world, c, since, node, work, ks)
    requires i < |work| && work[i].progress.Handling?
    modifies service, service.pg, service.redis
    ensures service.Valid() && service.Follows(old(service.world), run)
    ensures service.redis.pops == old(service.redis.pops) && Tally(after, IsDone()) == Tally(work, IsDone()) + 1
    ensures service.pg.errors + service.redis.errors - Tally(after, IsFailure())
            == old(service.pg.errors + service.redis.errors) - Tally(work, IsFailure())
    ensures Working(service.world, c, since, node, after, ks)
  {
    ghost var before := service.world;
    assert WorkOk(before, node, work[i], ks[i]) && ks[i] in Owed(work, ks);
    var err, report;
    err, report, run := HandleAndReport(service, node, work[i].job, c, Owed(work, ks), ks[i]);
    var item := Work(work[i].job, if err then NotThrough else GotThrough(report));
    JobFinished(before, run, node, work, ks, i, item);
    after := work[i := item];
  }

  /** Either a handler comes to its end, or the job loop polls. */
  method TakeTurn(service: Service, node: Node, c: nat, ghost since: seq<JobId>, work: seq<Work>, ghost ks: seq<nat>)
    returns (failed: bool, after: seq<Work>, ghost ks': seq<nat>, ghost run: seq<Event>)
    requires service.Valid() && Working(service.world, c, since, node, work, ks)
    modifies service, service.pg, service.redis
    ensures service.Valid() && service.Follows(old(service.world), run)
    ensures service.redis.pops + Tally(after, IsDone()) == old(service.redis.pops) + Tally(work, IsDone()) + 1
    ensures service.pg.errors + service.redis.errors - Tally(after, IsFailure())
            == old(service.pg.errors + service.redis.errors) - Tally(work, IsFailure()) + Bit(failed)
    ensures Working(service.world, c, since, node, after, ks')
  {
    var finish: bool := *;
    if finish {
      if i: nat :| i < |work| && work[i].progress.Handling? {
        failed, ks' := false, ks;
        after, run := FinishOne(service, node, c, since, work, ks, i);
        return;
      }
    }
    failed, after, ks', run := PollNext(service, node, c, since, work, ks);
  }

  /** What the ghost numbers of the deliveries say of the jobs. */
  lemma WorkStands(w: World, node: Node, work: seq<Work>, ks: seq<nat>)
    requires Inv(w) && AllWorkOk(w, node, work, ks)
    ensures forall i | 0 <= i < |work| ::
      && work[i].job in w.disp.repliedAt && w.disp.repliedAt[work[i].job] == ks[i]
      && DI.RunningFor(w.disp, work[i].job, node.provider) && WorkOk(w, node, work[i], ks[i])
    ensures forall i, j | 0 <= i < j < |work| :: work[i].job != work[j].job
  {
    forall i: nat | i < |work|
      ensures work[i].job in w.disp.repliedAt && w.disp.repliedAt[work[i].job] == ks[i]
      ensures DI.RunningFor(w.disp, work[i].job, node.provider) && WorkOk(w, node, work[i], ks[i])
    {
      assert WorkOk(w, node, work[i], ks[i]) && DI.DeliveryOk(w.disp, ks[i]);
    }
  }

  /**
   The job loop and its handlers, for their first turns in any order, while all other clients go on: each turn is a poll
   or the end of a handler. The agent is at work on exactly the jobs it has heard of, each of them once. It owes the
   report exactly of those whose handler has not come to an end; a report that was not answered with an error is the
   job's row of vms, unless a stray report named it.
   */
  method ServeJobs(service: Service, node: Node, turns: nat, c: nat)
    returns (work: seq<Work>, failedPolls: nat, ghost run: seq<Event>)
    requires service.Valid() && c !in service.world.disp.polls
    modifies service, service.pg, service.redis
    ensures service.Valid() && service.Follows(old(service.world), run)
    ensures D.RepliesOf(service.world.disp.heard, c) == D.RepliesOf(old(service.world).disp.heard, c) + JobsIn(work)
    ensures forall i, j | 0 <= i < j < |work| :: work[i].job != work[j].job
    ensures forall i | 0 <= i < |work| ::
      && DI.RunningFor(service.world.disp, work[i].job, node.provider) && work[i].job in service.world.disp.repliedAt
      && (work[i].progress.Handling? <==>
          service.world.disp.repliedAt[work[i].job] !in service.world.disp.reported)
    ensures forall i | 0 <= i < |work| && work[i].progress.GotThrough? ::
      && work[i].progress.report == ReportBy(node, work[i].job)
      && Recorded(service.world, work[i].job, node.provider, work[i].progress.report)
    ensures service.pg.errors + service.redis.errors
            == old(service.pg.errors + service.redis.errors) + failedPolls + Tally(work, IsFailure())
    ensures service.redis.pops + Tally(work, IsDone()) == old(service.redis.pops) + turns
  {
    ghost var base, since := service.world, D.RepliesOf(service.world.disp.heard, c);
    ghost var ks := [];
    work, failedPolls, run := [], 0, [];
    for n := 0 to turns
      invariant service.Valid() && service.Follows(base, run)
      invariant Working(service.world, c, since, node, work, ks)
      invariant service.pg.errors + service.redis.errors
                == old(service.pg.errors + service.redis.errors) + failedPolls + Tally(work, IsFailure())
      invariant service.redis.pops + Tally(work, IsDone()) == old(service.redis.pops) + n
    {
      ghost var tail := WaitForOthers(service, c, since, node, work, ks);
      Concat(base, run, tail);
      run := run + tail;
      var failed;
      failed, work, ks, tail := TakeTurn(service, node, c, since, work, ks);
      Concat(base, run, tail);
      run := run + tail;
      failedPolls := failedPolls + Bit(failed);
    }
    WorkStands(service.world, node, work, ks);
  }
}
