/**
 The two stores, the tokens and the row locks implement one pool of ready jobs: assigning a job offers it, a poll
 reserves the oldest offer of its provider that nobody else has reserved, and takes it or lets it go.
 */
module Refinement {
  import opened Store
  import opened Dispatch
  import opened DispatchInvariant

  datatype Offer = Offer(provider: ProviderId, createdAt: int)

  datatype Pool = Pool(
    ready: map<JobId, Offer>,
    reserved: map<nat, JobId>,          // by client
    taken: map<JobId, ProviderId>)

  datatype Move =
    | Stutter
    | Add(job: JobId, offer: Offer)
    | Reserve(c: nat, provider: ProviderId, job: JobId)
    | Take(c: nat)
    | Release(c: nat)

  const EMPTY: Pool := Pool(map[], map[], map[])

  ghost predicate Free(t: Pool, p: ProviderId, job: JobId) {
    job in t.ready && t.ready[job].provider == p && forall c | c in t.reserved :: t.reserved[c] != job
  }

  ghost predicate CanMove(t: Pool, m: Move) {
    match m
    case Stutter => true
    case Add(job, _) => job !in t.ready && job !in t.taken
    case Reserve(c, p, job) =>
      && c !in t.reserved && Free(t, p, job)
      && forall other | Free(t, p, other) :: t.ready[job].createdAt <= t.ready[other].createdAt
    case Take(c) => c in t.reserved && t.reserved[c] in t.ready
    case Release(c) => c in t.reserved
  }

  ghost function Moved(t: Pool, m: Move): Pool
    requires CanMove(t, m)
  {
    match m
    case Stutter => t
    case Add(job, offer) => t.(ready := t.ready[job := offer])
    case Reserve(c, _, job) => t.(reserved := t.reserved[c := job])
    case Take(c) =>
      var job := t.reserved[c];
      t.(ready := t.ready - {job}, reserved := t.reserved - {c}, taken := t.taken[job := t.ready[job].provider])
    case Release(c) => t.(reserved := t.reserved - {c})
  }

  ghost predicate CanMoveAll(t: Pool, ms: seq<Move>)
    decreases |ms|
  {
    ms == [] || (CanMove(t, ms[0]) && CanMoveAll(Moved(t, ms[0]), ms[1..]))
  }

  ghost function MovedAll(t: Pool, ms: seq<Move>): Pool
    requires CanMoveAll(t, ms)
    decreases |ms|
  {
    if ms == [] then t else MovedAll(Moved(t, ms[0]), ms[1..])
  }

  // ---- the abstraction ----

  ghost function Ready(jobs: map<JobId, Job>): map<JobId, Offer> {
    map j | j in jobs && jobs[j].status.Scheduled? :: Offer(jobs[j].provider, jobs[j].createdAt)
  }

  ghost function Reserved(polls: map<nat, Poll>): map<nat, JobId> {
    map c | c in polls && polls[c].Locked? :: polls[c].job
  }

  ghost function Taken(jobs: map<JobId, Job>): map<JobId, ProviderId> {
    map j | j in jobs && jobs[j].status.Running? :: jobs[j].provider
  }

  ghost function Abstract(s: State): Pool {
    Pool(Ready(s.jobs), Reserved(s.polls), Taken(s.jobs))
  }

  ghost function AbstractMove(s: State, e: Event): Move
    requires Enabled(s, e)
  {
    match e
    case Submitting(c, step) =>
      if step.Assign? && s.submits[c].job in s.jobs
      then Add(s.submits[c].job, Offer(s.submits[c].provider, s.jobs[s.submits[c].job].createdAt))
      else Stutter
    case Polling(c, step) =>
      (match step
       case Lock(job) => Reserve(c, s.polls[c].provider, job)
       case Commit => Take(c)
       case Rollback => Release(c)
       case _ => Stutter)
    case _ => Stutter
  }

  // ---- the simulation ----

  lemma FreeIsClaimable(s: State, p: ProviderId, job: JobId)
    requires Inv(s)
    ensures Free(Abstract(s), p, job) <==> Claimable(s.jobs, s.locks, p, job)
  {
    assert ClaimOk(s, job);
    forall c | c in s.polls && s.polls[c].Locked? && s.polls[c].job == job
      ensures job in s.locks
    {
      assert PollOk(s, c);
    }
    if job in s.locks {
      assert Reserved(s.polls)[s.locks[job]] == job;
    }
  }

  lemma ReadyAfterInsert(jobs: map<JobId, Job>, j: JobId, row: Job)
    requires j !in jobs && row.status.Pending?
    ensures Ready(jobs[j := row]) == Ready(jobs) && Taken(jobs[j := row]) == Taken(jobs)
  {
  }

  lemma ReadyAfterAssign(jobs: map<JobId, Job>, j: JobId, p: ProviderId)
    requires j in jobs && jobs[j].status.Pending?
    ensures var jobs' := AssignJob(jobs, j, p);
      Ready(jobs') == Ready(jobs)[j := Offer(p, jobs[j].createdAt)] && Taken(jobs') == Taken(jobs)
  {
  }

  lemma ReadyAfterCommit(jobs: map<JobId, Job>, j: JobId)
    requires j in jobs && jobs[j].status.Scheduled?
    ensures var jobs' := MarkRunning(jobs, j);
      Ready(jobs') == Ready(jobs) - {j} && Taken(jobs') == Taken(jobs)[j := jobs[j].provider]
  {
    var jobs' := MarkRunning(jobs, j);
    assert Ready(jobs') == Ready(jobs) - {j};
    assert Taken(jobs') == Taken(jobs)[j := jobs[j].provider];
  }

  lemma SubmitSimulates(s: State, c: nat, step: SubmitStep)
    requires Inv(s) && SubmitEnabled(s, c, step)
    ensures var m := AbstractMove(s, Submitting(c, step));
      CanMove(Abstract(s), m) && Moved(Abstract(s), m) == Abstract(ApplySubmit(s, c, step))
  {
    assert SubmitOk(s, c);
    match step
    case Insert(createdAt) =>
      var m := s.submits[c];
      ReadyAfterInsert(s.jobs, m.job, Job(m.request, UNASSIGNED, Pending, createdAt));
    case Assign => ReadyAfterAssign(s.jobs, s.submits[c].job, s.submits[c].provider);
    case _ =>
  }

  ghost predicate PollStepSimulates(s: State, c: nat, step: PollStep)
    requires PollEnabled(s, c, step)
  {
    var m := AbstractMove(s, Polling(c, step));
    CanMove(Abstract(s), m) && Moved(Abstract(s), m) == Abstract(ApplyPoll(s, c, step))
  }

  lemma LockSimulates(s: State, c: nat, job: JobId)
    requires Inv(s) && PollEnabled(s, c, Lock(job))
    ensures PollStepSimulates(s, c, Lock(job))
  {
    var t, p := Abstract(s), s.polls[c].provider;
    forall other ensures Free(t, p, other) <==> Claimable(s.jobs, s.locks, p, other) { FreeIsClaimable(s, p, other); }
    assert Reserved(ApplyPoll(s, c, Lock(job)).polls) == t.reserved[c := job];
  }

  lemma CommitSimulates(s: State, c: nat)
    requires Inv(s) && PollEnabled(s, c, Commit)
    ensures PollStepSimulates(s, c, Commit)
  {
    assert PollOk(s, c);
    ReadyAfterCommit(s.jobs, s.polls[c].job);
    assert Reserved(ApplyPoll(s, c, Commit).polls) == Abstract(s).reserved - {c};
  }

  lemma RollbackSimulates(s: State, c: nat)
    requires PollEnabled(s, c, Rollback)
    ensures PollStepSimulates(s, c, Rollback)
  {
    assert Reserved(ApplyPoll(s, c, Rollback).polls) == Abstract(s).reserved - {c};
  }

  lemma PollSimulates(s: State, c: nat, step: PollStep)
    requires Inv(s) && PollEnabled(s, c, step)
    ensures PollStepSimulates(s, c, step)
  {
    match step
    case Lock(job) => LockSimulates(s, c, job);
    case Commit => CommitSimulates(s, c);
    case Rollback => RollbackSimulates(s, c);
    case _ => assert Reserved(ApplyPoll(s, c, step).polls) == Abstract(s).reserved;
  }

  lemma StepSimulates(s: State, e: Event)
    requires Inv(s) && Enabled(s, e)
    ensures var m := AbstractMove(s, e); CanMove(Abstract(s), m) && Moved(Abstract(s), m) == Abstract(Apply(s, e))
  {
    match e
    case Submitting(c, step) => SubmitSimulates(s, c, step);
    case Polling(c, step) => PollSimulates(s, c, step);
    case _ =>
  }

  ghost function AbstractRun(s: State, es: seq<Event>): seq<Move>
    requires ValidRun(s, es)
    decreases |es|
  {
    if es == [] then [] else [AbstractMove(s, es[0])] + AbstractRun(Apply(s, es[0]), es[1..])
  }

  lemma {:induction false} RunSimulates(s: State, es: seq<Event>)
    requires Inv(s) && ValidRun(s, es)
    ensures CanMoveAll(Abstract(s), AbstractRun(s, es))
    ensures MovedAll(Abstract(s), AbstractRun(s, es)) == Abstract(Exec(s, es))
    decreases |es|
  {
    if es == [] {
    } else {
      StepSimulates(s, es[0]);
      StepKeepsInv(s, es[0]);
      var s1 := Apply(s, es[0]);
      RunSimulates(s1, es[1..]);
      assert AbstractRun(s, es)[1..] == AbstractRun(s1, es[1..]);
    }
  }

  /** Every run of the protocol is, statement by statement, a run of the pool or a stutter of it. */
  lemma ProtocolRefinesPool(es: seq<Event>)
    requires ValidRun(INITIAL, es)
    ensures CanMoveAll(EMPTY, AbstractRun(INITIAL, es))
    ensures MovedAll(EMPTY, AbstractRun(INITIAL, es)) == Abstract(Exec(INITIAL, es))
  {
    InitialInv();
    assert Abstract(INITIAL) == EMPTY;
    RunSimulates(INITIAL, es);
  }
}
