/** What every step of the dispatch protocol keeps. */
module DispatchInvariant {
  import opened Store
  import opened Counting
  import opened Dispatch

  // ---- the invariant, one client, one job and one delivery at a time ----

  /** A submit owns the job id it drew, and the job's row stands where the submit's last statement left it. */
  ghost predicate SubmitOk(s: State, c: nat) {
    c in s.submits ==>
      var m := s.submits[c];
      && m.job in s.owner && s.owner[m.job] == c && m.provider != UNASSIGNED
      && match m
         case Selected(job, _, _) => job !in s.jobs
         case Inserted(job, _) => job in s.jobs && s.jobs[job].status.Pending?
         case Assigned(job, provider) =>
           job in s.jobs && !s.jobs[job].status.Pending? && s.jobs[job].provider == provider
  }

  ghost predicate Assigning(s: State, j: JobId) {
    && j in s.owner && s.owner[j] in s.submits
    && s.submits[s.owner[j]].Assigned? && s.submits[s.owner[j]].job == j
  }

  /**
   A job is pending exactly while it names no provider; once it names one, its token is exactly one of:
   about to be pushed, pushed, or given up.
   */
  ghost predicate JobOk(s: State, j: JobId) {
    && (j in s.jobs ==>
          && j in s.owner
          && (s.jobs[j].status.Pending? <==> s.jobs[j].provider == UNASSIGNED))
    && (j in s.jobs && !s.jobs[j].status.Pending? <==> j in s.pushed || j in s.unpushed || Assigning(s, j))
    && !(j in s.pushed && j in s.unpushed)
    && (j in s.pushed ==> j in s.jobs && s.pushed[j] == s.jobs[j].provider)
    && !(Assigning(s, j) && (j in s.pushed || j in s.unpushed))
  }

  ghost predicate RunningFor(s: State, j: JobId, p: ProviderId) {
    j in s.jobs && s.jobs[j].status.Running? && s.jobs[j].provider == p
  }

  /** A poll that holds a lock holds a scheduled row of its provider; one that committed owns a running row. */
  ghost predicate PollOk(s: State, c: nat) {
    c in s.polls ==>
      match s.polls[c]
      case Popped(_, _) => true
      case Locked(p, _, job, _) =>
        && job in s.locks && s.locks[job] == c
        && job in s.jobs && s.jobs[job].status.Scheduled? && s.jobs[job].provider == p
      case Committed(p, _, job) =>
        job in s.claimant && s.claimant[job] == c && RunningFor(s, job, p)
  }

  ghost predicate Committing(s: State, j: JobId) {
    && j in s.claimant && s.claimant[j] in s.polls
    && s.polls[s.claimant[j]].Committed? && s.polls[s.claimant[j]].job == j
  }

  ghost predicate LockHeld(s: State, j: JobId) {
    j in s.locks && s.locks[j] in s.polls && s.polls[s.locks[j]].Locked? && s.polls[s.locks[j]].job == j
  }

  /**
   A running job belongs to exactly one poll: one about to reply, one that replied, or one whose reply was lost.
   Unless a stray report named the job, its row of vms comes from its delivery and names the provider that runs it.
   */
  ghost predicate ClaimOk(s: State, j: JobId) {
    && (j in s.locks ==> j in s.jobs && s.jobs[j].status.Scheduled? && LockHeld(s, j))
    && (j in s.jobs && s.jobs[j].status.Running? <==> Committing(s, j) || j in s.repliedAt || j in s.unreplied)
    && !(Committing(s, j) && (j in s.repliedAt || j in s.unreplied))
    && !(j in s.repliedAt && j in s.unreplied)
    && (j in s.repliedAt ==> s.repliedAt[j] < |s.delivered| && s.delivered[s.repliedAt[j]].job == j)
    && (j in s.vms && j !in s.strays ==>
          && j in s.repliedAt && s.repliedAt[j] in s.reported
          && s.vms[j].job == j && RunningFor(s, j, s.vms[j].provider))
  }

  /** A reply went to the provider its job is assigned to, and no other reply carried that job. */
  ghost predicate DeliveryOk(s: State, k: nat) {
    if k < |s.delivered| then
      var d := s.delivered[k];
      d.job in s.repliedAt && s.repliedAt[d.job] == k && RunningFor(s, d.job, d.provider)
    else
      k !in s.reported
  }

  function IsScheduledFor(p: ProviderId): Job -> bool {
    (j: Job) => j.status.Scheduled? && j.provider == p
  }

  function IsAssignedFor(p: ProviderId): Submit -> bool {
    (m: Submit) => m.Assigned? && m.provider == p
  }

  /** A poll that has popped a token and not committed. */
  function IsOpenFor(p: ProviderId): Poll -> bool {
    (m: Poll) => !m.Committed? && m.provider == p
  }

  /** Anonymous tokens and scheduled rows balance, provider by provider. */
  ghost predicate TokensBalance(s: State, p: ProviderId) {
    Count(s.jobs, IsScheduledFor(p))
    == |Queue(s, p)| + Count(s.submits, IsAssignedFor(p)) + Count(s.polls, IsOpenFor(p)) + LostTokens(s, p)
  }

  ghost predicate Inv(s: State) {
    && (forall c :: SubmitOk(s, c))
    && (forall j :: JobOk(s, j))
    && (forall c :: PollOk(s, c))
    && (forall j :: ClaimOk(s, j))
    && (forall k :: DeliveryOk(s, k))
    && (forall p :: TokensBalance(s, p))
  }

  // ---- submits ----

  lemma SubmitKeepsSubmit(s: State, c: nat, step: SubmitStep, d: nat)
    requires Inv(s) && SubmitEnabled(s, c, step)
    ensures SubmitOk(ApplySubmit(s, c, step), d)
  {
    assert SubmitOk(s, c) && SubmitOk(s, d);
    if step.Select? {
      assert JobOk(s, step.job);
    }
  }

  lemma SubmitKeepsJob(s: State, c: nat, step: SubmitStep, j: JobId)
    requires Inv(s) && SubmitEnabled(s, c, step)
    ensures JobOk(ApplySubmit(s, c, step), j)
  {
    assert SubmitOk(s, c) && JobOk(s, j);
  }

  lemma SubmitKeepsClaim(s: State, c: nat, step: SubmitStep, j: JobId)
    requires Inv(s) && SubmitEnabled(s, c, step)
    ensures ClaimOk(ApplySubmit(s, c, step), j)
  {
    assert SubmitOk(s, c) && ClaimOk(s, j);
  }

  lemma SubmitKeepsPoll(s: State, c: nat, step: SubmitStep, d: nat)
    requires Inv(s) && SubmitEnabled(s, c, step)
    ensures PollOk(ApplySubmit(s, c, step), d)
  {
    assert SubmitOk(s, c) && PollOk(s, d);
  }

  lemma SubmitKeepsDelivery(s: State, c: nat, step: SubmitStep, k: nat)
    requires Inv(s) && SubmitEnabled(s, c, step)
    ensures DeliveryOk(ApplySubmit(s, c, step), k)
  {
    assert SubmitOk(s, c) && DeliveryOk(s, k);
  }

  // ---- polls ----

  lemma PollKeepsSubmit(s: State, c: nat, step: PollStep, d: nat)
    requires Inv(s) && PollEnabled(s, c, step)
    ensures SubmitOk(ApplyPoll(s, c, step), d)
  {
    assert PollOk(s, c) && SubmitOk(s, d);
  }

  lemma PollKeepsJob(s: State, c: nat, step: PollStep, j: JobId)
    requires Inv(s) && PollEnabled(s, c, step)
    ensures JobOk(ApplyPoll(s, c, step), j)
  {
    assert PollOk(s, c) && JobOk(s, j);
  }

  lemma CommitKeepsClaim(s: State, c: nat, j: JobId)
    requires Inv(s) && PollEnabled(s, c, Commit)
    ensures ClaimOk(ApplyPoll(s, c, Commit), j)
  {
    assert PollOk(s, c) && ClaimOk(s, j) && ClaimOk(s, s.polls[c].job);
  }

  lemma PollKeepsClaim(s: State, c: nat, step: PollStep, j: JobId)
    requires Inv(s) && PollEnabled(s, c, step)
    ensures ClaimOk(ApplyPoll(s, c, step), j)
  {
    if step.Commit? {
      CommitKeepsClaim(s, c, j);
    } else {
      assert PollOk(s, c) && ClaimOk(s, j);
    }
  }

  lemma PollKeepsPoll(s: State, c: nat, step: PollStep, d: nat)
    requires Inv(s) && PollEnabled(s, c, step)
    ensures PollOk(ApplyPoll(s, c, step), d)
  {
    assert PollOk(s, c) && PollOk(s, d);
  }

  lemma PollKeepsDelivery(s: State, c: nat, step: PollStep, k: nat)
    requires Inv(s) && PollEnabled(s, c, step)
    ensures DeliveryOk(ApplyPoll(s, c, step), k)
  {
    assert PollOk(s, c) && DeliveryOk(s, k);
    if step.Reply? {
      assert ClaimOk(s, s.polls[c].job);
    }
  }

  // ---- reports ----

  /** At-most-once delivery makes the report of a delivery the first to name its job. */
  lemma ReportFindsNoRow(s: State, k: nat)
    requires Inv(s) && k < |s.delivered| && k !in s.reported && s.delivered[k].job !in s.strays
    ensures s.delivered[k].job !in s.vms
  {
    assert DeliveryOk(s, k) && ClaimOk(s, s.delivered[k].job);
  }

  lemma ProcessKeepsVmRow(s: State, k: nat, vm: VM, j: JobId)
    requires Inv(s) && ReportEnabled(s, k, Process(vm)) && j !in s.strays
    ensures var vms := UpsertVM(s.vms, vm.job, vm);
      j in vms ==>
        && j in s.repliedAt && (s.repliedAt[j] in s.reported || s.repliedAt[j] == k)
        && vms[j].job == j && RunningFor(s, j, vms[j].provider)
  {
    if j == vm.job {
      ReportFindsNoRow(s, k);
      assert DeliveryOk(s, k);
    } else {
      assert ClaimOk(s, j);
    }
  }

  /** ClaimOk but for the row of vms. */
  lemma ReportKeepsRest(s: State, s': State, j: JobId)
    requires ClaimOk(s, j) && s' == s.(vms := s'.vms, reported := s'.reported)
    requires j in s'.vms && j !in s.strays ==>
      && j in s.repliedAt && s.repliedAt[j] in s'.reported && s'.vms[j].job == j && RunningFor(s, j, s'.vms[j].provider)
    ensures ClaimOk(s', j)
  {
  }

  lemma ReportKeepsClaim(s: State, k: nat, step: ReportStep, j: JobId)
    requires Inv(s) && ReportEnabled(s, k, step)
    ensures ClaimOk(ApplyReport(s, k, step), j)
  {
    assert ClaimOk(s, j);
    if step.Process? && j !in s.strays {
      ProcessKeepsVmRow(s, k, step.vm, j);
    }
    ReportKeepsRest(s, ApplyReport(s, k, step), j);
  }

  // ---- tokens ----

  /**
   The claim after a pop never comes back empty, however many other polls hold row locks: every lock on a row of the
   provider belongs to another open poll, and there are at least as many scheduled rows as open polls.
   */
  lemma ClaimFindsRow(s: State, c: nat) returns (job: JobId)
    requires Inv(s) && c in s.polls && s.polls[c].Popped?
    ensures OldestClaimable(s.jobs, s.locks, s.polls[c].provider, job)
  {
    var p := s.polls[c].provider;
    var open := Matching(s.polls, IsOpenFor(p));
    var scheduled := Matching(s.jobs, IsScheduledFor(p));
    assert TokensBalance(s, p);
    forall j | j in scheduled && j in s.locks
      ensures s.locks[j] in open && s.locks[j] != c && LockHeld(s, j)
    {
      assert ClaimOk(s, j) && PollOk(s, s.locks[j]);
    }
    UnmappedExists(scheduled, s.locks, open, c);
    var free := scheduled - s.locks.Keys;
    job := Least(free, map j | j in free :: s.jobs[j].createdAt);
    forall other | Claimable(s.jobs, s.locks, p, other)
      ensures s.jobs[job].createdAt <= s.jobs[other].createdAt
    {
      assert other in free;
    }
  }

  lemma SubmitKeepsBalance(s: State, c: nat, step: SubmitStep, p: ProviderId)
    requires Inv(s) && SubmitEnabled(s, c, step)
    ensures TokensBalance(ApplySubmit(s, c, step), p)
  {
    var s' := ApplySubmit(s, c, step);
    assert TokensBalance(s, p) && SubmitOk(s, c);
    match step
    case Select(_, _, _) =>
      CountInsert(s.submits, c, s'.submits[c], IsAssignedFor(p));
    case Insert(_) =>
      CountUpdate(s.submits, c, s'.submits[c], IsAssignedFor(p));
      CountInsert(s.jobs, s.submits[c].job, s'.jobs[s.submits[c].job], IsScheduledFor(p));
    case Assign =>
      CountUpdate(s.submits, c, s'.submits[c], IsAssignedFor(p));
      CountUpdate(s.jobs, s.submits[c].job, s'.jobs[s.submits[c].job], IsScheduledFor(p));
    case Push =>
      CountRemove(s.submits, c, IsAssignedFor(p));
    case Abandon =>
      CountRemove(s.submits, c, IsAssignedFor(p));
  }

  lemma CommitKeepsBalance(s: State, c: nat, p: ProviderId)
    requires Inv(s) && PollEnabled(s, c, Commit)
    ensures TokensBalance(ApplyPoll(s, c, Commit), p)
  {
    var s' := ApplyPoll(s, c, Commit);
    assert TokensBalance(s, p) && PollOk(s, c);
    CountUpdate(s.polls, c, s'.polls[c], IsOpenFor(p));
    CountUpdate(s.jobs, s.polls[c].job, s'.jobs[s.polls[c].job], IsScheduledFor(p));
  }

  lemma FindNoneNeverEnabled(s: State, c: nat)
    requires Inv(s)
    ensures !PollEnabled(s, c, FindNone)
  {
    if c in s.polls && s.polls[c].Popped? {
      var job := ClaimFindsRow(s, c);
    }
  }

  lemma PollKeepsBalance(s: State, c: nat, step: PollStep, p: ProviderId)
    requires Inv(s) && PollEnabled(s, c, step)
    ensures TokensBalance(ApplyPoll(s, c, step), p)
  {
    assert TokensBalance(s, p);
    if step.Commit? {
      CommitKeepsBalance(s, c, p);
    } else if step.Pop? {
      CountInsert(s.polls, c, ApplyPoll(s, c, step).polls[c], IsOpenFor(p));
    } else if step.Lock? || step.Write? {
      CountUpdate(s.polls, c, ApplyPoll(s, c, step).polls[c], IsOpenFor(p));
    } else {
      FindNoneNeverEnabled(s, c);
      CountRemove(s.polls, c, IsOpenFor(p));
    }
  }

  // ---- every reachable state ----

  lemma InitialInv()
    ensures Inv(INITIAL)
  {
    forall p ensures TokensBalance(INITIAL, p) {
      CountZero(INITIAL.jobs, IsScheduledFor(p));
      CountZero(INITIAL.submits, IsAssignedFor(p));
      CountZero(INITIAL.polls, IsOpenFor(p));
    }
  }

  lemma SubmitKeepsInv(s: State, c: nat, step: SubmitStep)
    requires Inv(s) && SubmitEnabled(s, c, step)
    ensures Inv(ApplySubmit(s, c, step))
  {
    var s' := ApplySubmit(s, c, step);
    forall d ensures SubmitOk(s', d) { SubmitKeepsSubmit(s, c, step, d); }
    forall j ensures JobOk(s', j) { SubmitKeepsJob(s, c, step, j); }
    forall d ensures PollOk(s', d) { SubmitKeepsPoll(s, c, step, d); }
    forall j ensures ClaimOk(s', j) { SubmitKeepsClaim(s, c, step, j); }
    forall k ensures DeliveryOk(s', k) { SubmitKeepsDelivery(s, c, step, k); }
    forall p ensures TokensBalance(s', p) { SubmitKeepsBalance(s, c, step, p); }
  }

  lemma PollKeepsInv(s: State, c: nat, step: PollStep)
    requires Inv(s) && PollEnabled(s, c, step)
    ensures Inv(ApplyPoll(s, c, step))
  {
    var s' := ApplyPoll(s, c, step);
    forall d ensures SubmitOk(s', d) { PollKeepsSubmit(s, c, step, d); }
    forall j ensures JobOk(s', j) { PollKeepsJob(s, c, step, j); }
    forall d ensures PollOk(s', d) { PollKeepsPoll(s, c, step, d); }
    forall j ensures ClaimOk(s', j) { PollKeepsClaim(s, c, step, j); }
    forall k ensures DeliveryOk(s', k) { PollKeepsDelivery(s, c, step, k); }
    forall p ensures TokensBalance(s', p) { PollKeepsBalance(s, c, step, p); }
  }

  lemma ReportKeepsInv(s: State, k: nat, step: ReportStep)
    requires Inv(s) && ReportEnabled(s, k, step)
    ensures Inv(ApplyReport(s, k, step))
  {
    var s' := ApplyReport(s, k, step);
    forall d ensures SubmitOk(s', d) { assert SubmitOk(s, d); }
    forall j ensures JobOk(s', j) { assert JobOk(s, j); }
    forall d ensures PollOk(s', d) { assert PollOk(s, d); }
    forall j ensures ClaimOk(s', j) { ReportKeepsClaim(s, k, step, j); }
    forall l ensures DeliveryOk(s', l) { assert DeliveryOk(s, l); }
    forall p ensures TokensBalance(s', p) { assert TokensBalance(s, p); }
  }

  lemma StrayKeepsInv(s: State, vm: VM)
    requires Inv(s)
    ensures Inv(Apply(s, Stray(vm)))
  {
    var s' := Apply(s, Stray(vm));
    forall d ensures SubmitOk(s', d) { assert SubmitOk(s, d); }
    forall j ensures JobOk(s', j) { assert JobOk(s, j); }
    forall d ensures PollOk(s', d) { assert PollOk(s, d); }
    forall j ensures ClaimOk(s', j) { assert ClaimOk(s, j); }
    forall k ensures DeliveryOk(s', k) { assert DeliveryOk(s, k); }
    forall p ensures TokensBalance(s', p) { assert TokensBalance(s, p); }
  }

  lemma StepKeepsInv(s: State, e: Event)
    requires Inv(s) && Enabled(s, e)
    ensures Inv(Apply(s, e))
  {
    match e
    case Submitting(c, step) => SubmitKeepsInv(s, c, step);
    case Polling(c, step) => PollKeepsInv(s, c, step);
    case Reporting(k, step) => ReportKeepsInv(s, k, step);
    case Stray(vm) => StrayKeepsInv(s, vm);
  }

  lemma {:induction false} RunKeepsInv(s: State, es: seq<Event>)
    requires Inv(s) && ValidRun(s, es)
    ensures Inv(Exec(s, es))
    decreases |es|
  {
    if es == [] {
    } else {
      StepKeepsInv(s, es[0]);
      RunKeepsInv(Apply(s, es[0]), es[1..]);
    }
  }
}
