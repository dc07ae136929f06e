/** What holds of every run of the dispatch protocol, with any interleaving and any faults. */
module DispatchTheorems {
  import opened Store
  import opened Counting
  import opened Dispatch
  import opened DispatchInvariant

  /**
   Token conservation: the scheduled rows of a provider are as many as its queued tokens, its submits between assign
   and push, its polls between pop and commit, and its tokens lost to faults, together.
   */
  lemma TokenConservation(es: seq<Event>, p: ProviderId)
    requires ValidRun(INITIAL, es)
    ensures var s := Exec(INITIAL, es);
      Count(s.jobs, IsScheduledFor(p))
      == |Queue(s, p)| + Count(s.submits, IsAssignedFor(p)) + Count(s.polls, IsOpenFor(p)) + LostTokens(s, p)
  {
    InitialInv();
    RunKeepsInv(INITIAL, es);
    assert TokensBalance(Exec(INITIAL, es), p);
  }

  /** A poll that popped a token always finds a row to lock: the empty answer of the claim is never taken. */
  lemma NoEmptyClaim(es: seq<Event>, c: nat)
    requires ValidRun(INITIAL, es)
    requires var s := Exec(INITIAL, es); c in s.polls && s.polls[c].Popped?
    ensures var s := Exec(INITIAL, es);
      (exists job :: Enabled(s, Polling(c, Lock(job)))) && !Enabled(s, Polling(c, FindNone))
  {
    InitialInv();
    RunKeepsInv(INITIAL, es);
    var s := Exec(INITIAL, es);
    var job := ClaimFindsRow(s, c);
    assert Enabled(s, Polling(c, Lock(job)));
  }

  /** No job id is returned by two polls, and every reply went to the provider its job is assigned to. */
  lemma AtMostOnceDelivery(es: seq<Event>)
    requires ValidRun(INITIAL, es)
    ensures var s := Exec(INITIAL, es);
      && (forall k, l | 0 <= k < l < |s.delivered| :: s.delivered[k].job != s.delivered[l].job)
      && (forall k | 0 <= k < |s.delivered| ::
            s.delivered[k].job in s.jobs && s.jobs[s.delivered[k].job].provider == s.delivered[k].provider)
  {
    InitialInv();
    RunKeepsInv(INITIAL, es);
    var s := Exec(INITIAL, es);
    forall k: nat | k < |s.delivered|
      ensures s.delivered[k].job in s.repliedAt && s.repliedAt[s.delivered[k].job] == k
      ensures s.delivered[k].job in s.jobs && s.jobs[s.delivered[k].job].provider == s.delivered[k].provider
    {
      assert DeliveryOk(s, k);
    }
  }

  // ---- the life of a job ----

  function Rank(status: JobStatus): nat {
    match status
    case Pending => 0
    case Scheduled => 1
    case Running => 2
  }

  /** A row only moves forward: the request is fixed, the status climbs, and a provider once named stays. */
  ghost predicate Forward(s: State, s': State, j: JobId) {
    j in s.jobs ==>
      && j in s'.jobs && s'.jobs[j].request == s.jobs[j].request && s'.jobs[j].createdAt == s.jobs[j].createdAt
      && Rank(s.jobs[j].status) <= Rank(s'.jobs[j].status)
      && (s.jobs[j].provider != UNASSIGNED ==> s'.jobs[j].provider == s.jobs[j].provider)
  }

  lemma SubmitMovesForward(s: State, c: nat, step: SubmitStep, j: JobId)
    requires Inv(s) && SubmitEnabled(s, c, step)
    ensures Forward(s, ApplySubmit(s, c, step), j)
  {
    assert JobOk(s, j) && SubmitOk(s, c);
  }

  lemma PollMovesForward(s: State, c: nat, step: PollStep, j: JobId)
    requires Inv(s) && PollEnabled(s, c, step)
    ensures Forward(s, ApplyPoll(s, c, step), j)
  {
    assert PollOk(s, c);
  }

  lemma StepMovesForward(s: State, e: Event, j: JobId)
    requires Inv(s) && Enabled(s, e)
    ensures Forward(s, Apply(s, e), j)
  {
    match e
    case Submitting(c, step) => SubmitMovesForward(s, c, step, j);
    case Polling(c, step) => PollMovesForward(s, c, step, j);
    case _ =>
  }

  /** From any reachable state on, and in it, a job is pending exactly when its provider_id is empty. */
  lemma {:induction false} LifeCycle(s: State, es: seq<Event>, j: JobId)
    requires Inv(s) && ValidRun(s, es)
    ensures Forward(s, Exec(s, es), j)
    ensures var s' := Exec(s, es);
      j in s'.jobs ==> (s'.jobs[j].status == Pending <==> s'.jobs[j].provider == UNASSIGNED)
    decreases |es|
  {
    assert JobOk(s, j);
    if es == [] {
    } else {
      StepMovesForward(s, es[0], j);
      StepKeepsInv(s, es[0]);
      LifeCycle(Apply(s, es[0]), es[1..], j);
    }
  }

  /** The unconditional UPDATE of AssignJob always meets a pending row that nobody has locked. */
  lemma AssignMeetsPendingRow(es: seq<Event>, c: nat)
    requires ValidRun(INITIAL, es) && Enabled(Exec(INITIAL, es), Submitting(c, Assign))
    ensures var s := Exec(INITIAL, es); var job := s.submits[c].job;
      job in s.jobs && s.jobs[job].status == Pending && job !in s.locks
  {
    InitialInv();
    RunKeepsInv(INITIAL, es);
    var s := Exec(INITIAL, es);
    assert SubmitOk(s, c) && ClaimOk(s, s.submits[c].job);
  }

  /** The INSERT of InsertJob never meets an existing row. */
  lemma InsertNeverConflicts(es: seq<Event>, c: nat)
    requires ValidRun(INITIAL, es)
    requires var s := Exec(INITIAL, es); c in s.submits && s.submits[c].Selected?
    ensures forall createdAt :: Enabled(Exec(INITIAL, es), Submitting(c, Insert(createdAt)))
  {
    InitialInv();
    RunKeepsInv(INITIAL, es);
    assert SubmitOk(Exec(INITIAL, es), c);
  }

  // ---- reports ----

  /** What a submit's statement cannot touch. */
  lemma SubmitFrame(s: State, c: nat, step: SubmitStep)
    requires SubmitEnabled(s, c, step)
    ensures var s' := ApplySubmit(s, c, step);
      && s'.vms == s.vms && s'.strays == s.strays && s'.polls == s.polls
      && s'.unreplied == s.unreplied && s'.delivered == s.delivered
      && (!step.Abandon? ==> s'.lost == s.lost && s'.unpushed == s.unpushed)
  {
  }

  /** What a poll's statement cannot touch. */
  lemma PollFrame(s: State, c: nat, step: PollStep)
    requires PollEnabled(s, c, step)
    ensures var s' := ApplyPoll(s, c, step);
      && s'.vms == s.vms && s'.strays == s.strays && s'.submits == s.submits && s'.unpushed == s.unpushed
      && (!step.LoseReply? ==> s'.unreplied == s.unreplied)
      && (!step.Drop? && !step.Rollback? ==> s'.lost == s.lost)
  {
  }

  /** Rows of vms, replies and reports are never taken back. */
  ghost predicate Grows(s: State, s': State) {
    && s.vms.Keys <= s'.vms.Keys && s.repliedAt.Keys <= s'.repliedAt.Keys && s.delivered <= s'.delivered
    && s.reported <= s'.reported
  }

  lemma SubmitGrows(s: State, c: nat, step: SubmitStep)
    requires SubmitEnabled(s, c, step)
    ensures Grows(s, ApplySubmit(s, c, step))
  {
  }

  lemma PollGrows(s: State, c: nat, step: PollStep)
    requires PollEnabled(s, c, step)
    ensures Grows(s, ApplyPoll(s, c, step))
  {
  }

  lemma StepGrows(s: State, e: Event)
    requires Enabled(s, e)
    ensures Grows(s, Apply(s, e))
  {
    match e
    case Submitting(c, step) => SubmitGrows(s, c, step);
    case Polling(c, step) => PollGrows(s, c, step);
    case _ =>
  }

  lemma {:induction false} RunGrows(s: State, es: seq<Event>)
    requires ValidRun(s, es)
    ensures Grows(s, Exec(s, es))
    decreases |es|
  {
    if es == [] {
    } else {
      StepGrows(s, es[0]);
      RunGrows(Apply(s, es[0]), es[1..]);
    }
  }

  /** Unless a stray report named the job, its row of vms names a running job and the provider it went to. */
  lemma VmsAgreeWithJobs(es: seq<Event>, j: JobId)
    requires ValidRun(INITIAL, es)
    requires j in Exec(INITIAL, es).vms && j !in Exec(INITIAL, es).strays
    ensures var s := Exec(INITIAL, es);
      && s.vms[j].job == j && j in s.jobs
      && s.jobs[j].status == Running && s.jobs[j].provider == s.vms[j].provider
      && exists k :: 0 <= k < |s.delivered| && s.delivered[k].job == j && s.delivered[k].provider == s.vms[j].provider
  {
    InitialInv();
    RunKeepsInv(INITIAL, es);
    var s := Exec(INITIAL, es);
    assert ClaimOk(s, j) && DeliveryOk(s, s.repliedAt[j]);
  }

  /**
   Agents send one report for each delivery, and no job is delivered twice: so unless a stray report named its job, a
   report that is processed is a plain insert, and the ON CONFLICT branch is never taken.
   */
  lemma ReportAlwaysInserts(es: seq<Event>, k: nat, vm: VM)
    requires ValidRun(INITIAL, es) && Enabled(Exec(INITIAL, es), Reporting(k, Process(vm)))
    requires vm.job !in Exec(INITIAL, es).strays
    ensures var s := Exec(INITIAL, es);
      vm.job !in s.vms && Apply(s, Reporting(k, Process(vm))).vms == s.vms[vm.job := vm]
  {
    InitialInv();
    RunKeepsInv(INITIAL, es);
    ReportFindsNoRow(Exec(INITIAL, es), k);
  }

  lemma StepKeepsStrays(s: State, e: Event)
    requires Enabled(s, e)
    ensures s.strays <= Apply(s, e).strays
  {
    match e
    case Submitting(c, step) => SubmitFrame(s, c, step);
    case Polling(c, step) => PollFrame(s, c, step);
    case _ =>
  }

  lemma {:induction false} StraysOnlyGrow(s: State, es: seq<Event>)
    requires ValidRun(s, es)
    ensures s.strays <= Exec(s, es).strays
    decreases |es|
  {
    if es == [] {
    } else {
      StepKeepsStrays(s, es[0]);
      StraysOnlyGrow(Apply(s, es[0]), es[1..]);
    }
  }

  lemma StepKeepsVmRow(s: State, e: Event, j: JobId)
    requires Inv(s) && Enabled(s, e) && j in s.vms
    ensures var s' := Apply(s, e);
      && s.strays <= s'.strays
      && (j !in s'.strays ==> j in s'.vms && s'.vms[j] == s.vms[j])
  {
    match e
    case Submitting(c, step) => SubmitFrame(s, c, step);
    case Polling(c, step) => PollFrame(s, c, step);
    case Reporting(k, step) =>
      if s.delivered[k].job !in s.strays {
        ReportFindsNoRow(s, k);
      }
    case Stray(_) =>
  }

  /** So a row of vms, once written, changes only by a stray report. */
  lemma {:induction false} VmRowsAreFinal(s: State, es: seq<Event>, j: JobId)
    requires Inv(s) && ValidRun(s, es) && j in s.vms && j !in Exec(s, es).strays
    ensures j in Exec(s, es).vms && Exec(s, es).vms[j] == s.vms[j]
    decreases |es|
  {
    if es == [] {
    } else {
      var s1 := Apply(s, es[0]);
      StepKeepsVmRow(s, es[0], j);
      StepKeepsInv(s, es[0]);
      StraysOnlyGrow(s1, es[1..]);
      VmRowsAreFinal(s1, es[1..], j);
    }
  }

  // ---- settlement ----

  ghost function PushedFor(s: State, p: ProviderId): set<JobId> {
    set j | j in s.pushed && s.pushed[j] == p
  }

  ghost function DeliveredTo(s: State, p: ProviderId): set<JobId> {
    set k | 0 <= k < |s.delivered| && s.delivered[k].provider == p :: s.delivered[k].job
  }

  ghost function OfProvider(s: State, p: ProviderId, js: set<JobId>): set<JobId> {
    set j | j in js && j in s.jobs && s.jobs[j].provider == p
  }

  ghost function Stranded(s: State, p: ProviderId): set<JobId> {
    Matching(s.jobs, IsScheduledFor(p))
  }

  /** Nothing of p is queued or in flight. */
  ghost predicate Settled(s: State, p: ProviderId) {
    && Queue(s, p) == []
    && (forall c | c in s.submits :: s.submits[c].provider != p)
    && (forall c | c in s.polls :: s.polls[c].provider != p)
  }

  /**
   The books of a provider: every job whose token was pushed or given up was delivered, or had its reply lost, or is
   stranded in status scheduled; no job is in two of these; and as many are stranded as tokens were lost.
   */
  ghost predicate BooksBalance(s: State, p: ProviderId) {
    && DeliveredTo(s, p) + OfProvider(s, p, s.unreplied) + Stranded(s, p)
       == PushedFor(s, p) + OfProvider(s, p, s.unpushed)
    && DeliveredTo(s, p) !! OfProvider(s, p, s.unreplied) !! Stranded(s, p)
    && |Stranded(s, p)| == LostTokens(s, p)
  }

  /** Whatever the faults, the books of a settled provider balance. */
  lemma Settlement(es: seq<Event>, p: ProviderId)
    requires p != UNASSIGNED && ValidRun(INITIAL, es) && Settled(Exec(INITIAL, es), p)
    ensures BooksBalance(Exec(INITIAL, es), p)
  {
    InitialInv();
    RunKeepsInv(INITIAL, es);
    var s := Exec(INITIAL, es);
    SettledCount(s, p);
    SettledSets(s, p);
    SettledDisjoint(s, p);
  }

  lemma SettledCount(s: State, p: ProviderId)
    requires Inv(s) && Settled(s, p)
    ensures |Stranded(s, p)| == LostTokens(s, p)
  {
    assert TokensBalance(s, p);
    CountZero(s.submits, IsAssignedFor(p));
    CountZero(s.polls, IsOpenFor(p));
  }

  lemma SettledSets(s: State, p: ProviderId)
    requires Inv(s) && p != UNASSIGNED && Settled(s, p)
    ensures DeliveredTo(s, p) + OfProvider(s, p, s.unreplied) + Stranded(s, p)
            == PushedFor(s, p) + OfProvider(s, p, s.unpushed)
  {
    forall j
      ensures j in DeliveredTo(s, p) + OfProvider(s, p, s.unreplied) + Stranded(s, p)
              <==> j in PushedFor(s, p) + OfProvider(s, p, s.unpushed)
    {
      DeliveredToExactly(s, p, j);
      assert ClaimOk(s, j);
      SettledJob(s, p, j);
    }
  }

  lemma SettledDisjoint(s: State, p: ProviderId)
    requires Inv(s)
    ensures DeliveredTo(s, p) !! OfProvider(s, p, s.unreplied) !! Stranded(s, p)
  {
    forall j
      ensures j in DeliveredTo(s, p) ==> j !in s.unreplied && j !in Stranded(s, p)
      ensures j in s.unreplied ==> j !in Stranded(s, p)
    {
      DeliveredToExactly(s, p, j);
      assert ClaimOk(s, j);
    }
  }

  lemma DeliveredToExactly(s: State, p: ProviderId, j: JobId)
    requires Inv(s)
    ensures j in DeliveredTo(s, p) <==> j in s.repliedAt && j in s.jobs && s.jobs[j].provider == p
  {
    if j in s.repliedAt {
      assert ClaimOk(s, j) && DeliveryOk(s, s.repliedAt[j]);
    }
    if j in DeliveredTo(s, p) {
      var k: nat :| k < |s.delivered| && s.delivered[k].provider == p && s.delivered[k].job == j;
      assert DeliveryOk(s, k);
    }
  }

  lemma SettledJob(s: State, p: ProviderId, j: JobId)
    requires Inv(s) && p != UNASSIGNED && Settled(s, p)
    ensures (&& j in s.jobs && s.jobs[j].provider == p
             && (j in s.repliedAt || j in s.unreplied || s.jobs[j].status.Scheduled?))
            <==> (j in s.pushed && s.pushed[j] == p) || (j in s.unpushed && j in s.jobs && s.jobs[j].provider == p)
  {
    assert JobOk(s, j) && ClaimOk(s, j);
    if Assigning(s, j) { assert SubmitOk(s, s.owner[j]); }
    if Committing(s, j) { assert PollOk(s, s.claimant[j]); }
  }

  /** A fault that costs p a token or a reply: of a submit that owes p a token, or of a poll of p. */
  ghost predicate IsFaultOf(s: State, e: Event, p: ProviderId) {
    match e
    case Submitting(c, step) => step.Abandon? && c in s.submits && IsAssignedFor(p)(s.submits[c])
    case Polling(c, step) =>
      (step.Drop? || step.Rollback? || step.LoseReply?) && c in s.polls && s.polls[c].provider == p
    case _ => false
  }

  /** No fault of p; other providers' faults, submits that never assigned, and lost reports may occur. */
  ghost predicate FaultFree(s: State, es: seq<Event>, p: ProviderId)
    requires ValidRun(s, es)
    decreases |es|
  {
    es == [] || (!IsFaultOf(s, es[0], p) && FaultFree(Apply(s, es[0]), es[1..], p))
  }

  /** The job is not one whose token or reply p has lost. */
  ghost predicate NotLostTo(s: State, p: ProviderId, j: JobId) {
    j in s.unpushed || j in s.unreplied ==> j in s.jobs && !s.jobs[j].status.Pending? && s.jobs[j].provider != p
  }

  lemma SubmitLosesNothing(s: State, c: nat, step: SubmitStep, p: ProviderId, j: JobId)
    requires Inv(s) && SubmitEnabled(s, c, step) && !IsFaultOf(s, Submitting(c, step), p)
    ensures LostTokens(ApplySubmit(s, c, step), p) == LostTokens(s, p)
    ensures NotLostTo(s, p, j) ==> NotLostTo(ApplySubmit(s, c, step), p, j)
  {
    assert SubmitOk(s, c);
  }

  lemma PollLosesNothing(s: State, c: nat, step: PollStep, p: ProviderId, j: JobId)
    requires Inv(s) && PollEnabled(s, c, step) && !IsFaultOf(s, Polling(c, step), p)
    ensures LostTokens(ApplyPoll(s, c, step), p) == LostTokens(s, p)
    ensures NotLostTo(s, p, j) ==> NotLostTo(ApplyPoll(s, c, step), p, j)
  {
    assert PollOk(s, c);
  }

  lemma StepLosesNothing(s: State, e: Event, p: ProviderId, j: JobId)
    requires Inv(s) && Enabled(s, e) && !IsFaultOf(s, e, p)
    ensures LostTokens(Apply(s, e), p) == LostTokens(s, p)
    ensures NotLostTo(s, p, j) ==> NotLostTo(Apply(s, e), p, j)
  {
    match e
    case Submitting(c, step) => SubmitLosesNothing(s, c, step, p, j);
    case Polling(c, step) => PollLosesNothing(s, c, step, p, j);
    case _ =>
  }

  lemma {:induction false} FaultFreeLosesNothing(s: State, es: seq<Event>, p: ProviderId, j: JobId)
    requires Inv(s) && ValidRun(s, es) && FaultFree(s, es, p)
    ensures LostTokens(Exec(s, es), p) == LostTokens(s, p)
    ensures NotLostTo(s, p, j) ==> NotLostTo(Exec(s, es), p, j)
    decreases |es|
  {
    if es == [] {
    } else {
      StepLosesNothing(s, es[0], p, j);
      StepKeepsInv(s, es[0]);
      FaultFreeLosesNothing(Apply(s, es[0]), es[1..], p, j);
    }
  }

  /** In a run without a fault of p that settles p, the jobs delivered to p are exactly the jobs pushed for p. */
  lemma QuiescentCompleteness(es: seq<Event>, p: ProviderId)
    requires p != UNASSIGNED && ValidRun(INITIAL, es) && FaultFree(INITIAL, es, p) && Settled(Exec(INITIAL, es), p)
    ensures var s := Exec(INITIAL, es); DeliveredTo(s, p) == PushedFor(s, p) && Stranded(s, p) == {}
  {
    Settlement(es, p);
    InitialInv();
    var s := Exec(INITIAL, es);
    forall j ensures NotLostTo(s, p, j) {
      FaultFreeLosesNothing(INITIAL, es, p, j);
    }
    FaultFreeLosesNothing(INITIAL, es, p, "");
    forall j ensures j !in OfProvider(s, p, s.unreplied) && j !in OfProvider(s, p, s.unpushed) {
      assert NotLostTo(s, p, j);
    }
    assert OfProvider(s, p, s.unreplied) == {} && OfProvider(s, p, s.unpushed) == {};
    assert Stranded(s, p) == {};
    assert DeliveredTo(s, p) + {} + {} == DeliveredTo(s, p);
  }

  // ---- tokens are anonymous ----

  lemma {:induction false} Extend(s: State, es: seq<Event>, e: Event)
    requires ValidRun(s, es) && Enabled(Exec(s, es), e)
    ensures ValidRun(s, es + [e]) && Exec(s, es + [e]) == Apply(Exec(s, es), e)
    decreases |es|
  {
    if es == [] {
      assert ([] + [e])[1..] == [];
    } else {
      Extend(Apply(s, es[0]), es[1..], e);
      assert (es + [e])[1..] == es[1..] + [e];
    }
  }

  const DEMO_PROVIDER: ProviderId := "p"
  const DEMO_REQUEST := Request("image", 1, 0)

  lemma DemoAssignEffect(s: State, c: nat, job: JobId, time: int)
    requires c !in s.submits && job !in s.owner && job !in s.jobs
    ensures var select, insert := Select(job, DEMO_PROVIDER, DEMO_REQUEST), Insert(time);
      && SubmitEnabled(s, c, select)
      && var s1 := ApplySubmit(s, c, select);
      && SubmitEnabled(s1, c, insert)
      && var s2 := ApplySubmit(s1, c, insert);
      && SubmitEnabled(s2, c, Assign)
      && ApplySubmit(s2, c, Assign) ==
         s.(submits := s.submits[c := Assigned(job, DEMO_PROVIDER)], owner := s.owner[job := c],
            jobs := s.jobs[job := Job(DEMO_REQUEST, DEMO_PROVIDER, Scheduled, time)])
  {
    var s1 := ApplySubmit(s, c, Select(job, DEMO_PROVIDER, DEMO_REQUEST));
    var s2 := ApplySubmit(s1, c, Insert(time));
    var s3 := ApplySubmit(s2, c, Assign);
    assert s3.submits == s.submits[c := Assigned(job, DEMO_PROVIDER)];
    assert s3.jobs == s.jobs[job := Job(DEMO_REQUEST, DEMO_PROVIDER, Scheduled, time)];
  }

  /** A run prolonged by one submit, up to its push. */
  lemma DemoAssign(es: seq<Event>, c: nat, job: JobId) returns (longer: seq<Event>)
    requires ValidRun(INITIAL, es)
    requires var s := Exec(INITIAL, es); c !in s.submits && job !in s.owner && job !in s.jobs
    ensures ValidRun(INITIAL, longer)
    ensures var s := Exec(INITIAL, es);
      Exec(INITIAL, longer) == s.(submits := s.submits[c := Assigned(job, DEMO_PROVIDER)], owner := s.owner[job := c],
                                  jobs := s.jobs[job := Job(DEMO_REQUEST, DEMO_PROVIDER, Scheduled, 0)])
  {
    var select, insert := Select(job, DEMO_PROVIDER, DEMO_REQUEST), Insert(0);
    DemoAssignEffect(Exec(INITIAL, es), c, job, 0);
    Extend(INITIAL, es, Submitting(c, select));
    longer := es + [Submitting(c, select)];
    Extend(INITIAL, longer, Submitting(c, insert));
    longer := longer + [Submitting(c, insert)];
    Extend(INITIAL, longer, Submitting(c, Assign));
    longer := longer + [Submitting(c, Assign)];
  }

  /** A run prolonged by one poll of a queue with a token, which claims the given row. */
  lemma DemoPoll(es: seq<Event>, job: JobId) returns (longer: seq<Event>)
    requires ValidRun(INITIAL, es)
    requires var s := Exec(INITIAL, es);
      s.polls == map[] && Queue(s, DEMO_PROVIDER) != [] && OldestClaimable(s.jobs, s.locks, DEMO_PROVIDER, job)
    ensures ValidRun(INITIAL, longer)
    ensures var s, q := Exec(INITIAL, es), Queue(Exec(INITIAL, es), DEMO_PROVIDER);
      Exec(INITIAL, longer).delivered == s.delivered + [Delivery(DEMO_PROVIDER, Tail(q), job)]
  {
    Extend(INITIAL, es, Polling(0, Pop(DEMO_PROVIDER)));
    longer := es + [Polling(0, Pop(DEMO_PROVIDER))];
    Extend(INITIAL, longer, Polling(0, Lock(job)));
    longer := longer + [Polling(0, Lock(job))];
    Extend(INITIAL, longer, Polling(0, Write));
    longer := longer + [Polling(0, Write)];
    Extend(INITIAL, longer, Polling(0, Commit));
    longer := longer + [Polling(0, Commit)];
    Extend(INITIAL, longer, Polling(0, Reply));
    longer := longer + [Polling(0, Reply)];
  }

  ghost predicate DeliversAnotherJob(s: State) {
    exists k: nat :: k < |s.delivered| && s.delivered[k].job != s.delivered[k].token
  }

  /** Job "a" is assigned and pushed; job "b" is assigned, and its push has yet to come. */
  lemma DemoTwoSubmits() returns (es: seq<Event>)
    ensures ValidRun(INITIAL, es)
    ensures var s := Exec(INITIAL, es);
      && s.polls == map[] && s.locks == map[] && s.delivered == [] && Queue(s, DEMO_PROVIDER) == ["a"]
      && var row := Job(DEMO_REQUEST, DEMO_PROVIDER, Scheduled, 0); s.jobs == map["a" := row, "b" := row]
  {
    assert "a"[0] != "b"[0];
    es := DemoAssign([], 0, "a");
    Extend(INITIAL, es, Submitting(0, Push));
    es := DemoAssign(es + [Submitting(0, Push)], 1, "b");
  }

  /** A poll may return another job than the one whose token it popped. */
  lemma TokensAreAnonymous()
    ensures exists es :: ValidRun(INITIAL, es) && DeliversAnotherJob(Exec(INITIAL, es))
  {
    assert "a"[0] != "b"[0];
    var es := DemoTwoSubmits();
    es := DemoPoll(es, "b");
    assert Exec(INITIAL, es).delivered[0] == Delivery(DEMO_PROVIDER, "a", "b");
  }

  // ---- when a poll returns the job whose token it popped ----

  /** Whatever row the claim of poll c may lock, it is the row of the token that c popped. */
  ghost predicate ReturnsToken(s: State, c: nat)
    requires c in s.polls && s.polls[c].Popped?
  {
    forall job | Enabled(s, Polling(c, Lock(job))) :: job == s.polls[c].token
  }

  /**
   In every run a poll that now locks a row is bound to lock that of the token it popped exactly if that job is now on
   offer to its provider and is strictly older than every other one on offer.
   */
  lemma TokenReturnedExactly(es: seq<Event>, c: nat)
    requires ValidRun(INITIAL, es)
    requires var s := Exec(INITIAL, es); c in s.polls && s.polls[c].Popped?
    ensures var s := Exec(INITIAL, es);
      var p, t := s.polls[c].provider, s.polls[c].token;
      ReturnsToken(s, c)
      <==> && Claimable(s.jobs, s.locks, p, t)
           && forall other | Claimable(s.jobs, s.locks, p, other) && other != t ::
                s.jobs[t].createdAt < s.jobs[other].createdAt
  {
    InitialInv();
    RunKeepsInv(INITIAL, es);
    var s := Exec(INITIAL, es);
    var p, t := s.polls[c].provider, s.polls[c].token;
    var oldest := ClaimFindsRow(s, c);
    assert Enabled(s, Polling(c, Lock(oldest)));
    if ReturnsToken(s, c) {
      forall other | Claimable(s.jobs, s.locks, p, other) && other != t
        ensures s.jobs[t].createdAt < s.jobs[other].createdAt
      {
        assert !Enabled(s, Polling(c, Lock(other)));
      }
    }
  }

  /** Every insert of the run stores this creation time. */
  predicate InsertsAt(es: seq<Event>, time: int) {
    forall i | 0 <= i < |es| && es[i].Submitting? && es[i].submit.Insert? :: es[i].submit.createdAt == time
  }

  ghost predicate CreatedAt(s: State, time: int) {
    forall j | j in s.jobs :: s.jobs[j].createdAt == time
  }

  lemma SubmitKeepsTime(s: State, c: nat, step: SubmitStep, time: int)
    requires CreatedAt(s, time) && SubmitEnabled(s, c, step) && (step.Insert? ==> step.createdAt == time)
    ensures CreatedAt(ApplySubmit(s, c, step), time)
  {
  }

  lemma PollKeepsTime(s: State, c: nat, step: PollStep, time: int)
    requires CreatedAt(s, time) && PollEnabled(s, c, step)
    ensures CreatedAt(ApplyPoll(s, c, step), time)
  {
  }

  lemma StepKeepsTime(s: State, e: Event, time: int)
    requires CreatedAt(s, time) && Enabled(s, e)
    requires e.Submitting? && e.submit.Insert? ==> e.submit.createdAt == time
    ensures CreatedAt(Apply(s, e), time)
  {
    match e
    case Submitting(c, step) => SubmitKeepsTime(s, c, step, time);
    case Polling(c, step) => PollKeepsTime(s, c, step, time);
    case _ =>
  }

  lemma {:induction false} RunKeepsTime(s: State, es: seq<Event>, time: int)
    requires CreatedAt(s, time) && ValidRun(s, es) && InsertsAt(es, time)
    ensures CreatedAt(Exec(s, es), time)
    decreases |es|
  {
    if es == [] {
    } else {
      StepKeepsTime(s, es[0], time);
      RunKeepsTime(Apply(s, es[0]), es[1..], time);
    }
  }

  /**
   If every insert stores one creation time, as those of the service do, that is exactly if the job whose token the poll
   popped is the only one on offer.
   */
  lemma OneTimeTokenReturnedExactly(es: seq<Event>, c: nat, time: int)
    requires ValidRun(INITIAL, es) && InsertsAt(es, time)
    requires var s := Exec(INITIAL, es); c in s.polls && s.polls[c].Popped?
    ensures var s := Exec(INITIAL, es);
      var p, t := s.polls[c].provider, s.polls[c].token;
      ReturnsToken(s, c) <==> forall job :: Claimable(s.jobs, s.locks, p, job) <==> job == t
  {
    TokenReturnedExactly(es, c);
    RunKeepsTime(INITIAL, es, time);
  }
}
