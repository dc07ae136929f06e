/**
 The dispatch protocol with a clock: the control plane lets a poll wait 25 s for a token, but its agent listens for 15 s
 only. What that costs is counted exactly.
 */
module TimedPolls {
  import opened Store
  import opened Counting
  import R = Registry
  import D = Dispatch
  import DI = DispatchInvariant
  import DT = DispatchTheorems

  // The wait that the control plane grants a poll.
  const WAIT := 25 * R.SECOND

  /** sentAt says when a poll was sent; late are the polls in flight that popped when their agent had left. */
  datatype State = State(disp: D.State, now: int, sentAt: map<nat, int>, late: set<nat>)

  function Initial(now: int): State {
    State(D.INITIAL, now, map[], {})
  }

  datatype Event = Tick(elapsed: nat) | Send(c: nat) | Do(step: D.Event)

  /** The agent of a poll sent then has given it up by now. */
  predicate IsLate(sentAt: int, now: int) {
    now > sentAt + R.CLIENT_TIMEOUT
  }

  /** A pop ends when its wait does, and a reply needs an agent that still listens. */
  ghost predicate PollInTime(s: State, c: nat, step: D.PollStep) {
    && (step.Pop? ==> c in s.sentAt && s.now <= s.sentAt[c] + WAIT)
    && (step.Reply? ==> c in s.sentAt && !IsLate(s.sentAt[c], s.now))
  }

  ghost predicate Enabled(s: State, e: Event) {
    match e
    case Tick(_) => true
    case Send(c) => c !in s.disp.polls
    case Do(step) => D.Enabled(s.disp, step) && (step.Polling? ==> PollInTime(s, step.c, step.poll))
  }

  /** A poll becomes late as it pops, and is forgotten as it ends. */
  ghost function LateAfter(s: State, c: nat, step: D.PollStep): set<nat>
    requires PollInTime(s, c, step)
  {
    match step
    case Pop(_) => if IsLate(s.sentAt[c], s.now) then s.late + {c} else s.late
    case Lock(_) => s.late
    case Write => s.late
    case Commit => s.late
    case _ => s.late - {c}
  }

  ghost function Apply(s: State, e: Event): State
    requires Enabled(s, e)
  {
    match e
    case Tick(elapsed) => s.(now := s.now + elapsed)
    case Send(c) => s.(sentAt := s.sentAt[c := s.now])
    case Do(step) =>
      s.(disp := D.Apply(s.disp, step), late := if step.Polling? then LateAfter(s, step.c, step.poll) else s.late)
  }

  ghost predicate ValidRun(s: State, es: seq<Event>)
    decreases |es|
  {
    es == [] || (Enabled(s, es[0]) && ValidRun(Apply(s, es[0]), es[1..]))
  }

  ghost function Exec(s: State, es: seq<Event>): State
    requires ValidRun(s, es)
    decreases |es|
  {
    if es == [] then s else Exec(Apply(s, es[0]), es[1..])
  }

  /** A poll of p pops a token for an agent that has left. */
  ghost predicate IsLatePop(s: State, e: Event, p: ProviderId)
    requires Enabled(s, e)
  {
    e.Do? && e.step.Polling? && e.step.poll == D.Pop(p) && IsLate(s.sentAt[e.step.c], s.now)
  }

  /** A fault of a poll of p that popped in time. */
  ghost predicate IsOtherFault(s: State, e: Event, p: ProviderId) {
    e.Do? && e.step.Polling? && DT.IsFaultOf(s.disp, e.step, p) && e.step.c !in s.late
  }

  ghost function LatePops(s: State, es: seq<Event>, p: ProviderId): nat
    requires ValidRun(s, es)
    decreases |es|
  {
    if es == [] then 0 else Bit(IsLatePop(s, es[0], p)) + LatePops(Apply(s, es[0]), es[1..], p)
  }

  ghost function OtherFaults(s: State, es: seq<Event>, p: ProviderId): nat
    requires ValidRun(s, es)
    decreases |es|
  {
    if es == [] then 0 else Bit(IsOtherFault(s, es[0], p)) + OtherFaults(Apply(s, es[0]), es[1..], p)
  }

  lemma {:induction false} Extend(s: State, es: seq<Event>, e: Event, p: ProviderId)
    requires ValidRun(s, es) && Enabled(Exec(s, es), e)
    ensures ValidRun(s, es + [e]) && Exec(s, es + [e]) == Apply(Exec(s, es), e)
    ensures LatePops(s, es + [e], p) == LatePops(s, es, p) + Bit(IsLatePop(Exec(s, es), e, p))
    ensures OtherFaults(s, es + [e], p) == OtherFaults(s, es, p) + Bit(IsOtherFault(Exec(s, es), e, p))
    decreases |es|
  {
    if es == [] {
      assert ([] + [e])[1..] == [];
    } else {
      Extend(Apply(s, es[0]), es[1..], e, p);
      assert (es + [e])[1..] == es[1..] + [e];
    }
  }

  lemma Prepend(s: State, e: Event, es: seq<Event>, p: ProviderId)
    requires Enabled(s, e) && ValidRun(Apply(s, e), es)
    ensures ValidRun(s, [e] + es) && Exec(s, [e] + es) == Exec(Apply(s, e), es)
    ensures LatePops(s, [e] + es, p) == Bit(IsLatePop(s, e, p)) + LatePops(Apply(s, e), es, p)
    ensures OtherFaults(s, [e] + es, p) == Bit(IsOtherFault(s, e, p)) + OtherFaults(Apply(s, e), es, p)
  {
    assert ([e] + es)[1..] == es;
  }

  function Lift(steps: seq<D.Event>): seq<Event>
    decreases |steps|
  {
    if steps == [] then [] else [Do(steps[0])] + Lift(steps[1..])
  }

  /** Deploys take no notice of the clock. */
  lemma {:induction false} LiftedRun(s: State, steps: seq<D.Event>, p: ProviderId)
    requires D.ValidRun(s.disp, steps) && forall i | 0 <= i < |steps| :: steps[i].Submitting?
    ensures ValidRun(s, Lift(steps)) && Exec(s, Lift(steps)) == s.(disp := D.Exec(s.disp, steps))
    ensures LatePops(s, Lift(steps), p) == 0 && OtherFaults(s, Lift(steps), p) == 0
    decreases |steps|
  {
    if steps == [] {
    } else {
      LiftedRun(Apply(s, Do(steps[0])), steps[1..], p);
      assert Lift(steps)[1..] == Lift(steps[1..]);
    }
  }

  /** A poll that is late was sent too long ago, and stays so. */
  ghost predicate LateOk(s: State) {
    forall c | c in s.late :: c in s.disp.polls && c in s.sentAt && IsLate(s.sentAt[c], s.now)
  }

  ghost predicate Inv(s: State) {
    DI.Inv(s.disp) && LateOk(s)
  }

  // ---- what is counted ----

  /** Tokens and replies that polls of p have lost: a token that was never pushed is not among them. */
  ghost function Losses(s: D.State, p: ProviderId): int {
    D.LostTokens(s, p) + |DT.OfProvider(s, p, s.unreplied)| - |DT.OfProvider(s, p, s.unpushed)|
  }

  ghost function LateFor(s: State, p: ProviderId): set<nat> {
    set c | c in s.late && c in s.disp.polls && s.disp.polls[c].provider == p
  }

  // ---- losses are faults of polls ----

  /** A job that has a provider keeps it. */
  lemma OfProviderKept(s: D.State, e: D.Event, p: ProviderId, js: set<JobId>)
    requires DI.Inv(s) && D.Enabled(s, e)
    requires forall j | j in js :: j in s.jobs && s.jobs[j].provider != UNASSIGNED
    ensures DT.OfProvider(D.Apply(s, e), p, js) == DT.OfProvider(s, p, js)
  {
    var s' := D.Apply(s, e);
    forall j | j in js ensures j in s'.jobs && s'.jobs[j].provider == s.jobs[j].provider {
      DT.StepMovesForward(s, e, j);
    }
  }

  lemma LostJobsHaveProviders(s: D.State)
    requires DI.Inv(s)
    ensures forall j | j in s.unreplied + s.unpushed :: j in s.jobs && s.jobs[j].provider != UNASSIGNED
  {
    forall j | j in s.unreplied + s.unpushed ensures j in s.jobs && s.jobs[j].provider != UNASSIGNED {
      assert DI.ClaimOk(s, j) && DI.JobOk(s, j);
    }
  }

  lemma OfProviderAdd(s: D.State, p: ProviderId, js: set<JobId>, job: JobId)
    requires job !in js && job in s.jobs
    ensures |DT.OfProvider(s, p, js + {job})| == |DT.OfProvider(s, p, js)| + Bit(s.jobs[job].provider == p)
  {
    var before, after := DT.OfProvider(s, p, js), DT.OfProvider(s, p, js + {job});
    if s.jobs[job].provider == p {
      assert after == before + {job};
    } else {
      assert after == before;
    }
  }

  lemma SubmitLosses(s: D.State, c: nat, step: D.SubmitStep, p: ProviderId)
    requires DI.Inv(s) && D.SubmitEnabled(s, c, step)
    ensures Losses(D.ApplySubmit(s, c, step), p) == Losses(s, p)
  {
    var s' := D.ApplySubmit(s, c, step);
    LostJobsHaveProviders(s);
    OfProviderKept(s, D.Submitting(c, step), p, s.unreplied);
    OfProviderKept(s, D.Submitting(c, step), p, s.unpushed);
    DT.SubmitFrame(s, c, step);
    if step.Abandon? {
      AbandonLosses(s, c, p);
    }
  }

  lemma SameJobs(s: D.State, s': D.State, p: ProviderId, js: set<JobId>)
    requires s'.jobs == s.jobs
    ensures DT.OfProvider(s', p, js) == DT.OfProvider(s, p, js)
  {
  }

  lemma AbandonLosses(s: D.State, c: nat, p: ProviderId)
    requires DI.Inv(s) && D.SubmitEnabled(s, c, D.Abandon)
    ensures Losses(D.ApplySubmit(s, c, D.Abandon), p) == Losses(s, p)
  {
    var s' := D.ApplySubmit(s, c, D.Abandon);
    assert DI.SubmitOk(s, c);
    SameJobs(s, s', p, s'.unreplied);
    SameJobs(s, s', p, s'.unpushed);
    if s.submits[c].Assigned? {
      assert DI.JobOk(s, s.submits[c].job);
      OfProviderAdd(s, p, s.unpushed, s.submits[c].job);
    }
  }

  lemma PollLosses(s: D.State, c: nat, step: D.PollStep, p: ProviderId)
    requires DI.Inv(s) && D.PollEnabled(s, c, step)
    ensures Losses(D.ApplyPoll(s, c, step), p) == Losses(s, p) + Bit(DT.IsFaultOf(s, D.Polling(c, step), p))
  {
    LostJobsHaveProviders(s);
    OfProviderKept(s, D.Polling(c, step), p, s.unreplied);
    OfProviderKept(s, D.Polling(c, step), p, s.unpushed);
    DT.PollFrame(s, c, step);
    if step.LoseReply? {
      var job := s.polls[c].job;
      assert DI.PollOk(s, c) && DI.ClaimOk(s, job);
      OfProviderAdd(s, p, s.unreplied, job);
    }
  }

  // ---- late polls ----

  lemma PopMovesLate(s: State, c: nat, provider: ProviderId, p: ProviderId)
    requires Inv(s) && D.PollEnabled(s.disp, c, D.Pop(provider)) && PollInTime(s, c, D.Pop(provider))
    ensures var e := Do(D.Polling(c, D.Pop(provider)));
      |LateFor(Apply(s, e), p)| == |LateFor(s, p)| + Bit(IsLatePop(s, e, p))
  {
    var e := Do(D.Polling(c, D.Pop(provider)));
    assert c !in s.late;
    assert LateFor(Apply(s, e), p) == if IsLatePop(s, e, p) then LateFor(s, p) + {c} else LateFor(s, p);
  }

  lemma ClaimKeepsLate(s: State, c: nat, step: D.PollStep, p: ProviderId)
    requires D.PollEnabled(s.disp, c, step) && PollInTime(s, c, step) && (step.Lock? || step.Write? || step.Commit?)
    ensures LateFor(Apply(s, Do(D.Polling(c, step))), p) == LateFor(s, p)
  {
  }

  lemma EndMovesLate(s: State, c: nat, step: D.PollStep, p: ProviderId)
    requires D.PollEnabled(s.disp, c, step) && PollInTime(s, c, step)
    requires step.Drop? || step.Rollback? || step.Reply? || step.LoseReply?
    ensures LateFor(Apply(s, Do(D.Polling(c, step))), p) == LateFor(s, p) - {c}
  {
    var s' := D.ApplyPoll(s.disp, c, step);
    assert s'.polls == s.disp.polls - {c};
  }

  lemma PollMovesLate(s: State, c: nat, step: D.PollStep, p: ProviderId)
    requires Inv(s) && D.PollEnabled(s.disp, c, step) && PollInTime(s, c, step)
    ensures var e := Do(D.Polling(c, step));
      |LateFor(Apply(s, e), p)| + Bit(DT.IsFaultOf(s.disp, e.step, p) && c in s.late)
      == |LateFor(s, p)| + Bit(IsLatePop(s, e, p))
  {
    if step.Pop? {
      PopMovesLate(s, c, step.provider, p);
    } else if step.Lock? || step.Write? || step.Commit? {
      ClaimKeepsLate(s, c, step, p);
    } else {
      DI.FindNoneNeverEnabled(s.disp, c);
      EndMovesLate(s, c, step, p);
    }
  }

  lemma PollKeepsLateOk(s: State, c: nat, step: D.PollStep)
    requires Inv(s) && D.PollEnabled(s.disp, c, step) && PollInTime(s, c, step)
    ensures LateOk(Apply(s, Do(D.Polling(c, step))))
  {
  }

  // ---- the account ----

  /** What p's polls lost, and what the late ones among them are about to lose. */
  ghost function Account(s: State, p: ProviderId): int {
    Losses(s.disp, p) + |LateFor(s, p)|
  }

  lemma PollMovesAccount(s: State, c: nat, step: D.PollStep, p: ProviderId)
    requires Inv(s) && D.PollEnabled(s.disp, c, step) && PollInTime(s, c, step)
    ensures var e := Do(D.Polling(c, step));
      Account(Apply(s, e), p) == Account(s, p) + Bit(IsLatePop(s, e, p)) + Bit(IsOtherFault(s, e, p))
  {
    PollLosses(s.disp, c, step, p);
    PollMovesLate(s, c, step, p);
  }

  lemma OtherKeepsAccount(s: State, step: D.Event, p: ProviderId)
    requires Inv(s) && D.Enabled(s.disp, step) && !step.Polling?
    ensures LateOk(Apply(s, Do(step))) && Account(Apply(s, Do(step)), p) == Account(s, p)
  {
    var s' := Apply(s, Do(step));
    if step.Submitting? {
      SubmitLosses(s.disp, step.c, step.submit, p);
      DT.SubmitFrame(s.disp, step.c, step.submit);
    } else {
      assert DT.OfProvider(s'.disp, p, s'.disp.unreplied) == DT.OfProvider(s.disp, p, s.disp.unreplied);
      assert DT.OfProvider(s'.disp, p, s'.disp.unpushed) == DT.OfProvider(s.disp, p, s.disp.unpushed);
    }
    assert s'.disp.polls == s.disp.polls && LateFor(s', p) == LateFor(s, p);
  }

  lemma StepMovesAccount(s: State, e: Event, p: ProviderId)
    requires Inv(s) && Enabled(s, e)
    ensures Inv(Apply(s, e))
    ensures Account(Apply(s, e), p) == Account(s, p) + Bit(IsLatePop(s, e, p)) + Bit(IsOtherFault(s, e, p))
  {
    match e
    case Tick(_) => assert LateFor(Apply(s, e), p) == LateFor(s, p);
    case Send(_) => assert LateFor(Apply(s, e), p) == LateFor(s, p);
    case Do(step) =>
      DI.StepKeepsInv(s.disp, step);
      if step.Polling? {
        PollKeepsLateOk(s, step.c, step.poll);
        PollMovesAccount(s, step.c, step.poll, p);
      } else {
        OtherKeepsAccount(s, step, p);
      }
  }

  lemma {:induction false} RunMovesAccount(s: State, es: seq<Event>, p: ProviderId)
    requires Inv(s) && ValidRun(s, es)
    ensures Inv(Exec(s, es)) && Account(Exec(s, es), p) == Account(s, p) + LatePops(s, es, p) + OtherFaults(s, es, p)
    decreases |es|
  {
    if es == [] {
    } else {
      StepMovesAccount(s, es[0], p);
      RunMovesAccount(Apply(s, es[0]), es[1..], p);
    }
  }

  lemma SettledBooks(s: State, p: ProviderId)
    requires Inv(s) && p != UNASSIGNED && DT.Settled(s.disp, p)
    ensures |DT.PushedFor(s.disp, p)| == |DT.DeliveredTo(s.disp, p)| + Account(s, p)
  {
    var d := s.disp;
    DT.SettledCount(d, p);
    DT.SettledSets(d, p);
    DT.SettledDisjoint(d, p);
    assert LateFor(s, p) == {};
    var delivered, unreplied, stranded := DT.DeliveredTo(d, p), DT.OfProvider(d, p, d.unreplied), DT.Stranded(d, p);
    var pushed, unpushed := DT.PushedFor(d, p), DT.OfProvider(d, p, d.unpushed);
    forall j | j in pushed ensures j !in unpushed {
      assert DI.JobOk(d, j);
    }
    assert |delivered + unreplied + stranded| == |delivered| + |unreplied| + |stranded|;
    assert |pushed + unpushed| == |pushed| + |unpushed|;
  }

  /**
   In every run that settles a provider, as many of the jobs pushed for it never arrive as its polls popped a token too
   late or failed for another reason: a late pop costs a job for certain.
   */
  lemma LatePopsCostJobs(start: int, es: seq<Event>, p: ProviderId)
    requires p != UNASSIGNED && ValidRun(Initial(start), es) && DT.Settled(Exec(Initial(start), es).disp, p)
    ensures var s := Exec(Initial(start), es).disp;
      |DT.PushedFor(s, p)|
      == |DT.DeliveredTo(s, p)| + LatePops(Initial(start), es, p) + OtherFaults(Initial(start), es, p)
  {
    DI.InitialInv();
    var s0 := Initial(start);
    assert DT.OfProvider(s0.disp, p, {}) == {} && LateFor(s0, p) == {};
    RunMovesAccount(s0, es, p);
    SettledBooks(Exec(s0, es), p);
  }
}
