/**
 Polling one provider's queue dry: whatever the other clients do, its polls end unless new tokens are pushed for it,
 and what stays scheduled is what the lost tokens strand.
 */
module Drain {
  import opened Store
  import opened Counting
  import opened Dispatch
  import opened DispatchInvariant
  import opened DispatchTheorems

  /** A statement of one of p's polls. */
  ghost predicate PollsFor(s: State, e: Event, p: ProviderId) {
    && e.Polling?
    && if e.poll.Pop? then e.poll.provider == p else e.c in s.polls && s.polls[e.c].provider == p
  }

  /** A run in which no client but p's polls takes a step. */
  ghost predicate DrainRun(s: State, es: seq<Event>, p: ProviderId)
    decreases |es|
  {
    es == [] || (PollsFor(s, es[0], p) && Enabled(s, es[0]) && DrainRun(Apply(s, es[0]), es[1..], p))
  }

  /** No queued token of p and no poll of p in flight. */
  ghost predicate Drained(s: State, p: ProviderId) {
    Queue(s, p) == [] && forall c | c in s.polls :: s.polls[c].provider != p
  }

  ghost predicate Stuck(s: State, p: ProviderId) {
    forall e | PollsFor(s, e, p) :: !Enabled(s, e)
  }

  // ---- the measure ----

  function StepsLeft(m: Poll): nat {
    match m
    case Popped(_, _) => 4
    case Locked(_, _, _, wrote) => if wrote then 2 else 3
    case Committed(_, _, _) => 1
  }

  function StepsLeftFor(m: Poll, p: ProviderId): nat {
    if m.provider == p then StepsLeft(m) else 0
  }

  function HasLeft(p: ProviderId, n: nat): Poll -> bool {
    (m: Poll) => m.provider == p && n <= StepsLeft(m)
  }

  ghost function Weight(polls: map<nat, Poll>, p: ProviderId): nat {
    Count(polls, HasLeft(p, 1)) + Count(polls, HasLeft(p, 2))
    + Count(polls, HasLeft(p, 3)) + Count(polls, HasLeft(p, 4))
  }

  /** Five steps for each queued token, and what is left of each poll in flight. */
  ghost function Measure(s: State, p: ProviderId): nat {
    5 * |Queue(s, p)| + Weight(s.polls, p)
  }

  lemma WeightInsert(polls: map<nat, Poll>, c: nat, m: Poll, p: ProviderId)
    requires c !in polls
    ensures Weight(polls[c := m], p) == Weight(polls, p) + StepsLeftFor(m, p)
  {
    CountInsert(polls, c, m, HasLeft(p, 1));
    CountInsert(polls, c, m, HasLeft(p, 2));
    CountInsert(polls, c, m, HasLeft(p, 3));
    CountInsert(polls, c, m, HasLeft(p, 4));
  }

  lemma WeightRemove(polls: map<nat, Poll>, c: nat, p: ProviderId)
    requires c in polls
    ensures Weight(polls - {c}, p) == Weight(polls, p) - StepsLeftFor(polls[c], p)
  {
    WeightInsert(polls - {c}, c, polls[c], p);
    assert (polls - {c})[c := polls[c]] == polls;
  }

  lemma WeightUpdate(polls: map<nat, Poll>, c: nat, m: Poll, p: ProviderId)
    requires c in polls
    ensures Weight(polls[c := m], p) == Weight(polls, p) - StepsLeftFor(polls[c], p) + StepsLeftFor(m, p)
  {
    WeightRemove(polls, c, p);
    WeightInsert(polls - {c}, c, m, p);
    assert (polls - {c})[c := m] == polls[c := m];
  }

  lemma PollShrinks(s: State, c: nat, step: PollStep, p: ProviderId)
    requires PollEnabled(s, c, step) && PollsFor(s, Polling(c, step), p)
    ensures Measure(ApplyPoll(s, c, step), p) < Measure(s, p)
  {
    var s' := ApplyPoll(s, c, step);
    if step.Pop? {
      WeightInsert(s.polls, c, s'.polls[c], p);
    } else if step.Lock? || step.Write? || step.Commit? {
      WeightUpdate(s.polls, c, s'.polls[c], p);
    } else {
      WeightRemove(s.polls, c, p);
    }
  }

  // ---- termination ----

  /** A submit's push onto p's list. */
  ghost predicate PushesFor(s: State, e: Event, p: ProviderId) {
    e.Submitting? && e.submit.Push? && e.c in s.submits && s.submits[e.c].provider == p
  }

  ghost function PollSteps(s: State, es: seq<Event>, p: ProviderId): nat
    requires ValidRun(s, es)
    decreases |es|
  {
    if es == [] then 0 else Bit(PollsFor(s, es[0], p)) + PollSteps(Apply(s, es[0]), es[1..], p)
  }

  ghost function Pushes(s: State, es: seq<Event>, p: ProviderId): nat
    requires ValidRun(s, es)
    decreases |es|
  {
    if es == [] then 0 else Bit(PushesFor(s, es[0], p)) + Pushes(Apply(s, es[0]), es[1..], p)
  }

  lemma OtherPollKeepsMeasure(s: State, c: nat, step: PollStep, p: ProviderId)
    requires PollEnabled(s, c, step) && !PollsFor(s, Polling(c, step), p)
    ensures Measure(ApplyPoll(s, c, step), p) == Measure(s, p)
  {
    var s' := ApplyPoll(s, c, step);
    if step.Pop? {
      WeightInsert(s.polls, c, s'.polls[c], p);
    } else if step.Lock? || step.Write? || step.Commit? {
      WeightUpdate(s.polls, c, s'.polls[c], p);
    } else {
      WeightRemove(s.polls, c, p);
    }
  }

  lemma SubmitMovesMeasure(s: State, c: nat, step: SubmitStep, p: ProviderId)
    requires SubmitEnabled(s, c, step)
    ensures Measure(ApplySubmit(s, c, step), p) == Measure(s, p) + 5 * Bit(PushesFor(s, Submitting(c, step), p))
  {
    SubmitFrame(s, c, step);
  }

  lemma StepMovesMeasure(s: State, e: Event, p: ProviderId)
    requires Enabled(s, e)
    ensures Bit(PollsFor(s, e, p)) + Measure(Apply(s, e), p) <= Measure(s, p) + 5 * Bit(PushesFor(s, e, p))
  {
    match e
    case Submitting(c, step) => SubmitMovesMeasure(s, c, step, p);
    case Polling(c, step) =>
      if PollsFor(s, e, p) {
        PollShrinks(s, c, step, p);
      } else {
        OtherPollKeepsMeasure(s, c, step, p);
      }
    case _ =>
  }

  /**
   In any run of any clients, the steps of p's polls are at most the measure of the state it starts from and five for
   each push for p: without new pushes for p, its polls come to an end.
   */
  lemma {:induction false} PollsAreBounded(s: State, es: seq<Event>, p: ProviderId)
    requires ValidRun(s, es)
    ensures PollSteps(s, es, p) + Measure(Exec(s, es), p) <= Measure(s, p) + 5 * Pushes(s, es, p)
    decreases |es|
  {
    if es == [] {
    } else {
      StepMovesMeasure(s, es[0], p);
      PollsAreBounded(Apply(s, es[0]), es[1..], p);
    }
  }

  lemma {:induction false} DrainRunOnlyPolls(s: State, es: seq<Event>, p: ProviderId)
    requires DrainRun(s, es, p)
    ensures ValidRun(s, es) && PollSteps(s, es, p) == |es| && Pushes(s, es, p) == 0
    decreases |es|
  {
    if es == [] {
    } else {
      DrainRunOnlyPolls(Apply(s, es[0]), es[1..], p);
    }
  }

  /** In particular a run of p's polls alone is no longer than the measure of the state it starts from. */
  lemma DrainTerminates(s: State, es: seq<Event>, p: ProviderId)
    requires DrainRun(s, es, p)
    ensures ValidRun(s, es) && |es| <= Measure(s, p)
  {
    DrainRunOnlyPolls(s, es, p);
    PollsAreBounded(s, es, p);
  }

  // ---- progress and outcome ----

  lemma {:induction false} FreshClient(used: set<nat>) returns (c: nat)
    ensures forall d | d in used :: d < c
  {
    if used == {} {
      c := 0;
    } else {
      var d :| d in used;
      var rest := FreshClient(used - {d});
      c := if rest <= d then d + 1 else rest;
      assert forall e | e in used :: e == d || e in used - {d};
    }
  }

  /** Until p is drained, one of its polls can take a sound step. */
  lemma DrainProgress(s: State, p: ProviderId) returns (e: Event)
    requires Inv(s) && !Drained(s, p)
    ensures PollsFor(s, e, p) && Enabled(s, e) && !IsFaultOf(s, e, p)
  {
    if c :| c in s.polls && s.polls[c].provider == p {
      match s.polls[c] {
        case Popped(_, _) =>
          var job := ClaimFindsRow(s, c);
          e := Polling(c, Lock(job));
        case Locked(_, _, _, wrote) =>
          e := Polling(c, if wrote then Commit else Write);
        case Committed(_, _, _) =>
          e := Polling(c, Reply);
      }
    } else {
      var c := FreshClient(s.polls.Keys);
      e := Polling(c, Pop(p));
    }
  }

  /** p's polls can take no further step exactly when p is drained. */
  lemma StuckExactlyWhenDrained(s: State, p: ProviderId)
    requires Inv(s)
    ensures Stuck(s, p) <==> Drained(s, p)
  {
    if !Drained(s, p) {
      var e := DrainProgress(s, p);
    }
  }

  /**
   In any run of any clients that leaves p's polls unable to go on, p's scheduled rows are as many as its lost tokens
   and the submits that still owe p a token.
   */
  lemma DrainLeavesTheLost(s: State, es: seq<Event>, p: ProviderId)
    requires Inv(s) && ValidRun(s, es) && Stuck(Exec(s, es), p)
    ensures var s' := Exec(s, es); |Stranded(s', p)| == LostTokens(s', p) + Count(s'.submits, IsAssignedFor(p))
    ensures FaultFree(s, es, p) ==> LostTokens(Exec(s, es), p) == LostTokens(s, p)
  {
    RunKeepsInv(s, es);
    var s' := Exec(s, es);
    StuckExactlyWhenDrained(s', p);
    assert TokensBalance(s', p);
    CountZero(s'.polls, IsOpenFor(p));
    if FaultFree(s, es, p) {
      FaultFreeLosesNothing(s, es, p, "");
    }
  }

  /** From every reachable state, p's polls alone can drain p without a fault. */
  lemma {:induction false} DrainCompletes(s: State, p: ProviderId) returns (es: seq<Event>)
    requires Inv(s)
    ensures DrainRun(s, es, p) && ValidRun(s, es) && FaultFree(s, es, p) && Stuck(Exec(s, es), p)
    decreases Measure(s, p)
  {
    StuckExactlyWhenDrained(s, p);
    if Drained(s, p) {
      es := [];
    } else {
      var e := DrainProgress(s, p);
      PollShrinks(s, e.c, e.poll, p);
      StepKeepsInv(s, e);
      var rest := DrainCompletes(Apply(s, e), p);
      es := [e] + rest;
      assert es[1..] == rest;
    }
  }
}
