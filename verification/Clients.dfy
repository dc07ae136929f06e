/** The calls in flight, and what the steps of other clients leave to them. */
module Clients {
  import opened Platform
  import opened Store
  import R = Registry
  import D = Dispatch
  import RT = RegistryTheorems

  /**
   A call in flight; a registrar has drawn the id uuid. An agent that polls as c owes the reports on the deliveries with
   these numbers, which it is still handling.
   */
  datatype Client =
    | Submitter(c: nat)
    | Registrar(c: nat, uuid: ProviderId)
    | Poller(c: nat, owed: set<nat>)
    | Nobody

  /** A step that only this client takes; ids are drawn once, so only its registrar inserts a row under uuid. */
  predicate IsStepOf(e: Event, me: Client) {
    match me
    case Submitter(c) => e.Jobs? && e.jobs.Submitting? && e.jobs.c == c
    case Registrar(c, uuid) =>
      e.Fleet? && e.fleet.Registering? && (e.fleet.c == c || e.fleet.register == R.Upsert(uuid))
    case Poller(c, owed) =>
      e.Jobs? && ((e.jobs.Polling? && e.jobs.c == c) || (e.jobs.Reporting? && e.jobs.k in owed))
    case Nobody => false
  }

  /** These deliveries have been made, and their reports neither processed nor lost. */
  ghost predicate Owing(w: World, owed: set<nat>) {
    forall k | k in owed :: k < |w.disp.delivered| && k !in w.disp.reported
  }

  /** No reply of poll c was heard or lost. */
  ghost predicate SameAnswers(w: World, w': World, c: nat) {
    && D.RepliesOf(w'.disp.heard, c) == D.RepliesOf(w.disp.heard, c)
    && D.RepliesOf(w'.disp.unheard, c) == D.RepliesOf(w.disp.unheard, c)
  }

  /** The client's own entry is there before and after, the same. */
  ghost predicate LeftAlone(w: World, w': World, me: Client) {
    match me
    case Submitter(c) => c in w.disp.submits && c in w'.disp.submits && w'.disp.submits[c] == w.disp.submits[c]
    case Registrar(c, uuid) =>
      && c in w.reg.regs && c in w'.reg.regs && w'.reg.regs[c] == w.reg.regs[c]
      && (uuid !in w.reg.providers ==> uuid !in w'.reg.providers)
    case Poller(c, owed) =>
      && (c in w.disp.polls <==> c in w'.disp.polls) && (c in w.disp.polls ==> w'.disp.polls[c] == w.disp.polls[c])
      && Owing(w, owed) && Owing(w', owed) && SameAnswers(w, w', c)
    case Nobody => true
  }

  lemma OtherSubmitLeavesAlone(w: World, d: nat, step: D.SubmitStep, me: Client)
    requires LeftAlone(w, w, me) && D.SubmitEnabled(w.disp, d, step) && me != Submitter(d)
    ensures LeftAlone(w, World(w.reg, D.ApplySubmit(w.disp, d, step)), me)
  {
  }

  lemma OtherPollLeavesAlone(w: World, d: nat, step: D.PollStep, me: Client)
    requires LeftAlone(w, w, me) && D.PollEnabled(w.disp, d, step) && !IsStepOf(Jobs(D.Polling(d, step)), me)
    ensures LeftAlone(w, World(w.reg, D.ApplyPoll(w.disp, d, step)), me)
  {
  }

  lemma FleetLeavesAlone(w: World, f: R.Event, me: Client)
    requires LeftAlone(w, w, me) && R.Enabled(w.reg, f) && !IsStepOf(Fleet(f), me)
    ensures LeftAlone(w, World(R.Apply(w.reg, f), w.disp), me)
  {
    match f
    case Registering(c, step) => RT.RegisterFrame(w.reg, c, step);
    case Beating(id, step) => RT.AgentFrame(w.reg, id, step);
    case _ => RT.OtherFrame(w.reg, f);
  }

  /** A step of any other client leaves the client alone. */
  lemma OtherStepLeavesAlone(w: World, e: Event, me: Client)
    requires LeftAlone(w, w, me) && Enabled(w, e) && !IsStepOf(e, me)
    ensures LeftAlone(w, Apply(w, e), me)
  {
    match e
    case Fleet(f) => FleetLeavesAlone(w, f, me);
    case Jobs(d) =>
      match d {
        case Submitting(c, step) => OtherSubmitLeavesAlone(w, c, step, me);
        case Polling(c, step) => OtherPollLeavesAlone(w, c, step, me);
        case _ =>
      }
  }

  /** So does any run in which the client takes no step. */
  lemma {:induction false} OthersLeaveAlone(w: World, es: seq<Event>, me: Client)
    requires LeftAlone(w, w, me) && ValidRun(w, es)
    requires forall i | 0 <= i < |es| :: !IsStepOf(es[i], me)
    ensures LeftAlone(w, Exec(w, es), me)
    decreases |es|
  {
    if es == [] {
    } else {
      OtherStepLeavesAlone(w, es[0], me);
      OthersLeaveAlone(Apply(w, es[0]), es[1..], me);
    }
  }
}
