/**
 A platform run is a dispatch run and a registry run, interleaved: so what holds of every run of either holds of the
 platform, and of the code, which follows the platform's steps.
 */
module PlatformTheorems {
  import opened Store
  import opened Counting
  import opened Platform
  import opened ControlPlane
  import R = Registry
  import D = Dispatch
  import DI = DispatchInvariant
  import DT = DispatchTheorems
  import Rf = Refinement
  import RT = RegistryTheorems
  import Drain

  // ---- theorems of dispatch ----

  /** Tokens and scheduled rows balance in every run of the platform. */
  lemma TokenConservation(start: int, es: seq<Event>, p: ProviderId)
    requires ValidRun(Initial(start), es)
    ensures var s := Exec(Initial(start), es).disp;
      Count(s.jobs, DI.IsScheduledFor(p))
      == |D.Queue(s, p)| + Count(s.submits, DI.IsAssignedFor(p)) + Count(s.polls, DI.IsOpenFor(p)) + D.LostTokens(s, p)
  {
    JobsRun(Initial(start), es);
    DT.TokenConservation(JobsOf(es), p);
  }

  /** No platform run delivers a job twice, nor to a provider other than its row's. */
  lemma AtMostOnceDelivery(start: int, es: seq<Event>)
    requires ValidRun(Initial(start), es)
    ensures var s := Exec(Initial(start), es).disp;
      && (forall k, l | 0 <= k < l < |s.delivered| :: s.delivered[k].job != s.delivered[l].job)
      && (forall k | 0 <= k < |s.delivered| ::
            s.delivered[k].job in s.jobs && s.jobs[s.delivered[k].job].provider == s.delivered[k].provider)
  {
    JobsRun(Initial(start), es);
    DT.AtMostOnceDelivery(JobsOf(es));
  }

  /** Whatever the faults and the fleet do, the books of a settled provider balance. */
  lemma Settlement(start: int, es: seq<Event>, p: ProviderId)
    requires p != UNASSIGNED && ValidRun(Initial(start), es) && DT.Settled(Exec(Initial(start), es).disp, p)
    ensures DT.BooksBalance(Exec(Initial(start), es).disp, p)
  {
    JobsRun(Initial(start), es);
    DT.Settlement(JobsOf(es), p);
  }

  /** No event of the run costs p a token or a reply. */
  ghost predicate FaultFree(w: World, es: seq<Event>, p: ProviderId)
    requires ValidRun(w, es)
    decreases |es|
  {
    es == [] ||
    (!(es[0].Jobs? && DT.IsFaultOf(w.disp, es[0].jobs, p)) && FaultFree(Apply(w, es[0]), es[1..], p))
  }

  lemma {:induction false} FaultFreeJobs(w: World, es: seq<Event>, p: ProviderId)
    requires ValidRun(w, es) && FaultFree(w, es, p)
    ensures D.ValidRun(w.disp, JobsOf(es)) && DT.FaultFree(w.disp, JobsOf(es), p)
    decreases |es|
  {
    JobsRun(w, es);
    if es == [] {
    } else {
      FaultFreeJobs(Apply(w, es[0]), es[1..], p);
      if es[0].Jobs? {
        assert JobsOf(es)[1..] == JobsOf(es[1..]);
      } else {
        assert JobsOf(es) == JobsOf(es[1..]);
      }
    }
  }

  /** A platform run without a fault of p that settles p has delivered to p exactly the jobs pushed for it. */
  lemma QuiescentCompleteness(start: int, es: seq<Event>, p: ProviderId)
    requires p != UNASSIGNED && ValidRun(Initial(start), es) && FaultFree(Initial(start), es, p)
    requires DT.Settled(Exec(Initial(start), es).disp, p)
    ensures var s := Exec(Initial(start), es).disp;
      DT.DeliveredTo(s, p) == DT.PushedFor(s, p) && DT.Stranded(s, p) == {}
  {
    JobsRun(Initial(start), es);
    FaultFreeJobs(Initial(start), es, p);
    DT.QuiescentCompleteness(JobsOf(es), p);
  }

  /** Every platform run is a run of the pool of offers, to the pool that its rows and locks stand for. */
  lemma PlatformRefinesPool(start: int, es: seq<Event>)
    requires ValidRun(Initial(start), es)
    ensures D.ValidRun(D.INITIAL, JobsOf(es))
    ensures var moves := Rf.AbstractRun(D.INITIAL, JobsOf(es));
      Rf.CanMoveAll(Rf.EMPTY, moves) && Rf.MovedAll(Rf.EMPTY, moves) == Rf.Abstract(Exec(Initial(start), es).disp)
  {
    JobsRun(Initial(start), es);
    Rf.ProtocolRefinesPool(JobsOf(es));
  }

  /**
   A platform run that leaves p's polls unable to go on leaves as many rows waiting for p as p lost tokens and submits
   still owe it.
   */
  lemma DrainLeavesTheLost(start: int, es: seq<Event>, p: ProviderId)
    requires ValidRun(Initial(start), es) && Drain.Stuck(Exec(Initial(start), es).disp, p)
    ensures var s := Exec(Initial(start), es).disp;
      |DT.Stranded(s, p)| == D.LostTokens(s, p) + Count(s.submits, DI.IsAssignedFor(p))
  {
    JobsRun(Initial(start), es);
    DI.InitialInv();
    Drain.DrainLeavesTheLost(D.INITIAL, JobsOf(es), p);
  }

  // ---- theorems of the registry ----

  /** While the last sweep is no more than 60 s old, an online provider of the platform was seen in the last 150 s. */
  lemma BoundedStaleness(start: int, es: seq<Event>, id: ProviderId)
    requires ValidRun(Initial(start), es)
    requires var s := Exec(Initial(start), es).reg;
      && s.lastSweep.Some? && s.now - s.lastSweep.value <= R.SWEEP_PERIOD
      && id in s.providers && s.providers[id].status.Online?
    ensures var s := Exec(Initial(start), es).reg; s.now - s.providers[id].lastSeen <= 150 * R.SECOND
  {
    FleetRun(Initial(start), es);
    RT.BoundedStaleness(start, FleetOf(es), id);
  }

  // ---- the code ----

  /**
   Whatever calls brought the service from its start to where it stands: if none of them cost p a token or a reply and
   nothing of p is queued or in flight, then no row of the jobs table waits for p, and the jobs that p was sent are the
   jobs whose tokens were pushed for it.
   */
  lemma CodeCompleteness(service: Service, start: int, run: seq<Event>, p: ProviderId)
    requires service.Valid() && service.Follows(Initial(start), run)
    requires p != UNASSIGNED && FaultFree(Initial(start), run, p) && DT.Settled(service.world.disp, p)
    ensures forall j | j in service.pg.jobs ::
      !(service.pg.jobs[j].status.Scheduled? && service.pg.jobs[j].provider == p)
    ensures DT.DeliveredTo(service.world.disp, p) == DT.PushedFor(service.world.disp, p)
  {
    QuiescentCompleteness(start, run, p);
    forall j | j in service.pg.jobs && service.pg.jobs[j].status.Scheduled? && service.pg.jobs[j].provider == p
      ensures j in DT.Stranded(service.world.disp, p)
    {
    }
  }

  /** So is the token balance a fact about the tables and lists that the code keeps. */
  lemma CodeConservesTokens(service: Service, start: int, run: seq<Event>, p: ProviderId)
    requires service.Valid() && service.Follows(Initial(start), run)
    ensures var s := service.world.disp;
      Count(service.pg.jobs, DI.IsScheduledFor(p))
      == |service.redis.Queue(p)| + Count(s.submits, DI.IsAssignedFor(p)) + Count(s.polls, DI.IsOpenFor(p))
         + D.LostTokens(s, p)
  {
    TokenConservation(start, run, p);
  }
}
