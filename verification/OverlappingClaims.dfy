/**
 Claims that overlap, as SKIP LOCKED lets them: each locks the oldest offer that nobody holds, and they may end in any
 order. However far apart the jobs were created, they can then be handed out in any order.
 */
module OverlappingClaims {
  import opened Store
  import opened Counting
  import opened StoreTheorems
  import D = Dispatch
  import DT = DispatchTheorems

  /** A claim of one provider begins by locking a row, and ends with the fate of its transaction. */
  datatype Step = Begin(job: JobId, tx: nat) | End(job: JobId, committed: bool)

  /** Any claims of one provider; open are the jobs that its open claims have locked. */
  ghost predicate OverlapRun(
    jobs: map<JobId, Job>, locks: map<JobId, nat>, p: ProviderId, open: set<JobId>, steps: seq<Step>)
    decreases |steps|
  {
    steps == [] ||
    match steps[0]
    case Begin(job, tx) =>
      OldestClaimable(jobs, locks, p, job) && OverlapRun(jobs, locks[job := tx], p, open + {job}, steps[1..])
    case End(job, committed) =>
      && job in open
      && OverlapRun(if committed then MarkRunning(jobs, job) else jobs, locks - {job}, p, open - {job}, steps[1..])
  }

  /** The jobs whose claims commit, in that order. */
  function Commits(steps: seq<Step>): seq<JobId>
    decreases |steps|
  {
    if steps == [] then []
    else (if steps[0].End? && steps[0].committed then [steps[0].job] else []) + Commits(steps[1..])
  }

  /** No job twice. */
  predicate Distinct(picks: seq<JobId>)
    decreases |picks|
  {
    picks == [] || (picks[0] !in picks[1..] && Distinct(picks[1..]))
  }

  // ---- what overlapping claims can commit ----

  lemma CommitsCons(
    jobs: map<JobId, Job>, locks: map<JobId, nat>, p: ProviderId, open: set<JobId>, job: JobId, committed: bool,
    rest: seq<JobId>)
    requires job in open && Distinct(rest)
    requires var jobs1 := if committed then MarkRunning(jobs, job) else jobs;
      forall x | x in rest :: x in open - {job} || Claimable(jobs1, locks - {job}, p, x)
    ensures var all := (if committed then [job] else []) + rest;
      Distinct(all) && forall x | x in all :: x in open || Claimable(jobs, locks, p, x)
  {
    if committed {
      assert job !in rest;
      assert ([job] + rest)[1..] == rest;
    } else {
      assert [] + rest == rest;
    }
  }

  /** What commits was locked or on offer at the start, and commits once. */
  lemma {:induction false} CommitsAreOffers(
    jobs: map<JobId, Job>, locks: map<JobId, nat>, p: ProviderId, open: set<JobId>, steps: seq<Step>)
    requires OverlapRun(jobs, locks, p, open, steps)
    ensures Distinct(Commits(steps))
    ensures forall x | x in Commits(steps) :: x in open || Claimable(jobs, locks, p, x)
    decreases |steps|
  {
    if steps == [] {
    } else {
      match steps[0] {
        case Begin(job, tx) =>
          CommitsAreOffers(jobs, locks[job := tx], p, open + {job}, steps[1..]);
          assert Commits(steps) == Commits(steps[1..]);
        case End(job, committed) =>
          var jobs1 := if committed then MarkRunning(jobs, job) else jobs;
          CommitsAreOffers(jobs1, locks - {job}, p, open - {job}, steps[1..]);
          CommitsCons(jobs, locks, p, open, job, committed, Commits(steps[1..]));
      }
    }
  }

  lemma OldestOf(jobs: map<JobId, Job>, locks: map<JobId, nat>, p: ProviderId, offers: set<JobId>)
    returns (oldest: JobId)
    requires offers != {} && forall job :: Claimable(jobs, locks, p, job) <==> job in offers
    ensures oldest in offers && OldestClaimable(jobs, locks, p, oldest)
  {
    oldest := Least(offers, map job | job in offers :: jobs[job].createdAt);
  }

  lemma OffersAfterCommit(
    jobs: map<JobId, Job>, locks: map<JobId, nat>, p: ProviderId, offers: set<JobId>, job: JobId)
    requires job in locks && forall x :: Claimable(jobs, locks, p, x) <==> x in offers
    ensures forall x :: Claimable(MarkRunning(jobs, job), locks - {job}, p, x) <==> x in offers
  {
    forall x ensures Claimable(MarkRunning(jobs, job), locks - {job}, p, x) <==> x in offers {
      assert Claimable(jobs, locks, p, x) <==> x in offers;
    }
  }

  /** Lock until the job wanted first is locked, commit it, and go on with the next: so any order can come about. */
  lemma {:induction false} AnyOrderCommits(
    jobs: map<JobId, Job>, locks: map<JobId, nat>, p: ProviderId, open: set<JobId>, offers: set<JobId>,
    picks: seq<JobId>)
    returns (steps: seq<Step>)
    requires forall job :: Claimable(jobs, locks, p, job) <==> job in offers
    requires open <= locks.Keys && Distinct(picks) && forall x | x in picks :: x in open || x in offers
    ensures OverlapRun(jobs, locks, p, open, steps) && Commits(steps) == picks
    decreases |picks|, |offers|
  {
    if picks == [] {
      steps := [];
    } else if picks[0] in open {
      var job, rest := picks[0], picks[1..];
      assert picks == [job] + rest;
      OffersAfterCommit(jobs, locks, p, offers, job);
      var tail := AnyOrderCommits(MarkRunning(jobs, job), locks - {job}, p, open - {job}, offers, rest);
      steps := [End(job, true)] + tail;
      assert steps[1..] == tail;
    } else {
      assert picks[0] in offers;
      var job := OldestOf(jobs, locks, p, offers);
      assert forall x :: Claimable(jobs, locks[job := 0], p, x) <==> x in offers - {job};
      var tail := AnyOrderCommits(jobs, locks[job := 0], p, open + {job}, offers - {job}, picks);
      steps := [Begin(job, 0)] + tail;
      assert steps[1..] == tail;
    }
  }

  ghost predicate CanCommit(jobs: map<JobId, Job>, locks: map<JobId, nat>, p: ProviderId, picks: seq<JobId>) {
    exists steps :: OverlapRun(jobs, locks, p, {}, steps) && Commits(steps) == picks
  }

  /**
   Jobs deployed to a provider with nothing on offer, whenever each was created, can be handed out by overlapping claims
   in exactly the sequences of different jobs among them.
   */
  lemma OverlapAnyOrder(
    jobs: map<JobId, Job>, locks: map<JobId, nat>, p: ProviderId, deploys: seq<Deploy>, picks: seq<JobId>)
    requires NothingClaimable(jobs, locks, p) && FreshDeploys(jobs, locks, deploys)
    ensures CanCommit(DeployAll(jobs, p, deploys), locks, p, picks)
            <==> Distinct(picks) && forall x | x in picks :: x in JobsOf(deploys)
  {
    var after, offers := DeployAll(jobs, p, deploys), JobsOf(deploys);
    DeploysAreOffers(jobs, locks, p, deploys);
    if CanCommit(after, locks, p, picks) {
      var steps :| OverlapRun(after, locks, p, {}, steps) && Commits(steps) == picks;
      CommitsAreOffers(after, locks, p, {}, steps);
    }
    if Distinct(picks) && forall x | x in picks :: x in offers {
      var all := set x | x in offers;
      var steps := AnyOrderCommits(after, locks, p, {}, all, picks);
    }
  }

  lemma RepeatsOf(picks: seq<JobId>, x: JobId)
    requires forall i | 0 <= i < |picks| :: picks[i] == x
    ensures Distinct(picks) <==> |picks| <= 1
  {
    if |picks| > 1 {
      assert picks[1..][0] == picks[1];
    }
  }

  lemma OneOffer(picks: seq<JobId>, offers: seq<JobId>)
    requires |offers| <= 1 && Distinct(picks) && forall x | x in picks :: x in offers
    ensures picks <= offers
  {
    if picks != [] {
      assert picks[0] in picks && offers == [picks[0]];
      assert forall i | 0 <= i < |picks| :: picks[i] in picks;
      RepeatsOf(picks, offers[0]);
    }
  }

  /** So overlapping claims hand out jobs in the order of their deploys for certain exactly if there is at most one. */
  lemma OverlapKeepsOrderExactly(
    jobs: map<JobId, Job>, locks: map<JobId, nat>, p: ProviderId, deploys: seq<Deploy>)
    requires NothingClaimable(jobs, locks, p) && FreshDeploys(jobs, locks, deploys)
    ensures (forall picks | CanCommit(DeployAll(jobs, p, deploys), locks, p, picks) :: picks <= JobsOf(deploys))
            <==> |deploys| <= 1
  {
    var after, offers := DeployAll(jobs, p, deploys), JobsOf(deploys);
    if |deploys| <= 1 {
      forall picks | CanCommit(after, locks, p, picks) ensures picks <= offers {
        OverlapAnyOrder(jobs, locks, p, deploys, picks);
        OneOffer(picks, offers);
      }
    } else {
      OverlapAnyOrder(jobs, locks, p, deploys, [offers[1]]);
      assert offers[1] in offers && offers[0] != offers[1];
      assert !([offers[1]] <= offers);
    }
  }

  // ---- a run of the whole protocol ----

  /** No fault, and no poll begins before the last deploy has ended. */
  ghost predicate Clean(es: seq<D.Event>) {
    && D.ValidRun(D.INITIAL, es) && DT.FaultFree(D.INITIAL, es, DT.DEMO_PROVIDER)
    && forall i, j | 0 <= i < j < |es| && es[i].Polling? :: es[j].Polling?
  }

  lemma {:induction false} ExtendFaultFree(s: D.State, es: seq<D.Event>, e: D.Event, p: ProviderId)
    requires D.ValidRun(s, es) && D.Enabled(D.Exec(s, es), e)
    requires DT.FaultFree(s, es, p) && !DT.IsFaultOf(D.Exec(s, es), e, p)
    ensures D.ValidRun(s, es + [e]) && DT.FaultFree(s, es + [e], p)
    decreases |es|
  {
    DT.Extend(s, es, e);
    if es == [] {
      assert ([] + [e])[1..] == [];
    } else {
      ExtendFaultFree(D.Apply(s, es[0]), es[1..], e, p);
      assert (es + [e])[1..] == es[1..] + [e];
    }
  }

  lemma Continue(es: seq<D.Event>, e: D.Event)
    requires Clean(es) && D.Enabled(D.Exec(D.INITIAL, es), e)
    requires !DT.IsFaultOf(D.Exec(D.INITIAL, es), e, DT.DEMO_PROVIDER)
    requires e.Polling? || forall i | 0 <= i < |es| :: es[i].Submitting?
    ensures Clean(es + [e]) && D.Exec(D.INITIAL, es + [e]) == D.Apply(D.Exec(D.INITIAL, es), e)
  {
    DT.Extend(D.INITIAL, es, e);
    ExtendFaultFree(D.INITIAL, es, e, DT.DEMO_PROVIDER);
  }

  lemma DemoAssign(es: seq<D.Event>, c: nat, job: JobId, time: int) returns (longer: seq<D.Event>)
    requires Clean(es) && forall i | 0 <= i < |es| :: es[i].Submitting?
    requires var s := D.Exec(D.INITIAL, es); c !in s.submits && job !in s.owner && job !in s.jobs
    ensures Clean(longer) && forall i | 0 <= i < |longer| :: longer[i].Submitting?
    ensures var s := D.Exec(D.INITIAL, es);
      D.Exec(D.INITIAL, longer) ==
      s.(submits := s.submits[c := D.Assigned(job, DT.DEMO_PROVIDER)], owner := s.owner[job := c],
         jobs := s.jobs[job := Job(DT.DEMO_REQUEST, DT.DEMO_PROVIDER, Scheduled, time)])
  {
    var select := D.Submitting(c, D.Select(job, DT.DEMO_PROVIDER, DT.DEMO_REQUEST));
    DT.DemoAssignEffect(D.Exec(D.INITIAL, es), c, job, time);
    Continue(es, select);
    longer := es + [select];
    Continue(longer, D.Submitting(c, D.Insert(time)));
    longer := longer + [D.Submitting(c, D.Insert(time))];
    Continue(longer, D.Submitting(c, D.Assign));
    longer := longer + [D.Submitting(c, D.Assign)];
  }

  /** One deploy, from selection to push. */
  lemma DemoDeploy(es: seq<D.Event>, c: nat, job: JobId, time: int) returns (longer: seq<D.Event>)
    requires Clean(es) && forall i | 0 <= i < |es| :: es[i].Submitting?
    requires var s := D.Exec(D.INITIAL, es); c !in s.submits && job !in s.owner && job !in s.jobs
    ensures Clean(longer) && forall i | 0 <= i < |longer| :: longer[i].Submitting?
    ensures var s, s' := D.Exec(D.INITIAL, es), D.Exec(D.INITIAL, longer);
      && s'.submits == s.submits - {c} && s'.owner == s.owner[job := c]
      && s'.pushed == s.pushed[job := DT.DEMO_PROVIDER]
      && s'.polls == s.polls && s'.locks == s.locks && s'.delivered == s.delivered
      && s'.jobs == s.jobs[job := Job(DT.DEMO_REQUEST, DT.DEMO_PROVIDER, Scheduled, time)]
      && D.Queue(s', DT.DEMO_PROVIDER) == [job] + D.Queue(s, DT.DEMO_PROVIDER)
  {
    var s := D.Exec(D.INITIAL, es);
    longer := DemoAssign(es, c, job, time);
    Continue(longer, D.Submitting(c, D.Push));
    longer := longer + [D.Submitting(c, D.Push)];
    assert s.submits[c := D.Assigned(job, DT.DEMO_PROVIDER)] - {c} == s.submits - {c};
  }

  /** A poll pops a token and locks the oldest offer that nobody holds. */
  lemma DemoLock(es: seq<D.Event>, c: nat, job: JobId) returns (longer: seq<D.Event>)
    requires Clean(es)
    requires var s := D.Exec(D.INITIAL, es);
      && c !in s.polls && D.Queue(s, DT.DEMO_PROVIDER) != []
      && OldestClaimable(s.jobs, s.locks, DT.DEMO_PROVIDER, job)
    ensures Clean(longer)
    ensures var s, s' := D.Exec(D.INITIAL, es), D.Exec(D.INITIAL, longer);
      var q := D.Queue(s, DT.DEMO_PROVIDER);
      && s'.polls == s.polls[c := D.Locked(DT.DEMO_PROVIDER, Tail(q), job, false)]
      && s'.locks == s.locks[job := c] && s'.jobs == s.jobs && s'.delivered == s.delivered
      && D.Queue(s', DT.DEMO_PROVIDER) == RightPop(q)
  {
    Continue(es, D.Polling(c, D.Pop(DT.DEMO_PROVIDER)));
    longer := es + [D.Polling(c, D.Pop(DT.DEMO_PROVIDER))];
    Continue(longer, D.Polling(c, D.Lock(job)));
    longer := longer + [D.Polling(c, D.Lock(job))];
  }

  /** It writes, commits and replies. */
  lemma DemoReply(es: seq<D.Event>, c: nat) returns (longer: seq<D.Event>)
    requires Clean(es)
    requires var s := D.Exec(D.INITIAL, es); c in s.polls && s.polls[c].Locked? && !s.polls[c].wrote
    ensures Clean(longer)
    ensures var s, s' := D.Exec(D.INITIAL, es), D.Exec(D.INITIAL, longer);
      var m := s.polls[c];
      && s'.polls == s.polls - {c} && s'.jobs == MarkRunning(s.jobs, m.job)
      && s'.delivered == s.delivered + [D.Delivery(m.provider, m.token, m.job)]
  {
    var s := D.Exec(D.INITIAL, es);
    Continue(es, D.Polling(c, D.Write));
    longer := es + [D.Polling(c, D.Write)];
    Continue(longer, D.Polling(c, D.Commit));
    longer := longer + [D.Polling(c, D.Commit)];
    Continue(longer, D.Polling(c, D.Reply));
    longer := longer + [D.Polling(c, D.Reply)];
    assert D.Exec(D.INITIAL, longer).polls == s.polls - {c};
  }

  /** A job is delivered after another that was created later. */
  ghost predicate Overtaken(s: D.State) {
    exists k, l :: 0 <= k < l < |s.delivered|
      && s.delivered[k].job in s.jobs && s.delivered[l].job in s.jobs
      && s.jobs[s.delivered[k].job].createdAt > s.jobs[s.delivered[l].job].createdAt
  }

  /** Jobs "a" and "b", created in that order, are both pushed. */
  lemma DemoTwoDeploys() returns (es: seq<D.Event>)
    ensures Clean(es)
    ensures var s := D.Exec(D.INITIAL, es);
      && s.polls == map[] && s.locks == map[] && s.delivered == [] && |D.Queue(s, DT.DEMO_PROVIDER)| == 2
      && s.jobs == map["a" := Job(DT.DEMO_REQUEST, DT.DEMO_PROVIDER, Scheduled, 0),
                       "b" := Job(DT.DEMO_REQUEST, DT.DEMO_PROVIDER, Scheduled, 1)]
  {
    assert "a"[0] != "b"[0];
    es := DemoDeploy([], 0, "a", 0);
    es := DemoDeploy(es, 1, "b", 1);
  }

  /**
   The protocol lets jobs overtake each other too: in some run without a fault both jobs are pushed before any poll
   begins, and yet the younger is delivered first.
   */
  lemma YoungerJobCanOvertake()
    ensures exists es :: Clean(es) && Overtaken(D.Exec(D.INITIAL, es))
  {
    assert "a"[0] != "b"[0];
    var es := DemoTwoDeploys();
    es := DemoLock(es, 0, "a");
    es := DemoLock(es, 1, "b");
    es := DemoReply(es, 1);
    es := DemoReply(es, 0);
    var s := D.Exec(D.INITIAL, es);
    assert s.delivered[0].job == "b" && s.delivered[1].job == "a";
  }
}
