/** What the statements mean to each other: what a write makes later reads of the same table or list answer. */
module StoreTheorems {
  import opened Store
  import opened Counting

  // ---- jobs: insert, assign, lock, commit, rollback ----

  /**
   A deploy's two writes offer its job to the provider it was assigned to, to nobody else and not before the second, and
   change what no one else is offered.
   */
  lemma DeployOffersExactly(
    jobs: map<JobId, Job>, locks: map<JobId, nat>, job: JobId, row: Job, provider: ProviderId, p: ProviderId,
    other: JobId)
    requires job !in jobs && job !in locks && row.status.Pending?
    ensures Claimable(jobs[job := row], locks, p, other) <==> Claimable(jobs, locks, p, other)
    ensures Claimable(AssignJob(jobs[job := row], job, provider), locks, p, other)
            <==> Claimable(jobs, locks, p, other) || (other == job && p == provider)
  {
  }

  /** Claims of one provider that follow each other, each of them committed. */
  ghost predicate ClaimRun(jobs: map<JobId, Job>, locks: map<JobId, nat>, p: ProviderId, picks: seq<JobId>)
    decreases |picks|
  {
    picks == [] ||
    (OldestClaimable(jobs, locks, p, picks[0]) && ClaimRun(MarkRunning(jobs, picks[0]), locks, p, picks[1..]))
  }

  function MarkAllRunning(jobs: map<JobId, Job>, picks: seq<JobId>): map<JobId, Job>
    decreases |picks|
  {
    if picks == [] then jobs else MarkAllRunning(MarkRunning(jobs, picks[0]), picks[1..])
  }

  /** They pick what was on offer from the start, and leave the rest of it on offer. */
  lemma {:induction false} ClaimRunTakesOffers(
    jobs: map<JobId, Job>, locks: map<JobId, nat>, p: ProviderId, picks: seq<JobId>, other: JobId)
    requires ClaimRun(jobs, locks, p, picks)
    ensures Claimable(MarkAllRunning(jobs, picks), locks, p, other)
            <==> Claimable(jobs, locks, p, other) && other !in picks
    ensures other in picks ==> Claimable(jobs, locks, p, other)
    decreases |picks|
  {
    if picks == [] {
    } else {
      ClaimRunTakesOffers(MarkRunning(jobs, picks[0]), locks, p, picks[1..], other);
    }
  }

  /** They pick no job twice, and go from older jobs to younger ones. */
  lemma {:induction false} ClaimRunGoesByAge(
    jobs: map<JobId, Job>, locks: map<JobId, nat>, p: ProviderId, picks: seq<JobId>, i: nat, j: nat)
    requires ClaimRun(jobs, locks, p, picks) && i < j < |picks|
    ensures picks[i] != picks[j] && picks[i] in jobs && picks[j] in jobs
    ensures jobs[picks[i]].createdAt <= jobs[picks[j]].createdAt
    decreases |picks|
  {
    var jobs1 := MarkRunning(jobs, picks[0]);
    if i > 0 {
      ClaimRunGoesByAge(jobs1, locks, p, picks[1..], i - 1, j - 1);
    } else {
      ClaimRunTakesOffers(jobs1, locks, p, picks[1..], picks[j]);
    }
  }

  /** A claim that ended: its transaction locked a row, and committed or rolled back. */
  datatype Attempt = Attempt(job: JobId, tx: nat, committed: bool)

  /** Claims of one provider that follow each other, whatever becomes of them. */
  ghost predicate AttemptRun(jobs: map<JobId, Job>, locks: map<JobId, nat>, p: ProviderId, attempts: seq<Attempt>)
    decreases |attempts|
  {
    attempts == [] ||
    var a := attempts[0];
    && OldestClaimable(jobs, locks, p, a.job)
    && var locked := locks[a.job := a.tx];
    AttemptRun(if a.committed then MarkRunning(jobs, a.job) else jobs, locked - {a.job}, p, attempts[1..])
  }

  function CommittedOf(attempts: seq<Attempt>): seq<JobId>
    decreases |attempts|
  {
    if attempts == [] then []
    else (if attempts[0].committed then [attempts[0].job] else []) + CommittedOf(attempts[1..])
  }

  /** Claims that roll back change nothing for the others: those that commit are what they would be without them. */
  lemma {:induction false} RollbacksDoNotMatter(
    jobs: map<JobId, Job>, locks: map<JobId, nat>, p: ProviderId, attempts: seq<Attempt>)
    requires AttemptRun(jobs, locks, p, attempts)
    ensures ClaimRun(jobs, locks, p, CommittedOf(attempts))
    decreases |attempts|
  {
    if attempts == [] {
    } else {
      var a, rest := attempts[0], CommittedOf(attempts[1..]);
      assert locks[a.job := a.tx] - {a.job} == locks;
      RollbacksDoNotMatter(if a.committed then MarkRunning(jobs, a.job) else jobs, locks, p, attempts[1..]);
      if a.committed {
        assert CommittedOf(attempts)[1..] == rest;
      } else {
        assert CommittedOf(attempts) == rest;
      }
    }
  }

  /** The jobs on offer to p are these, none of them twice. */
  ghost predicate Offers(jobs: map<JobId, Job>, locks: map<JobId, nat>, p: ProviderId, offers: seq<JobId>) {
    && (forall job :: Claimable(jobs, locks, p, job) <==> job in offers)
    && (forall i | 0 <= i < |offers| :: offers[i] in jobs)
    && (forall i, j | 0 <= i < j < |offers| :: offers[i] != offers[j])
  }

  /** From older jobs to younger ones, no two of one age. */
  ghost predicate ByAge(jobs: map<JobId, Job>, offers: seq<JobId>)
    requires forall i | 0 <= i < |offers| :: offers[i] in jobs
  {
    forall i, j | 0 <= i < j < |offers| :: jobs[offers[i]].createdAt < jobs[offers[j]].createdAt
  }

  lemma OffersAfterFirst(jobs: map<JobId, Job>, locks: map<JobId, nat>, p: ProviderId, offers: seq<JobId>)
    requires Offers(jobs, locks, p, offers) && offers != []
    ensures Offers(MarkRunning(jobs, offers[0]), locks, p, offers[1..])
    ensures forall i | 1 <= i < |offers| :: MarkRunning(jobs, offers[0])[offers[i]] == jobs[offers[i]]
  {
    var first, rest := offers[0], offers[1..];
    assert first !in rest;
    assert forall job :: job in offers <==> job == first || job in rest;
    assert forall job ::
      Claimable(MarkRunning(jobs, first), locks, p, job) <==> Claimable(jobs, locks, p, job) && job != first;
  }

  lemma {:induction false} ClaimRunFollowsAge(
    jobs: map<JobId, Job>, locks: map<JobId, nat>, p: ProviderId, offers: seq<JobId>, picks: seq<JobId>)
    requires Offers(jobs, locks, p, offers) && ByAge(jobs, offers) && ClaimRun(jobs, locks, p, picks)
    ensures picks <= offers
    decreases |picks|
  {
    if picks == [] {
    } else {
      assert Claimable(jobs, locks, p, picks[0]) && Claimable(jobs, locks, p, offers[0]);
      OffersAfterFirst(jobs, locks, p, offers);
      ClaimRunFollowsAge(MarkRunning(jobs, picks[0]), locks, p, offers[1..], picks[1..]);
      assert picks == [picks[0]] + picks[1..] && offers == [offers[0]] + offers[1..];
    }
  }

  lemma OldestOffer(jobs: map<JobId, Job>, locks: map<JobId, nat>, p: ProviderId, offers: seq<JobId>)
    returns (oldest: JobId)
    requires Offers(jobs, locks, p, offers) && offers != []
    ensures OldestClaimable(jobs, locks, p, oldest)
  {
    var all := set job | job in offers;
    assert offers[0] in all;
    oldest := Least(all, map job | job in all :: jobs[job].createdAt);
    forall other | Claimable(jobs, locks, p, other) ensures jobs[oldest].createdAt <= jobs[other].createdAt {
      assert other in all;
    }
  }

  /** If any offer is as old as an earlier one, some claims do not follow the order of the offers. */
  lemma {:induction false} ClaimRunLeavesOrder(
    jobs: map<JobId, Job>, locks: map<JobId, nat>, p: ProviderId, offers: seq<JobId>, i: nat, j: nat)
    returns (picks: seq<JobId>)
    requires Offers(jobs, locks, p, offers) && i < j < |offers|
    requires jobs[offers[j]].createdAt <= jobs[offers[i]].createdAt
    ensures ClaimRun(jobs, locks, p, picks) && !(picks <= offers)
    decreases |offers|
  {
    var oldest := OldestOffer(jobs, locks, p, offers);
    assert Claimable(jobs, locks, p, offers[i]) && Claimable(jobs, locks, p, offers[j]);
    if oldest != offers[0] {
      picks := [oldest];
    } else if i == 0 {
      picks := [offers[j]];
    } else {
      OffersAfterFirst(jobs, locks, p, offers);
      var rest := ClaimRunLeavesOrder(MarkRunning(jobs, oldest), locks, p, offers[1..], i - 1, j - 1);
      picks := [oldest] + rest;
      assert picks[1..] == rest;
    }
  }

  /** Offers of one age can be claimed in any order at all. */
  lemma {:induction false} OneAgeAnyOrder(
    jobs: map<JobId, Job>, locks: map<JobId, nat>, p: ProviderId, age: int, picks: seq<JobId>)
    requires forall job | Claimable(jobs, locks, p, job) :: jobs[job].createdAt == age
    requires forall i | 0 <= i < |picks| :: Claimable(jobs, locks, p, picks[i])
    requires forall i, j | 0 <= i < j < |picks| :: picks[i] != picks[j]
    ensures ClaimRun(jobs, locks, p, picks)
    decreases |picks|
  {
    if picks == [] {
    } else {
      var jobs1 := MarkRunning(jobs, picks[0]);
      assert forall job | Claimable(jobs1, locks, p, job) :: Claimable(jobs, locks, p, job) && jobs1[job] == jobs[job];
      forall i | 0 <= i < |picks| - 1 ensures Claimable(jobs1, locks, p, picks[1..][i]) {
        assert Claimable(jobs, locks, p, picks[i + 1]) && picks[0] != picks[i + 1];
      }
      OneAgeAnyOrder(jobs1, locks, p, age, picks[1..]);
    }
  }

  /** Any claims may come about with every one of them committed. */
  function AllCommitted(picks: seq<JobId>): seq<Attempt>
    decreases |picks|
  {
    if picks == [] then [] else [Attempt(picks[0], 0, true)] + AllCommitted(picks[1..])
  }

  lemma {:induction false} CommittedRun(
    jobs: map<JobId, Job>, locks: map<JobId, nat>, p: ProviderId, picks: seq<JobId>)
    requires ClaimRun(jobs, locks, p, picks)
    ensures AttemptRun(jobs, locks, p, AllCommitted(picks)) && CommittedOf(AllCommitted(picks)) == picks
    decreases |picks|
  {
    if picks == [] {
    } else {
      assert locks[picks[0] := 0] - {picks[0]} == locks;
      CommittedRun(MarkRunning(jobs, picks[0]), locks, p, picks[1..]);
      assert AllCommitted(picks)[1..] == AllCommitted(picks[1..]);
      assert [picks[0]] + picks[1..] == picks;
    }
  }

  /** Deploys to one provider, one after the other. */
  datatype Deploy = Deploy(job: JobId, row: Job)

  function DeployAll(jobs: map<JobId, Job>, p: ProviderId, deploys: seq<Deploy>): map<JobId, Job> {
    if deploys == [] then jobs
    else
      var n := |deploys| - 1;
      AssignJob(DeployAll(jobs, p, deploys[..n])[deploys[n].job := deploys[n].row], deploys[n].job, p)
  }

  function JobsOf(deploys: seq<Deploy>): seq<JobId> {
    seq(|deploys|, i requires 0 <= i < |deploys| => deploys[i].job)
  }

  /** Fresh jobs, no two of them the same, and each pending when inserted. */
  ghost predicate FreshDeploys(jobs: map<JobId, Job>, locks: map<JobId, nat>, deploys: seq<Deploy>) {
    && (forall i | 0 <= i < |deploys| ::
          deploys[i].job !in jobs && deploys[i].job !in locks && deploys[i].row.status.Pending?)
    && (forall i, j | 0 <= i < j < |deploys| :: deploys[i].job != deploys[j].job)
  }

  ghost predicate IsDeployed(deploys: seq<Deploy>, job: JobId) {
    exists i :: 0 <= i < |deploys| && deploys[i].job == job
  }

  lemma IsDeployedExtend(deploys: seq<Deploy>, last: Deploy, job: JobId)
    ensures IsDeployed(deploys + [last], job) <==> IsDeployed(deploys, job) || job == last.job
  {
    if i :| 0 <= i < |deploys| && deploys[i].job == job {
      assert (deploys + [last])[i].job == job;
    }
    assert (deploys + [last])[|deploys|] == last;
  }

  /** A fresh job is on offer, and has a row, once it was deployed. */
  lemma {:induction false} DeployAllOffers(
    jobs: map<JobId, Job>, locks: map<JobId, nat>, p: ProviderId, deploys: seq<Deploy>, job: JobId)
    requires NothingClaimable(jobs, locks, p) && FreshDeploys(jobs, locks, deploys)
    ensures var after := DeployAll(jobs, p, deploys);
      && (job in after <==> job in jobs || IsDeployed(deploys, job))
      && (Claimable(after, locks, p, job) <==> IsDeployed(deploys, job))
  {
    if deploys == [] {
    } else {
      var n := |deploys| - 1;
      var last, earlier := deploys[n], DeployAll(jobs, p, deploys[..n]);
      assert deploys[..n] + [last] == deploys;
      DeployAllOffers(jobs, locks, p, deploys[..n], job);
      DeployAllOffers(jobs, locks, p, deploys[..n], last.job);
      IsDeployedExtend(deploys[..n], last, job);
      DeployOffersExactly(earlier, locks, last.job, last.row, p, p, job);
    }
  }

  lemma {:induction false} DeployAllAges(
    jobs: map<JobId, Job>, locks: map<JobId, nat>, p: ProviderId, deploys: seq<Deploy>, i: nat)
    requires FreshDeploys(jobs, locks, deploys) && i < |deploys|
    ensures var after := DeployAll(jobs, p, deploys);
      deploys[i].job in after && after[deploys[i].job].createdAt == deploys[i].row.createdAt
  {
    var n := |deploys| - 1;
    if i < n {
      DeployAllAges(jobs, locks, p, deploys[..n], i);
    }
  }

  lemma DeploysAreOffers(jobs: map<JobId, Job>, locks: map<JobId, nat>, p: ProviderId, deploys: seq<Deploy>)
    requires NothingClaimable(jobs, locks, p) && FreshDeploys(jobs, locks, deploys)
    ensures var after := DeployAll(jobs, p, deploys);
      && Offers(after, locks, p, JobsOf(deploys))
      && forall i | 0 <= i < |deploys| ::
           deploys[i].job in after && after[deploys[i].job].createdAt == deploys[i].row.createdAt
  {
    var after, offers := DeployAll(jobs, p, deploys), JobsOf(deploys);
    forall job ensures Claimable(after, locks, p, job) <==> job in offers {
      DeployAllOffers(jobs, locks, p, deploys, job);
      if IsDeployed(deploys, job) {
        var i :| 0 <= i < |deploys| && deploys[i].job == job;
        assert offers[i] == job;
      }
    }
    forall i: nat | i < |offers| ensures offers[i] in after && after[offers[i]].createdAt == deploys[i].row.createdAt {
      DeployAllAges(jobs, locks, p, deploys, i);
    }
  }

  ghost predicate CreatedInOrder(deploys: seq<Deploy>) {
    forall i, j | 0 <= i < j < |deploys| :: deploys[i].row.createdAt < deploys[j].row.createdAt
  }

  /**
   First in, first out, for claims that do not overlap: whatever is deployed to a provider with nothing on offer is
   claimed in that order, whichever claims commit, exactly if the creation times strictly increase. Module
   OverlappingClaims shows that claims which overlap keep no order.
   */
  lemma ClaimsFollowDeploysExactly(
    jobs: map<JobId, Job>, locks: map<JobId, nat>, p: ProviderId, deploys: seq<Deploy>)
    requires NothingClaimable(jobs, locks, p) && FreshDeploys(jobs, locks, deploys)
    ensures (forall attempts | AttemptRun(DeployAll(jobs, p, deploys), locks, p, attempts) ::
               CommittedOf(attempts) <= JobsOf(deploys))
            <==> CreatedInOrder(deploys)
  {
    var after, offers := DeployAll(jobs, p, deploys), JobsOf(deploys);
    DeploysAreOffers(jobs, locks, p, deploys);
    if CreatedInOrder(deploys) {
      forall attempts | AttemptRun(after, locks, p, attempts) ensures CommittedOf(attempts) <= offers {
        RollbacksDoNotMatter(after, locks, p, attempts);
        ClaimRunFollowsAge(after, locks, p, offers, CommittedOf(attempts));
      }
    } else {
      var i: nat, j: nat :| i < j < |deploys| && deploys[j].row.createdAt <= deploys[i].row.createdAt;
      var picks := ClaimRunLeavesOrder(after, locks, p, offers, i, j);
      CommittedRun(after, locks, p, picks);
      assert !(CommittedOf(AllCommitted(picks)) <= offers);
    }
  }

  /** Deploys that store one and the same creation time, as those of the service do, can be claimed in any order. */
  lemma OneTimeAnyOrder(
    jobs: map<JobId, Job>, locks: map<JobId, nat>, p: ProviderId, deploys: seq<Deploy>, time: int, picks: seq<JobId>)
    requires NothingClaimable(jobs, locks, p) && FreshDeploys(jobs, locks, deploys)
    requires forall i | 0 <= i < |deploys| :: deploys[i].row.createdAt == time
    ensures ClaimRun(DeployAll(jobs, p, deploys), locks, p, picks)
            <==> && (forall i | 0 <= i < |picks| :: picks[i] in JobsOf(deploys))
                 && (forall i, j | 0 <= i < j < |picks| :: picks[i] != picks[j])
  {
    var after := DeployAll(jobs, p, deploys);
    DeploysAreOffers(jobs, locks, p, deploys);
    if ClaimRun(after, locks, p, picks) {
      forall i | 0 <= i < |picks| ensures picks[i] in JobsOf(deploys) {
        ClaimRunTakesOffers(after, locks, p, picks, picks[i]);
      }
      forall i: nat, j: nat | i < j < |picks| ensures picks[i] != picks[j] {
        ClaimRunGoesByAge(after, locks, p, picks, i, j);
      }
    } else if forall i | 0 <= i < |picks| :: picks[i] in JobsOf(deploys) {
      if forall i, j | 0 <= i < j < |picks| :: picks[i] != picks[j] {
        OneAgeAnyOrder(after, locks, p, time, picks);
      }
    }
  }

  // ---- vms ----

  /** Any reports, in the order in which they were stored. */
  function Reported(vms: map<JobId, VM>, reports: seq<VM>): map<JobId, VM> {
    if reports == [] then vms
    else
      var n := |reports| - 1;
      UpsertVM(Reported(vms, reports[..n]), reports[n].job, reports[n])
  }

  /** The row has the first report's addresses and the last report's outcome. */
  ghost predicate FirstAndLast(row: VM, first: VM, last: VM) {
    row == first.(status := last.status, error := last.error)
  }

  /** However often a job is reported, its row keeps what the first report says, but for the outcome of the last one. */
  lemma {:induction false} FirstReportWins(vms: map<JobId, VM>, reports: seq<VM>, first: nat, last: nat)
    requires first <= last < |reports| && reports[first].job == reports[last].job && reports[first].job !in vms
    requires forall i | 0 <= i < first || last < i < |reports| :: reports[i].job != reports[first].job
    ensures var after := Reported(vms, reports);
      reports[first].job in after && FirstAndLast(after[reports[first].job], reports[first], reports[last])
    decreases |reports|
  {
    var n, job := |reports| - 1, reports[first].job;
    var before := reports[..n];
    if last < n {
      FirstReportWins(vms, before, first, last);
    } else if first == last {
      UnreportedKept(vms, before, job);
    } else {
      var previous := PreviousReport(reports, first);
      FirstReportWins(vms, before, first, previous);
    }
  }

  /** The last report but one of the job that the last report names. */
  lemma PreviousReport(reports: seq<VM>, first: nat) returns (i: nat)
    requires first < |reports| - 1 && reports[first].job == reports[|reports| - 1].job
    ensures first <= i < |reports| - 1 && reports[i].job == reports[first].job
    ensures forall j | i < j < |reports| - 1 :: reports[j].job != reports[first].job
  {
    i := |reports| - 2;
    while reports[i].job != reports[first].job
      invariant first <= i < |reports| - 1
      invariant forall j | i < j < |reports| - 1 :: reports[j].job != reports[first].job
      decreases i
    {
      i := i - 1;
    }
  }

  /** A row that no report names stays as it is. */
  lemma {:induction false} UnreportedKept(vms: map<JobId, VM>, reports: seq<VM>, job: JobId)
    requires forall i | 0 <= i < |reports| :: reports[i].job != job
    ensures job in Reported(vms, reports) <==> job in vms
    ensures job in vms ==> Reported(vms, reports)[job] == vms[job]
  {
    if reports == [] {
    } else {
      UnreportedKept(vms, reports[..|reports| - 1], job);
    }
  }

  // ---- providers ----

  /** Sweeps at these times, in this order. */
  function SweepAll(providers: map<ProviderId, Provider>, times: seq<int>, olderThan: int): map<ProviderId, Provider> {
    if times == [] then providers
    else
      var n := |times| - 1;
      MarkOffline(SweepAll(providers, times[..n], olderThan), times[n], olderThan)
  }

  /** Whatever sweeps went before, a sweep at no earlier time decides alone. */
  lemma {:induction false} LastSweepDecides(
    providers: map<ProviderId, Provider>, times: seq<int>, now: int, olderThan: int)
    requires forall i | 0 <= i < |times| :: times[i] <= now
    ensures MarkOffline(SweepAll(providers, times, olderThan), now, olderThan) == MarkOffline(providers, now, olderThan)
  {
    if times == [] {
    } else {
      var n := |times| - 1;
      var before := SweepAll(providers, times[..n], olderThan);
      LastSweepDecides(providers, times[..n], now, olderThan);
      assert MarkOffline(MarkOffline(before, times[n], olderThan), now, olderThan)
             == MarkOffline(before, now, olderThan);
    }
  }

  /** After any sweeps a request fits exactly the rows it fitted before that the last one finds seen in its interval. */
  lemma SweepsLeaveTheSeen(
    providers: map<ProviderId, Provider>, times: seq<int>, now: int, olderThan: int, cpu: int, mem: int,
    id: ProviderId)
    requires id in providers && forall i | 0 <= i < |times| :: times[i] <= now
    ensures var after := MarkOffline(SweepAll(providers, times, olderThan), now, olderThan);
      && after.Keys == providers.Keys
      && after[id].(status := providers[id].status) == providers[id]
      && (Fits(after[id], cpu, mem) <==> Fits(providers[id], cpu, mem) && now - providers[id].lastSeen <= olderThan)
  {
    LastSweepDecides(providers, times, now, olderThan);
  }

  /** A heartbeat and a sweep may reach the table in either order exactly if the sweep would spare the beat. */
  lemma HeartbeatAndSweepCommute(
    providers: map<ProviderId, Provider>, id: ProviderId, activeVms: int, memFree: int, beat: int, sweep: int,
    olderThan: int)
    requires id in providers
    ensures MarkOffline(UpdateHeartbeat(providers, id, activeVms, memFree, beat), sweep, olderThan)
            == UpdateHeartbeat(MarkOffline(providers, sweep, olderThan), id, activeVms, memFree, beat)
            <==> sweep - beat <= olderThan
  {
    var beatFirst := MarkOffline(UpdateHeartbeat(providers, id, activeVms, memFree, beat), sweep, olderThan);
    var sweptFirst := UpdateHeartbeat(MarkOffline(providers, sweep, olderThan), id, activeVms, memFree, beat);
    assert sweptFirst[id].status.Online?;
    assert forall other | other in providers && other != id :: beatFirst[other] == sweptFirst[other];
    if sweep - beat <= olderThan {
      assert beatFirst[id] == sweptFirst[id];
    } else {
      assert beatFirst[id].status.Offline?;
    }
  }

  /**
   Registering under an id that has a row brings the provider back online with the sizes it last had, whatever the new
   row says of them: for a placement it is as if its last heartbeat had been repeated now.
   */
  lemma UpsertActsAsHeartbeat(
    providers: map<ProviderId, Provider>, id: ProviderId, row: Provider, now: int, cpu: int, mem: int,
    best: ProviderId)
    requires id in providers
    ensures var beaten := UpdateHeartbeat(providers, id, providers[id].activeVms, providers[id].memFree, now);
      IsBest(UpsertProvider(providers, id, row, now), cpu, mem, best) <==> IsBest(beaten, cpu, mem, best)
    ensures var kept := UpsertProvider(providers, id, row, now)[id];
      && kept.pubKey == row.pubKey && kept.status == Online && kept.lastSeen == now
      && kept.(pubKey := providers[id].pubKey, status := providers[id].status, lastSeen := providers[id].lastSeen)
         == providers[id]
  {
    var beaten := UpdateHeartbeat(providers, id, providers[id].activeVms, providers[id].memFree, now);
    var upserted := UpsertProvider(providers, id, row, now);
    assert upserted.Keys == beaten.Keys;
    forall other | other in providers
      ensures Fits(upserted[other], cpu, mem) <==> Fits(beaten[other], cpu, mem)
      ensures upserted[other].memFree == beaten[other].memFree
    {
    }
  }

  /** A provider that has just registered, with no memory reported, is never chosen over another that fits. */
  lemma NewcomersComeLast(
    providers: map<ProviderId, Provider>, id: ProviderId, row: Provider, now: int, cpu: int, mem: int)
    requires id !in providers && row.status.Online? && row.memFree == 0
    ensures var after := UpsertProvider(providers, id, row, now);
      && (Fits(after[id], cpu, mem) <==> row.cpu >= cpu && mem <= 0)
      && (IsBest(after, cpu, mem, id)
          <==> row.cpu >= cpu && mem <= 0 && forall other | other in providers && Fits(providers[other], cpu, mem) ::
                 providers[other].memFree <= 0)
  {
    var after := UpsertProvider(providers, id, row, now);
    assert forall other | other in providers :: other != id && after[other] == providers[other];
    assert after.Keys == providers.Keys + {id};
  }

  // ---- lists ----

  function PushAll(queue: seq<JobId>, tokens: seq<JobId>): seq<JobId>
    decreases |tokens|
  {
    if tokens == [] then queue else PushAll(LeftPush(queue, tokens[0]), tokens[1..])
  }

  /** What pops answer, one after the other, until the list is empty. */
  function PopAll(queue: seq<JobId>): seq<JobId> {
    if queue == [] then [] else [Tail(queue)] + PopAll(RightPop(queue))
  }

  lemma {:induction false} PopAllAfterPush(queue: seq<JobId>, token: JobId)
    ensures PopAll(LeftPush(queue, token)) == PopAll(queue) + [token]
    decreases |queue|
  {
    if queue == [] {
      assert RightPop([token]) == [];
    } else {
      assert RightPop(LeftPush(queue, token)) == LeftPush(RightPop(queue), token);
      PopAllAfterPush(RightPop(queue), token);
    }
  }

  /** Tokens are popped in the order in which they were pushed, after those already there. */
  lemma {:induction false} PopsInPushOrder(queue: seq<JobId>, tokens: seq<JobId>)
    ensures PopAll(PushAll(queue, tokens)) == PopAll(queue) + tokens
    decreases |tokens|
  {
    if tokens == [] {
      assert PopAll(queue) + [] == PopAll(queue);
    } else {
      PopAllAfterPush(queue, tokens[0]);
      PopsInPushOrder(LeftPush(queue, tokens[0]), tokens[1..]);
      assert [tokens[0]] + tokens[1..] == tokens;
    }
  }
}
