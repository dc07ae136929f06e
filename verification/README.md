# A verified model of DCP job dispatch, provider registry and key authorization

DCP is a control plane and a provider agent for a decentralized compute cloud. A buyer's deploy becomes a row in
PostgreSQL and a token on a Redis list; a provider's long poll pops a token and claims a row; the agent starts a machine
and reports it. This project models that protocol and the registry beside it, and proves what holds of every run.

`dafny verify dfyconfig.toml` checks the whole project (Dafny 4.11).

## How the model is built

| file | content |
|---|---|
| `Store.dfy` | the rows of `jobs`, `providers` and `vms`, and what each SQL statement does to them |
| `Dispatch.dfy` | the dispatch protocol as a state machine: one event per statement of a submit, a poll or a report |
| `StoreTheorems.dfy` | what a statement makes later statements on the same table or list answer |
| `DispatchInvariant.dfy` | what each of its steps keeps, job by job, client by client and provider by provider |
| `DispatchTheorems.dfy` | what holds of every run |
| `Drain.dfy` | polling one provider dry: termination, progress, outcome |
| `Refinement.dfy` | the simple pool of offers that tokens, rows and row locks implement |
| `OverlappingClaims.dfy` | claims that overlap under `SKIP LOCKED`, and the orders they allow |
| `Addresses.dfy` | the address and port allocators |
| `Registry.dfy`, `RegistryTheorems.dfy` | registration, heartbeats, sweeps and agents over integer time |
| `Platform.dfy` | registry and dispatch composed, and the runs of each projected out; placement |
| `Clients.dfy` | the calls in flight, and what the steps of others leave to them |
| `ControlPlane.dfy` | the stores and the control plane's code as classes, in the presence of other clients and of failures |
| `PlatformTheorems.dfy` | the theorems about dispatch and registry runs carried to the platform and to the code |
| `Agent.dfy` | the agent's job handler and its loop, end to end |
| `TimedPolls.dfy`, `LongPoll.dfy` | the dispatch protocol with a clock; an idle agent's polls |
| `LineFile.dfy`, `AuthorizedKeys.dfy` | `authorizeKey` |
| `Counting.dfy` | counting over maps, the pigeonhole principle |

**Runs.** A deploy takes four statements (select, insert, assign, push) and a poll five (pop, lock, write, commit,
reply). Each is one event, so a run interleaves any number of submits, polls, reports, registrations, heartbeats and
sweeps. A report is one of a delivery, or a stray one: the handler takes any report of anybody, as often as it is
sent. A fault may follow any statement: a submit is abandoned, a popped token is dropped, a transaction rolls back, a
committed poll loses its reply, a report is lost, a registration stops half way. A statement that took effect but
answered with an error is that event followed by the fault. History fields record who drew an id, what was pushed,
what was delivered and heard by which poll, and how many tokens were lost. The history decides no step, except that
ids are fresh and each delivery is reported once.

**Code.** `ControlPlane.Service` runs the code against mutable `PG` and `Redis` objects. Before each statement it
calls `Interference`, whose contract lets other clients take any steps but the caller's own;
`Clients.OthersLeaveAlone` is why the caller finds its entry as it left it. Every statement may answer with an error,
with or without having taken effect; the stores count the errors they answer, so that a method's own answer is tied to
them. Each method returns the run of events it is part of, and its contract says that this run leads from the old
state to the new one. `Platform.JobsRun` and `Platform.FleetRun` project such a run onto a dispatch run and a registry
run, so the theorems about those apply to the code; `PlatformTheorems.CodeCompleteness` and
`PlatformTheorems.CodeConservesTokens` say it of the tables.

**Assumptions.** The locking `SELECT` is one atomic step. UUIDs are drawn once, so a fresh id is a parameter. The
database clock and the control plane's clock are one. Agents follow the agent's code: one report per delivery, in
their own name, a beat every 30 s, requests given up after 15 s (a beat is stored and its reply heard at two moments),
and the ticker started no later than 15 s after the row was written.

## Where the code and its documentation differ

The model follows the code.

- `redis.go:44` calls the relay port unique and the range 40000 to 50000. Ports lie in 40000..49999, and are unique
  exactly up to 10000 allocations: `Addresses.PortIsNewExactly`, `RegistryTheorems.PortsDistinctExactlyUntilWrap`, and
  `RegistryTheorems.SharedPortsExactly` for which providers share one.
- `redis.go:56` bounds the address pool at 10.99.254.254. The counter is not bounded: `Addresses.AddressLimits` says
  where it leaves the pool and where it stops printing IPv4 addresses, and `RegistryTheorems.AddressesInPoolExactly`
  says it of runs. `models.go:17` names 10.99.0.0/24, which no provider gets.
- `postgres.go:149` speaks of the oldest pending job, which is marked scheduled. The code takes a scheduled job and
  marks it running. It orders by a creation time that `Submit` never sets, so every row carries Go's zero time and
  none is oldest (`StoreTheorems.OneTimeAnyOrder`). Different times would order claims that do not overlap
  (`StoreTheorems.ClaimsFollowDeploysExactly`), but not claims that do: `OverlappingClaims.OverlapKeepsOrderExactly`,
  `OverlappingClaims.YoungerJobCanOvertake`.
- `server.go:178` lets a poll wait 25 s, while the agent's client gives up after 15 s (`client.go:26`). A token pushed
  for an agent that has been idle is then popped for nobody in half of all cases, unless a blocked pop ends with its
  client, which is the Redis library's choice: `LongPoll.FirstTokenHeardExactly`. Each such pop costs a job:
  `TimedPolls.LatePopsCostJobs`, `LongPoll.UnheardTokenIsLost`.
- `scheduler.go:75-82` pops a job id and ignores it: a poll may return another job
  (`DispatchTheorems.TokensAreAnonymous`). When it must return that one: `DispatchTheorems.TokenReturnedExactly`,
  `DispatchTheorems.OneTimeTokenReturnedExactly`.
- `authorizeKey` promises to add the key. On a file whose last line has no newline it glues the key to that line
  (`AuthorizedKeys.GluedToUnterminatedKey`), and if its read fails, on such a file it takes a key off that was there,
  or on others adds it once more. `AuthorizedKeys.KeyAuthorizedExactly`, `AuthorizedKeys.KeyLostExactly` and
  `AuthorizedKeys.EachKeyOnceExactly` have the exact conditions.
- `handleJob` reports "running" without having started anything in a mode its switch does not list:
  `Agent.HonestExactlyInKnownModes`.

## Model

| member | source | states |
|---|---|---|
| DispatchTheorems.TokenConservation | dcp-control-plane/internal/scheduler/scheduler.go:57-82 | in every run, with any interleaving and faults, a provider's scheduled rows equal its queued tokens, its submits between assign and push, its polls between pop and commit, and its lost tokens, added up |
| DispatchInvariant.ClaimFindsRow | dcp-control-plane/pkg/store/postgres.go:159-169 | a poll that popped a token finds an oldest unlocked scheduled row of its provider, by pigeonhole over the row locks of all open polls |
| DispatchTheorems.NoEmptyClaim | dcp-control-plane/pkg/store/postgres.go:167-169 | in every run the claim after a pop can lock a row, and its empty answer cannot occur |
| DispatchTheorems.AtMostOnceDelivery | dcp-control-plane/internal/api/server.go:176-195 | in every run no job id is returned by two polls, and each went to the provider its row names |
| DispatchTheorems.TokensAreAnonymous | dcp-control-plane/internal/scheduler/scheduler.go:74-83 | some run delivers a job other than the one whose token was popped |
| DispatchTheorems.TokenReturnedExactly | dcp-control-plane/internal/scheduler/scheduler.go:74-83 | in every run, at the moment a poll locks a row, that row is bound to be of the token it popped exactly if that job is then on offer to its provider and strictly older than every other one on offer |
| DispatchTheorems.OneTimeTokenReturnedExactly | dcp-control-plane/internal/scheduler/scheduler.go:47-83 | when all rows carry one creation time, the only case this service produces, that is exactly if that job is then the only one on offer |
| DispatchTheorems.LifeCycle | dcp-control-plane/pkg/store/postgres.go:133-147 | from any state that satisfies the invariant on, a row's request and creation time are fixed, its status only climbs pending, scheduled, running, a provider once named stays, and pending means exactly an empty provider_id |
| DispatchTheorems.AssignMeetsPendingRow | dcp-control-plane/pkg/store/postgres.go:143-147 | the unconditional UPDATE always meets an existing, pending, unlocked row, so it never regresses a running job |
| DispatchTheorems.InsertNeverConflicts | dcp-control-plane/pkg/store/postgres.go:133-141 | the INSERT of a selected submit is always possible: no row has its id |
| DispatchTheorems.VmsAgreeWithJobs | dcp-control-plane/internal/api/server.go:210-220 | unless a stray report named its job, a row of vms names a running job, delivered to and assigned to the provider in that row |
| DispatchInvariant.ReportFindsNoRow | dcp-provider/internal/agent/agent.go:100-111 | when a delivery has not been reported, its job has no row in vms unless a stray report named it: no other delivery carried the job |
| DispatchTheorems.ReportAlwaysInserts | dcp-control-plane/pkg/store/postgres.go:181-190 | agents report every delivery, and no job is delivered twice, so the report of a delivery is a plain insert unless a stray report named its job first |
| DispatchTheorems.VmRowsAreFinal | dcp-control-plane/pkg/store/postgres.go:181-190 | a row of vms, once written, changes by no report of a delivery, only by a stray one |
| DispatchTheorems.Settlement | dcp-control-plane/internal/scheduler/scheduler.go:57-82 | when nothing of a provider is queued or in flight, its pushed and given-up jobs split exactly into delivered, reply lost, and stranded in status scheduled, and as many are stranded as tokens were lost |
| DispatchTheorems.QuiescentCompleteness | dcp-control-plane/internal/scheduler/scheduler.go:64-82 | in a run that settles a provider and has no fault of that provider, whatever befalls the others, the jobs delivered to it are exactly the jobs pushed for it |
| Drain.PollsAreBounded | dcp-control-plane/internal/scheduler/scheduler.go:74-83 | in any run of any clients, faults included, the steps of one provider's polls are at most five for each token queued at the start or pushed meanwhile, plus what its open polls had left |
| Drain.DrainTerminates | dcp-control-plane/internal/scheduler/scheduler.go:74-83 | in particular a run of that provider's polls alone has no more steps than that |
| Drain.StuckExactlyWhenDrained | dcp-control-plane/internal/scheduler/scheduler.go:74-83 | a provider's polls can take no step exactly when its queue is empty and none of its polls is in flight |
| Drain.DrainLeavesTheLost | dcp-control-plane/pkg/store/postgres.go:150-179 | any run of any clients after which a provider's polls cannot go on leaves as many of its jobs scheduled as tokens were lost and submits still owe one; without a fault of that provider no further token is lost |
| Drain.DrainCompletes | dcp-control-plane/internal/scheduler/scheduler.go:74-83 | from every state that satisfies the invariant a fault-free drain of any provider exists |
| Refinement.ProtocolRefinesPool | dcp-control-plane/pkg/store/postgres.go:150-179 | every run maps, statement by statement, to a run of a pool in which assigning offers a job and a poll reserves the oldest offer that nobody holds, then takes it or lets it go |
| Addresses.AddressRoundTrip | dcp-control-plane/pkg/store/redis.go:58-67 | parsing a printed address recovers the counter, for every counter value |
| Addresses.AddressInjective | dcp-control-plane/pkg/store/redis.go:63-66 | two counter values print the same address only if they are equal |
| Addresses.AddressOutsideControlPlaneBlock | dcp-control-plane/pkg/store/redis.go:55-57 | no printed address lies in 10.99.0.0/24 |
| Addresses.DocumentedPool | dcp-control-plane/pkg/store/redis.go:56-66 | each pair of octets in 1..254 comes from exactly one counter value, and that is at most 64516 |
| Addresses.AddressesAscend | dcp-control-plane/pkg/store/redis.go:58-67 | the first address is 10.99.1.1, and each next one has the next fourth octet, or the next third octet and fourth octet 1 |
| Addresses.AddressLimits | dcp-control-plane/pkg/store/redis.go:63-66 | the third octet is at most 254 exactly up to counter 64516, and exceeds 255 exactly from 64771 on; the fourth is always 1..254 |
| RegistryTheorems.AddressesInPoolExactly | dcp-control-plane/internal/registry/registry.go:58-86 | for every n: all runs that have allocated n addresses keep every held address within 10.99.1.1 to 10.99.254.254 exactly if n is at most 64516 |
| Addresses.PortsAscend | dcp-control-plane/pkg/store/redis.go:45-53 | the first port is 40001, each next one is one more, and 40000 follows 49999 |
| Addresses.PortIsNewExactly | dcp-control-plane/pkg/store/redis.go:44-53 | the port of a counter value differs from all earlier ones exactly if the value is at most 10000 |
| Addresses.PortsRecur | dcp-control-plane/pkg/store/redis.go:44-53 | every port comes round again, so it is not unique for good |
| RegistryTheorems.NoFalseOffline | dcp-control-plane/pkg/store/postgres.go:104-114 | in every run a provider seen in the last 90 s is online, whatever the sweep times |
| RegistryTheorems.BoundedStaleness | dcp-control-plane/internal/registry/registry.go:103-119 | while the last sweep is at most 60 s old, every online provider was seen in the last 150 s |
| RegistryTheorems.StalenessBoundIsTight | dcp-control-plane/internal/registry/registry.go:103-119 | some run with timely sweeps reaches exactly 150 s |
| RegistryTheorems.PunctualAgentStaysOnline | dcp-provider/internal/agent/agent.go:197-215 | an agent on a 30 s ticker with a 15 s client timeout is online in every state in which it has not missed two beats in a row |
| RegistryTheorems.OnlineExactlyUpToOneMiss | dcp-provider/internal/agent/agent.go:197-215 | for every m: agents that missed m beats in a row are online in every run exactly if m is at most 1 |
| RegistryTheorems.AddressesDistinct | dcp-control-plane/internal/registry/registry.go:58-86 | in every interleaving, with registrations abandoned anywhere, rows and registrations in flight show pairwise distinct addresses outside the control plane's block |
| RegistryTheorems.SharedPortsExactly | dcp-control-plane/internal/registry/registry.go:62-72 | in every run rows and registrations in flight have ports in 40000..49999 made of different counter values, and two of them show the same port exactly if those agree modulo 10000 |
| RegistryTheorems.PortsDistinctExactlyUntilWrap | dcp-control-plane/pkg/store/redis.go:44-53 | for every n: all runs that have allocated n ports keep them pairwise distinct exactly if n is at most 10000; beyond that some run has two providers with one port |
| RegistryTheorems.CounterDrift | dcp-control-plane/internal/registry/registry.go:58-65 | the address counter leads the port counter by the registrations that took an address and no port |
| RegistryTheorems.RowsShowTheirRequests | dcp-control-plane/internal/registry/registry.go:67-86 | in every run each row carries the token, the key and the cores of the request it came from, and that token was not empty and had been issued |
| RegistryTheorems.IdentityIsForEver | dcp-control-plane/pkg/store/postgres.go:81-114 | over any run a row keeps its token, key, address, port, cores and time of registration |
| RegistryTheorems.UnusableTokenRegistersNobody | dcp-control-plane/pkg/store/redis.go:84-94 | a token that is not in the set, and with which no registration is in flight, registers nobody in any run that does not issue it |
| Platform.Placement | dcp-control-plane/pkg/store/postgres.go:116-131 | in every run each scheduled or running job names a registered provider with the cores it asked for, and one that had sent a heartbeat if it asked for memory |
| Platform.SelectionFits | dcp-control-plane/pkg/store/postgres.go:116-131 | a submit can only select a provider that is online, has at least the cores and the free memory asked for, and has most free memory of all such |
| Platform.SelectionIsFresh | dcp-control-plane/pkg/store/postgres.go:116-131 | while sweeps are timely, no submit selects a provider unseen for more than 150 s, nor one that lacks the cores or the free memory |
| Platform.ReportMeetsForeignKey | dcp-control-plane/pkg/store/postgres.go:56-65 | the report of a delivered job always satisfies the foreign key of vms.provider_id |
| Platform.JobsRun | dcp-control-plane/internal/scheduler/scheduler.go:37-83 | the dispatch events of a run of the whole platform are a run of the dispatch protocol that ends in its dispatch state |
| Platform.FleetRun | dcp-control-plane/internal/registry/registry.go:48-119 | its registry events are a run of the registry that ends in its registry state |
| PlatformTheorems.TokenConservation | dcp-control-plane/internal/scheduler/scheduler.go:57-82 | tokens and scheduled rows balance in every run of the platform |
| PlatformTheorems.AtMostOnceDelivery | dcp-control-plane/internal/api/server.go:176-195 | no run of the platform delivers a job twice, or to a provider other than its row names |
| PlatformTheorems.Settlement | dcp-control-plane/internal/scheduler/scheduler.go:57-82 | whatever the faults and the fleet do, the books of a settled provider balance |
| PlatformTheorems.QuiescentCompleteness | dcp-control-plane/internal/scheduler/scheduler.go:64-82 | a run of the platform that settles a provider and has no fault of it delivered to it exactly the jobs pushed for it |
| PlatformTheorems.DrainLeavesTheLost | dcp-control-plane/pkg/store/postgres.go:150-179 | a run of the platform after which a provider's polls cannot go on leaves as many of its jobs scheduled as tokens were lost and submits still owe one |
| PlatformTheorems.PlatformRefinesPool | dcp-control-plane/pkg/store/postgres.go:150-179 | every run of the platform maps, statement by statement, to a run of the pool of offers |
| PlatformTheorems.BoundedStaleness | dcp-control-plane/internal/registry/registry.go:103-119 | in every run of the platform an online provider was seen in the last 150 s while the last sweep is at most 60 s old |
| PlatformTheorems.CodeCompleteness | dcp-control-plane/internal/scheduler/scheduler.go:37-83 | if the calls that brought the service from its start to its present state had no fault of a provider, and nothing of it is in flight, then no row of the jobs table waits for it, and it was sent exactly the jobs pushed for it |
| PlatformTheorems.CodeConservesTokens | dcp-control-plane/internal/scheduler/scheduler.go:37-83 | the token balance holds of the jobs table and the lists as the calls of the service have left them |
| Clients.OthersLeaveAlone | dcp-control-plane/internal/scheduler/scheduler.go:37-83 | a run in which a client takes no step leaves its entry alone, whatever all other clients do |
| ControlPlane.PG.BestProvider | dcp-control-plane/pkg/store/postgres.go:116-131 | without an error answers a row that is online, has at least the cores and the free memory asked for, and has most free memory of all such, and none exactly when there is no such row |
| StoreTheorems.DeployOffersExactly | dcp-control-plane/pkg/store/postgres.go:133-147 | inserting and assigning a fresh job offers it to that provider, to nobody else and not before the second write, and changes no other offer |
| StoreTheorems.ClaimsFollowDeploysExactly | dcp-control-plane/pkg/store/postgres.go:133-179 | deploys to a provider with nothing on offer are claimed in their order by claims that do not overlap, whichever commit or roll back, exactly if their creation times strictly increase |
| OverlappingClaims.OverlapAnyOrder | dcp-control-plane/pkg/store/postgres.go:150-179 | by claims that overlap, as SKIP LOCKED lets them, such deploys can be handed out in exactly the sequences of different jobs among them, whatever their creation times |
| OverlappingClaims.OverlapKeepsOrderExactly | dcp-control-plane/pkg/store/postgres.go:149-179 | so claims that may overlap are certain to keep the order of the deploys exactly if there is at most one deploy |
| OverlappingClaims.YoungerJobCanOvertake | dcp-control-plane/pkg/store/postgres.go:149-179 | in some run of the protocol without a fault, in which all pushes precede all polls, the younger of two jobs is delivered first |
| StoreTheorems.OneTimeAnyOrder | dcp-control-plane/pkg/store/postgres.go:133-179 | deploys that all store one creation time, as those of this service do, can be claimed in exactly the sequences of different jobs among them: in any order |
| ControlPlane.PG.LockNext | dcp-control-plane/pkg/store/postgres.go:159-166 | locks an oldest scheduled unlocked row of the provider, or answers none exactly when there is none and changes nothing |
| StoreTheorems.ClaimRunTakesOffers | dcp-control-plane/pkg/store/postgres.go:150-179 | any number of committed claims, one after the other, pick only what was on offer at the start, and leave exactly the rest on offer |
| StoreTheorems.ClaimRunGoesByAge | dcp-control-plane/pkg/store/postgres.go:150-179 | committed claims that follow each other pick no job twice, and go from older jobs to younger ones |
| StoreTheorems.RollbacksDoNotMatter | dcp-control-plane/pkg/store/postgres.go:155-178 | of any claims that follow each other, those that commit pick what they would pick if those that roll back had never been |
| StoreTheorems.UpsertActsAsHeartbeat | dcp-control-plane/pkg/store/postgres.go:81-94 | the statement under a known id, a branch that no caller in this repository takes because Register draws a fresh id: it decides every placement as if the last heartbeat were repeated now, whatever sizes the new row has |
| StoreTheorems.NewcomersComeLast | dcp-control-plane/pkg/store/postgres.go:81-131 | a fresh row fits exactly the requests without memory that its cores cover, and is chosen exactly when no other fitting row has free memory |
| StoreTheorems.HeartbeatAndSweepCommute | dcp-control-plane/pkg/store/postgres.go:96-114 | a heartbeat and a sweep may reach the table in either order exactly if the sweep would spare a provider seen at the time of the beat |
| StoreTheorems.SweepsLeaveTheSeen | dcp-control-plane/pkg/store/postgres.go:104-114 | after any number of sweeps a request fits exactly the rows it fitted before that were seen within the interval of the last; no row goes, and only the status changes |
| StoreTheorems.LastSweepDecides | dcp-control-plane/pkg/store/postgres.go:104-114 | no sweep before it makes a difference to the last one |
| StoreTheorems.FirstReportWins | dcp-control-plane/pkg/store/postgres.go:181-190 | however many reports name a job, its row holds what the first of them says, but for status and error, which are the last one's |
| StoreTheorems.PopsInPushOrder | dcp-control-plane/pkg/store/redis.go:28-42 | pops answer the tokens in the order of their pushes, after those already on the list |
| ControlPlane.Redis.TokenValid | dcp-control-plane/pkg/store/redis.go:84-89 | without an error answers yes exactly for a token that is not empty and is in the set; an empty one is refused without a look at it |
| ControlPlane.Redis.PopJob | dcp-control-plane/pkg/store/redis.go:33-42 | takes the token at the tail; no token and no error means an empty list |
| ControlPlane.Redis.AllocPort | dcp-control-plane/pkg/store/redis.go:45-53 | counts up by one and returns the port of the new counter value |
| ControlPlane.Redis.AllocWGIP | dcp-control-plane/pkg/store/redis.go:58-67 | counts up by one and returns the address of the new counter value |
| ControlPlane.Service.Submit | dcp-control-plane/internal/scheduler/scheduler.go:37-70 | under any interference and failures follows the platform's steps; a success has pushed the token of a row that carries the request and names the provider that was best on arrival; NoProvider means that nothing had the cores and memory; SubmitFailed is answered exactly when one statement answered an error |
| ControlPlane.Service.SubmitSelected | dcp-control-plane/internal/scheduler/scheduler.go:57-70 | insert, assign and push, with other clients in between, fail exactly when one of them answers an error |
| ControlPlane.Service.SubmitInsert | dcp-control-plane/internal/scheduler/scheduler.go:57-59 | the submit's INSERT is its protocol step, or its abandonment on error |
| ControlPlane.Service.SubmitAssign | dcp-control-plane/internal/scheduler/scheduler.go:60-62 | the submit's UPDATE is its protocol step and keeps the request, or is its abandonment on error |
| ControlPlane.Service.SubmitPush | dcp-control-plane/internal/scheduler/scheduler.go:64-66 | the submit's LPUSH is its last protocol step, or its abandonment |
| ControlPlane.Service.PollPop | dcp-control-plane/internal/scheduler/scheduler.go:75-81 | the poll's BRPOP is its protocol step, or a lost token on error; without token or error the list is empty |
| ControlPlane.Service.PollLock | dcp-control-plane/pkg/store/postgres.go:159-172 | the locking SELECT of a poll that popped leaves it holding a row, or the poll is over on error; its no-rows branch is dead |
| ControlPlane.Service.PollWrite | dcp-control-plane/pkg/store/postgres.go:175-177 | the UPDATE is the poll's step, or the transaction rolls back and the poll is over |
| ControlPlane.Service.PollCommit | dcp-control-plane/pkg/store/postgres.go:178 | a commit without error leaves the poll owning a running row of its provider; any error ends the poll |
| ControlPlane.Service.SendReply | dcp-control-plane/internal/api/server.go:187-195 | the reply is either heard or lost, and answered as what it was; a reply that is heard is the last delivery, and its job was neither delivered nor reported before |
| ControlPlane.Service.ReplyToPoll | dcp-control-plane/internal/api/server.go:183-195 | from the found job to the reply, with other clients in between, exactly one reply of this poll is heard or lost, with this job; one that is heard is the first delivery of its job |
| ControlPlane.Service.NextPendingJob | dcp-control-plane/pkg/store/postgres.go:150-179 | never answers "no job", and an error exactly when a statement did; a job found is running, assigned to the provider and held by this poll |
| ControlPlane.Service.PollForProvider | dcp-control-plane/internal/scheduler/scheduler.go:74-83 | answers "no job" only when the provider's list is empty, and an error exactly when a statement did; a job found is running, assigned to the provider and held by this poll |
| ControlPlane.Service.PollJobs | dcp-control-plane/internal/api/server.go:176-196 | pops once; the agent hears of a job exactly when that job is the reply, which was never delivered before and is assigned to this provider; 204 means an empty list and no reply heard or lost, 500 that a statement answered an error, and otherwise exactly one reply was lost |
| ControlPlane.Service.ReportVM | dcp-control-plane/internal/api/server.go:198-226 | accepts any report and touches no row but the one it names, with an error exactly when the statement answered one; the report of a delivery is booked as its report, is never refused by the foreign key, and adds exactly its row unless a stray report named the job |
| ControlPlane.Service.Register | dcp-control-plane/internal/registry/registry.go:48-96 | under any interference and failures follows the platform's steps; a success leaves an online row with the token, key and cores of the request, the answered address and port, nothing reported, and an address no other row shows; an invalid token is answered, before anything is allocated, only for a token that is empty or not in the set; failure exactly when a statement answered an error |
| ControlPlane.Service.RegisterAddress | dcp-control-plane/internal/registry/registry.go:58-61 | the first allocation is the registration's step and answers the address of the counter value taken |
| ControlPlane.Service.RegisterPort | dcp-control-plane/internal/registry/registry.go:62-65 | the second allocation answers the port of the counter value taken and keeps the address |
| ControlPlane.Service.RegisterRow | dcp-control-plane/internal/registry/registry.go:67-86 | writes a row of the request's token, key and cores and the given address and port, which no other row shows, or abandons the registration |
| ControlPlane.Service.Heartbeat | dcp-control-plane/internal/registry/registry.go:98-100 | rewrites load, free memory, status and last_seen of this row and no other row, and adds none for an unknown id |
| ControlPlane.Service.SweepOnce | dcp-control-plane/internal/registry/registry.go:110-116 | right after a successful sweep the online rows are exactly those seen in the last 90 s |
| ControlPlane.Service.SweepOffline | dcp-control-plane/internal/registry/registry.go:103-119 | sweeps once a tick, counts the failures, and after any number of ticks with other clients in between the same holds if the last sweep succeeded |
| Agent.HandleJob | dcp-provider/internal/agent/agent.go:115-195 | the report names this job and provider; a spawn reports its machine's address and the tunnel port, or its own port in ssh mode; a failed one reports its error text, and no address or port; an unlisted mode reports running with neither |
| Agent.HonestExactlyInKnownModes | dcp-provider/internal/agent/agent.go:120-194 | whatever a spawn would answer, the report says running, with the machine's address, exactly when a machine was spawned, if and only if the mode is one of the three that the switch lists |
| Agent.HandleAndReport | dcp-provider/internal/agent/agent.go:113-195 | handling a delivered job and reporting it: afterwards its report is no longer owed; one that got through finds the job running for this provider, and is its vms row unless a stray report named the job |
| Agent.ServeOne | dcp-provider/internal/agent/agent.go:92-111 | poll, handle and report end to end, under any interference and failures: a job is received exactly when the agent hears of one, was never delivered before, and its report got through or was answered with an error |
| Agent.ServeJobs | dcp-provider/internal/agent/agent.go:92-111 | the loop and the handlers it starts, for any number of turns in any order and with other clients in between: each turn is a poll or the end of a handler; the agent is at work on exactly the jobs it has heard of, each once and running for it; a report is owed exactly while its handler has not ended; each that got through is the job's vms row unless a stray report named it, and the reports and polls that failed are together as many as the errors answered |
| LongPoll.OnePollTakes | dcp-control-plane/internal/scheduler/scheduler.go:72-82 | a token pushed for an idle agent at any time is taken by exactly one of its polls |
| LongPoll.FirstTokenHeardExactly | dcp-provider/internal/agent/agent.go:92-108 | the first token for an idle agent reaches it exactly if pops end with their clients, or it was pushed in the first 5 s or, from then on, in the first 10 of every 20 s |
| LongPoll.UnheardTokenIsLost | dcp-provider/pkg/api/client.go:26 | for every time at which a pushed token does not reach the agent some run of the protocol with a clock pushes it then, strands its job, and has no other fault than that late pop |
| TimedPolls.LatePopsCostJobs | dcp-control-plane/internal/api/server.go:176-195 | in every run with a clock that settles a provider, the jobs pushed for it are as many as those delivered, the pops that came when the agent had left, and the other faults of its polls, added up |
| LineFile.SplitConcat | dcp-provider/internal/vm/ssh.go:92 | splitting around a newline splits both sides |
| LineFile.JoinSplit | dcp-provider/internal/vm/ssh.go:92 | joining the split pieces gives the bytes back, and no piece holds a newline |
| LineFile.OldLinesKeptExactly | dcp-provider/internal/vm/ssh.go:90-106 | for any call, whether or not it can read and write the file, the old lines all stay in place exactly if nothing is appended or the file was terminated |
| AuthorizedKeys.TrimSpaceSplits | dcp-provider/internal/vm/ssh.go:93 | any bytes are white space, then the trimmed bytes, then white space, where the trimmed bytes begin and end with none of the 25 Unicode spaces |
| AuthorizedKeys.PaddedKeyTrims | dcp-provider/internal/vm/ssh.go:93 | a canonical key with any white space before and after it trims to itself |
| AuthorizedKeys.PaddedKeyIsFound | dcp-provider/internal/vm/ssh.go:90-98 | a readable file in which some line is the key, with any white space around it, is left as it is without an error |
| AuthorizedKeys.TrimKeyLine | dcp-provider/internal/vm/ssh.go:93 | a line that ends in a canonical key trims to its left-trimmed rest followed by the key |
| AuthorizedKeys.AuthorizedKeysFile.AuthorizeKey | dcp-provider/internal/vm/ssh.go:90-106 | the loop finds the key exactly if some trimmed line of a readable file is the key, and then leaves the file as it is; otherwise the key and a newline are appended to a writable file, and an unwritable one is left alone with an error |
| AuthorizedKeys.KeyAuthorizedExactly | dcp-provider/internal/vm/ssh.go:64-106 | after any call without error, its read failed or not, the key is a line exactly if the test found it, or it was a terminated line, or the unterminated rest of the file is blank |
| AuthorizedKeys.KeyLostExactly | dcp-provider/internal/vm/ssh.go:90-106 | a call takes any one key off the file exactly if it appends and that key stood on the unterminated rest alone; it takes off its own key only if its read failed |
| AuthorizedKeys.GluedToUnterminatedKey | dcp-provider/internal/vm/ssh.go:99-106 | on a file that ends in a key without a newline, a call that appends glues the new key to it: afterwards either is a line only if another line repeats it |
| AuthorizedKeys.SequentialRun | dcp-provider/internal/vm/ssh.go:90-106 | any sequence of calls on a terminated file, any of whose reads and writes fail, keeps it terminated and every old line in place, appends only keys of calls that could write, and in the end the key of every call without error is a line |
| AuthorizedKeys.EachKeyOnceExactly | dcp-provider/internal/vm/ssh.go:90-106 | such a run appends each key once and none that was there exactly if no call whose read fails writes a key that was a line at the start or that an earlier call could write |
| AuthorizedKeys.RepeatChangesNothingExactly | dcp-provider/internal/vm/ssh.go:90-98 | a call that repeats one without error changes no byte of a terminated file exactly if it can read the file or cannot write it |

## Left out

- Snapshot age in PostgreSQL: the locking `SELECT` is atomic here, though inside one slow statement the real snapshot
  may be older than another poll's commit.
- Memory reservation: free memory is not decremented at placement, so nothing says that jobs placed together fit
  together.
- Recovery: no code requeues a job whose token or reply was lost, so losses are counted and not repaired.
- Who may report: the handler compares the reporter with no row, so a stray report may write or overwrite any row of
  vms. Stray reports are part of every run, and the theorems on vms except exactly the jobs that one named.
- ControlPlane.Service.SweepOffline: says nothing of the 60 s between ticks; the theorems on staleness take the age of
  the last sweep as their condition instead.
- ControlPlane.Service.Interference: its body takes no step of other clients; callers use its contract only, which
  allows any.
- Concurrent `authorizeKey` calls, a partial write, and the parsing of the key: runs are sequential, a write is whole,
  and a key is a nonempty ASCII line without surrounding whitespace.
- LongPoll.FirstTokenHeardExactly: takes a network without delay and an agent that no job has reached yet.
- The other columns (image settings, disk, environment, location, CPU load, machine id): carried along, never decided
  on.
- Token issue and revocation: single set operations, present as events only.
- Job queue keys: a list is indexed by the provider's id, since the key is a fixed prefix of it.
- Firecracker, Docker, tap devices, sockets, the TCP proxy, JWT and SSH certificates, WireGuard, SPIRE and shell
  setup: foreign processes, cryptography and configuration.
- Counter overflow at 64 bits and address validity beyond counter 64770: the allocator's text is modelled as printed.
