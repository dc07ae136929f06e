/** The rows kept in PostgreSQL, and what each SQL statement does to them. */
module Store {

  datatype Option<+T> = None | Some(value: T)

  type JobId = string
  type ProviderId = string

  /** The schema default of jobs.provider_id. */
  const UNASSIGNED: ProviderId := ""

  datatype JobStatus = Pending | Scheduled | Running

  /** What a buyer asks for. */
  datatype Request = Request(image: string, cpu: int, mem: int)

  datatype Job = Job(request: Request, provider: ProviderId, status: JobStatus, createdAt: int)

  datatype ProviderStatus = Online | Offline

  datatype Provider = Provider(
    token: string, pubKey: string, wgIp: string, port: int, cpu: int,
    status: ProviderStatus, activeVms: int, memFree: int, lastSeen: int, registeredAt: int)

  datatype VM = VM(job: JobId, provider: ProviderId, ip: string, port: int, status: string, error: string)

  // ---- jobs ----

  /** AssignJob: an UPDATE by primary key, whatever the row's status; no row, no effect. */
  function AssignJob(jobs: map<JobId, Job>, job: JobId, provider: ProviderId): map<JobId, Job> {
    if job in jobs then jobs[job := jobs[job].(provider := provider, status := Scheduled)] else jobs
  }

  /** The UPDATE inside NextPendingJob. */
  function MarkRunning(jobs: map<JobId, Job>, job: JobId): map<JobId, Job> {
    if job in jobs then jobs[job := jobs[job].(status := Running)] else jobs
  }

  /** The WHERE clause of the claim, with the rows that SKIP LOCKED passes over left out. */
  predicate Claimable(jobs: map<JobId, Job>, locks: map<JobId, nat>, provider: ProviderId, job: JobId) {
    job in jobs && jobs[job].provider == provider && jobs[job].status.Scheduled? && job !in locks
  }

  ghost predicate NothingClaimable(jobs: map<JobId, Job>, locks: map<JobId, nat>, provider: ProviderId) {
    forall job :: !Claimable(jobs, locks, provider, job)
  }

  /** A row the claim may return: ORDER BY created_at LIMIT 1 leaves ties open. */
  ghost predicate OldestClaimable(jobs: map<JobId, Job>, locks: map<JobId, nat>, provider: ProviderId, job: JobId) {
    && Claimable(jobs, locks, provider, job)
    && forall other | Claimable(jobs, locks, provider, other) :: jobs[job].createdAt <= jobs[other].createdAt
  }

  // ---- vms ----

  /** UpsertVM: a conflict on the id rewrites status and error only. */
  function UpsertVM(vms: map<JobId, VM>, id: JobId, vm: VM): map<JobId, VM> {
    vms[id := if id in vms then vms[id].(status := vm.status, error := vm.error) else vm]
  }

  // ---- the job lists ----

  /** LPUSH. */
  function LeftPush(queue: seq<JobId>, token: JobId): seq<JobId> {
    [token] + queue
  }

  /** The token that BRPOP answers, and the list it leaves. */
  function Tail(queue: seq<JobId>): JobId
    requires queue != []
  {
    queue[|queue| - 1]
  }

  function RightPop(queue: seq<JobId>): seq<JobId>
    requires queue != []
  {
    queue[..|queue| - 1]
  }

  // ---- providers ----

  /** UpsertProvider: a conflict on the id keeps every column but the key, the status and last_seen. */
  function UpsertProvider(providers: map<ProviderId, Provider>, id: ProviderId, row: Provider, now: int)
    : map<ProviderId, Provider>
  {
    providers[id :=
      if id in providers then providers[id].(pubKey := row.pubKey, status := Online, lastSeen := now) else row]
  }

  /** UpdateHeartbeat: an unknown id matches no row. */
  function UpdateHeartbeat(providers: map<ProviderId, Provider>, id: ProviderId, activeVms: int, memFree: int, now: int)
    : map<ProviderId, Provider>
  {
    if id in providers
    then providers[id := providers[id].(activeVms := activeVms, memFree := memFree, status := Online, lastSeen := now)]
    else providers
  }

  function Swept(row: Provider, now: int, olderThan: int): Provider {
    if row.status.Online? && row.lastSeen < now - olderThan then row.(status := Offline) else row
  }

  /** MarkOffline. */
  function MarkOffline(providers: map<ProviderId, Provider>, now: int, olderThan: int): map<ProviderId, Provider> {
    map id | id in providers :: Swept(providers[id], now, olderThan)
  }

  /** The WHERE clause of BestProvider. */
  predicate Fits(row: Provider, cpu: int, mem: int) {
    row.status.Online? && row.cpu >= cpu && row.memFree >= mem
  }

  /** A row BestProvider may return: ORDER BY mem_free_mb DESC LIMIT 1 leaves ties open. */
  ghost predicate IsBest(providers: map<ProviderId, Provider>, cpu: int, mem: int, id: ProviderId) {
    && id in providers && Fits(providers[id], cpu, mem)
    && forall other | other in providers && Fits(providers[other], cpu, mem) ::
         providers[other].memFree <= providers[id].memFree
  }
}
