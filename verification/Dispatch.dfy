/**
 The job dispatch protocol as a state machine: one event per statement that one client sends to PostgreSQL or Redis,
 in any interleaving, with a fault possible after every one of them.
 */
module Dispatch {
  import opened Store

  /** A deploy request in flight, by the last of its statements that took effect. */
  datatype Submit =
    | Selected(job: JobId, provider: ProviderId, request: Request)
    | Inserted(job: JobId, provider: ProviderId)
    | Assigned(job: JobId, provider: ProviderId)

  /** A long poll in flight; token is the job id it popped and then ignores. */
  datatype Poll =
    | Popped(provider: ProviderId, token: JobId)
    | Locked(provider: ProviderId, token: JobId, job: JobId, wrote: bool)
    | Committed(provider: ProviderId, token: JobId, job: JobId)

  datatype Delivery = Delivery(provider: ProviderId, token: JobId, job: JobId)

  datatype State = State(
    // PostgreSQL
    jobs: map<JobId, Job>,
    locks: map<JobId, nat>,
    vms: map<JobId, VM>,
    // Redis
    queues: map<ProviderId, seq<JobId>>,
    // clients in flight
    submits: map<nat, Submit>,
    polls: map<nat, Poll>,
    // history
    owner: map<JobId, nat>,           // every job id drawn so far, and the submit that drew it
    claimant: map<JobId, nat>,        // every job committed to a poll, and that poll
    pushed: map<JobId, ProviderId>,   // jobs whose token was pushed, and onto whose list
    unpushed: set<JobId>,             // jobs whose submit was abandoned between assign and push
    lost: map<ProviderId, nat>,       // tokens never pushed, or popped without a claim
    delivered: seq<Delivery>,         // replies received by agents, oldest first
    repliedAt: map<JobId, nat>,       // every job ever replied, and its latest place in delivered
    unreplied: set<JobId>,            // jobs committed to a poll whose reply was lost
    heard: map<nat, seq<JobId>>,      // by poll, the jobs whose replies its agent received
    unheard: map<nat, seq<JobId>>,    // by poll, the jobs whose replies were lost
    reported: set<nat>,               // deliveries whose one report was processed or lost
    strays: set<JobId>)               // ids named by a report that was not the report of a delivery

  const INITIAL: State :=
    State(map[], map[], map[], map[], map[], map[], map[], map[], map[], {}, map[], [], map[], {}, map[], map[], {}, {})

  datatype SubmitStep =
    | Select(job: JobId, provider: ProviderId, request: Request)
    | Insert(createdAt: int)
    | Assign
    | Push
    | Abandon                         // fault

  datatype PollStep =
    | Pop(provider: ProviderId)
    | Lock(job: JobId)
    | FindNone
    | Write
    | Commit
    | Reply
    | Drop                            // fault: the popped token is lost
    | Rollback                        // fault
    | LoseReply                       // fault: committed, but the agent never hears

  datatype ReportStep =
    | Process(vm: VM)
    | LoseReport                      // fault

  /**
   A statement of submit c, of poll c, the report on the k-th delivery, or any other report: the handler accepts
   whatever it is sent, by whomever and however often.
   */
  datatype Event =
    | Submitting(c: nat, submit: SubmitStep)
    | Polling(c: nat, poll: PollStep)
    | Reporting(k: nat, report: ReportStep)
    | Stray(vm: VM)

  function Queue(s: State, p: ProviderId): seq<JobId> {
    if p in s.queues then s.queues[p] else []
  }

  function LostTokens(s: State, p: ProviderId): nat {
    if p in s.lost then s.lost[p] else 0
  }

  /** The replies of one poll, in a history by poll. */
  function RepliesOf(history: map<nat, seq<JobId>>, c: nat): seq<JobId> {
    if c in history then history[c] else []
  }

  function OneMore(lost: map<ProviderId, nat>, p: ProviderId): map<ProviderId, nat> {
    lost[p := if p in lost then lost[p] + 1 else 1]
  }

  // ---- Submit ----

  ghost predicate SubmitEnabled(s: State, c: nat, step: SubmitStep) {
    if step.Select? then
      c !in s.submits && step.job !in s.owner && step.provider != UNASSIGNED
    else
      && c in s.submits
      && match step
         case Insert(_) => s.submits[c].Selected? && s.submits[c].job !in s.jobs
         case Assign => s.submits[c].Inserted?
         case Push => s.submits[c].Assigned?
         case _ => true
  }

  ghost function ApplySubmit(s: State, c: nat, step: SubmitStep): State
    requires SubmitEnabled(s, c, step)
  {
    match step
    case Select(job, provider, request) =>
      s.(submits := s.submits[c := Selected(job, provider, request)], owner := s.owner[job := c])
    case Insert(createdAt) =>
      var m := s.submits[c];
      s.(jobs := s.jobs[m.job := Job(m.request, UNASSIGNED, Pending, createdAt)],
         submits := s.submits[c := Inserted(m.job, m.provider)])
    case Assign =>
      var m := s.submits[c];
      s.(jobs := AssignJob(s.jobs, m.job, m.provider), submits := s.submits[c := Assigned(m.job, m.provider)])
    case Push =>
      var m := s.submits[c];
      s.(queues := s.queues[m.provider := LeftPush(Queue(s, m.provider), m.job)],
         submits := s.submits - {c}, pushed := s.pushed[m.job := m.provider])
    case Abandon =>
      var m := s.submits[c];
      s.(submits := s.submits - {c},
         unpushed := s.unpushed + (if m.Assigned? then {m.job} else {}),
         lost := if m.Assigned? then OneMore(s.lost, m.provider) else s.lost)
  }

  // ---- PollForProvider ----

  ghost predicate PollEnabled(s: State, c: nat, step: PollStep) {
    if step.Pop? then
      c !in s.polls && Queue(s, step.provider) != []
    else
      && c in s.polls
      && match step
         case Lock(job) => s.polls[c].Popped? && OldestClaimable(s.jobs, s.locks, s.polls[c].provider, job)
         case FindNone => s.polls[c].Popped? && NothingClaimable(s.jobs, s.locks, s.polls[c].provider)
         case Drop => s.polls[c].Popped?
         case Write => s.polls[c].Locked? && !s.polls[c].wrote
         case Commit => s.polls[c].Locked? && s.polls[c].wrote
         case Rollback => s.polls[c].Locked?
         case _ => s.polls[c].Committed?
  }

  ghost function ApplyPoll(s: State, c: nat, step: PollStep): State
    requires PollEnabled(s, c, step)
  {
    match step
    case Pop(provider) =>
      var q := Queue(s, provider);
      s.(queues := s.queues[provider := RightPop(q)], polls := s.polls[c := Popped(provider, Tail(q))])
    case Lock(job) =>
      var m := s.polls[c];
      s.(locks := s.locks[job := c], polls := s.polls[c := Locked(m.provider, m.token, job, false)])
    case FindNone => s.(polls := s.polls - {c})
    case Drop => s.(polls := s.polls - {c}, lost := OneMore(s.lost, s.polls[c].provider))
    case Write => s.(polls := s.polls[c := s.polls[c].(wrote := true)])
    case Commit =>
      var m := s.polls[c];
      s.(jobs := MarkRunning(s.jobs, m.job), locks := s.locks - {m.job},
         polls := s.polls[c := Committed(m.provider, m.token, m.job)], claimant := s.claimant[m.job := c])
    case Rollback =>
      s.(locks := s.locks - {s.polls[c].job}, polls := s.polls - {c},
         lost := OneMore(s.lost, s.polls[c].provider))
    case Reply =>
      var m := s.polls[c];
      s.(polls := s.polls - {c}, delivered := s.delivered + [Delivery(m.provider, m.token, m.job)],
         repliedAt := s.repliedAt[m.job := |s.delivered|], heard := s.heard[c := RepliesOf(s.heard, c) + [m.job]])
    case LoseReply =>
      var m := s.polls[c];
      s.(polls := s.polls - {c}, unreplied := s.unreplied + {m.job},
         unheard := s.unheard[c := RepliesOf(s.unheard, c) + [m.job]])
  }

  // ---- reportVM ----

  /** The agent sends one report for each delivery, in its own name. */
  ghost predicate ReportEnabled(s: State, k: nat, step: ReportStep) {
    && k < |s.delivered| && k !in s.reported
    && (step.Process? ==> step.vm.job == s.delivered[k].job && step.vm.provider == s.delivered[k].provider)
  }

  ghost function ApplyReport(s: State, k: nat, step: ReportStep): State
    requires ReportEnabled(s, k, step)
  {
    s.(vms := if step.Process? then UpsertVM(s.vms, step.vm.job, step.vm) else s.vms, reported := s.reported + {k})
  }

  ghost predicate Enabled(s: State, e: Event) {
    match e
    case Submitting(c, step) => SubmitEnabled(s, c, step)
    case Polling(c, step) => PollEnabled(s, c, step)
    case Reporting(k, step) => ReportEnabled(s, k, step)
    case Stray(_) => true
  }

  ghost function Apply(s: State, e: Event): State
    requires Enabled(s, e)
  {
    match e
    case Submitting(c, step) => ApplySubmit(s, c, step)
    case Polling(c, step) => ApplyPoll(s, c, step)
    case Reporting(k, step) => ApplyReport(s, k, step)
    case Stray(vm) => s.(vms := UpsertVM(s.vms, vm.job, vm), strays := s.strays + {vm.job})
  }

  // ---- runs ----

  ghost predicate ValidRun(s: State, es: seq<Event>)
    decreases |es|
  {
    es == [] || (Enabled(s, es[0]) && ValidRun(Apply(s, es[0]), es[1..]))
  }

  ghost function Exec(s: State, es: seq<Event>): State
    requires ValidRun(s, es)
    decreases |es|
  {
    if es == [] then s else Exec(Apply(s, es[0]), es[1..])
  }
}
