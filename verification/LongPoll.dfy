/**
 An idle agent's long polls against the clock. The agent's client gives a poll up after 15 s, while the control plane
 lets it wait 25 s for a token: so the token of the next deploy may be popped for an agent that has left.
 */
module LongPoll {
  import R = Registry
  import T = TimedPolls
  import D = Dispatch
  import DT = DispatchTheorems
  import OC = OverlappingClaims

  // The pause an agent makes after a poll that failed.
  const RETRY := 5 * R.SECOND

  /** When the agent sends its n-th poll, as long as none brings a job: the first at time zero. */
  function SentAt(n: nat): nat {
    if n == 0 then 0 else SentAt(n - 1) + R.CLIENT_TIMEOUT + RETRY
  }

  /** The last moment at which the agent still listens to its n-th poll. */
  function GivenUpAt(n: nat): nat {
    SentAt(n) + R.CLIENT_TIMEOUT
  }

  /** When the n-th poll's pop ends without a token. A pop that outlives its client waits its time out on the server. */
  function WaitEndsAt(n: nat, outlives: bool): nat {
    if outlives then SentAt(n) + T.WAIT else GivenUpAt(n)
  }

  /** The n-th poll takes a token pushed at this time: whoever waits longest is served, or else whoever comes next. */
  ghost predicate Takes(n: nat, pushed: nat, outlives: bool) {
    && pushed < WaitEndsAt(n, outlives)
    && forall m: nat | m < n :: WaitEndsAt(m, outlives) <= pushed
  }

  /** The agent is still there when its n-th poll has popped the token: on sending, or as the token is pushed. */
  predicate Hears(n: nat, pushed: nat) {
    !T.IsLate(SentAt(n), if pushed < SentAt(n) then SentAt(n) else pushed)
  }

  lemma {:induction false} SentEvery20Seconds(n: nat)
    ensures SentAt(n) == 20 * R.SECOND * n
  {
    if n == 0 {
    } else {
      SentEvery20Seconds(n - 1);
    }
  }

  /** Whatever is pushed is taken, by one poll. */
  lemma OnePollTakes(pushed: nat, outlives: bool) returns (n: nat)
    ensures Takes(n, pushed, outlives)
    ensures forall m: nat | Takes(m, pushed, outlives) :: m == n
  {
    n := 0;
    while WaitEndsAt(n, outlives) <= pushed
      invariant forall m: nat | m < n :: WaitEndsAt(m, outlives) <= pushed
      decreases pushed - SentAt(n)
    {
      n := n + 1;
    }
  }

  /**
   The first token for an idle agent reaches it exactly if pops end with their clients, or the token was pushed in the
   first 5 s or, from then on, in the first 10 of every 20 s: half of the time the token is popped for nobody.
   */
  lemma FirstTokenHeardExactly(pushed: nat, outlives: bool, n: nat)
    requires Takes(n, pushed, outlives)
    ensures Hears(n, pushed)
            <==> !outlives || pushed < 5 * R.SECOND || (pushed - 5 * R.SECOND) % (20 * R.SECOND) <= 10 * R.SECOND
  {
    SentEvery20Seconds(n);
    if outlives && n > 0 {
      SentEvery20Seconds(n - 1);
      assert WaitEndsAt(n - 1, outlives) <= pushed;
      var late := pushed - 5 * R.SECOND - 20 * R.SECOND * n;
      assert 0 <= late < 20 * R.SECOND;
      assert pushed - 5 * R.SECOND == 20 * R.SECOND * n + late;
      RemainderOf(n, late);
    }
  }

  lemma RemainderOf(n: nat, late: int)
    requires 0 <= late < 20 * R.SECOND
    ensures (20 * R.SECOND * n + late) % (20 * R.SECOND) == late
  {
  }

  /** A single job was pushed for the provider and never arrives, though nothing failed but one late pop. */
  ghost predicate OnlyLatePopLoses(es: seq<T.Event>, sent: nat, pushed: nat)
    requires T.ValidRun(T.Initial(0), es)
  {
    var s, p := T.Exec(T.Initial(0), es), DT.DEMO_PROVIDER;
    && 0 in s.sentAt && s.sentAt[0] == sent && s.now == pushed
    && T.LatePops(T.Initial(0), es, p) == 1 && T.OtherFaults(T.Initial(0), es, p) == 0
    && DT.Settled(s.disp, p) && DT.PushedFor(s.disp, p) == {"a"} && DT.DeliveredTo(s.disp, p) == {}
  }

  /** A poll is sent, and later a job is deployed. */
  lemma DemoDeployAt(sent: nat, pushed: nat) returns (es: seq<T.Event>)
    requires sent <= pushed
    ensures T.ValidRun(T.Initial(0), es)
    ensures T.LatePops(T.Initial(0), es, DT.DEMO_PROVIDER) == 0
    ensures T.OtherFaults(T.Initial(0), es, DT.DEMO_PROVIDER) == 0
    ensures var s := T.Exec(T.Initial(0), es);
      && s.now == pushed && s.sentAt == map[0 := sent] && s.late == {}
      && s.disp.polls == map[] && s.disp.submits == map[] && s.disp.delivered == []
      && D.Queue(s.disp, DT.DEMO_PROVIDER) == ["a"] && s.disp.pushed == map["a" := DT.DEMO_PROVIDER]
  {
    var p := DT.DEMO_PROVIDER;
    var steps := OC.DemoDeploy([], 0, "a", 0);
    var s1 := T.Apply(T.Initial(0), T.Tick(sent));
    var s2 := T.Apply(s1, T.Send(0));
    var s3 := T.Apply(s2, T.Tick(pushed - sent));
    T.LiftedRun(s3, steps, p);
    es := T.Lift(steps);
    T.Prepend(s2, T.Tick(pushed - sent), es, p);
    es := [T.Tick(pushed - sent)] + es;
    T.Prepend(s1, T.Send(0), es, p);
    es := [T.Send(0)] + es;
    T.Prepend(T.Initial(0), T.Tick(sent), es, p);
    es := [T.Tick(sent)] + es;
  }

  /** Its token is popped when the agent has left. */
  lemma DemoLatePop(sent: nat, pushed: nat) returns (es: seq<T.Event>)
    requires T.IsLate(sent, pushed) && pushed <= sent + T.WAIT
    ensures T.ValidRun(T.Initial(0), es)
    ensures T.LatePops(T.Initial(0), es, DT.DEMO_PROVIDER) == 1
    ensures T.OtherFaults(T.Initial(0), es, DT.DEMO_PROVIDER) == 0
    ensures var s := T.Exec(T.Initial(0), es);
      && s.now == pushed && s.sentAt == map[0 := sent] && s.late == {0}
      && s.disp.polls == map[0 := D.Popped(DT.DEMO_PROVIDER, "a")] && s.disp.submits == map[]
      && s.disp.delivered == [] && D.Queue(s.disp, DT.DEMO_PROVIDER) == []
      && s.disp.pushed == map["a" := DT.DEMO_PROVIDER]
  {
    es := DemoDeployAt(sent, pushed);
    T.Extend(T.Initial(0), es, T.Do(D.Polling(0, D.Pop(DT.DEMO_PROVIDER))), DT.DEMO_PROVIDER);
    es := es + [T.Do(D.Polling(0, D.Pop(DT.DEMO_PROVIDER)))];
  }

  /** So every token that an idle agent does not hear of can strand its job without any other fault. */
  lemma UnheardTokenIsLost(pushed: nat, n: nat)
    requires Takes(n, pushed, true) && !Hears(n, pushed)
    ensures exists es :: T.ValidRun(T.Initial(0), es) && OnlyLatePopLoses(es, SentAt(n), pushed)
  {
    var p := DT.DEMO_PROVIDER;
    var es := DemoLatePop(SentAt(n), pushed);
    T.Extend(T.Initial(0), es, T.Do(D.Polling(0, D.Drop)), p);
    es := es + [T.Do(D.Polling(0, D.Drop))];
    assert DT.PushedFor(T.Exec(T.Initial(0), es).disp, p) == {"a"};
  }
}
