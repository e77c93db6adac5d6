/** A job's deliveries with the provider plan inside: step 8 of the handler runs the plan,
    throws when the plan does, and the queue goes by what the plan threw. */
module JobCalls {
  import opened Prelude
  import B = VastBreaker
  import P = ProviderPlan
  import V = VideoJob

  const CALL_PROVIDER: nat := 8

  // One delivery: what meets the handler, the breaker as other jobs have left it, and the providers.
  datatype Delivery = Delivery(script: V.Script, breaker: B.Breaker, tick: nat, world: P.World)

  datatype Event =
    | Deliver(delivery: Delivery)
    | CancelJob(removed: bool)
    | AskCancel(removed: bool)
    | CommitAsked

  datatype State = State(queue: V.Queue, provider: P.State)

  datatype Setup = Setup(plan: seq<P.Provider>, settings: P.Settings, maxAttempts: nat)

  // Whether the handler gets as far as the provider call.
  predicate ReachesProvider(j: V.Job, sc: V.Script) {
    && !V.SkipsJob(j)
    && var stopped := sc.(fault := (k: nat) => k == CALL_PROVIDER || sc.fault(k));
       V.Body(V.HANDLE, j, [], 0, stopped).exit.Threw? && V.Body(V.HANDLE, j, [], 0, stopped).at == CALL_PROVIDER
  }

  // The provider step throws what the plan throws.
  function WithOutcome(sc: V.Script, o: P.Outcome): V.Script {
    sc.(fault := (k: nat) => if k == CALL_PROVIDER then !o.Succeeded? else sc.fault(k),
        retryable := if o.Succeeded? then sc.retryable else P.OutcomeRetryable(o))
  }

  function Planned(s: State, d: Delivery, u: Setup): (P.State, P.Outcome) {
    P.RunPlan(s.provider.(breaker := d.breaker, tick := d.tick), u.plan, false, None, d.world, u.settings)
  }

  function Step(s: State, e: Event, u: Setup): State {
    match e
    case Deliver(d) =>
      if !s.queue.queued then s
      else if ReachesProvider(s.queue.job, d.script) then
        var (provider, outcome) := Planned(s, d, u);
        State(V.Advance(s.queue, V.Deliver(WithOutcome(d.script, outcome)), u.maxAttempts), provider)
      else s.(queue := V.Advance(s.queue, V.Deliver(d.script), u.maxAttempts))
    case CancelJob(removed) => s.(queue := V.Advance(s.queue, V.CancelJob(removed), u.maxAttempts))
    case AskCancel(removed) => s.(queue := V.Advance(s.queue, V.AskCancel(removed), u.maxAttempts))
    case CommitAsked => s.(queue := V.Advance(s.queue, V.CommitAsked, u.maxAttempts))
  }

  function Start(cost: int): State {
    State(V.Enqueued(cost), P.State(B.FRESH, 0, [], []))
  }

  function Run(cost: int, es: seq<Event>, u: Setup): State
    decreases |es|
  {
    if es == [] then Start(cost) else Step(Run(cost, es[..|es| - 1], u), es[|es| - 1], u)
  }

  // ---------- How many calls a job can make ----------

  // What one event adds to the attempts and to the calls.
  lemma StepBudget(s: State, e: Event, u: Setup)
    requires P.Distinct(u.plan)
    ensures
      var s' := Step(s, e, u);
      if e.Deliver? && s.queue.queued then
        && s'.queue.attempts == s.queue.attempts + 1
        && |s'.provider.calls| <= |s.provider.calls| + P.CallBudget(u.plan, u.settings)
        && (s'.queue.queued ==> s'.queue.attempts < u.maxAttempts)
      else
        && s'.queue.attempts == s.queue.attempts && s'.provider.calls == s.provider.calls
        && (s'.queue.queued ==> s.queue.queued)
  {
    hide V.Attempt, V.Body, P.RunPlan;
    if e.Deliver? && s.queue.queued && ReachesProvider(s.queue.job, e.delivery.script) {
      var d := e.delivery;
      var cs, away, n := P.PlanSettles(
        s.provider.(breaker := d.breaker, tick := d.tick), u.plan, d.world, u.settings);
    }
  }

  lemma Times(n: nat, budget: nat)
    ensures (n + 1) * budget == n * budget + budget
  {
  }

  lemma TimesMonotone(m: nat, n: nat, budget: nat)
    requires m <= n
    ensures m * budget <= n * budget
  {
  }

  lemma {:induction false} CallsPerAttempt(cost: int, es: seq<Event>, u: Setup)
    requires u.maxAttempts >= 1 && P.Distinct(u.plan)
    ensures
      var s := Run(cost, es, u);
      && |s.provider.calls| <= s.queue.attempts * P.CallBudget(u.plan, u.settings)
      && s.queue.attempts <= u.maxAttempts && (s.queue.queued ==> s.queue.attempts < u.maxAttempts)
    decreases |es|
  {
    if es != [] {
      var s := Run(cost, es[..|es| - 1], u);
      CallsPerAttempt(cost, es[..|es| - 1], u);
      StepBudget(s, es[|es| - 1], u);
      Times(s.queue.attempts, P.CallBudget(u.plan, u.settings));
      hide Step;
    }
  }

  /** Whatever meets its attempts, a job makes at most `attempts` times the sum over the
      providers of its plan of maxRetries + 1 provider calls. */
  lemma CallsBounded(cost: int, es: seq<Event>, u: Setup)
    requires u.maxAttempts >= 1 && P.Distinct(u.plan)
    ensures |Run(cost, es, u).provider.calls| <= u.maxAttempts * P.CallBudget(u.plan, u.settings)
  {
    CallsPerAttempt(cost, es, u);
    TimesMonotone(Run(cost, es, u).queue.attempts, u.maxAttempts, P.CallBudget(u.plan, u.settings));
  }

  // ---------- What the plan's outcome does to the job ----------

  lemma {:induction false} StopsAtFirstFault(steps: seq<V.Step>, j: V.Job, up: seq<nat>, k: nat, sc: V.Script, p: nat)
    requires k <= p < |steps| && !j.status.CANCELLED? && forall i: nat :: !sc.cancels(i)
    requires sc.fault(p) && forall i: nat | k <= i < p :: !sc.fault(i)
    ensures V.Body(steps, j, up, k, sc).exit.Threw? && V.Body(steps, j, up, k, sc).at == p
    decreases p - k
  {
    if k < p {
      var (j2, up2) := V.Effect(j, up, steps[k], sc);
      StopsAtFirstFault(steps, j2, up2, k + 1, sc, p);
    }
  }

  ghost predicate OnlyProviderFails(sc: V.Script) {
    V.Quiet(sc) && forall k: nat | k != CALL_PROVIDER :: !sc.fault(k)
  }

  /** In a delivery where nothing but the plan can fail, the job completes exactly when
      the plan succeeds, is queued again exactly when the plan's error is retryable and
      attempts remain, and fails with its refund otherwise. */
  lemma PlanDecides(s: State, d: Delivery, u: Setup)
    requires s.queue.queued && s.queue.job.status.QUEUED? && V.Settled(s.queue.job) && OnlyProviderFails(d.script)
    ensures
      var outcome := Planned(s, d, u).1;
      var j := Step(s, Deliver(d), u).queue.job;
      var again := !outcome.Succeeded? && P.OutcomeRetryable(outcome) && s.queue.attempts + 1 < u.maxAttempts;
      && ReachesProvider(s.queue.job, d.script) && V.Settled(j)
      && (j.status.COMPLETED? <==> outcome.Succeeded?)
      && (j.status.QUEUED? <==> again)
      && (j.status.FAILED? <==> !outcome.Succeeded? && !again)
  {
    var j, outcome := s.queue.job, Planned(s, d, u).1;
    var stopped := d.script.(fault := (k: nat) => k == CALL_PROVIDER || d.script.fault(k));
    StopsAtFirstFault(V.HANDLE, j, [], 0, stopped, CALL_PROVIDER);
    var sc := WithOutcome(d.script, outcome);
    if outcome.Succeeded? {
      V.NothingThrown(V.HANDLE, j, [], 0, sc);
    } else {
      StopsAtFirstFault(V.HANDLE, j, [], 0, sc, CALL_PROVIDER);
    }
    V.QuietAttempt(j, s.queue.attempts, u.maxAttempts, sc);
    hide V.Attempt, V.Body, P.RunPlan;
  }
}
