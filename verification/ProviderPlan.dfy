/** The worker's provider loop: try each provider of the plan in order, with
    retries, behind the Vast breaker. */
module ProviderPlan {
  import opened Prelude
  import opened VastBreaker

  datatype Provider = Vast | Modal

  // What the loop reads of a thrown provider error.
  datatype ProviderError = ProviderError(
    retryable: Option<bool>,
    statusCode: Option<int>,
    errorType: Option<ErrorType>,
    saysOutOfMemory: bool)

  datatype Answer = Video(response: int) | Refused(error: ProviderError)

  function IsRetryable(e: ProviderError): bool {
    if e.retryable.Some? then e.retryable.value
    else if e.statusCode.None? then true
    else
      var code := e.statusCode.value;
      code == 408 || code == 425 || code >= 500 || code == 429
  }

  function InferErrorType(e: ProviderError): ErrorType {
    if e.errorType.Some? then e.errorType.value
    else if e.saysOutOfMemory then TRANSIENT_OOM
    else if e.statusCode.None? || e.statusCode.value == 408 || e.statusCode.value == 425 then TRANSIENT_TIMEOUT
    else if e.statusCode.value >= 500 || e.statusCode.value == 429 then TRANSIENT_INFRA
    else if e.statusCode.value >= 400 then PERMANENT_INPUT
    else TRANSIENT_INFRA
  }

  function MaxRetries(raw: Option<real>): (r: nat)
    ensures if raw.Some? && raw.value >= 0.0 then r as real <= raw.value < r as real + 1.0 else r == 1
  {
    if raw.None? || raw.value < 0.0 then 1 else raw.value.Floor
  }

  // Everything outside the loop: the n-th external event sees the n-th entries.
  datatype World = World(
    enabled: nat -> bool,
    healthy: nat -> bool,
    answer: nat -> Answer,
    clock: nat -> nat)

  datatype Settings = Settings(breaker: Config, vastRetries: nat, modalRetries: nat)

  function RetriesOf(s: Settings, p: Provider): nat {
    if p.Vast? then s.vastRetries else s.modalRetries
  }

  // One provider call as the worker logs it, with the answer it got.
  datatype Call = Call(provider: Provider, attempt: nat, fallback: bool, answer: Answer)

  // `turnedAway` lists the providers a gate refused, in order.
  datatype State = State(breaker: Breaker, tick: nat, calls: seq<Call>, turnedAway: seq<Provider>)

  datatype Outcome =
    | Succeeded(provider: Provider, response: int, attempt: nat, fallback: bool)
    | Threw(error: ProviderError)
    | NoProvider

  // 'No provider is currently available' is a plain error, and those are retryable.
  function OutcomeRetryable(o: Outcome): bool
    requires !o.Succeeded?
  {
    o.NoProvider? || IsRetryable(o.error)
  }

  // ---------- The plan a job runs ----------

  // [...new Set(plan)]: first occurrences in order.
  function Dedupe(plan: seq<Provider>): (r: seq<Provider>)
    ensures forall p :: p in r <==> p in plan
    ensures forall i, j | 0 <= i < j < |r| :: r[i] != r[j]
    ensures plan != [] ==> r != []
    decreases |plan|
  {
    if plan == [] then []
    else
      var front := Dedupe(plan[..|plan| - 1]);
      var p := plan[|plan| - 1];
      assert plan == plan[..|plan| - 1] + [p];
      if p in front then front else front + [p]
  }

  // Where `p` first stands in the plan.
  function FirstAt(plan: seq<Provider>, p: Provider): (i: nat)
    requires p in plan
    ensures i < |plan| && plan[i] == p && forall j | 0 <= j < i :: plan[j] != p
  {
    if plan[0] == p then 0
    else
      assert plan == [plan[0]] + plan[1..];
      1 + FirstAt(plan[1..], p)
  }

  lemma FirstAtInPrefix(plan: seq<Provider>, n: nat, p: Provider)
    requires n <= |plan| && p in plan[..n]
    ensures p in plan && FirstAt(plan, p) == FirstAt(plan[..n], p)
  {
    assert plan == plan[..n] + plan[n..];
    var a, b := FirstAt(plan, p), FirstAt(plan[..n], p);
    assert plan[..n][b] == plan[b] && forall j | 0 <= j < b :: plan[..n][j] == plan[j];
  }

  lemma {:induction false} DedupeKeepsOrder(plan: seq<Provider>)
    ensures forall i, j | 0 <= i < j < |Dedupe(plan)| :: FirstAt(plan, Dedupe(plan)[i]) < FirstAt(plan, Dedupe(plan)[j])
    decreases |plan|
  {
    if plan != [] {
      var n := |plan| - 1;
      DedupeKeepsOrder(plan[..n]);
      var front, r := Dedupe(plan[..n]), Dedupe(plan);
      assert r == front || r == front + [plan[n]];
      forall k | 0 <= k < |r|
        ensures
          if k < |front| then FirstAt(plan, r[k]) == FirstAt(plan[..n], front[k]) < n
          else FirstAt(plan, r[k]) == n
      {
        if k < |front| {
          assert front[k] in front;
          FirstAtInPrefix(plan, n, front[k]);
        } else {
          assert forall j | 0 <= j < n :: plan[j] in plan[..n];
        }
      }
      hide *;
      forall i, j | 0 <= i < j < |r| ensures FirstAt(plan, r[i]) < FirstAt(plan, r[j]) {
      }
    }
  }

  /** The job's own plan, each provider where it first stands; else the primary provider,
      then the fallback when it is another one. */
  function ResolvePlan(jobPlan: seq<Provider>, primary: Option<Provider>, fallback: Option<Provider>)
    : (r: seq<Provider>)
    ensures r != [] && Distinct(r)
    ensures jobPlan != [] ==>
      && (forall p :: p in r <==> p in jobPlan)
      && (forall i, j | 0 <= i < j < |r| :: FirstAt(jobPlan, r[i]) < FirstAt(jobPlan, r[j]))
    ensures jobPlan == [] ==>
      && r[0] == (if primary.Some? then primary.value else Vast)
      && r[|r| - 1] == (if fallback.Some? then fallback.value else Modal)
  {
    if jobPlan != [] then
      DedupeKeepsOrder(jobPlan);
      Dedupe(jobPlan)
    else
      var first := if primary.Some? then primary.value else Vast;
      var second := if fallback.Some? then fallback.value else Modal;
      if first == second then [first] else [first, second]
  }

  // ---------- Reference: the loop as a recursion ----------

  function CallOnce(s: State, p: Provider, attempt: nat, fallback: bool, w: World, cfg: Settings): (r: (State, Answer))
    ensures r.0.calls == s.calls + [Call(p, attempt, fallback, r.1)] && r.0.turnedAway == s.turnedAway
  {
    var answer := w.answer(s.tick);
    var now := w.clock(s.tick);
    var breaker :=
      if p.Modal? then s.breaker
      else if answer.Video? then RecordSuccess(s.breaker, now, cfg.breaker)
      else RecordFailure(s.breaker, now, InferErrorType(answer.error), cfg.breaker);
    (State(breaker, s.tick + 1, s.calls + [Call(p, attempt, fallback, answer)], s.turnedAway), answer)
  }

  // A provider's attempts from `attempt` on: its last answer and the number of the attempt that got it.
  function Attempts(s: State, p: Provider, attempt: nat, fallback: bool, w: World, cfg: Settings): (State, Answer, nat)
    requires 1 <= attempt <= RetriesOf(cfg, p) + 1
    decreases RetriesOf(cfg, p) + 1 - attempt
  {
    var (s', answer) := CallOnce(s, p, attempt, fallback, w, cfg);
    if answer.Video? || !IsRetryable(answer.error) || attempt == RetriesOf(cfg, p) + 1 then (s', answer, attempt)
    else Attempts(s', p, attempt + 1, fallback, w, cfg)
  }

  function CheckGate(s: State, p: Provider, w: World, cfg: Settings): (State, bool) {
    if p.Modal? then (s, true)
    else
      var t := s.tick;
      var admitted := Admits(s.breaker, w.clock(t), w.enabled(t), w.healthy(t));
      var breaker := Gate(s.breaker, w.clock(t), w.enabled(t), w.healthy(t), cfg.breaker);
      (State(breaker, t + 1, s.calls, if admitted then s.turnedAway else s.turnedAway + [p]), admitted)
  }

  function RunPlan(s: State, plan: seq<Provider>, fallback: bool, last: Option<ProviderError>,
                   w: World, cfg: Settings): (State, Outcome)
    decreases |plan|
  {
    if plan == [] then (s, if last.Some? then Threw(last.value) else NoProvider)
    else
      var p := plan[0];
      var (s1, admitted) := CheckGate(s, p, w, cfg);
      if !admitted then RunPlan(s1, plan[1..], fallback, last, w, cfg)
      else
        var (s2, answer, attempt) := Attempts(s1, p, 1, fallback, w, cfg);
        if answer.Video? then (s2, Succeeded(p, answer.response, attempt, fallback))
        else if IsRetryable(answer.error) then RunPlan(s2, plan[1..], true, Some(answer.error), w, cfg)
        else if |plan| == 1 then (s2, Threw(answer.error))
        else RunPlan(s2, plan[1..], true, last, w, cfg)
  }

  // ---------- What the calls of a plan look like ----------

  predicate Exhausted(c: Call, cfg: Settings) {
    c.answer.Refused? && IsRetryable(c.answer.error) && c.attempt == RetriesOf(cfg, c.provider) + 1
  }

  // A call after which the worker leaves the provider.
  predicate GaveUp(c: Call, cfg: Settings) {
    c.answer.Refused? && (!IsRetryable(c.answer.error) || c.attempt == RetriesOf(cfg, c.provider) + 1)
  }

  predicate OtherCalled(cs: seq<Call>, p: Provider) {
    exists i | 0 <= i < |cs| :: cs[i].provider != p
  }

  // Call `j` is a retry of the call before it, or the first call of a provider the
  // worker came to by giving up on the one before.
  predicate Follows(cs: seq<Call>, j: nat, cfg: Settings)
    requires j < |cs|
  {
    var c := cs[j];
    && 1 <= c.attempt <= RetriesOf(cfg, c.provider) + 1
    && (c.attempt > 1 ==>
          && j > 0 && cs[j - 1].provider == c.provider && cs[j - 1].attempt == c.attempt - 1
          && cs[j - 1].answer.Refused? && IsRetryable(cs[j - 1].answer.error))
    && (c.attempt == 1 && j > 0 ==> GaveUp(cs[j - 1], cfg) && cs[j - 1].provider != c.provider)
    && c.fallback == OtherCalled(cs[..j], c.provider)
  }

  ghost predicate Orderly(cs: seq<Call>, cfg: Settings) {
    forall j: nat | j < |cs| :: Follows(cs, j, cfg)
  }

  predicate AllRefused(cs: seq<Call>) {
    forall j | 0 <= j < |cs| :: cs[j].answer.Refused?
  }

  // The last error of a provider that used up its retries.
  function LastExhausted(cs: seq<Call>, cfg: Settings): Option<ProviderError>
    decreases |cs|
  {
    if cs == [] then None
    else if Exhausted(cs[|cs| - 1], cfg) then Some(cs[|cs| - 1].answer.error)
    else LastExhausted(cs[..|cs| - 1], cfg)
  }

  /** What a plan must answer, read off its calls alone. */
  function Verdict(cs: seq<Call>, plan: seq<Provider>, cfg: Settings): Outcome {
    if cs != [] && cs[|cs| - 1].answer.Video? then
      var c := cs[|cs| - 1];
      Succeeded(c.provider, c.answer.response, c.attempt, c.fallback)
    else if cs != [] && plan != [] && cs[|cs| - 1].provider == plan[|plan| - 1]
            && !IsRetryable(cs[|cs| - 1].answer.error) then
      Threw(cs[|cs| - 1].answer.error)
    else
      var last := LastExhausted(cs, cfg);
      if last.Some? then Threw(last.value) else NoProvider
  }

  // The loop has tried and left some providers, none of them in the rest of the plan.
  ghost predicate Underway(
    cs: seq<Call>, rest: seq<Provider>, fallback: bool, last: Option<ProviderError>, cfg: Settings)
  {
    && Orderly(cs, cfg) && AllRefused(cs)
    && (cs != [] ==> GaveUp(cs[|cs| - 1], cfg))
    && fallback == (cs != [])
    && last == LastExhausted(cs, cfg)
    && (forall j | 0 <= j < |cs| :: cs[j].provider !in rest)
  }

  ghost predicate Distinct(plan: seq<Provider>) {
    forall i, j | 0 <= i < j < |plan| :: plan[i] != plan[j]
  }

  // Calls number `attempt` onwards of one provider: refused retryably up to the last.
  ghost predicate Block(block: seq<Call>, p: Provider, attempt: nat, fallback: bool, cfg: Settings) {
    && block != []
    && (forall i | 0 <= i < |block| ::
          && block[i].provider == p && block[i].attempt == attempt + i && block[i].fallback == fallback
          && block[i].attempt <= RetriesOf(cfg, p) + 1)
    && (forall i | 0 <= i < |block| - 1 :: block[i].answer.Refused? && IsRetryable(block[i].answer.error))
    && (block[|block| - 1].answer.Video? || GaveUp(block[|block| - 1], cfg))
  }

  lemma {:induction false} AttemptsBlock(s: State, p: Provider, attempt: nat, fallback: bool, w: World, cfg: Settings)
    returns (block: seq<Call>)
    requires 1 <= attempt <= RetriesOf(cfg, p) + 1
    ensures Block(block, p, attempt, fallback, cfg)
    ensures Attempts(s, p, attempt, fallback, w, cfg).0.calls == s.calls + block
    ensures Attempts(s, p, attempt, fallback, w, cfg).0.turnedAway == s.turnedAway
    ensures block[|block| - 1].answer == Attempts(s, p, attempt, fallback, w, cfg).1
    ensures block[|block| - 1].attempt == Attempts(s, p, attempt, fallback, w, cfg).2
    decreases RetriesOf(cfg, p) + 1 - attempt
  {
    var (s1, answer) := CallOnce(s, p, attempt, fallback, w, cfg);
    block := [Call(p, attempt, fallback, answer)];
    if !(answer.Video? || !IsRetryable(answer.error) || attempt == RetriesOf(cfg, p) + 1) {
      var rest := AttemptsBlock(s1, p, attempt + 1, fallback, w, cfg);
      assert s.calls + (block + rest) == s.calls + block + rest;
      block := block + rest;
    }
  }

  lemma BlockExtends(cs: seq<Call>, block: seq<Call>, p: Provider, fallback: bool, cfg: Settings)
    requires Orderly(cs, cfg) && Block(block, p, 1, fallback, cfg)
    requires cs != [] ==> GaveUp(cs[|cs| - 1], cfg)
    requires fallback == (cs != []) && forall j | 0 <= j < |cs| :: cs[j].provider != p
    ensures Orderly(cs + block, cfg)
  {
    var all := cs + block;
    forall j: nat | j < |all| ensures Follows(all, j, cfg) {
      if j < |cs| {
        assert Follows(cs, j, cfg);
        assert all[..j] == cs[..j];
      } else {
        assert all[j] == block[j - |cs|];
        assert forall i | 0 <= i < j :: all[i].provider != p <==> i < |cs|;
        if cs != [] { assert all[..j][0] == cs[0]; }
      }
    }
  }

  lemma {:induction false} UnexhaustedSkipped(cs: seq<Call>, more: seq<Call>, cfg: Settings)
    requires forall i | 0 <= i < |more| :: !Exhausted(more[i], cfg)
    ensures LastExhausted(cs + more, cfg) == LastExhausted(cs, cfg)
    decreases |more|
  {
    if more == [] {
      assert cs + more == cs;
    } else {
      assert (cs + more)[..|cs + more| - 1] == cs + more[..|more| - 1];
      UnexhaustedSkipped(cs, more[..|more| - 1], cfg);
    }
  }

  // A finished block leaves the last exhausted error as the loop sets it.
  lemma BlockLast(cs: seq<Call>, block: seq<Call>, p: Provider, fallback: bool, cfg: Settings)
    requires Block(block, p, 1, fallback, cfg)
    ensures
      var c := block[|block| - 1];
      LastExhausted(cs + block, cfg)
      == if c.answer.Refused? && IsRetryable(c.answer.error) then Some(c.answer.error) else LastExhausted(cs, cfg)
  {
    var n := |block| - 1;
    assert (cs + block)[..|cs + block| - 1] == cs + block[..n];
    UnexhaustedSkipped(cs, block[..n], cfg);
  }

  function CallBudget(plan: seq<Provider>, cfg: Settings): nat
    decreases |plan|
  {
    if plan == [] then 0 else RetriesOf(cfg, plan[0]) + 1 + CallBudget(plan[1..], cfg)
  }

  // A call that can be the last of a plan.
  predicate LeavesOff(c: Call, cfg: Settings) {
    c.answer.Video? || GaveUp(c, cfg)
  }

  ghost predicate Settles(cs: seq<Call>, outcome: Outcome, rest: seq<Provider>, cfg: Settings) {
    && Orderly(cs, cfg)
    && (cs != [] ==> AllRefused(cs[..|cs| - 1]) && LeavesOff(cs[|cs| - 1], cfg))
    && outcome == Verdict(cs, rest, cfg)
  }

  // Dropping a refused first provider does not change the verdict on calls it is not part of.
  lemma VerdictOfRest(cs: seq<Call>, rest: seq<Provider>, cfg: Settings)
    requires rest != [] && (|rest| == 1 ==> forall j | 0 <= j < |cs| :: cs[j].provider != rest[0])
    requires cs == [] || AllRefused(cs) || cs[|cs| - 1].answer.Video? || |rest| > 1
    ensures Verdict(cs, rest[1..], cfg) == Verdict(cs, rest, cfg)
  {
    if |rest| > 1 { assert rest[1..][|rest| - 2] == rest[|rest| - 1]; }
  }

  // The same after its block: alone in the plan it was left for good, exhausted.
  lemma VerdictAfterBlock(cs: seq<Call>, answer: Answer, rest: seq<Provider>, cfg: Settings)
    requires rest != [] && answer.Refused? && (IsRetryable(answer.error) || |rest| > 1)
    requires |rest| == 1 ==> cs != [] && cs[|cs| - 1].answer == answer
    requires cs != [] ==> |rest| > 1 || cs[|cs| - 1].answer.Refused?
    ensures Verdict(cs, rest[1..], cfg) == Verdict(cs, rest, cfg)
  {
    if |rest| > 1 { assert rest[1..][|rest| - 2] == rest[|rest| - 1]; }
  }

  lemma UnderwayAfterBlock(cs: seq<Call>, block: seq<Call>, rest: seq<Provider>, fallback: bool,
                           last: Option<ProviderError>, cfg: Settings)
    requires rest != [] && Distinct(rest) && Underway(cs, rest, fallback, last, cfg)
    requires Block(block, rest[0], 1, fallback, cfg) && block[|block| - 1].answer.Refused?
    ensures
      var c := block[|block| - 1];
      Underway(cs + block, rest[1..], true, if IsRetryable(c.answer.error) then Some(c.answer.error) else last, cfg)
  {
    hide Orderly, LastExhausted, GaveUp, IsRetryable, RetriesOf;
    BlockExtends(cs, block, rest[0], fallback, cfg);
    BlockLast(cs, block, rest[0], fallback, cfg);
    var all := cs + block;
    assert all[|all| - 1] == block[|block| - 1];
    forall j | 0 <= j < |all| ensures all[j].provider !in rest[1..] && all[j].answer.Refused? {
      if j >= |cs| { assert all[j] == block[j - |cs|]; }
    }
  }

  // The provider that answers, or refuses for good at the end of the plan, settles it.
  lemma SettledByBlock(cs: seq<Call>, block: seq<Call>, rest: seq<Provider>, fallback: bool,
                       last: Option<ProviderError>, outcome: Outcome, cfg: Settings)
    requires rest != [] && Underway(cs, rest, fallback, last, cfg) && Block(block, rest[0], 1, fallback, cfg)
    requires
      var c := block[|block| - 1];
      if c.answer.Video? then outcome == Succeeded(c.provider, c.answer.response, c.attempt, c.fallback)
      else |rest| == 1 && !IsRetryable(c.answer.error) && outcome == Threw(c.answer.error)
    ensures Settles(cs + block, outcome, rest, cfg)
  {
    BlockExtends(cs, block, rest[0], fallback, cfg);
    var all := cs + block;
    assert all[|all| - 1] == block[|block| - 1];
    forall j | 0 <= j < |all| - 1 ensures all[j].answer.Refused? {
      if j >= |cs| { assert all[j] == block[j - |cs|]; }
    }
  }

  // From a loop that has made the calls `cs`: the further calls `more` settle the plan.
  lemma {:induction false} PlanFromHere(s: State, cs: seq<Call>, rest: seq<Provider>, fallback: bool,
                                        last: Option<ProviderError>, w: World, cfg: Settings)
    returns (more: seq<Call>)
    requires Distinct(rest) && Underway(cs, rest, fallback, last, cfg)
    ensures RunPlan(s, rest, fallback, last, w, cfg).0.calls == s.calls + more
    ensures |more| <= CallBudget(rest, cfg)
    ensures Settles(cs + more, RunPlan(s, rest, fallback, last, w, cfg).1, rest, cfg)
    decreases |rest|, 1
  {
    if rest == [] {
      more := [];
      assert cs + more == cs;
    } else {
      hide Settles, Verdict, Attempts, IsRetryable;
      var (s1, admitted) := CheckGate(s, rest[0], w, cfg);
      assert forall q :: q in rest[1..] ==> q in rest;
      if !admitted {
        more := PlanFromHere(s1, cs, rest[1..], fallback, last, w, cfg);
        if |rest| == 1 { assert cs + more == cs; }
        VerdictOfRest(cs + more, rest, cfg);
      } else {
        more := PlanTries(s, s1, cs, rest, fallback, last, w, cfg);
      }
    }
  }

  // The admitted case: one block of calls, then the verdict or the rest of the plan.
  lemma {:induction false} PlanTries(s: State, s1: State, cs: seq<Call>, rest: seq<Provider>, fallback: bool,
                                     last: Option<ProviderError>, w: World, cfg: Settings)
    returns (more: seq<Call>)
    requires rest != [] && CheckGate(s, rest[0], w, cfg) == (s1, true)
    requires Distinct(rest) && Underway(cs, rest, fallback, last, cfg)
    ensures RunPlan(s, rest, fallback, last, w, cfg).0.calls == s.calls + more
    ensures |more| <= CallBudget(rest, cfg)
    ensures Settles(cs + more, RunPlan(s, rest, fallback, last, w, cfg).1, rest, cfg)
    decreases |rest|, 0
  {
    var (s2, answer, attempt) := Attempts(s1, rest[0], 1, fallback, w, cfg);
    var block := AttemptsBlock(s1, rest[0], 1, fallback, w, cfg);
    assert |block| <= RetriesOf(cfg, rest[0]) + 1 by { assert block[|block| - 1].attempt == |block|; }
    if answer.Video? || (!IsRetryable(answer.error) && |rest| == 1) {
      more := block;
      SettledByBlock(cs, block, rest, fallback, last, RunPlan(s, rest, fallback, last, w, cfg).1, cfg);
    } else {
      var last' := if IsRetryable(answer.error) then Some(answer.error) else last;
      UnderwayAfterBlock(cs, block, rest, fallback, last, cfg);
      var tail := PlanFromHere(s2, cs + block, rest[1..], true, last', w, cfg);
      more := block + tail;
      GoesOn(s.calls, cs, block, tail, answer, rest, RunPlan(s2, rest[1..], true, last', w, cfg).1, cfg);
    }
  }

  lemma GoesOn(before: seq<Call>, cs: seq<Call>, block: seq<Call>, tail: seq<Call>, answer: Answer,
               rest: seq<Provider>, outcome: Outcome, cfg: Settings)
    requires rest != [] && block != [] && block[|block| - 1].answer == answer && answer.Refused?
    requires IsRetryable(answer.error) || |rest| > 1
    requires |rest| == 1 ==> tail == []
    requires Settles(cs + block + tail, outcome, rest[1..], cfg)
    ensures before + (block + tail) == before + block + tail
    ensures Settles(cs + (block + tail), outcome, rest, cfg)
  {
    assert before + (block + tail) == before + block + tail;
    assert cs + (block + tail) == cs + block + tail;
    VerdictAfterBlock(cs + (block + tail), answer, rest, cfg);
  }

  lemma {:induction false} LastExhaustedRetryable(cs: seq<Call>, cfg: Settings)
    ensures LastExhausted(cs, cfg).Some? ==> IsRetryable(LastExhausted(cs, cfg).value)
    decreases |cs|
  {
    if cs != [] { LastExhaustedRetryable(cs[..|cs| - 1], cfg); }
  }

  /** Reading of the verdict: success means the last call was answered, and fallback
      is reported exactly when another provider had been called before; a thrown
      error is non-retryable exactly when the last provider of the plan was the last
      one called and refused non-retryably. */
  lemma VerdictMeans(cs: seq<Call>, plan: seq<Provider>, cfg: Settings)
    requires plan != [] && Orderly(cs, cfg)
    ensures
      var o := Verdict(cs, plan, cfg);
      if o.Succeeded? then
        && cs != []
        && cs[|cs| - 1] == Call(o.provider, o.attempt, o.fallback, Video(o.response))
        && (o.fallback <==> exists i | 0 <= i < |cs| :: cs[i].provider != o.provider)
      else
        OutcomeRetryable(o) <==>
          !(cs != [] && cs[|cs| - 1].provider == plan[|plan| - 1] && !IsRetryable(cs[|cs| - 1].answer.error))
  {
    LastExhaustedRetryable(cs, cfg);
    if cs != [] {
      var n := |cs| - 1;
      assert Follows(cs, n, cfg);
      assert cs[..n] + [cs[n]] == cs;
      if OtherCalled(cs[..n], cs[n].provider) {
        var i :| 0 <= i < n && cs[..n][i].provider != cs[n].provider;
        assert cs[i].provider != cs[n].provider;
      }
    }
  }

  // ---------- The order of the plan ----------

  // Calls go through the plan from left to right.
  ghost predicate InPlanOrder(cs: seq<Call>, plan: seq<Provider>) {
    && (forall k | 0 <= k < |cs| :: cs[k].provider in plan)
    && (forall a, b | 0 <= a < b < |cs| :: FirstAt(plan, cs[a].provider) <= FirstAt(plan, cs[b].provider))
  }

  predicate CalledOn(cs: seq<Call>, p: Provider) {
    exists k | 0 <= k < |cs| :: cs[k].provider == p
  }

  // The loop came to the first `n` providers: it called no other, and each of them it
  // either called or was refused at its gate, never both.  Only Vast has a gate.
  ghost predicate CameTo(cs: seq<Call>, away: seq<Provider>, plan: seq<Provider>, n: nat) {
    && n <= |plan|
    && (forall k | 0 <= k < |cs| :: cs[k].provider in plan[..n])
    && (forall p | p in away :: p.Vast? && p in plan[..n])
    && (forall p | p in plan[..n] :: CalledOn(cs, p) != (p in away))
  }

  lemma NothingCalled(plan: seq<Provider>)
    ensures InPlanOrder([], plan) && CameTo([], [], plan, 0)
  {
  }

  lemma FirstAtInTail(plan: seq<Provider>, p: Provider)
    requires plan != [] && Distinct(plan) && p in plan[1..]
    ensures p in plan && p != plan[0] && FirstAt(plan, p) == FirstAt(plan[1..], p) + 1
  {
    assert plan == [plan[0]] + plan[1..];
  }

  lemma OrderInTail(cs: seq<Call>, plan: seq<Provider>)
    requires plan != [] && Distinct(plan) && InPlanOrder(cs, plan[1..])
    ensures InPlanOrder(cs, plan)
  {
    forall k | 0 <= k < |cs|
      ensures cs[k].provider in plan
      ensures FirstAt(plan, cs[k].provider) == FirstAt(plan[1..], cs[k].provider) + 1
    {
      FirstAtInTail(plan, cs[k].provider);
    }
  }

  // A block of calls of the first provider, and then a walk of the rest.
  lemma OrderAfterBlock(block: seq<Call>, cs: seq<Call>, plan: seq<Provider>)
    requires plan != [] && Distinct(plan) && InPlanOrder(cs, plan[1..])
    requires forall k | 0 <= k < |block| :: block[k].provider == plan[0]
    ensures InPlanOrder(block + cs, plan)
  {
    var all := block + cs;
    OrderInTail(cs, plan);
    forall k | 0 <= k < |all| ensures all[k].provider in plan {
      assert k >= |block| ==> all[k] == cs[k - |block|];
    }
    forall a, b | 0 <= a < b < |all|
      ensures FirstAt(plan, all[a].provider) <= FirstAt(plan, all[b].provider)
    {
      if a >= |block| {
        assert all[a] == cs[a - |block|] && all[b] == cs[b - |block|];
      }
    }
  }

  lemma CameAfterBlock(block: seq<Call>, cs: seq<Call>, away: seq<Provider>, plan: seq<Provider>, n: nat)
    requires plan != [] && Distinct(plan) && CameTo(cs, away, plan[1..], n)
    requires block != [] && forall k | 0 <= k < |block| :: block[k].provider == plan[0]
    ensures CameTo(block + cs, away, plan, n + 1)
  {
    var all, rest := block + cs, plan[1..];
    assert plan[..n + 1] == [plan[0]] + rest[..n];
    assert forall q | q in rest[..n] :: q in rest;
    assert plan[0] !in rest;
    assert all[0].provider == plan[0];
    forall k | 0 <= k < |all| ensures all[k].provider in plan[..n + 1] {
      assert k >= |block| ==> all[k] == cs[k - |block|];
    }
    forall p | p in rest[..n] ensures CalledOn(all, p) <==> CalledOn(cs, p) {
      assert forall k | 0 <= k < |cs| :: all[|block| + k] == cs[k];
      assert forall k | |block| <= k < |all| :: all[k] == cs[k - |block|];
    }
  }

  lemma CameAfterRefusal(cs: seq<Call>, away: seq<Provider>, plan: seq<Provider>, n: nat)
    requires plan != [] && plan[0].Vast? && Distinct(plan) && CameTo(cs, away, plan[1..], n)
    ensures CameTo(cs, [plan[0]] + away, plan, n + 1)
  {
    var rest := plan[1..];
    assert plan[..n + 1] == [plan[0]] + rest[..n];
    assert forall q | q in rest[..n] :: q in rest;
    assert plan[0] !in rest;
  }

  // A loop over `plan` from `s` ended as `r`, having come to its first `n` providers.
  ghost predicate Walked(
    s: State, r: (State, Outcome), cs: seq<Call>, away: seq<Provider>, plan: seq<Provider>, n: nat)
  {
    && r.0.calls == s.calls + cs && r.0.turnedAway == s.turnedAway + away
    && InPlanOrder(cs, plan) && CameTo(cs, away, plan, n)
    && (if r.1.Succeeded? then n > 0 && r.1.provider == plan[n - 1] else n == |plan|)
  }

  lemma WalkedCalls(s: State, r: (State, Outcome), cs: seq<Call>, away: seq<Provider>, plan: seq<Provider>, n: nat)
    requires Walked(s, r, cs, away, plan, n)
    ensures r.0.calls == s.calls + cs
  {
  }

  lemma NothingYet(plan: seq<Provider>, cfg: Settings)
    ensures Underway([], plan, false, None, cfg)
  {
  }

  lemma SameTail(front: seq<Call>, a: seq<Call>, b: seq<Call>)
    requires front + a == front + b
    ensures a == b
  {
    assert (front + a)[|front|..] == a && (front + b)[|front|..] == b;
  }

  lemma SettlesMeans(cs: seq<Call>, outcome: Outcome, plan: seq<Provider>, cfg: Settings)
    requires Settles(cs, outcome, plan, cfg)
    ensures Orderly(cs, cfg) && outcome == Verdict(cs, plan, cfg)
    ensures cs != [] ==> AllRefused(cs[..|cs| - 1]) && LeavesOff(cs[|cs| - 1], cfg)
  {
  }

  lemma WalkedPastRefusal(s: State, s1: State, r: (State, Outcome), cs: seq<Call>, away: seq<Provider>,
                          plan: seq<Provider>, n: nat)
    requires plan != [] && plan[0].Vast? && Distinct(plan) && Walked(s1, r, cs, away, plan[1..], n)
    requires s1.calls == s.calls && s1.turnedAway == s.turnedAway + [plan[0]]
    ensures Walked(s, r, cs, [plan[0]] + away, plan, n + 1)
  {
    OrderInTail(cs, plan);
    CameAfterRefusal(cs, away, plan, n);
    assert s.turnedAway + [plan[0]] + away == s.turnedAway + ([plan[0]] + away);
    hide InPlanOrder, CameTo, Distinct;
  }

  lemma WalkedPastBlock(s: State, s2: State, r: (State, Outcome), block: seq<Call>, cs: seq<Call>, away: seq<Provider>,
                        plan: seq<Provider>, n: nat)
    requires plan != [] && Distinct(plan) && Walked(s2, r, cs, away, plan[1..], n)
    requires s2.calls == s.calls + block && s2.turnedAway == s.turnedAway
    requires block != [] && forall k | 0 <= k < |block| :: block[k].provider == plan[0]
    ensures Walked(s, r, block + cs, away, plan, n + 1)
  {
    OrderAfterBlock(block, cs, plan);
    CameAfterBlock(block, cs, away, plan, n);
    assert s.calls + block + cs == s.calls + (block + cs);
    hide InPlanOrder, CameTo, Distinct;
  }

  // The loop ends with the block of the first provider.
  lemma WalkedToBlock(s: State, r: (State, Outcome), block: seq<Call>, plan: seq<Provider>)
    requires plan != [] && Distinct(plan)
    requires r.0.calls == s.calls + block && r.0.turnedAway == s.turnedAway
    requires block != [] && forall k | 0 <= k < |block| :: block[k].provider == plan[0]
    requires if r.1.Succeeded? then r.1.provider == plan[0] else |plan| == 1
    ensures Walked(s, r, block, [], plan, 1)
  {
    NothingCalled(plan[1..]);
    OrderAfterBlock(block, [], plan);
    CameAfterBlock(block, [], [], plan, 0);
    assert block + [] == block && s.turnedAway + [] == s.turnedAway;
  }

  /** The loop goes through the plan from left to right and passes nobody over.  With
      `n` the number of providers it came to: all calls are of those, in plan order, and
      each of them was either called or refused at its gate.  It comes to all of them
      unless one answers, and then that one is the last it came to. */
  lemma {:induction false} PlanInOrder(s: State, plan: seq<Provider>, fallback: bool,
                                       last: Option<ProviderError>, w: World, cfg: Settings)
    returns (cs: seq<Call>, away: seq<Provider>, n: nat)
    requires Distinct(plan)
    ensures Walked(s, RunPlan(s, plan, fallback, last, w, cfg), cs, away, plan, n)
    decreases |plan|
  {
    if plan == [] {
      NothingCalled(plan);
      return [], [], 0;
    }
    hide Walked, Attempts, Block, IsRetryable;
    ghost var (s1, admitted) := CheckGate(s, plan[0], w, cfg);
    if !admitted {
      cs, away, n := PlanInOrder(s1, plan[1..], fallback, last, w, cfg);
      WalkedPastRefusal(s, s1, RunPlan(s1, plan[1..], fallback, last, w, cfg), cs, away, plan, n);
      return cs, [plan[0]] + away, n + 1;
    }
    ghost var (s2, answer, attempt) := Attempts(s1, plan[0], 1, fallback, w, cfg);
    var block := AttemptsBlock(s1, plan[0], 1, fallback, w, cfg);
    BlockOfOne(block, plan[0], fallback, cfg);
    if answer.Refused? && (IsRetryable(answer.error) || |plan| > 1) {
      var last' := if IsRetryable(answer.error) then Some(answer.error) else last;
      cs, away, n := PlanInOrder(s2, plan[1..], true, last', w, cfg);
      WalkedPastBlock(s, s2, RunPlan(s2, plan[1..], true, last', w, cfg), block, cs, away, plan, n);
      return block + cs, away, n + 1;
    }
    WalkedToBlock(s, RunPlan(s, plan, fallback, last, w, cfg), block, plan);
    return block, [], 1;
  }

  lemma BlockOfOne(block: seq<Call>, p: Provider, fallback: bool, cfg: Settings)
    requires Block(block, p, 1, fallback, cfg)
    ensures block != [] && forall k | 0 <= k < |block| :: block[k].provider == p
  {
  }

  /** What one execution of a plan with distinct providers does: it makes a bounded
      number of calls, each the first of a provider it came to or the retry of the
      call before, in plan order and to providers of the plan; only the last may be
      answered; every provider ahead of the last one it came to was called or refused at
      its gate; and the outcome is the verdict the calls spell out. */
  lemma PlanSettles(s: State, plan: seq<Provider>, w: World, cfg: Settings)
    returns (cs: seq<Call>, away: seq<Provider>, n: nat)
    requires Distinct(plan)
    ensures RunPlan(s, plan, false, None, w, cfg).0.calls == s.calls + cs
    ensures |cs| <= CallBudget(plan, cfg)
    ensures Orderly(cs, cfg) && (cs != [] ==> AllRefused(cs[..|cs| - 1]) && LeavesOff(cs[|cs| - 1], cfg))
    ensures RunPlan(s, plan, false, None, w, cfg).1 == Verdict(cs, plan, cfg)
    ensures Walked(s, RunPlan(s, plan, false, None, w, cfg), cs, away, plan, n)
  {
    hide *;
    NothingYet(plan, cfg);
    var more := PlanFromHere(s, [], plan, false, None, w, cfg);
    cs, away, n := PlanInOrder(s, plan, false, None, w, cfg);
    var r := RunPlan(s, plan, false, None, w, cfg);
    WalkedCalls(s, r, cs, away, plan, n);
    SameTail(s.calls, cs, more);
    assert [] + cs == cs;
    SettlesMeans(cs, r.1, plan, cfg);
  }

  predicate ModalCalled(cs: seq<Call>) {
    exists c | c in cs :: c.provider.Modal?
  }

  lemma ModalCalledInParts(block: seq<Call>, tail: seq<Call>, p: Provider)
    requires block != [] && forall k | 0 <= k < |block| :: block[k].provider == p
    ensures p.Modal? || ModalCalled(tail) ==> ModalCalled(block + tail)
  {
    assert block[0] in block + tail;
    assert forall c | c in tail :: c in block + tail;
  }

  /** No provider is passed over: a run that gives up has called every Modal of the
      plan, and a run that made no call met only refused Vast gates. */
  lemma {:induction false} ModalNeverSkipped(s: State, plan: seq<Provider>, fallback: bool,
                                             last: Option<ProviderError>, w: World, cfg: Settings)
    returns (more: seq<Call>)
    requires !RunPlan(s, plan, fallback, last, w, cfg).1.Succeeded?
    ensures RunPlan(s, plan, fallback, last, w, cfg).0.calls == s.calls + more
    ensures Modal in plan ==> ModalCalled(more)
    decreases |plan|
  {
    if plan == [] { return []; }
    hide CheckGate, Attempts, IsRetryable, Block, ModalCalled;
    GateMeans(s, plan[0], w, cfg);
    var (s1, admitted) := CheckGate(s, plan[0], w, cfg);
    if !admitted {
      more := ModalNeverSkipped(s1, plan[1..], fallback, last, w, cfg);
    } else {
      var (s2, answer, attempt) := Attempts(s1, plan[0], 1, fallback, w, cfg);
      var block := AttemptsBlock(s1, plan[0], 1, fallback, w, cfg);
      BlockOfOne(block, plan[0], fallback, cfg);
      var tail := [];
      if IsRetryable(answer.error) || |plan| > 1 {
        tail := ModalNeverSkipped(s2, plan[1..], true,
                                  if IsRetryable(answer.error) then Some(answer.error) else last, w, cfg);
      }
      more := block + tail;
      assert s.calls + block + tail == s.calls + more;
      ModalCalledInParts(block, tail, plan[0]);
    }
  }

  /** The breaker stays sound through every plan. */
  lemma {:induction false} AttemptsKeepBreaker(
    s: State, p: Provider, attempt: nat, fallback: bool, w: World, cfg: Settings)
    requires 1 <= attempt <= RetriesOf(cfg, p) + 1 && Usable(cfg.breaker) && Sound(s.breaker, cfg.breaker)
    ensures Sound(Attempts(s, p, attempt, fallback, w, cfg).0.breaker, cfg.breaker)
    ensures p.Modal? ==> Attempts(s, p, attempt, fallback, w, cfg).0.breaker == s.breaker
    decreases RetriesOf(cfg, p) + 1 - attempt
  {
    var (s', answer) := CallOnce(s, p, attempt, fallback, w, cfg);
    if !(answer.Video? || !IsRetryable(answer.error) || attempt == RetriesOf(cfg, p) + 1) {
      AttemptsKeepBreaker(s', p, attempt + 1, fallback, w, cfg);
    }
  }

  lemma {:induction false} PlanKeepsBreaker(s: State, plan: seq<Provider>, fallback: bool,
                                            last: Option<ProviderError>, w: World, cfg: Settings)
    requires Usable(cfg.breaker) && Sound(s.breaker, cfg.breaker)
    ensures Sound(RunPlan(s, plan, fallback, last, w, cfg).0.breaker, cfg.breaker)
    ensures Vast !in plan ==> RunPlan(s, plan, fallback, last, w, cfg).0.breaker == s.breaker
    decreases |plan|
  {
    if plan != [] {
      var (s1, admitted) := CheckGate(s, plan[0], w, cfg);
      if !admitted {
        PlanKeepsBreaker(s1, plan[1..], fallback, last, w, cfg);
      } else {
        AttemptsKeepBreaker(s1, plan[0], 1, fallback, w, cfg);
        var (s2, answer, _) := Attempts(s1, plan[0], 1, fallback, w, cfg);
        if answer.Refused? {
          PlanKeepsBreaker(s2, plan[1..], true,
                           if IsRetryable(answer.error) then Some(answer.error) else last, w, cfg);
        }
      }
    }
  }

  // ---------- When a provider is called again ----------

  // An error that says so itself, or by its status: none, a timeout, too early, too many
  // requests, or the server's fault.
  predicate SaysRetry(e: ProviderError) {
    match e.retryable
    case Some(retryable) => retryable
    case None => e.statusCode.None? || e.statusCode.value in {408, 425, 429} || e.statusCode.value >= 500
  }

  predicate CalledAgain(cs: seq<Call>, j: nat) {
    j + 1 < |cs| && cs[j + 1].provider == cs[j].provider
  }

  predicate DueAgain(c: Call, cfg: Settings) {
    && c.answer.Refused? && SaysRetry(c.answer.error)
    && c.attempt <= if c.provider.Vast? then cfg.vastRetries else cfg.modalRetries
  }

  /** Along the calls of any plan, a call is followed by another to the same provider exactly
      when it was refused with an error that invites a retry and the provider has retries left. */
  lemma RetriedIff(s: State, plan: seq<Provider>, w: World, cfg: Settings)
    returns (cs: seq<Call>)
    requires Distinct(plan)
    ensures RunPlan(s, plan, false, None, w, cfg).0.calls == s.calls + cs
    ensures forall j: nat | j < |cs| :: CalledAgain(cs, j) <==> DueAgain(cs[j], cfg)
  {
    var away, n;
    cs, away, n := PlanSettles(s, plan, w, cfg);
    hide RunPlan, Verdict, Walked;
    forall j: nat | j < |cs| ensures CalledAgain(cs, j) <==> DueAgain(cs[j], cfg) {
      assert Follows(cs, j, cfg);
      if j + 1 < |cs| { assert Follows(cs, j + 1, cfg); }
    }
  }

  // ---------- What a plan tells the breaker ----------

  // What the breaker makes of a call to Vast.
  datatype Mark = Answered | Counted | Ignored

  // Errors that are the caller's own fault do not count against Vast: those named so, and
  // without a name the statuses from 400 to 499 but for 408, 425 and 429, unless the message
  // is about memory.
  predicate CountsAgainst(e: ProviderError) {
    match e.errorType
    case Some(errorType) => errorType !in {PERMANENT_INPUT, PERMANENT_CONFIG}
    case None =>
      e.saysOutOfMemory || e.statusCode.None? || e.statusCode.value < 400 || e.statusCode.value >= 500
      || e.statusCode.value in {408, 425, 429}
  }

  function MarkOf(c: Call): Mark {
    if c.answer.Video? then Answered else if CountsAgainst(c.answer.error) then Counted else Ignored
  }

  function VastMarks(cs: seq<Call>): seq<Mark>
    decreases |cs|
  {
    if cs == [] then []
    else VastMarks(cs[..|cs| - 1]) + if cs[|cs| - 1].provider.Vast? then [MarkOf(cs[|cs| - 1])] else []
  }

  function EventMarks(es: seq<Event>): seq<Mark>
    decreases |es|
  {
    if es == [] then []
    else
      EventMarks(es[..|es| - 1])
      + match es[|es| - 1]
        case Checked(_, _, _) => []
        case Success(_) => [Answered]
        case Failure(_, errorType) => [if errorType !in {PERMANENT_INPUT, PERMANENT_CONFIG} then Counted else Ignored]
  }

  lemma {:induction false} VastMarksConcat(a: seq<Call>, b: seq<Call>)
    ensures VastMarks(a + b) == VastMarks(a) + VastMarks(b)
    decreases |b|
  {
    if b == [] {
      assert a + b == a;
    } else {
      assert (a + b)[..|a + b| - 1] == a + b[..|b| - 1];
      VastMarksConcat(a, b[..|b| - 1]);
    }
  }

  lemma {:induction false} EventMarksConcat(a: seq<Event>, b: seq<Event>)
    ensures EventMarks(a + b) == EventMarks(a) + EventMarks(b)
    decreases |b|
  {
    if b == [] {
      assert a + b == a;
    } else {
      assert (a + b)[..|a + b| - 1] == a + b[..|b| - 1];
      EventMarksConcat(a, b[..|b| - 1]);
    }
  }

  lemma {:induction false} AfterConcat(b: Breaker, es: seq<Event>, more: seq<Event>, c: Config)
    ensures After(b, es + more, c) == After(After(b, es, c), more, c)
    decreases |more|
  {
    if more == [] {
      assert es + more == es;
    } else {
      assert (es + more)[..|es + more| - 1] == es + more[..|more| - 1];
      AfterConcat(b, es, more[..|more| - 1], c);
      hide Step;
    }
  }

  ghost predicate NoChecks(es: seq<Event>) {
    forall i | 0 <= i < |es| :: !es[i].Checked?
  }

  // The breaker goes through `es`, which are the outcomes of the calls `cs` and no gate checks.
  ghost predicate Told(b: Breaker, b': Breaker, es: seq<Event>, cs: seq<Call>, c: Config) {
    b' == After(b, es, c) && EventMarks(es) == VastMarks(cs)
  }

  lemma ToldOne(s: State, p: Provider, attempt: nat, fallback: bool, w: World, cfg: Settings) returns (es: seq<Event>)
    ensures
      var r := CallOnce(s, p, attempt, fallback, w, cfg);
      Told(s.breaker, r.0.breaker, es, [Call(p, attempt, fallback, r.1)], cfg.breaker)
    ensures NoChecks(es) && (p.Modal? ==> es == [])
  {
    var answer, now := w.answer(s.tick), w.clock(s.tick);
    var call := Call(p, attempt, fallback, answer);
    assert [call][..0] == [] && VastMarks([]) == [];
    if p.Modal? { return []; }
    es := [if answer.Video? then Success(now) else Failure(now, InferErrorType(answer.error))];
    assert es[..0] == [] && After(s.breaker, [], cfg.breaker) == s.breaker && EventMarks([]) == [];
    assert After(s.breaker, es, cfg.breaker) == Step(s.breaker, es[0], cfg.breaker);
  }

  lemma ToldThen(b: Breaker, b': Breaker, b'': Breaker, es: seq<Event>, more: seq<Event>,
                 cs: seq<Call>, tail: seq<Call>, c: Config)
    requires Told(b, b', es, cs, c) && Told(b', b'', more, tail, c)
    ensures Told(b, b'', es + more, cs + tail, c)
    ensures NoChecks(es) && NoChecks(more) ==> NoChecks(es + more)
  {
    AfterConcat(b, es, more, c);
    VastMarksConcat(cs, tail);
    EventMarksConcat(es, more);
  }

  lemma {:induction false} AttemptsTold(s: State, p: Provider, attempt: nat, fallback: bool, w: World, cfg: Settings)
    returns (es: seq<Event>, block: seq<Call>)
    requires 1 <= attempt <= RetriesOf(cfg, p) + 1
    ensures Attempts(s, p, attempt, fallback, w, cfg).0.calls == s.calls + block
    ensures Told(s.breaker, Attempts(s, p, attempt, fallback, w, cfg).0.breaker, es, block, cfg.breaker)
    ensures Attempts(s, p, attempt, fallback, w, cfg).0.turnedAway == s.turnedAway
    ensures NoChecks(es) && (p.Modal? ==> es == [])
    decreases RetriesOf(cfg, p) + 1 - attempt
  {
    hide Told, NoChecks;
    var (s1, answer) := CallOnce(s, p, attempt, fallback, w, cfg);
    block := [Call(p, attempt, fallback, answer)];
    es := ToldOne(s, p, attempt, fallback, w, cfg);
    if !(answer.Video? || !IsRetryable(answer.error) || attempt == RetriesOf(cfg, p) + 1) {
      var more, rest := AttemptsTold(s1, p, attempt + 1, fallback, w, cfg);
      ToldThen(s.breaker, s1.breaker, Attempts(s1, p, attempt + 1, fallback, w, cfg).0.breaker,
               es, more, block, rest, cfg.breaker);
      assert s.calls + (block + rest) == s.calls + block + rest;
      block, es := block + rest, es + more;
    }
  }

  // The history `es` and the calls `cs` take the breaker `b` to where the plan ends.
  ghost predicate FedBy(b: Breaker, r: State, away: seq<Provider>, es: seq<Event>, cs: seq<Call>, c: Config) {
    && Told(b, r.breaker, es, cs, c)
    && (es != [] ==> es[0].Checked? && NoChecks(es[1..]))
    && r.turnedAway ==
         away + (if es != [] && !Admits(b, es[0].now, es[0].enabled, es[0].healthy) then [Vast] else [])
    && (es != [] && !Admits(b, es[0].now, es[0].enabled, es[0].healthy) ==> |es| == 1 && VastMarks(cs) == [])
  }

  lemma DistinctTail(plan: seq<Provider>)
    requires Distinct(plan) && plan != []
    ensures Distinct(plan[1..]) && plan[0] !in plan[1..]
  {
  }

  lemma FedNothing(b: Breaker, s: State, c: Config)
    requires b == s.breaker
    ensures FedBy(b, s, s.turnedAway, [], [], c)
  {
    assert s.turnedAway + [] == s.turnedAway;
  }

  function CheckEvent(s: State, w: World): Event {
    Checked(w.clock(s.tick), w.enabled(s.tick), w.healthy(s.tick))
  }

  lemma GateMeans(s: State, p: Provider, w: World, cfg: Settings)
    ensures CheckGate(s, p, w, cfg).0.calls == s.calls
    ensures p.Modal? ==> CheckGate(s, p, w, cfg).1
    ensures CheckGate(s, p, w, cfg).1 ==> CheckGate(s, p, w, cfg).0.turnedAway == s.turnedAway
  {
  }

  lemma FedPastGate(s: State, p: Provider, w: World, cfg: Settings, r: State, cs: seq<Call>)
    requires !CheckGate(s, p, w, cfg).1
    requires
      var s1 := CheckGate(s, p, w, cfg).0;
      FedBy(s1.breaker, r, s1.turnedAway, [], cs, cfg.breaker)
    ensures FedBy(s.breaker, r, s.turnedAway, [CheckEvent(s, w)], cs, cfg.breaker)
  {
    var e, b := CheckEvent(s, w), s.breaker;
    assert [e][..0] == [] && After(b, [], cfg.breaker) == b && EventMarks([]) == [];
    assert After(b, [e], cfg.breaker) == Step(b, e, cfg.breaker);
    assert [e][1..] == [];
  }

  lemma FedByCalls(s: State, p: Provider, w: World, cfg: Settings, s2: State, told: seq<Event>, block: seq<Call>,
                   r: State, more: seq<Event>, tail: seq<Call>)
    returns (es: seq<Event>)
    requires CheckGate(s, p, w, cfg).1 && s2.turnedAway == s.turnedAway
    requires Told(CheckGate(s, p, w, cfg).0.breaker, s2.breaker, told, block, cfg.breaker) && NoChecks(told)
    requires if p.Modal? then told == [] else more == []
    requires FedBy(s2.breaker, r, s2.turnedAway, more, tail, cfg.breaker)
    ensures FedBy(s.breaker, r, s.turnedAway, es, block + tail, cfg.breaker)
    ensures if p.Modal? then es == more else es == [CheckEvent(s, w)] + told
  {
    VastMarksConcat(block, tail);
    if p.Modal? { return more; }
    var e, b := CheckEvent(s, w), s.breaker;
    es := [e] + told;
    assert [e][..0] == [] && After(b, [], cfg.breaker) == b && EventMarks([]) == [];
    assert After(b, [e], cfg.breaker) == Step(b, e, cfg.breaker) == b;
    AfterConcat(b, [e], told, cfg.breaker);
    EventMarksConcat([e], told);
    assert es[1..] == told;
    hide Step, After, EventMarks, VastMarks;
  }

  /** What a plan does to the breaker is a history of it: at most one gate check, made when
      the loop comes to Vast, and if that lets Vast through, the outcomes of its calls. */
  lemma {:induction false} PlanFeedsBreaker(s: State, plan: seq<Provider>, fallback: bool,
                                            last: Option<ProviderError>, w: World, cfg: Settings)
    returns (es: seq<Event>, cs: seq<Call>)
    requires Distinct(plan)
    ensures RunPlan(s, plan, fallback, last, w, cfg).0.calls == s.calls + cs
    ensures FedBy(s.breaker, RunPlan(s, plan, fallback, last, w, cfg).0, s.turnedAway, es, cs, cfg.breaker)
    ensures Vast !in plan ==> es == []
    ensures plan != [] && plan[0].Vast? ==> es != []
    decreases |plan|, 1
  {
    if plan == [] {
      FedNothing(s.breaker, s, cfg.breaker);
      return [], [];
    }
    hide FedBy, Told, NoChecks, Distinct, Attempts, IsRetryable, CheckGate;
    DistinctTail(plan);
    GateMeans(s, plan[0], w, cfg);
    ghost var (s1, admitted) := CheckGate(s, plan[0], w, cfg);
    if !admitted {
      es, cs := PlanFeedsBreaker(s1, plan[1..], fallback, last, w, cfg);
      FedPastGate(s, plan[0], w, cfg, RunPlan(s1, plan[1..], fallback, last, w, cfg).0, cs);
      es := [CheckEvent(s, w)];
      return;
    }
    es, cs := FedTries(s, s1, plan, fallback, last, w, cfg);
  }

  // The admitted case: the outcomes of one provider, and what the rest of the plan adds.
  lemma {:induction false} FedTries(s: State, s1: State, plan: seq<Provider>, fallback: bool,
                                    last: Option<ProviderError>, w: World, cfg: Settings)
    returns (es: seq<Event>, cs: seq<Call>)
    requires plan != [] && Distinct(plan) && CheckGate(s, plan[0], w, cfg) == (s1, true)
    ensures RunPlan(s, plan, fallback, last, w, cfg).0.calls == s.calls + cs
    ensures FedBy(s.breaker, RunPlan(s, plan, fallback, last, w, cfg).0, s.turnedAway, es, cs, cfg.breaker)
    ensures Vast !in plan ==> es == []
    ensures plan[0].Vast? ==> es != []
    decreases |plan|, 0
  {
    hide FedBy, Told, NoChecks, Distinct, Attempts, IsRetryable, CheckGate;
    DistinctTail(plan);
    GateMeans(s, plan[0], w, cfg);
    ghost var (s2, answer, attempt) := Attempts(s1, plan[0], 1, fallback, w, cfg);
    var told, block := AttemptsTold(s1, plan[0], 1, fallback, w, cfg);
    if answer.Refused? && (IsRetryable(answer.error) || |plan| > 1) {
      var last' := if IsRetryable(answer.error) then Some(answer.error) else last;
      var more, tail := PlanFeedsBreaker(s2, plan[1..], true, last', w, cfg);
      es := FedByCalls(s, plan[0], w, cfg, s2, told, block, RunPlan(s2, plan[1..], true, last', w, cfg).0, more, tail);
      assert s.calls + (block + tail) == s.calls + block + tail;
      cs := block + tail;
    } else {
      FedNothing(s2.breaker, s2, cfg.breaker);
      es := FedByCalls(s, plan[0], w, cfg, s2, told, block, s2, [], []);
      assert block + [] == block;
      cs := block;
    }
  }

  // ---------- The worker object ----------

  class VideoWorker {
    var vastBreakerOpenedUntilMs: int
    var vastFailureTimestampsMs: seq<int>
    var vastConsecutiveFailures: int
    var vastHalfOpenSuccessCount: int
    var calls: seq<Call>
    var turnedAway: seq<Provider>
    var tick: nat
    const world: World
    const settings: Settings

    constructor (world: World, settings: Settings)
      ensures Snapshot() == State(FRESH, 0, [], []) && this.world == world && this.settings == settings
    {
      this.world, this.settings := world, settings;
      vastBreakerOpenedUntilMs, vastFailureTimestampsMs := 0, [];
      vastConsecutiveFailures, vastHalfOpenSuccessCount := 0, 0;
      calls, turnedAway, tick := [], [], 0;
    }

    function BreakerNow(): Breaker
      reads this
    {
      Breaker(vastBreakerOpenedUntilMs, vastConsecutiveFailures, vastHalfOpenSuccessCount, vastFailureTimestampsMs)
    }

    function Snapshot(): State
      reads this
    {
      State(BreakerNow(), tick, calls, turnedAway)
    }

    method OpenVastBreaker(now: int)
      modifies `vastBreakerOpenedUntilMs, `vastConsecutiveFailures, `vastHalfOpenSuccessCount
      ensures BreakerNow() == Open(old(BreakerNow()), now, settings.breaker)
    {
      vastBreakerOpenedUntilMs := now + settings.breaker.cooldownMs;
      vastConsecutiveFailures := 0;
      vastHalfOpenSuccessCount := 0;
    }

    method ResetVastBreaker()
      modifies `vastBreakerOpenedUntilMs, `vastConsecutiveFailures, `vastHalfOpenSuccessCount, `vastFailureTimestampsMs
      ensures BreakerNow() == FRESH
    {
      vastBreakerOpenedUntilMs := 0;
      vastConsecutiveFailures := 0;
      vastHalfOpenSuccessCount := 0;
      vastFailureTimestampsMs := [];
    }

    method RecordVastSuccess(now: int)
      modifies `vastBreakerOpenedUntilMs, `vastConsecutiveFailures, `vastHalfOpenSuccessCount, `vastFailureTimestampsMs
      ensures BreakerNow() == RecordSuccess(old(BreakerNow()), now, settings.breaker)
    {
      if vastBreakerOpenedUntilMs > 0 && now >= vastBreakerOpenedUntilMs {
        vastHalfOpenSuccessCount := vastHalfOpenSuccessCount + 1;
        if vastHalfOpenSuccessCount >= settings.breaker.required {
          ResetVastBreaker();
        }
        return;
      }
      vastConsecutiveFailures := 0;
    }

    method RecordVastFailure(error: ProviderError, now: int)
      modifies `vastBreakerOpenedUntilMs, `vastConsecutiveFailures, `vastHalfOpenSuccessCount, `vastFailureTimestampsMs
      ensures BreakerNow() == RecordFailure(old(BreakerNow()), now, InferErrorType(error), settings.breaker)
    {
      if !IsTransient(InferErrorType(error)) {
        return;
      }
      vastFailureTimestampsMs := Recent(vastFailureTimestampsMs, now, settings.breaker.windowMs);
      vastFailureTimestampsMs := vastFailureTimestampsMs + [now];
      vastConsecutiveFailures := vastConsecutiveFailures + 1;
      if vastConsecutiveFailures >= settings.breaker.threshold {
        OpenVastBreaker(now);
      }
    }

    method ShouldUseVastProvider() returns (use: bool)
      modifies this
      ensures (Snapshot(), use) == CheckGate(old(Snapshot()), Vast, world, settings)
    {
      var t := tick;
      tick := tick + 1;
      if !world.enabled(t) {
        turnedAway := turnedAway + [Vast];
        return false;
      }
      var now := world.clock(t);
      if now < vastBreakerOpenedUntilMs {
        turnedAway := turnedAway + [Vast];
        return false;
      }
      if !world.healthy(t) {
        OpenVastBreaker(now);
        turnedAway := turnedAway + [Vast];
        return false;
      }
      return true;
    }

    // One call with the bookkeeping around it; the clock is read when the answer is in.
    method CallProvider(provider: Provider, attempt: nat, fallback: bool) returns (answer: Answer)
      modifies this
      ensures (Snapshot(), answer) == CallOnce(old(Snapshot()), provider, attempt, fallback, world, settings)
    {
      answer := world.answer(tick);
      var now := world.clock(tick);
      tick := tick + 1;
      calls := calls + [Call(provider, attempt, fallback, answer)];
      if provider.Vast? {
        match answer {
          case Video(_) => RecordVastSuccess(now);
          case Refused(error) => RecordVastFailure(error, now);
        }
      }
    }

    // The inner loop: up to maxRetries + 1 calls of one provider.
    method TryProvider(provider: Provider, fallback: bool) returns (answer: Answer, attempt: nat)
      modifies this
      ensures (Snapshot(), answer, attempt) == Attempts(old(Snapshot()), provider, 1, fallback, world, settings)
    {
      var maxRetries := RetriesOf(settings, provider);
      ghost var ends := Attempts(Snapshot(), provider, 1, fallback, world, settings);
      attempt := 1;
      answer := CallProvider(provider, attempt, fallback);
      while answer.Refused? && IsRetryable(answer.error) && attempt < maxRetries + 1
        invariant 1 <= attempt <= maxRetries + 1
        invariant ends ==
          if answer.Video? || !IsRetryable(answer.error) || attempt == maxRetries + 1 then (Snapshot(), answer, attempt)
          else Attempts(Snapshot(), provider, attempt + 1, fallback, world, settings)
        decreases maxRetries - attempt
      {
        attempt := attempt + 1;
        answer := CallProvider(provider, attempt, fallback);
      }
    }

    /** The loops compute the recursion: same outcome, same calls, same breaker. */
    method ExecuteProviderPlan(plan: seq<Provider>) returns (outcome: Outcome)
      modifies this
      ensures (Snapshot(), outcome) == RunPlan(old(Snapshot()), plan, false, None, world, settings)
    {
      var lastRetryableError: Option<ProviderError> := None;
      var hasFallback := false;
      ghost var target := RunPlan(Snapshot(), plan, false, None, world, settings);
      for providerIndex := 0 to |plan|
        invariant RunPlan(Snapshot(), plan[providerIndex..], hasFallback, lastRetryableError, world, settings) == target
      {
        var provider := plan[providerIndex];
        var hasNextProvider := providerIndex < |plan| - 1;
        assert plan[providerIndex..][1..] == plan[providerIndex + 1..];
        if provider.Vast? {
          var use := ShouldUseVastProvider();
          if !use {
            continue;
          }
        }
        var answer, attempt := TryProvider(provider, hasFallback);
        if answer.Video? {
          return Succeeded(provider, answer.response, attempt, hasFallback);
        }
        if !IsRetryable(answer.error) {
          if !hasNextProvider {
            return Threw(answer.error);
          }
        } else {
          lastRetryableError := Some(answer.error);
        }
        hasFallback := true;
      }
      return if lastRetryableError.Some? then Threw(lastRetryableError.value) else NoProvider;
    }
  }
}
