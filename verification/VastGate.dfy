/** The gate with its health check as a step of its own.  The worker runs several jobs at
    a time over one breaker, so between the clock test of a check and the answer to its
    health request anything else can happen to the breaker. */
module VastGate {
  import opened Prelude
  import opened VastBreaker

  // Checks that passed the clock test and wait for their health answer, with the clock they read.
  datatype State = State(breaker: Breaker, waiting: map<Id, int>)

  datatype Event =
    | Began(at: int, check: Id, enabled: bool)
    | Answered(at: int, check: Id, healthy: bool)
    | Success(at: int)
    | Failure(at: int, errorType: ErrorType)

  // The clock test of a check.
  predicate Passes(b: Breaker, now: int) {
    now >= b.openedUntil
  }

  function Step(s: State, e: Event, c: Config): State {
    match e
    case Began(now, check, enabled) =>
      if enabled && Passes(s.breaker, now) && check !in s.waiting then s.(waiting := s.waiting[check := now]) else s
    case Answered(_, check, healthy) =>
      if check !in s.waiting then s
      else
        State(if healthy then s.breaker else Open(s.breaker, s.waiting[check], c), s.waiting - {check})
    case Success(now) => s.(breaker := RecordSuccess(s.breaker, now, c))
    case Failure(now, errorType) => s.(breaker := RecordFailure(s.breaker, now, errorType, c))
  }

  function After(s: State, es: seq<Event>, c: Config): State
    decreases |es|
  {
    if es == [] then s else Step(After(s, es[..|es| - 1], c), es[|es| - 1], c)
  }

  ghost predicate ClockForward(es: seq<Event>) {
    && (forall i | 0 <= i < |es| :: es[i].at >= 0)
    && (forall i, j | 0 <= i < j < |es| :: es[i].at <= es[j].at)
  }

  /** A check whose answer comes before anything else is the gate taken as one step. */
  lemma PromptAnswerIsGate(s: State, now: int, check: Id, enabled: bool, healthy: bool, c: Config)
    requires check !in s.waiting
    ensures
      var began := Step(s, Began(now, check, enabled), c);
      var end := Step(began, Answered(now, check, healthy), c);
      && end.breaker == Gate(s.breaker, now, enabled, healthy, c) && end.waiting == s.waiting
      && (check in began.waiting && healthy <==> Admits(s.breaker, now, enabled, healthy))
  {
    assert s.waiting[check := now] - {check} == s.waiting;
  }

  // ---------- Openings ----------

  // The clock an opening counts its cooldown from: for a health answer, when its check began.
  function OpensFrom(s: State, e: Event, c: Config): Option<int> {
    match e
    case Answered(_, check, healthy) => if check in s.waiting && !healthy then Some(s.waiting[check]) else None
    case Failure(now, errorType) =>
      if IsTransient(errorType) && s.breaker.failures + 1 >= c.threshold then Some(now) else None
    case _ => None
  }

  // An unhealthy answer to a check so old that its cooldown is over by `now`.
  predicate EarlyAnswer(s: State, e: Event, now: int, c: Config) {
    && e.Answered? && !e.healthy && e.check in s.waiting
    && s.waiting[e.check] + c.cooldownMs <= now
  }

  ghost predicate EarlyAnswerBetween(s: State, es: seq<Event>, i: nat, k: nat, now: int, c: Config)
    requires k <= |es|
  {
    exists m | i < m < k :: EarlyAnswer(After(s, es[..m], c), es[m], now, c)
  }

  // Checks read the clock no later than the event that answers them.
  lemma {:induction false} WaitingBegan(s: State, es: seq<Event>, c: Config, now: int)
    requires ClockForward(es) && forall i | 0 <= i < |es| :: es[i].at <= now
    requires forall x | x in s.waiting :: s.waiting[x] <= now
    ensures forall x | x in After(s, es, c).waiting :: After(s, es, c).waiting[x] <= now
    decreases |es|
  {
    if es != [] { WaitingBegan(s, es[..|es| - 1], c, now); }
  }

  // One event keeps the open-until time past `now`, unless it is an early answer.
  lemma StepHolds(s: State, e: Event, c: Config, now: int, from: int)
    requires Usable(c) && s.breaker.openedUntil > now && from <= e.at <= now < from + c.cooldownMs
    requires !EarlyAnswer(s, e, now, c)
    ensures Step(s, e, c).breaker.openedUntil > now
    ensures Step(s, e, c).waiting.Keys <= s.waiting.Keys
  {
  }

  // An opening counts from no later than the event that makes it.
  lemma OpensFromPast(s: State, es: seq<Event>, c: Config, i: nat)
    requires ClockForward(es) && s.waiting == map[] && i < |es|
    requires OpensFrom(After(s, es[..i], c), es[i], c).Some?
    ensures OpensFrom(After(s, es[..i], c), es[i], c).value <= es[i].at
  {
    WaitingBegan(s, es[..i], c, es[i].at);
  }

  // Without an early answer the opening holds, and no new check gets past the clock.
  lemma {:induction false} OpeningHolds(
    s: State, es: seq<Event>, c: Config, i: nat, k: nat, now: int, from: int)
    requires Usable(c) && i < k <= |es| && forall j | i <= j < |es| :: from <= es[j].at <= now
    requires OpensFrom(After(s, es[..i], c), es[i], c) == Some(from) && now < from + c.cooldownMs
    requires !EarlyAnswerBetween(s, es, i, k, now, c)
    ensures After(s, es[..k], c).breaker.openedUntil > now
    ensures After(s, es[..k], c).waiting.Keys <= After(s, es[..i], c).waiting.Keys
    decreases k
  {
    hide Step, After, OpensFrom, EarlyAnswer;
    Prefixes(s, es, c, k - 1);
    if k == i + 1 {
      OpeningStep(After(s, es[..i], c), es[i], c);
    } else {
      OpeningHolds(s, es, c, i, k - 1, now, from);
      assert !EarlyAnswer(After(s, es[..k - 1], c), es[k - 1], now, c);
      StepHolds(After(s, es[..k - 1], c), es[k - 1], c, now, from);
    }
  }

  lemma Prefixes(s: State, es: seq<Event>, c: Config, k: nat)
    requires k < |es|
    ensures After(s, es[..k + 1], c) == Step(After(s, es[..k], c), es[k], c)
  {
    assert es[..k + 1][..k] == es[..k];
  }

  lemma OpeningStep(s: State, e: Event, c: Config)
    requires OpensFrom(s, e, c).Some?
    ensures Step(s, e, c).breaker.openedUntil == OpensFrom(s, e, c).value + c.cooldownMs
    ensures Step(s, e, c).waiting.Keys <= s.waiting.Keys
  {
  }

  /** After an opening counted from `from`, take any clock `now` before its cooldown ends.
      Some moment of the history since lets a check that reads `now` past the clock test
      exactly when an unhealthy answer has come in to a check that began a cooldown or
      more before `now`. */
  lemma LateHealthAnswerIff(s: State, es: seq<Event>, c: Config, i: nat, now: int)
    requires Usable(c) && ClockForward(es) && i < |es| && forall j | 0 <= j < |es| :: es[j].at <= now
    requires s.waiting == map[] && OpensFrom(After(s, es[..i], c), es[i], c).Some?
    requires now < OpensFrom(After(s, es[..i], c), es[i], c).value + c.cooldownMs
    ensures
      (exists k | i < k <= |es| :: Passes(After(s, es[..k], c).breaker, now)) <==>
      EarlyAnswerBetween(s, es, i, |es|, now, c)
  {
    hide After, Step, OpensFrom, EarlyAnswer, Passes;
    if EarlyAnswerBetween(s, es, i, |es|, now, c) {
      var m :| i < m < |es| && EarlyAnswer(After(s, es[..m], c), es[m], now, c);
      Prefixes(s, es, c, m);
      EarlyAnswerLetsIn(After(s, es[..m], c), es[m], now, c);
    } else {
      OpensFromPast(s, es, c, i);
      var from := OpensFrom(After(s, es[..i], c), es[i], c).value;
      forall k | i < k <= |es| ensures !Passes(After(s, es[..k], c).breaker, now) {
        assert !EarlyAnswerBetween(s, es, i, k, now, c);
        OpeningHolds(s, es, c, i, k, now, from);
        HeldOut(After(s, es[..k], c).breaker, now);
      }
    }
  }

  lemma HeldOut(b: Breaker, now: int)
    requires b.openedUntil > now
    ensures !Passes(b, now)
  {
  }

  lemma EarlyAnswerLetsIn(s: State, e: Event, now: int, c: Config)
    requires EarlyAnswer(s, e, now, c)
    ensures Passes(Step(s, e, c).breaker, now)
  {
  }

  /** A healthy answer is never weighed against the breaker again: it admits a call
      whenever its check waits.  While an opening stands, such a check was waiting when
      the breaker opened or got in behind an early answer. */
  lemma AdmittedWhileOpen(s: State, es: seq<Event>, c: Config, i: nat, j: nat)
    requires Usable(c) && ClockForward(es) && i < j < |es| && es[j].Answered?
    requires s.waiting == map[] && OpensFrom(After(s, es[..i], c), es[i], c).Some?
    requires es[j].at < OpensFrom(After(s, es[..i], c), es[i], c).value + c.cooldownMs
    ensures es[j].check in After(s, es[..j], c).waiting ==>
      es[j].check in After(s, es[..i], c).waiting || EarlyAnswerBetween(s, es, i, j, es[j].at, c)
  {
    if !EarlyAnswerBetween(s, es, i, j, es[j].at, c) {
      var before := es[..j];
      assert forall m | 0 <= m <= j :: before[..m] == es[..m];
      assert !EarlyAnswerBetween(s, before, i, j, es[j].at, c);
      OpensFromPast(s, es, c, i);
      OpeningHolds(s, before, c, i, j, es[j].at, OpensFrom(After(s, es[..i], c), es[i], c).value);
    }
  }

  const FRESH_GATE := State(FRESH, map[])

  // Two checks begin, the later is answered first, and a third begins and is answered.
  function SlippedThrough(c: Config): seq<Event> {
    [Began(0, 1, true), Began(1, 2, true), Answered(1, 2, false), Answered(1, 1, false),
     Began(c.cooldownMs, 3, true), Answered(c.cooldownMs, 3, true)]
  }

  /** That history exists for every configuration: the breaker opens until 1 + cooldown,
      and at cooldown a check is admitted. */
  lemma AdmittedTooEarly(c: Config)
    requires Usable(c)
    ensures
      var es := SlippedThrough(c);
      && ClockForward(es)
      && OpensFrom(After(FRESH_GATE, es[..2], c), es[2], c) == Some(1)
      && After(FRESH_GATE, es[..3], c).breaker.openedUntil == 1 + c.cooldownMs
      && es[5].at < 1 + c.cooldownMs && es[5].healthy && es[5].check in After(FRESH_GATE, es[..5], c).waiting
  {
    var es := SlippedThrough(c);
    var s1 := Step(FRESH_GATE, es[0], c);
    var s2 := Step(s1, es[1], c);
    assert s2 == State(FRESH, map[1 := 0, 2 := 1]);
    var s3 := Step(s2, es[2], c);
    assert s3.waiting == map[1 := 0];
    var s4 := Step(s3, es[3], c);
    assert s4.breaker.openedUntil == c.cooldownMs && s4.waiting == map[];
    Prefixes(FRESH_GATE, es, c, 0);
    Prefixes(FRESH_GATE, es, c, 1);
    Prefixes(FRESH_GATE, es, c, 2);
    Prefixes(FRESH_GATE, es, c, 3);
    Prefixes(FRESH_GATE, es, c, 4);
  }
}
