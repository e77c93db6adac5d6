/** The circuit breaker the video worker keeps in front of the Vast provider.

    The fields live in the worker object; this module gives each change of them as
    a function and proves what whole histories of changes do.  Times are
    milliseconds since the epoch. */
module VastBreaker {

  import opened Prelude

  datatype ErrorType =
    | TRANSIENT_TIMEOUT
    | TRANSIENT_INFRA
    | TRANSIENT_OOM
    | PERMANENT_INPUT
    | PERMANENT_CONFIG

  predicate IsTransient(errorType: ErrorType) {
    errorType.TRANSIENT_INFRA? || errorType.TRANSIENT_TIMEOUT? || errorType.TRANSIENT_OOM?
  }

  datatype Config = Config(threshold: int, windowMs: int, cooldownMs: int, required: int)

  // An environment setting counts when it is a finite number of at least one.
  function Setting(raw: Option<real>, scale: int, fallback: int): (r: int)
    requires scale >= 1 && fallback >= 1
    ensures r >= 1
    ensures raw.None? || raw.value < 1.0 ==> r == fallback
    ensures raw.Some? && raw.value >= 1.0 ==> r as real <= raw.value * scale as real < r as real + 1.0
  {
    if raw.None? || raw.value < 1.0 then fallback
    else
      assert raw.value * scale as real >= 1.0;
      (raw.value * scale as real).Floor
  }

  function ResolveConfig(threshold: Option<real>, window: Option<real>,
                         cooldown: Option<real>, required: Option<real>): (c: Config)
    ensures Usable(c)
    ensures threshold.None? || threshold.value < 1.0 ==> c.threshold == 3
    ensures threshold.Some? && threshold.value >= 1.0 ==> threshold.value - 1.0 < c.threshold as real <= threshold.value
    ensures window.None? || window.value < 1.0 ==> c.windowMs == 300_000
    ensures window.Some? && window.value >= 1.0 ==>
      window.value * 1000.0 - 1.0 < c.windowMs as real <= window.value * 1000.0
    ensures cooldown.None? || cooldown.value < 1.0 ==> c.cooldownMs == 600_000
    ensures cooldown.Some? && cooldown.value >= 1.0 ==>
      cooldown.value * 1000.0 - 1.0 < c.cooldownMs as real <= cooldown.value * 1000.0
    ensures required.None? || required.value < 1.0 ==> c.required == 3
    ensures required.Some? && required.value >= 1.0 ==> required.value - 1.0 < c.required as real <= required.value
  {
    Config(Setting(threshold, 1, 3), Setting(window, 1000, 300_000),
           Setting(cooldown, 1000, 600_000), Setting(required, 1, 3))
  }

  predicate Usable(c: Config) {
    c.threshold >= 1 && c.windowMs >= 1 && c.cooldownMs >= 1 && c.required >= 1
  }

  datatype Breaker = Breaker(
    openedUntil: int,
    failures: int,
    halfOpenSuccesses: int,
    timestamps: seq<int>)

  const FRESH := Breaker(0, 0, 0, [])

  function Reset(): Breaker { FRESH }

  function Open(b: Breaker, now: int, c: Config): Breaker {
    b.(openedUntil := now + c.cooldownMs, failures := 0, halfOpenSuccesses := 0)
  }

  predicate HalfOpen(b: Breaker, now: int) {
    b.openedUntil > 0 && now >= b.openedUntil
  }

  function RecordSuccess(b: Breaker, now: int, c: Config): Breaker {
    if HalfOpen(b, now) then
      if b.halfOpenSuccesses + 1 >= c.required then Reset()
      else b.(halfOpenSuccesses := b.halfOpenSuccesses + 1)
    else b.(failures := 0)
  }

  function Recent(timestamps: seq<int>, now: int, windowMs: int): (r: seq<int>)
    ensures forall t :: t in r <==> t in timestamps && now - t <= windowMs
  {
    if timestamps == [] then []
    else
      (if now - timestamps[0] <= windowMs then [timestamps[0]] else [])
      + Recent(timestamps[1..], now, windowMs)
  }

  function RecordFailure(b: Breaker, now: int, errorType: ErrorType, c: Config): Breaker {
    if !IsTransient(errorType) then b
    else
      var b' := b.(timestamps := Recent(b.timestamps, now, c.windowMs) + [now], failures := b.failures + 1);
      if b'.failures >= c.threshold then Open(b', now, c) else b'
  }

  predicate Admits(b: Breaker, now: int, enabled: bool, healthy: bool) {
    enabled && now >= b.openedUntil && healthy
  }

  // The health check runs only when the gate is past the open-until time.
  function Gate(b: Breaker, now: int, enabled: bool, healthy: bool, c: Config): Breaker {
    if enabled && now >= b.openedUntil && !healthy then Open(b, now, c) else b
  }

  datatype Event =
    | Checked(now: int, enabled: bool, healthy: bool)
    | Success(now: int)
    | Failure(now: int, errorType: ErrorType)

  function Step(b: Breaker, e: Event, c: Config): Breaker {
    match e
    case Checked(now, enabled, healthy) => Gate(b, now, enabled, healthy, c)
    case Success(now) => RecordSuccess(b, now, c)
    case Failure(now, errorType) => RecordFailure(b, now, errorType, c)
  }

  function After(b: Breaker, es: seq<Event>, c: Config): Breaker
    decreases |es|
  {
    if es == [] then b else Step(After(b, es[..|es| - 1], c), es[|es| - 1], c)
  }

  ghost predicate ClockForward(es: seq<Event>) {
    && (forall i | 0 <= i < |es| :: es[i].now >= 0)
    && (forall i, j | 0 <= i < j < |es| :: es[i].now <= es[j].now)
  }

  // ---------- Shape of every reachable breaker ----------

  predicate Sound(b: Breaker, c: Config) {
    && b.openedUntil >= 0
    && 0 <= b.failures < c.threshold
    && 0 <= b.halfOpenSuccesses < c.required
    && (b.openedUntil == 0 ==> b.halfOpenSuccesses == 0)
  }

  /** Counters never reach their limits, and a closed breaker counts no half-open success. */
  lemma {:induction false} ReachableIsSound(b: Breaker, es: seq<Event>, c: Config)
    requires Usable(c) && Sound(b, c) && ClockForward(es)
    ensures Sound(After(b, es, c), c)
    decreases |es|
  {
    if es != [] { ReachableIsSound(b, es[..|es| - 1], c); }
  }

  // ---------- Safety of an opening ----------

  predicate Opens(b: Breaker, e: Event, c: Config) {
    match e
    case Checked(now, enabled, healthy) => enabled && now >= b.openedUntil && !healthy
    case Success(_) => false
    case Failure(_, errorType) => IsTransient(errorType) && b.failures + 1 >= c.threshold
  }

  // Until its cooldown is over, an opening keeps the open-until time at least that far out.
  lemma {:induction false} OpeningHolds(b: Breaker, es: seq<Event>, c: Config, i: nat, k: nat)
    requires Usable(c) && ClockForward(es) && i < k <= |es|
    requires Opens(After(b, es[..i], c), es[i], c)
    requires forall j | i <= j < k :: es[j].now < es[i].now + c.cooldownMs
    ensures After(b, es[..k], c).openedUntil >= es[i].now + c.cooldownMs
    decreases k
  {
    assert es[..k][..k - 1] == es[..k - 1];
    if k > i + 1 { OpeningHolds(b, es, c, i, k - 1); }
  }

  /** After an opening at time t no gate check before t + cooldown admits Vast. */
  lemma OpenBreakerAdmitsNothing(b: Breaker, es: seq<Event>, c: Config, i: nat, j: nat)
    requires Usable(c) && ClockForward(es) && i < j < |es|
    requires Opens(After(b, es[..i], c), es[i], c)
    requires es[j].Checked? && es[j].now < es[i].now + c.cooldownMs
    ensures !Admits(After(b, es[..j], c), es[j].now, es[j].enabled, es[j].healthy)
  {
    OpeningHolds(b, es, c, i, j);
  }

  lemma StepUntil(b: Breaker, e: Event, c: Config)
    ensures
      var until := Step(b, e, c).openedUntil;
      until == 0 || until == b.openedUntil || (Opens(b, e, c) && until == e.now + c.cooldownMs)
  {
  }

  // An opening of the history that counts its cooldown up to `until`.
  ghost predicate OpenedUntil(es: seq<Event>, c: Config, i: nat, until: int) {
    i < |es| && Opens(After(FRESH, es[..i], c), es[i], c) && until == es[i].now + c.cooldownMs
  }

  // What stands in the breaker comes from an opening, unless it has been closed since.
  lemma {:induction false} OpenSince(es: seq<Event>, c: Config)
    ensures
      var until := After(FRESH, es, c).openedUntil;
      until != 0 ==> exists i: nat :: OpenedUntil(es, c, i, until)
    decreases |es|
  {
    if es != [] {
      hide Step, Opens;
      var n := |es| - 1;
      OpenSince(es[..n], c);
      var before, until := After(FRESH, es[..n], c), After(FRESH, es, c).openedUntil;
      StepUntil(before, es[n], c);
      if until != 0 && until == before.openedUntil {
        var i: nat :| OpenedUntil(es[..n], c, i, until);
        assert es[..n][..i] == es[..i];
        assert OpenedUntil(es, c, i, until);
      } else if until != 0 {
        assert OpenedUntil(es, c, n, until);
      }
    }
  }

  ghost predicate CoolingDown(es: seq<Event>, c: Config, i: nat, now: int)
    requires i < |es|
  {
    Opens(After(FRESH, es[..i], c), es[i], c) && now < es[i].now + c.cooldownMs
  }

  /** From a fresh breaker a gate check admits Vast exactly when Vast is enabled and
      healthy and no opening of the history is still cooling down. */
  lemma AdmitsIff(es: seq<Event>, c: Config, j: nat)
    requires Usable(c) && ClockForward(es) && j < |es| && es[j].Checked?
    ensures Admits(After(FRESH, es[..j], c), es[j].now, es[j].enabled, es[j].healthy) <==>
      es[j].enabled && es[j].healthy && forall i | 0 <= i < j :: !CoolingDown(es, c, i, es[j].now)
  {
    if i :| 0 <= i < j && CoolingDown(es, c, i, es[j].now) {
      OpenBreakerAdmitsNothing(FRESH, es, c, i, j);
    }
    OpenSince(es[..j], c);
    var until := After(FRESH, es[..j], c).openedUntil;
    if es[j].now < until {
      var i: nat :| OpenedUntil(es[..j], c, i, until);
      assert es[..j][..i] == es[..i];
      assert CoolingDown(es, c, i, es[j].now);
    }
  }

  // ---------- When call outcomes open a closed breaker ----------

  // Length of the run of transient failures that ends the history; other failures are not counted.
  function TrailingFailures(es: seq<Event>): nat
    decreases |es|
  {
    if es == [] then 0
    else
      var before := TrailingFailures(es[..|es| - 1]);
      match es[|es| - 1]
      case Checked(_, _, _) => before
      case Success(_) => 0
      case Failure(_, errorType) => before + if errorType.PERMANENT_INPUT? || errorType.PERMANENT_CONFIG? then 0 else 1
  }

  // No gate check of the history finds Vast unhealthy and opens the breaker by itself.
  ghost predicate GateNeverOpens(es: seq<Event>, c: Config) {
    forall i | 0 <= i < |es| && es[i].Checked? :: !Opens(After(FRESH, es[..i], c), es[i], c)
  }

  ghost predicate NeverTripped(es: seq<Event>, c: Config) {
    forall k | 0 <= k < |es| :: TrailingFailures(es[..k]) < c.threshold
  }

  /** From a fresh breaker, with gate checks anywhere that do not open it themselves, the
      call outcomes open it exactly when they end in `threshold` transient failures with
      no success between them; until then the failure counter is that trailing run. */
  lemma {:induction false} OpensOnTrailingFailures(es: seq<Event>, c: Config)
    requires Usable(c) && ClockForward(es) && GateNeverOpens(es, c) && NeverTripped(es, c)
    ensures After(FRESH, es, c).openedUntil > 0 <==> TrailingFailures(es) >= c.threshold
    ensures TrailingFailures(es) < c.threshold ==> After(FRESH, es, c).failures == TrailingFailures(es)
    ensures TrailingFailures(es) >= c.threshold ==>
              After(FRESH, es, c).openedUntil == es[|es| - 1].now + c.cooldownMs
    decreases |es|
  {
    if es != [] {
      var n := |es| - 1;
      forall k | 0 <= k < n ensures TrailingFailures(es[..n][..k]) < c.threshold {
        assert es[..n][..k] == es[..k];
      }
      forall i | 0 <= i < n && es[..n][i].Checked? ensures !Opens(After(FRESH, es[..n][..i], c), es[..n][i], c) {
        assert es[..n][..i] == es[..i];
      }
      OpensOnTrailingFailures(es[..n], c);
      assert TrailingFailures(es[..n]) < c.threshold;
    }
  }

  /** Outcomes that come in while an opening cools down, from calls under way, count in the
      same way: `threshold` transient failures without a success between them open it anew. */
  lemma {:induction false} ReopensWhileCooling(b: Breaker, es: seq<Event>, c: Config)
    requires Usable(c) && b.openedUntil > 0 && b.failures == 0 && NeverTripped(es, c)
    requires forall i | 0 <= i < |es| :: es[i].now < b.openedUntil
    ensures
      var a := After(b, es, c);
      if TrailingFailures(es) >= c.threshold then a.openedUntil == es[|es| - 1].now + c.cooldownMs
      else a.openedUntil == b.openedUntil && a.failures == TrailingFailures(es)
    decreases |es|
  {
    if es != [] {
      var n := |es| - 1;
      forall k | 0 <= k < n ensures TrailingFailures(es[..n][..k]) < c.threshold {
        assert es[..n][..k] == es[..k];
      }
      ReopensWhileCooling(b, es[..n], c);
      assert TrailingFailures(es[..n]) < c.threshold;
    }
  }

  // Two breakers that differ at most in the failure times they remember.
  predicate SameButTimes(b1: Breaker, b2: Breaker) {
    b1 == b2.(timestamps := b1.timestamps)
  }

  /** The failure window is recorded and trimmed but never consulted: no decision of
      any history depends on the remembered times or on the window length. */
  lemma {:induction false} WindowNeverConsulted(b1: Breaker, b2: Breaker, es: seq<Event>, c: Config, windowMs: int)
    requires SameButTimes(b1, b2)
    ensures SameButTimes(After(b1, es, c), After(b2, es, c.(windowMs := windowMs)))
    decreases |es|
  {
    if es != [] { WindowNeverConsulted(b1, b2, es[..|es| - 1], c, windowMs); }
  }

  // ---------- Half-open resolves ----------

  predicate Counted(e: Event) {
    e.Success? || (e.Failure? && IsTransient(e.errorType))
  }

  function CountedIn(es: seq<Event>): nat
    decreases |es|
  {
    if es == [] then 0 else CountedIn(es[..|es| - 1]) + if Counted(es[|es| - 1]) then 1 else 0
  }

  function Margin(b: Breaker, c: Config): int {
    (c.required - b.halfOpenSuccesses) + (c.threshold - b.failures)
  }

  // Closed again, or opened afresh to a later time.
  predicate Resolved(b: Breaker, openedUntil: int) {
    b.openedUntil == 0 || b.openedUntil > openedUntil
  }

  lemma MarginStep(b: Breaker, e: Event, c: Config)
    requires Usable(c) && Sound(b, c) && b.openedUntil > 0 && e.now >= b.openedUntil
    requires !Resolved(Step(b, e, c), b.openedUntil)
    ensures Step(b, e, c).openedUntil == b.openedUntil && Sound(Step(b, e, c), c)
    ensures Margin(Step(b, e, c), c) == Margin(b, c) - if Counted(e) then 1 else 0
  {
  }

  // While unresolved, each counted outcome uses up one unit of the margin.
  lemma {:induction false} MarginShrinks(b: Breaker, es: seq<Event>, c: Config)
    requires Usable(c) && Sound(b, c) && ClockForward(es)
    requires b.openedUntil > 0 && forall i | 0 <= i < |es| :: es[i].now >= b.openedUntil
    requires forall k | 0 <= k <= |es| :: !Resolved(After(b, es[..k], c), b.openedUntil)
    ensures After(b, es, c).openedUntil == b.openedUntil && Sound(After(b, es, c), c)
    ensures Margin(After(b, es, c), c) == Margin(b, c) - CountedIn(es)
    decreases |es|
  {
    if es != [] {
      var n := |es| - 1;
      forall k | 0 <= k <= n ensures !Resolved(After(b, es[..n][..k], c), b.openedUntil) {
        assert es[..n][..k] == es[..k];
      }
      MarginShrinks(b, es[..n], c);
      assert es[..|es|] == es;
      MarginStep(After(b, es[..n], c), es[n], c);
    }
  }

  /** A half-open breaker closes or reopens within required + threshold - 1 counted
      outcomes, whatever gate checks and uncounted failures come between them. */
  lemma HalfOpenResolves(b: Breaker, es: seq<Event>, c: Config)
    requires Usable(c) && Sound(b, c) && ClockForward(es)
    requires b.openedUntil > 0 && forall i | 0 <= i < |es| :: es[i].now >= b.openedUntil
    requires CountedIn(es) >= c.required + c.threshold - 1
    ensures exists k | 0 <= k <= |es| :: Resolved(After(b, es[..k], c), b.openedUntil)
  {
    if forall k | 0 <= k <= |es| :: !Resolved(After(b, es[..k], c), b.openedUntil) {
      MarginShrinks(b, es, c);
    }
  }

  // ---------- What half-open takes to close or to reopen ----------

  function Successes(es: seq<Event>): nat
    decreases |es|
  {
    if es == [] then 0 else Successes(es[..|es| - 1]) + if es[|es| - 1].Success? then 1 else 0
  }

  // Timeouts, infrastructure errors and lack of memory; refused inputs and settings do not count.
  function TransientFailures(es: seq<Event>): nat
    decreases |es|
  {
    if es == [] then 0
    else
      var e := es[|es| - 1];
      TransientFailures(es[..|es| - 1])
      + if e.Failure? && e.errorType !in {PERMANENT_INPUT, PERMANENT_CONFIG} then 1 else 0
  }

  ghost predicate NothingOpens(b: Breaker, es: seq<Event>, c: Config) {
    forall i | 0 <= i < |es| :: !Opens(After(b, es[..i], c), es[i], c)
  }

  lemma NothingOpensBefore(b: Breaker, es: seq<Event>, c: Config)
    requires NothingOpens(b, es, c) && es != []
    ensures NothingOpens(b, es[..|es| - 1], c) && !Opens(After(b, es[..|es| - 1], c), es[|es| - 1], c)
  {
    var n := |es| - 1;
    assert forall i | 0 <= i < n :: es[..n][..i] == es[..i] && es[..n][i] == es[i];
  }

  /** A half-open breaker that has counted no success yet, on a history in which nothing
      opens it: it is closed at the end exactly when at least `required` calls succeeded, and
      until then its open-until time stands. */
  lemma {:induction false} ClosesOnSuccesses(b: Breaker, es: seq<Event>, c: Config)
    requires Usable(c) && Sound(b, c) && b.openedUntil > 0 && b.halfOpenSuccesses == 0
    requires forall i | 0 <= i < |es| :: es[i].now >= b.openedUntil
    requires NothingOpens(b, es, c)
    ensures After(b, es, c).openedUntil == 0 <==> Successes(es) >= c.required
    ensures Successes(es) < c.required ==>
      After(b, es, c).openedUntil == b.openedUntil && After(b, es, c).halfOpenSuccesses == Successes(es)
    decreases |es|
  {
    if es != [] {
      NothingOpensBefore(b, es, c);
      ClosesOnSuccesses(b, es[..|es| - 1], c);
    }
  }

  // Neither closed nor reopened by call outcomes, nor opened by a gate check, before its last event.
  ghost predicate HalfOpenThroughout(b: Breaker, es: seq<Event>, c: Config) {
    && (forall i | 0 <= i < |es| && es[i].Checked? :: es[i].enabled ==> es[i].healthy)
    && (forall k | 0 <= k < |es| ::
          && b.halfOpenSuccesses + Successes(es[..k]) < c.required
          && b.failures + TransientFailures(es[..k]) < c.threshold)
  }

  lemma HalfOpenBefore(b: Breaker, es: seq<Event>, c: Config)
    requires HalfOpenThroughout(b, es, c) && es != []
    ensures HalfOpenThroughout(b, es[..|es| - 1], c)
    ensures
      var before := es[..|es| - 1];
      b.halfOpenSuccesses + Successes(before) < c.required && b.failures + TransientFailures(before) < c.threshold
    ensures var e := es[|es| - 1]; e.Checked? && e.enabled ==> e.healthy
  {
    hide Successes, TransientFailures;
    var n := |es| - 1;
    assert forall k | 0 <= k < n :: es[..n][..k] == es[..k] && es[..n][k] == es[k];
  }

  lemma HalfOpenStep(b: Breaker, e: Event, c: Config)
    requires Usable(c) && 0 < b.openedUntil <= e.now && (e.Checked? && e.enabled ==> e.healthy)
    ensures
      var a := Step(b, e, c);
      var failures := b.failures + if e.Failure? && e.errorType !in {PERMANENT_INPUT, PERMANENT_CONFIG} then 1 else 0;
      var successes := b.halfOpenSuccesses + if e.Success? then 1 else 0;
      if failures > b.failures && failures >= c.threshold then
        a.openedUntil == e.now + c.cooldownMs && a.failures == 0 && a.halfOpenSuccesses == 0
      else if successes > b.halfOpenSuccesses && successes >= c.required then a == FRESH
      else a.openedUntil == b.openedUntil && a.failures == failures && a.halfOpenSuccesses == successes
  {
  }

  /** While half-open it reopens exactly when the transient failures, with those it had
      counted, reach the threshold; successes in between do not set that count back. */
  lemma {:induction false} ReopensOnFailures(b: Breaker, es: seq<Event>, c: Config)
    requires Usable(c) && Sound(b, c) && b.openedUntil > 0
    requires forall i | 0 <= i < |es| :: es[i].now >= b.openedUntil
    requires HalfOpenThroughout(b, es, c)
    ensures
      var a := After(b, es, c);
      if b.failures + TransientFailures(es) >= c.threshold then
        es != [] && a.openedUntil == es[|es| - 1].now + c.cooldownMs && a.failures == 0 && a.halfOpenSuccesses == 0
      else if b.halfOpenSuccesses + Successes(es) >= c.required then a == FRESH
      else
        && a.openedUntil == b.openedUntil
        && a.failures == b.failures + TransientFailures(es)
        && a.halfOpenSuccesses == b.halfOpenSuccesses + Successes(es)
    decreases |es|
  {
    if es != [] {
      var n := |es| - 1;
      HalfOpenBefore(b, es, c);
      ReopensOnFailures(b, es[..n], c);
      hide Step, HalfOpenThroughout;
      HalfOpenStep(After(b, es[..n], c), es[n], c);
    }
  }
}
