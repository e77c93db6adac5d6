/** One video job: the worker's handler, the rows and stored objects it creates, the
    refunds it pays, and the cancellations that arrive while it runs.

    The handler is a list of steps, one per await that touches shared state, so a
    cancellation can commit between any two of them and any of them can throw. */
module VideoJob {
  import opened Prelude

  datatype Status = PENDING | QUEUED | PROCESSING | COMPLETED | FAILED | CANCELLED
  datatype Role = OUTPUT | THUMBNAIL
  datatype Reason = REFUND_FAILED_JOB | REFUND_CANCELED_JOB

  // An output asset with the object key of its only version, once that is saved.
  datatype Row = Row(role: Role, key: Option<nat>)

  /** The job row, its refund ledger rows in order, its output assets, and the
      objects in its storage folder.  Object keys are never reused. */
  datatype Job = Job(
    status: Status,
    cost: int,
    refunds: seq<Reason>,
    rows: seq<Row>,
    storage: set<nat>,
    nextKey: nat)

  function Created(cost: int): Job {
    Job(QUEUED, cost, [], [], {}, 0)
  }

  // ---------- Refunds and cancellation ----------

  function Refund(j: Job, reason: Reason): Job {
    if j.cost <= 0 || reason in j.refunds then j else j.(refunds := j.refunds + [reason])
  }

  // The cancel transaction: it does not look at the status again.
  function CommitCancel(j: Job): Job {
    Refund(j.(status := CANCELLED), REFUND_CANCELED_JOB)
  }

  predicate Cancellable(j: Job) {
    !j.status.COMPLETED? && !j.status.FAILED? && !j.status.CANCELLED?
  }

  // What the charge and the refunds of the job add up to.
  function Balance(j: Job): int {
    -j.cost + j.cost * |j.refunds|
  }

  // ---------- The handler ----------

  datatype Step =
    | Check
    | Cleanup
    | Progress(percent: nat)
    | ResolveInput
    | SignInput
    | CallProvider
    | ReadVideo
    | AddAudio
    | MakeThumbnail
    | Upload
    | CreateAsset(role: Role)
    | CreateVersion
    | Complete

  const HANDLE: seq<Step> := [
    Check, Cleanup, Progress(5), ResolveInput, Progress(15), SignInput, Progress(30),
    Check, CallProvider, Progress(60), Check, ReadVideo, Progress(80), AddAudio, Check,
    Upload, Progress(90), CreateAsset(OUTPUT), Progress(95), CreateVersion,
    MakeThumbnail, Upload, CreateAsset(THUMBNAIL), CreateVersion, Complete]

  const STEPS: nat := 25

  /** What happens around one attempt: which step throws and whether that error is
      retryable, before which steps a cancellation commits, which objects storage
      deletes when asked, which database step of the error handler throws, and whether a
      cleanup that throws, at step 1 or in the error handler, has deleted its objects. */
  datatype Script = Script(
    fault: nat -> bool,
    retryable: bool,
    cancels: nat -> bool,
    deletes: nat -> bool,
    cleanupStarted: nat -> bool,
    handlerFault: nat -> bool)

  function Keys(rows: seq<Row>): set<nat> {
    set i | 0 <= i < |rows| && rows[i].key.Some? :: rows[i].key.value
  }

  function Undeleted(keys: set<nat>, sc: Script): set<nat> {
    set k | k in keys && !sc.deletes(k)
  }

  // cleanupOutputArtifacts: delete every named object, then every output row.
  function CleanObjects(j: Job, sc: Script): Job {
    j.(storage := j.storage - (Keys(j.rows) - Undeleted(Keys(j.rows), sc)))
  }

  function Clean(j: Job, sc: Script): Job {
    CleanObjects(j, sc).(rows := [])
  }

  // The cleanup of step `k` when it throws: before its deletes, or before it removes the rows.
  function HalfClean(j: Job, k: nat, sc: Script): Job {
    if sc.cleanupStarted(k) then CleanObjects(j, sc) else j
  }

  function Effect(j: Job, up: seq<nat>, step: Step, sc: Script): (Job, seq<nat>) {
    match step
    case Cleanup => (Clean(j, sc), up)
    case Progress(_) => (j.(status := PROCESSING), up)
    case Upload => (j.(storage := j.storage + {j.nextKey}, nextKey := j.nextKey + 1), up + [j.nextKey])
    case CreateAsset(role) => (j.(rows := j.rows + [Row(role, None)]), up)
    case CreateVersion =>
      // the version belongs to the asset and the object made last
      if j.rows == [] || up == [] then (j, up)
      else
        var last := |j.rows| - 1;
        (j.(rows := j.rows[last := j.rows[last].(key := Some(up[|up| - 1]))]), up)
    case Complete => (j.(status := COMPLETED), up)
    case _ => (j, up)
  }

  datatype Exit = Finished | Cancelled | Threw

  datatype End = End(job: Job, uploaded: seq<nat>, exit: Exit, at: nat)

  function Interrupt(j: Job, k: nat, sc: Script): Job {
    if sc.cancels(k) then CommitCancel(j) else j
  }

  // The try block from step `k` on.
  function Body(steps: seq<Step>, j: Job, up: seq<nat>, k: nat, sc: Script): End
    requires k <= |steps|
    decreases |steps| - k
  {
    if k == |steps| then End(j, up, Finished, k)
    else
      var j1 := Interrupt(j, k, sc);
      if sc.fault(k) then
        End(if steps[k].Cleanup? then HalfClean(j1, k, sc) else j1, up, Threw, k)
      else if steps[k].Check? && j1.status.CANCELLED? then End(j1, up, Cancelled, k)
      else
        var (j2, up2) := Effect(j1, up, steps[k], sc);
        Body(steps, j2, up2, k + 1, sc)
  }

  function ToSet(s: seq<nat>): set<nat> {
    set x | x in s
  }

  function Rollback(j: Job, up: seq<nat>, sc: Script): Job {
    j.(storage := j.storage - (ToSet(up) - Undeleted(ToSet(up), sc)))
  }

  function FailForGood(j: Job, sc: Script): (Job, bool) {
    if sc.handlerFault(1) then (j, true)
    else
      var j' := Interrupt(j.(status := FAILED), STEPS + 2, sc);
      if sc.handlerFault(2) then (j', true) else (Refund(j', REFUND_FAILED_JOB), sc.retryable)
  }

  // The catch block: the job it leaves, and whether the handler throws again.
  function Catch(e: End, attemptsMade: nat, maxAttempts: nat, sc: Script): (Job, bool) {
    var j := Interrupt(Rollback(e.job, e.uploaded, sc), STEPS, sc);
    if e.exit.Cancelled? then
      if sc.handlerFault(0) then (HalfClean(j, STEPS, sc), true) else (Clean(j, sc), false)
    else if sc.retryable && attemptsMade + 1 < maxAttempts then
      if sc.handlerFault(1) then (j, true) else (j.(status := QUEUED), true)
    else if sc.handlerFault(0) then (HalfClean(j, STEPS, sc), true)
    else FailForGood(Interrupt(Clean(j, sc), STEPS + 1, sc), sc)
  }

  predicate SkipsJob(j: Job) {
    j.status.CANCELLED? || j.status.COMPLETED?
  }

  // handle(): the job it leaves, and whether the queue sees it throw.
  function Attempt(j: Job, attemptsMade: nat, maxAttempts: nat, sc: Script): (Job, bool) {
    if SkipsJob(j) then (j, false)
    else
      var e := Body(HANDLE, j, [], 0, sc);
      if e.exit.Finished? then (e.job, false) else Catch(e, attemptsMade, maxAttempts, sc)
  }

  // ---------- The queue around it ----------

  // `cancelling` counts the cancels that have checked the status and not committed yet.
  datatype Queue = Queue(job: Job, attempts: nat, queued: bool, cancelling: nat)

  /** A cancel checks the status, takes the job off the queue if it can, and commits
      without looking again.  `CancelJob` is both halves at once, `AskCancel` and
      `CommitAsked` are the two halves with anything in between. */
  datatype Event =
    | Deliver(script: Script)
    | CancelJob(removed: bool)
    | AskCancel(removed: bool)
    | CommitAsked

  // The queue hands a job out again only after a throw and while attempts remain.
  function Advance(q: Queue, e: Event, maxAttempts: nat): Queue {
    match e
    case Deliver(sc) =>
      if !q.queued then q
      else
        var (j, threw) := Attempt(q.job, q.attempts, maxAttempts, sc);
        Queue(j, q.attempts + 1, threw && q.attempts + 1 < maxAttempts, q.cancelling)
    case CancelJob(removed) =>
      if Cancellable(q.job) then q.(job := CommitCancel(q.job), queued := q.queued && !removed) else q
    case AskCancel(removed) =>
      if Cancellable(q.job) then q.(queued := q.queued && !removed, cancelling := q.cancelling + 1) else q
    case CommitAsked =>
      if q.cancelling > 0 then q.(job := CommitCancel(q.job), cancelling := q.cancelling - 1) else q
  }

  function Run(q: Queue, es: seq<Event>, maxAttempts: nat): Queue
    decreases |es|
  {
    if es == [] then q else Advance(Run(q, es[..|es| - 1], maxAttempts), es[|es| - 1], maxAttempts)
  }

  function Enqueued(cost: int): Queue {
    Queue(Created(cost), 0, true, 0)
  }

  // ---------- At most one refund per reason, whatever happens ----------

  predicate NoRepeat(refunds: seq<Reason>) {
    forall i, k | 0 <= i < k < |refunds| :: refunds[i] != refunds[k]
  }

  predicate RefundsSane(j: Job) {
    NoRepeat(j.refunds) && (j.cost <= 0 ==> j.refunds == [])
  }

  lemma {:induction false} BodyRefundsSane(steps: seq<Step>, j: Job, up: seq<nat>, k: nat, sc: Script)
    requires k <= |steps| && RefundsSane(j)
    ensures RefundsSane(Body(steps, j, up, k, sc).job) && Body(steps, j, up, k, sc).job.cost == j.cost
    decreases |steps| - k
  {
    if k < |steps| {
      var (j2, up2) := Effect(Interrupt(j, k, sc), up, steps[k], sc);
      BodyRefundsSane(steps, j2, up2, k + 1, sc);
    }
  }

  lemma InterruptSane(j: Job, k: nat, sc: Script)
    requires RefundsSane(j)
    ensures RefundsSane(Interrupt(j, k, sc)) && Interrupt(j, k, sc).cost == j.cost
  {
  }

  lemma FailForGoodSane(j: Job, sc: Script)
    requires RefundsSane(j)
    ensures RefundsSane(FailForGood(j, sc).0) && FailForGood(j, sc).0.cost == j.cost
  {
    InterruptSane(j.(status := FAILED), STEPS + 2, sc);
  }

  lemma CatchRefundsSane(e: End, attemptsMade: nat, maxAttempts: nat, sc: Script)
    requires RefundsSane(e.job)
    ensures RefundsSane(Catch(e, attemptsMade, maxAttempts, sc).0)
    ensures Catch(e, attemptsMade, maxAttempts, sc).0.cost == e.job.cost
  {
    InterruptSane(Rollback(e.job, e.uploaded, sc), STEPS, sc);
    var j := Interrupt(Rollback(e.job, e.uploaded, sc), STEPS, sc);
    InterruptSane(Clean(j, sc), STEPS + 1, sc);
    FailForGoodSane(Interrupt(Clean(j, sc), STEPS + 1, sc), sc);
  }

  lemma AttemptRefundsSane(j: Job, attemptsMade: nat, maxAttempts: nat, sc: Script)
    requires RefundsSane(j)
    ensures RefundsSane(Attempt(j, attemptsMade, maxAttempts, sc).0)
    ensures Attempt(j, attemptsMade, maxAttempts, sc).0.cost == j.cost
  {
    BodyRefundsSane(HANDLE, j, [], 0, sc);
    CatchRefundsSane(Body(HANDLE, j, [], 0, sc), attemptsMade, maxAttempts, sc);
  }

  /** In every history, with cancellations committing inside attempts and any step
      throwing, each refund reason is paid at most once, so a job is never refunded
      more than twice its charge. */
  lemma {:induction false} RefundedOncePerReason(cost: int, es: seq<Event>, maxAttempts: nat)
    ensures RefundsSane(Run(Enqueued(cost), es, maxAttempts).job)
    ensures Run(Enqueued(cost), es, maxAttempts).job.cost == cost
    ensures |Run(Enqueued(cost), es, maxAttempts).job.refunds| <= 2
    decreases |es|
  {
    if es != [] {
      var q := Run(Enqueued(cost), es[..|es| - 1], maxAttempts);
      RefundedOncePerReason(cost, es[..|es| - 1], maxAttempts);
      match es[|es| - 1]
      case Deliver(sc) => AttemptRefundsSane(q.job, q.attempts, maxAttempts, sc);
      case _ =>
    }
    var r := Run(Enqueued(cost), es, maxAttempts).job.refunds;
    assert |r| > 2 ==> r[0] != r[1] && r[0] != r[2] && r[1] != r[2];
  }

  ghost predicate Alone(sc: Script, from: nat) {
    forall k: nat | from <= k :: !sc.cancels(k)
  }

  // ---------- Settlement when cancellations fall between attempts ----------

  ghost predicate Quiet(sc: Script) {
    && (forall k: nat :: !sc.cancels(k))
    && (forall k: nat :: !sc.handlerFault(k))
  }

  ghost predicate QuietEvents(es: seq<Event>) {
    forall i | 0 <= i < |es| && es[i].Deliver? :: Quiet(es[i].script)
  }

  predicate Paid(j: Job, reason: Reason) {
    j.refunds == if j.cost > 0 then [reason] else []
  }

  /** The charge stands while the job can still run or has run; it is paid back once
      when the job failed or was cancelled. */
  predicate Settled(j: Job) {
    match j.status
    case FAILED => Paid(j, REFUND_FAILED_JOB)
    case CANCELLED => Paid(j, REFUND_CANCELED_JOB)
    case _ => j.refunds == []
  }

  lemma {:induction false} QuietBodyKeepsLedger(steps: seq<Step>, j: Job, up: seq<nat>, k: nat, sc: Script)
    requires k <= |steps| && steps != [] && steps[|steps| - 1].Complete? && Quiet(sc) && !j.status.CANCELLED?
    ensures
      var e := Body(steps, j, up, k, sc);
      && e.job.refunds == j.refunds && e.job.cost == j.cost
      && !e.exit.Cancelled? && !e.job.status.CANCELLED?
      && (e.exit.Finished? && k < |steps| ==> e.job.status.COMPLETED?)
    decreases |steps| - k
  {
    if k < |steps| {
      var (j2, up2) := Effect(j, up, steps[k], sc);
      QuietBodyKeepsLedger(steps, j2, up2, k + 1, sc);
    }
  }

  /** An attempt left alone completes the job exactly when nothing throws, requeues it
      exactly when the error is retryable and attempts remain, and fails it with its
      refund otherwise. */
  lemma QuietAttempt(j: Job, attemptsMade: nat, maxAttempts: nat, sc: Script)
    requires Quiet(sc) && Settled(j) && !SkipsJob(j) && !j.status.FAILED?
    ensures
      var (j', threw) := Attempt(j, attemptsMade, maxAttempts, sc);
      var failed := Body(HANDLE, j, [], 0, sc).exit.Threw?;
      && Settled(j')
      && (j'.status.COMPLETED? <==> !failed)
      && (j'.status.QUEUED? <==> failed && sc.retryable && attemptsMade + 1 < maxAttempts)
      && (j'.status.FAILED? <==> failed && !(sc.retryable && attemptsMade + 1 < maxAttempts))
      && (threw <==> failed && sc.retryable)
  {
    QuietBodyKeepsLedger(HANDLE, j, [], 0, sc);
  }

  ghost predicate AtRest(q: Queue) {
    && Settled(q.job) && !q.job.status.PROCESSING?
    && (q.queued ==> q.job.status.QUEUED? || q.job.status.CANCELLED?)
    && (q.job.status.QUEUED? ==> q.queued || q.cancelling > 0)
  }

  // A refund is never taken back.
  lemma {:induction false} BodyRefundsGrow(steps: seq<Step>, j: Job, up: seq<nat>, k: nat, sc: Script)
    requires k <= |steps|
    ensures j.refunds <= Body(steps, j, up, k, sc).job.refunds
    decreases |steps| - k
  {
    if k < |steps| {
      var (j2, up2) := Effect(Interrupt(j, k, sc), up, steps[k], sc);
      BodyRefundsGrow(steps, j2, up2, k + 1, sc);
    }
  }

  lemma CatchRefundsGrow(e: End, attemptsMade: nat, maxAttempts: nat, sc: Script)
    ensures e.job.refunds <= Catch(e, attemptsMade, maxAttempts, sc).0.refunds
  {
    var j := Interrupt(Rollback(e.job, e.uploaded, sc), STEPS, sc);
    assert e.job.refunds <= j.refunds;
    assert j.refunds <= Interrupt(Clean(j, sc), STEPS + 1, sc).refunds;
  }

  lemma AttemptRefundsGrow(j: Job, attemptsMade: nat, maxAttempts: nat, sc: Script)
    ensures j.refunds <= Attempt(j, attemptsMade, maxAttempts, sc).0.refunds
  {
    BodyRefundsGrow(HANDLE, j, [], 0, sc);
    CatchRefundsGrow(Body(HANDLE, j, [], 0, sc), attemptsMade, maxAttempts, sc);
  }

  // A commit whose check is older than the job's final failure: the second refund.
  predicate RefundsFailure(q: Queue, e: Event) {
    e.CommitAsked? && q.cancelling > 0 && q.job.status.FAILED? && q.job.cost > 0
  }

  ghost predicate RefundedAfterFailure(cost: int, es: seq<Event>, maxAttempts: nat) {
    exists i | 0 <= i < |es| :: RefundsFailure(Run(Enqueued(cost), es[..i], maxAttempts), es[i])
  }

  lemma RefundedAfterFailureSnoc(cost: int, es: seq<Event>, maxAttempts: nat)
    requires es != []
    ensures
      var before, e := es[..|es| - 1], es[|es| - 1];
      RefundedAfterFailure(cost, es, maxAttempts) <==>
        RefundedAfterFailure(cost, before, maxAttempts)
        || RefundsFailure(Run(Enqueued(cost), before, maxAttempts), e)
  {
    var n := |es| - 1;
    assert forall i | 0 <= i < n :: es[..n][..i] == es[..i] && es[..n][i] == es[i];
  }

  // Two refunds paid: no status is settled with that.
  lemma {:induction false} TwiceRefundedForGood(cost: int, es: seq<Event>, maxAttempts: nat)
    requires RefundedAfterFailure(cost, es, maxAttempts)
    requires QuietEvents(es) && maxAttempts >= 1
    ensures |Run(Enqueued(cost), es, maxAttempts).job.refunds| == 2
    decreases |es|
  {
    hide Attempt;
    var before, e := es[..|es| - 1], es[|es| - 1];
    var q := Run(Enqueued(cost), before, maxAttempts);
    RefundedAfterFailureSnoc(cost, es, maxAttempts);
    RefundedOncePerReason(cost, es, maxAttempts);
    QuietPrefix(es);
    if RefundedAfterFailure(cost, before, maxAttempts) {
      TwiceRefundedForGood(cost, before, maxAttempts);
      if e.Deliver? { AttemptRefundsGrow(q.job, q.attempts, maxAttempts, e.script); }
    } else {
      SettledBetweenAttempts(cost, before, maxAttempts);
    }
  }

  lemma QuietPrefix(es: seq<Event>)
    requires QuietEvents(es) && es != []
    ensures QuietEvents(es[..|es| - 1])
  {
    var before := es[..|es| - 1];
    forall i | 0 <= i < |before| && before[i].Deliver? ensures Quiet(before[i].script) { assert before[i] == es[i]; }
  }

  /** Settlement on every history whose cancellations fall between attempts and whose
      commits do not follow a final failure: between events the job is settled, and while
      it can still be cancelled it is queued or about to be. */
  lemma {:induction false} SettledBetweenAttempts(cost: int, es: seq<Event>, maxAttempts: nat)
    requires maxAttempts >= 1 && QuietEvents(es) && !RefundedAfterFailure(cost, es, maxAttempts)
    ensures AtRest(Run(Enqueued(cost), es, maxAttempts))
    decreases |es|
  {
    if es != [] {
      var before := es[..|es| - 1];
      var q := Run(Enqueued(cost), before, maxAttempts);
      QuietPrefix(es);
      RefundedAfterFailureSnoc(cost, es, maxAttempts);
      SettledBetweenAttempts(cost, before, maxAttempts);
      RefundedOncePerReason(cost, before, maxAttempts);
      match es[|es| - 1]
      case Deliver(sc) =>
        if q.queued && q.job.status.QUEUED? { QuietAttempt(q.job, q.attempts, maxAttempts, sc); }
      case _ =>
    }
  }

  /** Cancels between attempts, their two halves apart: the job is settled exactly when no
      cancel that was checked before the final failure of a charged job commits after it. */
  lemma LateCancelSettlesIff(cost: int, es: seq<Event>, maxAttempts: nat)
    requires maxAttempts >= 1 && QuietEvents(es)
    ensures Settled(Run(Enqueued(cost), es, maxAttempts).job) <==> !RefundedAfterFailure(cost, es, maxAttempts)
  {
    if RefundedAfterFailure(cost, es, maxAttempts) {
      TwiceRefundedForGood(cost, es, maxAttempts);
    } else {
      SettledBetweenAttempts(cost, es, maxAttempts);
    }
  }

  lemma DeliveriesOnly(cost: int, es: seq<Event>, maxAttempts: nat)
    requires forall i | 0 <= i < |es| :: es[i].Deliver?
    ensures !RefundedAfterFailure(cost, es, maxAttempts)
  {
  }

  /** In ledger terms: minus the charge while queued or completed, zero once failed or cancelled. */
  lemma SettledBalance(j: Job)
    requires Settled(j) && j.cost >= 0
    ensures Balance(j) == if j.status.FAILED? || j.status.CANCELLED? then 0 else -j.cost
  {
    if j.status.FAILED? || j.status.CANCELLED? {
      assert j.cost == 0 || |j.refunds| == 1;
      assert j.cost == 0 ==> j.cost * |j.refunds| == 0;
    } else {
      assert j.cost * |j.refunds| == 0;
    }
  }

  /** The refund transaction is separate from the FAILED write and nothing retries it.
      The final failure of a charged job ends FAILED and refunded exactly when no
      database step of the error handler throws. */
  lemma FinalFailureSettledIff(j: Job, attemptsMade: nat, maxAttempts: nat, sc: Script)
    requires (j.status.QUEUED? || j.status.PROCESSING?) && j.refunds == [] && j.cost > 0
    requires Alone(sc, 0) && !(sc.retryable && attemptsMade + 1 < maxAttempts)
    ensures
      var j' := Attempt(j, attemptsMade, maxAttempts, sc).0;
      Body(HANDLE, j, [], 0, sc).exit.Threw? ==>
        (j'.status.FAILED? && Settled(j') <==> !sc.handlerFault(0) && !sc.handlerFault(1) && !sc.handlerFault(2))
  {
    QuietBodyKeepsLedger(HANDLE, j, [], 0, sc.(handlerFault := k => false));
    BodyIgnoresHandlerFaults(HANDLE, j, [], 0, sc);
  }

  lemma {:induction false} BodyIgnoresHandlerFaults(steps: seq<Step>, j: Job, up: seq<nat>, k: nat, sc: Script)
    requires k <= |steps|
    ensures Body(steps, j, up, k, sc) == Body(steps, j, up, k, sc.(handlerFault := k => false))
    decreases |steps| - k
  {
    if k < |steps| {
      var (j2, up2) := Effect(Interrupt(j, k, sc), up, steps[k], sc);
      BodyIgnoresHandlerFaults(steps, j2, up2, k + 1, sc);
    }
  }

  // ---------- What the ledger sees ----------

  predicate SameLedger(a: Job, b: Job) {
    a.status == b.status && a.cost == b.cost && a.refunds == b.refunds
  }

  // The status and the refunds never depend on rows and objects.
  lemma {:induction false} BodyLedger(
    steps: seq<Step>, a: Job, b: Job, upA: seq<nat>, upB: seq<nat>, k: nat, sc: Script)
    requires k <= |steps| && SameLedger(a, b)
    ensures
      var e, f := Body(steps, a, upA, k, sc), Body(steps, b, upB, k, sc);
      SameLedger(e.job, f.job) && e.exit == f.exit
    decreases |steps| - k
  {
    if k < |steps| {
      var a1, b1 := Interrupt(a, k, sc), Interrupt(b, k, sc);
      EffectStatus(a1, upA, steps[k], sc);
      EffectStatus(b1, upB, steps[k], sc);
      assert SameLedger(Effect(a1, upA, steps[k], sc).0, Effect(b1, upB, steps[k], sc).0);
      BodyLedger(steps, Effect(a1, upA, steps[k], sc).0, Effect(b1, upB, steps[k], sc).0,
                 Effect(a1, upA, steps[k], sc).1, Effect(b1, upB, steps[k], sc).1, k + 1, sc);
    }
  }

  lemma FailLedger(a: Job, b: Job, sc: Script)
    requires SameLedger(a, b)
    ensures SameLedger(FailForGood(a, sc).0, FailForGood(b, sc).0) && FailForGood(a, sc).1 == FailForGood(b, sc).1
  {
  }

  lemma CatchLedger(e: End, f: End, attemptsMade: nat, maxAttempts: nat, sc: Script)
    requires SameLedger(e.job, f.job) && e.exit == f.exit
    ensures
      var c, d := Catch(e, attemptsMade, maxAttempts, sc), Catch(f, attemptsMade, maxAttempts, sc);
      SameLedger(c.0, d.0) && c.1 == d.1
  {
    var a := Interrupt(Rollback(e.job, e.uploaded, sc), STEPS, sc);
    var b := Interrupt(Rollback(f.job, f.uploaded, sc), STEPS, sc);
    assert SameLedger(a, b);
    FailLedger(Interrupt(Clean(a, sc), STEPS + 1, sc), Interrupt(Clean(b, sc), STEPS + 1, sc), sc);
    hide FailForGood;
  }

  lemma AttemptLedger(a: Job, b: Job, attemptsMade: nat, maxAttempts: nat, sc: Script)
    requires SameLedger(a, b)
    ensures
      var c, d := Attempt(a, attemptsMade, maxAttempts, sc), Attempt(b, attemptsMade, maxAttempts, sc);
      SameLedger(c.0, d.0) && c.1 == d.1
  {
    hide Body, Catch;
    BodyLedger(HANDLE, a, b, [], [], 0, sc);
    CatchLedger(Body(HANDLE, a, [], 0, sc), Body(HANDLE, b, [], 0, sc), attemptsMade, maxAttempts, sc);
  }

  // What the ledger and the queue see of a job.
  predicate SameQueue(q: Queue, r: Queue) {
    SameLedger(q.job, r.job) && q.attempts == r.attempts && q.queued == r.queued && q.cancelling == r.cancelling
  }

  lemma AdvanceLedger(q: Queue, r: Queue, e: Event, maxAttempts: nat)
    requires SameQueue(q, r)
    ensures SameQueue(Advance(q, e, maxAttempts), Advance(r, e, maxAttempts))
  {
    hide Attempt;
    if e.Deliver? { AttemptLedger(q.job, r.job, q.attempts, maxAttempts, e.script); }
  }

  lemma {:induction false} BodyNeverPending(steps: seq<Step>, j: Job, up: seq<nat>, k: nat, sc: Script)
    requires k <= |steps| && !j.status.PENDING?
    ensures !Body(steps, j, up, k, sc).job.status.PENDING?
    decreases |steps| - k
  {
    if k < |steps| {
      var (j2, up2) := Effect(Interrupt(j, k, sc), up, steps[k], sc);
      BodyNeverPending(steps, j2, up2, k + 1, sc);
    }
  }

  lemma AttemptNeverPending(j: Job, attemptsMade: nat, maxAttempts: nat, sc: Script)
    requires !j.status.PENDING?
    ensures !Attempt(j, attemptsMade, maxAttempts, sc).0.status.PENDING?
  {
    BodyNeverPending(HANDLE, j, [], 0, sc);
    hide Body;
  }

  lemma {:induction false} NeverPending(cost: int, es: seq<Event>, maxAttempts: nat)
    ensures !Run(Enqueued(cost), es, maxAttempts).job.status.PENDING?
    decreases |es|
  {
    if es != [] {
      hide Attempt;
      var q := Run(Enqueued(cost), es[..|es| - 1], maxAttempts);
      NeverPending(cost, es[..|es| - 1], maxAttempts);
      if es[|es| - 1].Deliver? { AttemptNeverPending(q.job, q.attempts, maxAttempts, es[|es| - 1].script); }
    }
  }

  // ---------- What the queue makes of an attempt ----------

  /** An attempt throws exactly when its try block threw and the error is retryable, or a
      database step of the error handler threw: any of three after a failure, the cleanup
      after a noticed cancellation. */
  lemma ThrowsIff(j: Job, attemptsMade: nat, maxAttempts: nat, sc: Script)
    ensures
      var e := Body(HANDLE, j, [], 0, sc);
      Attempt(j, attemptsMade, maxAttempts, sc).1 <==>
        && !j.status.CANCELLED? && !j.status.COMPLETED?
        && ((e.exit.Cancelled? && sc.handlerFault(0))
            || (e.exit.Threw?
                && (sc.retryable || sc.handlerFault(0) || sc.handlerFault(1) || sc.handlerFault(2))))
  {
    hide Body;
  }

  /** A noticed cancellation is the end of a job: with a working database it stays CANCELLED,
      without output rows, and the queue does not hand it out again. */
  lemma NoticedCancelEnds(q: Queue, sc: Script, maxAttempts: nat)
    requires q.queued && !q.job.status.COMPLETED? && !q.job.status.CANCELLED? && !sc.handlerFault(0)
    ensures
      var q' := Advance(q, Deliver(sc), maxAttempts);
      Body(HANDLE, q.job, [], 0, sc).exit.Cancelled? ==>
        && q'.job.status.CANCELLED? && q'.job.rows == [] && !q'.queued && q'.attempts == q.attempts + 1
        && forall e: Event | e.Deliver? :: Advance(q', e, maxAttempts) == q'
  {
    CancelledIsCancelled(HANDLE, q.job, [], 0, sc);
    hide Body;
  }

  lemma {:induction false} CancelledIsCancelled(steps: seq<Step>, j: Job, up: seq<nat>, k: nat, sc: Script)
    requires k <= |steps|
    ensures Body(steps, j, up, k, sc).exit.Cancelled? ==> Body(steps, j, up, k, sc).job.status.CANCELLED?
    decreases |steps| - k
  {
    if k < |steps| {
      var (j2, up2) := Effect(Interrupt(j, k, sc), up, steps[k], sc);
      CancelledIsCancelled(steps, j2, up2, k + 1, sc);
    }
  }

  const SMOOTH := Script(k => false, false, k => false, k => true, k => false, k => false)

  lemma {:induction false} NothingThrown(steps: seq<Step>, j: Job, up: seq<nat>, k: nat, sc: Script)
    requires k <= |steps| && !j.status.CANCELLED? && forall i: nat :: !sc.fault(i) && !sc.cancels(i)
    ensures Body(steps, j, up, k, sc).exit.Finished?
    decreases |steps| - k
  {
    if k < |steps| {
      var (j2, up2) := Effect(j, up, steps[k], sc);
      NothingThrown(steps, j2, up2, k + 1, sc);
    }
  }

  ghost predicate NothingHappens(j: Job, attemptsMade: nat, maxAttempts: nat) {
    forall sc :: Attempt(j, attemptsMade, maxAttempts, sc) == (j, false)
  }

  /** Whatever would meet it, a delivery is passed over exactly when the job has been
      cancelled or completed. */
  lemma SkippedIff(j: Job, attemptsMade: nat, maxAttempts: nat)
    ensures NothingHappens(j, attemptsMade, maxAttempts) <==> j.status.CANCELLED? || j.status.COMPLETED?
  {
    if !j.status.CANCELLED? && !j.status.COMPLETED? {
      NothingThrown(HANDLE, j, [], 0, SMOOTH);
      FinishedIsCompleted(HANDLE, j, [], 0, SMOOTH);
      assert Attempt(j, attemptsMade, maxAttempts, SMOOTH).0.status.COMPLETED?;
      hide Body;
    }
  }

  /** Whatever meets its attempts, the queue hands a job out at most `maxAttempts` times. */
  lemma {:induction false} AttemptsBounded(cost: int, es: seq<Event>, maxAttempts: nat)
    requires maxAttempts >= 1
    ensures
      var q := Run(Enqueued(cost), es, maxAttempts);
      q.attempts <= maxAttempts && (q.queued ==> q.attempts < maxAttempts)
    decreases |es|
  {
    if es != [] {
      hide Attempt;
      AttemptsBounded(cost, es[..|es| - 1], maxAttempts);
    }
  }

  // ---------- Termination ----------

  /** Left to the queue, a job is done after at most `maxAttempts` deliveries: the queue
      holds it no longer, and it is COMPLETED or FAILED. */
  lemma {:induction false} DoneWithinAttempts(cost: int, es: seq<Event>, maxAttempts: nat)
    requires maxAttempts >= 1 && QuietEvents(es) && forall i | 0 <= i < |es| :: es[i].Deliver?
    ensures
      var q := Run(Enqueued(cost), es, maxAttempts);
      && q.attempts <= maxAttempts
      && (q.queued ==> q.attempts == |es| < maxAttempts)
      && (|es| >= maxAttempts ==> !q.queued && (q.job.status.COMPLETED? || q.job.status.FAILED?))
    decreases |es|
  {
    DeliveriesOnly(cost, es, maxAttempts);
    SettledBetweenAttempts(cost, es, maxAttempts);
    if es != [] {
      var before := es[..|es| - 1];
      var q := Run(Enqueued(cost), before, maxAttempts);
      forall i | 0 <= i < |before| ensures before[i].Deliver? && Quiet(before[i].script) { assert before[i] == es[i]; }
      DeliveriesOnly(cost, before, maxAttempts);
      DoneWithinAttempts(cost, before, maxAttempts);
      SettledBetweenAttempts(cost, before, maxAttempts);
      NeverCancelledAlone(cost, before, maxAttempts);
      NeverCancelledAlone(cost, es, maxAttempts);
    }
  }

  lemma {:induction false} NeverCancelledAlone(cost: int, es: seq<Event>, maxAttempts: nat)
    requires maxAttempts >= 1 && QuietEvents(es) && forall i | 0 <= i < |es| :: es[i].Deliver?
    ensures !Run(Enqueued(cost), es, maxAttempts).job.status.CANCELLED?
    ensures !Run(Enqueued(cost), es, maxAttempts).job.status.PENDING?
    ensures Run(Enqueued(cost), es, maxAttempts).cancelling == 0
    decreases |es|
  {
    if es != [] {
      var before := es[..|es| - 1];
      var q := Run(Enqueued(cost), before, maxAttempts);
      forall i | 0 <= i < |before| ensures before[i].Deliver? && Quiet(before[i].script) { assert before[i] == es[i]; }
      NeverCancelledAlone(cost, before, maxAttempts);
      DeliveriesOnly(cost, before, maxAttempts);
      SettledBetweenAttempts(cost, before, maxAttempts);
      if q.queued { QuietAttempt(q.job, q.attempts, maxAttempts, es[|es| - 1].script); }
    }
  }

  // ---------- A cancellation inside an attempt ----------

  predicate WritesStatus(step: Step) {
    step.Progress? || step.Complete?
  }

  // Step `c` is a check, and from `p` to it nothing throws or writes the status.
  ghost predicate ClearTo(steps: seq<Step>, p: nat, c: nat, sc: Script) {
    && p <= c < |steps| && steps[c].Check?
    && (forall k: nat | p <= k <= c :: !sc.fault(k) && !WritesStatus(steps[k]))
  }

  ghost predicate CheckComesFirst(steps: seq<Step>, p: nat, sc: Script) {
    exists c: nat :: ClearTo(steps, p, c, sc)
  }

  // A step leaves the ledger alone, and the status unless it is a status write.
  lemma EffectStatus(j: Job, up: seq<nat>, step: Step, sc: Script)
    ensures
      var j2 := Effect(j, up, step, sc).0;
      && j2.refunds == j.refunds && j2.cost == j.cost
      && (if WritesStatus(step) then !j2.status.CANCELLED? else j2.status == j.status)
  {
  }

  lemma {:induction false} OverwrittenStaysLost(steps: seq<Step>, j: Job, up: seq<nat>, k: nat, sc: Script)
    requires k <= |steps| && Alone(sc, k) && !j.status.CANCELLED?
    ensures
      var e := Body(steps, j, up, k, sc);
      !e.exit.Cancelled? && e.job.refunds == j.refunds && e.job.cost == j.cost && !e.job.status.CANCELLED?
    decreases |steps| - k
  {
    if k < |steps| {
      EffectStatus(j, up, steps[k], sc);
      var (j2, up2) := Effect(j, up, steps[k], sc);
      OverwrittenStaysLost(steps, j2, up2, k + 1, sc);
    }
  }

  lemma ClearToShift(steps: seq<Step>, p: nat, sc: Script)
    requires p < |steps| && !sc.fault(p) && !WritesStatus(steps[p]) && !steps[p].Check?
    ensures CheckComesFirst(steps, p, sc) <==> CheckComesFirst(steps, p + 1, sc)
  {
    if CheckComesFirst(steps, p, sc) {
      var c: nat :| ClearTo(steps, p, c, sc);
      assert ClearTo(steps, p + 1, c, sc);
    } else if CheckComesFirst(steps, p + 1, sc) {
      var c: nat :| ClearTo(steps, p + 1, c, sc);
      assert ClearTo(steps, p, c, sc);
    }
  }

  /** Progress writes are unconditional.  A cancellation that commits before step `p`
      is noticed exactly when the handler reaches one of its checks before it next
      writes the status or throws. */
  lemma {:induction false} CancelNoticedIff(steps: seq<Step>, j: Job, up: seq<nat>, p: nat, sc: Script)
    requires p <= |steps| && Alone(sc, p) && j.status.CANCELLED?
    ensures
      var e := Body(steps, j, up, p, sc);
      && (e.exit.Cancelled? <==> CheckComesFirst(steps, p, sc))
      && (e.exit.Cancelled? ==> e.job.status.CANCELLED?)
      && e.job.refunds == j.refunds && e.job.cost == j.cost
    decreases |steps| - p
  {
    if p < |steps| && !sc.fault(p) {
      var (j2, up2) := Effect(j, up, steps[p], sc);
      EffectStatus(j, up, steps[p], sc);
      if steps[p].Check? {
        assert ClearTo(steps, p, p, sc);
      } else if WritesStatus(steps[p]) {
        OverwrittenStaysLost(steps, j2, up2, p + 1, sc);
      } else {
        ClearToShift(steps, p, sc);
        CancelNoticedIff(steps, j2, up2, p + 1, sc);
      }
    }
  }

  lemma {:induction false} FinishedIsCompleted(steps: seq<Step>, j: Job, up: seq<nat>, k: nat, sc: Script)
    requires k < |steps| && steps[|steps| - 1].Complete? && Alone(sc, k + 1)
    ensures Body(steps, j, up, k, sc).exit.Finished? ==> Body(steps, j, up, k, sc).job.status.COMPLETED?
    decreases |steps| - k
  {
    if k + 1 < |steps| {
      var (j2, up2) := Effect(Interrupt(j, k, sc), up, steps[k], sc);
      FinishedIsCompleted(steps, j2, up2, k + 1, sc);
    }
  }

  // The job an attempt leaves, given how its try block ended.
  function Close(e: End, attemptsMade: nat, maxAttempts: nat, sc: Script): Job {
    if e.exit.Finished? then e.job else Catch(e, attemptsMade, maxAttempts, sc).0
  }

  lemma CloseAfterCancel(e: End, attemptsMade: nat, maxAttempts: nat, sc: Script)
    requires e.job.refunds == [REFUND_CANCELED_JOB] && e.job.cost > 0
    requires e.exit.Cancelled? ==> e.job.status.CANCELLED?
    requires e.exit.Finished? ==> e.job.status.COMPLETED?
    requires Alone(sc, STEPS) && forall k: nat :: !sc.handlerFault(k)
    ensures
      var j' := Close(e, attemptsMade, maxAttempts, sc);
      && (Settled(j') <==> e.exit.Cancelled?)
      && (j'.status.COMPLETED? ==> Balance(j') == 0)
      && (j'.status.FAILED? ==> Balance(j') == j'.cost)
  {
  }

  /** For a charged job whose one cancellation commits before step `p`, refund
      included, the attempt ends settled exactly when the cancellation was noticed.
      Otherwise the job completes free of charge, is queued again although refunded,
      or fails and is refunded a second time. */
  lemma CancelSettlesIff(j: Job, up: seq<nat>, p: nat, attemptsMade: nat, maxAttempts: nat, sc: Script)
    requires p < STEPS && Alone(sc, p) && j.status.CANCELLED? && j.cost > 0
    requires j.refunds == [REFUND_CANCELED_JOB] && forall k: nat :: !sc.handlerFault(k)
    ensures
      var j' := Close(Body(HANDLE, j, up, p, sc), attemptsMade, maxAttempts, sc);
      && (Settled(j') <==> CheckComesFirst(HANDLE, p, sc))
      && (j'.status.COMPLETED? ==> Balance(j') == 0)
      && (j'.status.FAILED? ==> Balance(j') == j'.cost)
  {
    CancelNoticedIff(HANDLE, j, up, p, sc);
    FinishedIsCompleted(HANDLE, j, up, p, sc);
    CloseAfterCancel(Body(HANDLE, j, up, p, sc), attemptsMade, maxAttempts, sc);
  }

  predicate IsFinal(attemptsMade: nat, maxAttempts: nat, sc: Script) {
    !(sc.retryable && attemptsMade + 1 < maxAttempts)
  }

  // The gaps of the error handler: after the rollback, before the FAILED write, before the refund.
  predicate HandlerReaches(p: nat, attemptsMade: nat, maxAttempts: nat, sc: Script) {
    p == STEPS || (p in {STEPS + 1, STEPS + 2} && IsFinal(attemptsMade, maxAttempts, sc))
  }

  ghost predicate OnlyCancelAt(sc: Script, p: nat) {
    forall k: nat :: sc.cancels(k) <==> k == p
  }

  /** For a charged job whose attempt threw and whose one cancellation commits in a gap of
      the error handler: the handler never looks again, so the job ends settled exactly
      when it does not come by that gap.  It is queued again although refunded, or both
      refunds are paid. */
  lemma HandlerCancelSettlesIff(e: End, p: nat, attemptsMade: nat, maxAttempts: nat, sc: Script)
    requires e.exit.Threw? && e.job.cost > 0 && e.job.refunds == [] && !e.job.status.CANCELLED?
    requires p in {STEPS, STEPS + 1, STEPS + 2} && OnlyCancelAt(sc, p) && forall k: nat :: !sc.handlerFault(k)
    ensures
      var j' := Close(e, attemptsMade, maxAttempts, sc);
      && (Settled(j') <==> !HandlerReaches(p, attemptsMade, maxAttempts, sc))
      && (HandlerReaches(p, attemptsMade, maxAttempts, sc) ==>
            Balance(j') == if IsFinal(attemptsMade, maxAttempts, sc) then j'.cost else 0)
      && (j'.status.QUEUED? <==> !IsFinal(attemptsMade, maxAttempts, sc))
  {
    var j := Interrupt(Rollback(e.job, e.uploaded, sc), STEPS, sc);
    assert j.refunds == if p == STEPS then [REFUND_CANCELED_JOB] else [];
    if IsFinal(attemptsMade, maxAttempts, sc) {
      var j1 := Interrupt(Clean(j, sc), STEPS + 1, sc);
      var j2 := Interrupt(j1.(status := FAILED), STEPS + 2, sc);
      assert j2.refunds == [REFUND_CANCELED_JOB];
      assert Refund(j2, REFUND_FAILED_JOB).refunds == [REFUND_CANCELED_JOB, REFUND_FAILED_JOB];
    }
  }

  /** With nothing throwing, only five of the gaps between steps let a cancellation
      through.  In particular one that arrives during the provider call, by far the
      longest step, is always overwritten by the 60% progress write. */
  lemma CancelWindows(j: Job, up: seq<nat>, p: nat, sc: Script)
    requires p < STEPS && Alone(sc, p) && j.status.CANCELLED?
    requires forall k: nat :: !sc.fault(k)
    ensures Body(HANDLE, j, up, p, sc).exit.Cancelled? <==> p in {0, 7, 10, 13, 14}
  {
    CancelNoticedIff(HANDLE, j, up, p, sc);
    ChecksAndWrites();
    if p in {0, 7, 10, 13, 14} {
      assert ClearTo(HANDLE, p, if p == 13 then 14 else p, sc);
    } else {
      forall c: nat ensures !ClearTo(HANDLE, p, c, sc) {
        assert WritesStatus(HANDLE[6]) && WritesStatus(HANDLE[9]) && WritesStatus(HANDLE[12]);
      }
    }
  }

  // Where the handler checks for cancellation, and the writes between the checks.
  lemma ChecksAndWrites()
    ensures |HANDLE| == STEPS && HANDLE[8].CallProvider?
    ensures forall c: nat | c < STEPS :: HANDLE[c].Check? <==> c in {0, 7, 10, 14}
    ensures WritesStatus(HANDLE[6]) && WritesStatus(HANDLE[9]) && WritesStatus(HANDLE[12]) && !WritesStatus(HANDLE[13])
    ensures forall c: nat | c in {0, 7, 10, 14} :: !WritesStatus(HANDLE[c])
  {
  }

  // ---------- Output rows and stored objects ----------

  // The output rows once the cleanup of step 1 is done and step `k` is next.
  function RowsAt(k: nat, up: seq<nat>): seq<Row>
    requires |up| == UploadsAt(k)
  {
    if k <= 17 then []
    else if k <= 19 then [Row(OUTPUT, None)]
    else if k <= 22 then [Row(OUTPUT, Some(up[0]))]
    else [Row(OUTPUT, Some(up[0])), Row(THUMBNAIL, if k == 23 then None else Some(up[1]))]
  }

  function UploadsAt(k: nat): nat {
    if k <= 15 then 0 else if k <= 21 then 1 else 2
  }

  // What the cleanup leaves in the folder: the objects no row names, and those storage refused to delete.
  function Swept(j: Job, sc: Script): set<nat> {
    j.storage - (Keys(j.rows) - Undeleted(Keys(j.rows), sc))
  }

  // Object keys are given out in increasing order.
  predicate KeysGivenOut(j: Job) {
    forall x | x in j.storage :: x < j.nextKey
  }

  /** Before step `k` of an attempt that began with `j0`: what the folder held, swept once
      the cleanup is done, and what this attempt uploaded; the rows follow the steps. */
  predicate Shape(j0: Job, j: Job, up: seq<nat>, k: nat, sc: Script) {
    && |up| == UploadsAt(k) && j0.nextKey <= j.nextKey
    && j.rows == (if k <= 1 then j0.rows else RowsAt(k, up))
    && j.storage == (if k <= 1 then j0.storage else Swept(j0, sc)) + ToSet(up)
    && (forall i | 0 <= i < |up| :: j0.nextKey <= up[i] < j.nextKey)
    && (|up| == 2 ==> up[0] != up[1])
  }

  lemma UploadShape(j0: Job, j: Job, up: seq<nat>, k: nat, sc: Script)
    requires Shape(j0, j, up, k, sc) && k in {15, 21}
    ensures Shape(j0, Effect(j, up, Upload, sc).0, Effect(j, up, Upload, sc).1, k + 1, sc)
  {
    assert ToSet(up + [j.nextKey]) == ToSet(up) + {j.nextKey};
    hide Swept;
  }

  lemma CleanupShape(j0: Job, j: Job, up: seq<nat>, sc: Script)
    requires Shape(j0, j, up, 1, sc)
    ensures Shape(j0, Effect(j, up, Cleanup, sc).0, Effect(j, up, Cleanup, sc).1, 2, sc)
  {
    assert up == [] && ToSet(up) == {} && j.storage == j0.storage;
  }

  lemma EffectShape(j0: Job, step: Step, j: Job, up: seq<nat>, k: nat, sc: Script)
    requires k < STEPS && Shape(j0, j, up, k, sc)
    requires step.Cleanup? <==> k == 1
    requires step.Upload? <==> k in {15, 21}
    requires step.CreateVersion? <==> k in {19, 23}
    requires step.CreateAsset? <==> k in {17, 22}
    requires (k == 17 ==> step == CreateAsset(OUTPUT)) && (k == 22 ==> step == CreateAsset(THUMBNAIL))
    ensures Shape(j0, Effect(j, up, step, sc).0, Effect(j, up, step, sc).1, k + 1, sc)
  {
    if step.Upload? {
      UploadShape(j0, j, up, k, sc);
    } else if step.Cleanup? {
      CleanupShape(j0, j, up, sc);
    } else {
      OtherShape(j0, step, j, up, k, sc);
    }
  }

  lemma OtherShape(j0: Job, step: Step, j: Job, up: seq<nat>, k: nat, sc: Script)
    requires k < STEPS && Shape(j0, j, up, k, sc) && !step.Upload? && !step.Cleanup? && k !in {1, 15, 21}
    requires step.CreateVersion? <==> k in {19, 23}
    requires step.CreateAsset? <==> k in {17, 22}
    requires (k == 17 ==> step == CreateAsset(OUTPUT)) && (k == 22 ==> step == CreateAsset(THUMBNAIL))
    ensures Shape(j0, Effect(j, up, step, sc).0, Effect(j, up, step, sc).1, k + 1, sc)
  {
    hide Swept, ToSet;
  }

  ghost predicate InSourceOrder(steps: seq<Step>) {
    && |steps| == STEPS
    && (forall k: nat | k < STEPS ::
          && (steps[k].Cleanup? <==> k == 1)
          && (steps[k].Upload? <==> k in {15, 21})
          && (steps[k].CreateVersion? <==> k in {19, 23})
          && (steps[k].CreateAsset? <==> k in {17, 22}))
    && steps[17] == CreateAsset(OUTPUT) && steps[22] == CreateAsset(THUMBNAIL)
  }

  predicate HalfCleaned(e: End, sc: Script) {
    e.exit.Threw? && e.at == 1 && sc.cleanupStarted(1)
  }

  // A cleanup that throws after its deletes has swept the folder and left the rows.
  predicate EndShape(j0: Job, e: End, sc: Script) {
    if HalfCleaned(e, sc) then
      e.uploaded == [] && e.job.rows == j0.rows && e.job.storage == Swept(j0, sc) && j0.nextKey <= e.job.nextKey
    else Shape(j0, e.job, e.uploaded, e.at, sc)
  }

  lemma {:induction false} BodyShape(j0: Job, steps: seq<Step>, j: Job, up: seq<nat>, k: nat, sc: Script)
    requires InSourceOrder(steps) && k <= STEPS && Shape(j0, j, up, k, sc)
    ensures
      var e := Body(steps, j, up, k, sc);
      && EndShape(j0, e, sc)
      && (if e.exit.Finished? then e.at == STEPS else e.at < STEPS)
      && (e.exit.Cancelled? ==> e.at != 1)
    decreases |steps| - k
  {
    if k < |steps| {
      hide Shape, Effect, Interrupt, HalfClean;
      var j1 := Interrupt(j, k, sc);
      InterruptShape(j0, j, up, k, sc);
      EffectShape(j0, steps[k], j1, up, k, sc);
      if sc.fault(k) {
        StopShape(j0, steps, j1, up, k, sc);
      } else if !(steps[k].Check? && j1.status.CANCELLED?) {
        var (j2, up2) := Effect(j1, up, steps[k], sc);
        BodyShape(j0, steps, j2, up2, k + 1, sc);
      }
    }
  }

  lemma InterruptShape(j0: Job, j: Job, up: seq<nat>, k: nat, sc: Script)
    requires k <= STEPS && Shape(j0, j, up, k, sc)
    ensures Shape(j0, Interrupt(j, k, sc), up, k, sc)
  {
    hide Swept, ToSet;
  }

  lemma StopShape(j0: Job, steps: seq<Step>, j1: Job, up: seq<nat>, k: nat, sc: Script)
    requires InSourceOrder(steps) && k < STEPS && Shape(j0, j1, up, k, sc)
    ensures
      EndShape(j0, End(if steps[k].Cleanup? then HalfClean(j1, k, sc) else j1, up, Threw, k), sc)
  {
    assert up == [] ==> ToSet(up) == {};
  }

  /** One OUTPUT and one THUMBNAIL asset, each with its version, naming two different
      objects that are in the folder beside `left` and nothing else. */
  predicate PublishedBeside(j: Job, left: set<nat>) {
    && |j.rows| == 2 && j.rows[0].role.OUTPUT? && j.rows[1].role.THUMBNAIL?
    && j.rows[0].key.Some? && j.rows[1].key.Some? && j.rows[0].key != j.rows[1].key
    && j.storage == left + {j.rows[0].key.value, j.rows[1].key.value}
    && j.rows[0].key.value !in left && j.rows[1].key.value !in left
  }

  predicate Published(j: Job) {
    PublishedBeside(j, {})
  }

  lemma ShapeKeys(j0: Job, j: Job, up: seq<nat>, k: nat, sc: Script)
    requires Shape(j0, j, up, k, sc) && 2 <= k <= STEPS
    ensures Keys(j.rows) <= ToSet(up)
  {
    forall x | x in Keys(j.rows) ensures x in ToSet(up) {
      assert |up| >= 1 ==> up[0] in ToSet(up);
      assert |up| >= 2 ==> up[1] in ToSet(up);
    }
  }

  predicate HandlerCleans(e: End, attemptsMade: nat, maxAttempts: nat, sc: Script) {
    e.exit.Cancelled? || IsFinal(attemptsMade, maxAttempts, sc)
  }

  // Whether some cleanup of the attempt deleted the objects of the rows it began with.
  predicate CleanedUp(e: End, attemptsMade: nat, maxAttempts: nat, sc: Script) {
    || e.at >= 2 || HalfCleaned(e, sc)
    || (HandlerCleans(e, attemptsMade, maxAttempts, sc) && (!sc.handlerFault(0) || sc.cleanupStarted(STEPS)))
  }

  function LeftOver(j0: Job, e: End, attemptsMade: nat, maxAttempts: nat, sc: Script): set<nat> {
    if CleanedUp(e, attemptsMade, maxAttempts, sc) then Swept(j0, sc) else j0.storage
  }

  // The folder once the error handler's own cleanup has run.
  lemma CleanStorage(j0: Job, e: End, j: Job, sc: Script)
    requires KeysGivenOut(j0) && EndShape(j0, e, sc) && e.at < STEPS
    requires j.rows == e.job.rows && j.storage == Rollback(e.job, e.uploaded, sc).storage
    ensures CleanObjects(j, sc).storage == Swept(j0, sc) + Undeleted(ToSet(e.uploaded), sc)
  {
    var kept := Undeleted(ToSet(e.uploaded), sc);
    RollbackStorage(j0, e, sc);
    if e.at >= 2 {
      ShapeKeys(j0, e.job, e.uploaded, e.at, sc);
      assert forall x | x in Keys(j.rows) :: x in ToSet(e.uploaded) && x !in j0.storage;
      assert (Swept(j0, sc) + kept) * (Keys(j.rows) - Undeleted(Keys(j.rows), sc)) == {};
    } else {
      assert kept == {};
    }
  }

  lemma RollbackStorage(j0: Job, e: End, sc: Script)
    requires KeysGivenOut(j0) && EndShape(j0, e, sc) && e.at < STEPS
    ensures
      var base := if e.at >= 2 || HalfCleaned(e, sc) then Swept(j0, sc) else j0.storage;
      Rollback(e.job, e.uploaded, sc).storage == base + Undeleted(ToSet(e.uploaded), sc)
  {
    var base := if e.at >= 2 || HalfCleaned(e, sc) then Swept(j0, sc) else j0.storage;
    assert forall x | x in ToSet(e.uploaded) :: x !in base;
    assert e.job.storage == base + ToSet(e.uploaded);
  }

  lemma CatchArtifacts(j0: Job, e: End, attemptsMade: nat, maxAttempts: nat, sc: Script)
    requires KeysGivenOut(j0) && EndShape(j0, e, sc) && e.at < STEPS && !e.exit.Finished?
    ensures
      var j' := Catch(e, attemptsMade, maxAttempts, sc).0;
      && j'.storage == LeftOver(j0, e, attemptsMade, maxAttempts, sc) + Undeleted(ToSet(e.uploaded), sc)
      && (HandlerCleans(e, attemptsMade, maxAttempts, sc) ==> j'.rows == if sc.handlerFault(0) then e.job.rows else [])
      && (e.exit.Threw? && !IsFinal(attemptsMade, maxAttempts, sc) ==> j'.rows == e.job.rows)
      && j'.nextKey == e.job.nextKey
  {
    var j := Interrupt(Rollback(e.job, e.uploaded, sc), STEPS, sc);
    RollbackStorage(j0, e, sc);
    CleanStorage(j0, e, j, sc);
    hide EndShape, Swept, Undeleted, ToSet, Keys, KeysGivenOut;
  }

  ghost predicate ArtifactsClosed(j0: Job, e: End, j': Job, attemptsMade: nat, maxAttempts: nat, sc: Script) {
    if e.exit.Finished? then PublishedBeside(j', Swept(j0, sc))
    else
      && j'.storage == LeftOver(j0, e, attemptsMade, maxAttempts, sc) + Undeleted(ToSet(e.uploaded), sc)
      && (HandlerCleans(e, attemptsMade, maxAttempts, sc) ==> j'.rows == if sc.handlerFault(0) then e.job.rows else [])
      && (e.exit.Threw? && !IsFinal(attemptsMade, maxAttempts, sc) && e.at >= 2 ==> (j'.rows == [] <==> e.at <= 17))
  }

  lemma CloseArtifacts(j0: Job, e: End, attemptsMade: nat, maxAttempts: nat, sc: Script)
    requires KeysGivenOut(j0) && EndShape(j0, e, sc)
    requires if e.exit.Finished? then e.at == STEPS else e.at < STEPS
    ensures ArtifactsClosed(j0, e, Close(e, attemptsMade, maxAttempts, sc), attemptsMade, maxAttempts, sc)
    ensures KeysGivenOut(Close(e, attemptsMade, maxAttempts, sc))
  {
    if e.exit.Finished? {
      assert ToSet(e.uploaded) == {e.uploaded[0], e.uploaded[1]};
    } else {
      CatchArtifacts(j0, e, attemptsMade, maxAttempts, sc);
    }
  }

  /** Whichever step throws, from any folder: a finished attempt leaves exactly the two
      named objects beside what its cleanup could not delete; any other leaves, of its own
      uploads, those storage refused to delete, so none when every delete succeeds.  An
      attempt that failed for good or noticed a cancellation leaves no output row, or all
      it had when the handler's cleanup throws; one that is retried leaves rows exactly
      when it failed after step 17, where the first row is created. */
  lemma AttemptArtifacts(j: Job, attemptsMade: nat, maxAttempts: nat, sc: Script)
    requires !SkipsJob(j) && KeysGivenOut(j)
    ensures ArtifactsClosed(j, Body(HANDLE, j, [], 0, sc), Attempt(j, attemptsMade, maxAttempts, sc).0,
                            attemptsMade, maxAttempts, sc)
    ensures KeysGivenOut(Attempt(j, attemptsMade, maxAttempts, sc).0)
  {
    assert InSourceOrder(HANDLE);
    assert ToSet([]) == {};
    BodyShape(j, HANDLE, j, [], 0, sc);
    CloseArtifacts(j, Body(HANDLE, j, [], 0, sc), attemptsMade, maxAttempts, sc);
  }

  ghost predicate DeletesSucceed(es: seq<Event>) {
    forall i, k: nat | 0 <= i < |es| && es[i].Deliver? :: es[i].script.deletes(k)
  }

  lemma CatchNeverCompletes(e: End, attemptsMade: nat, maxAttempts: nat, sc: Script)
    requires !e.exit.Finished? && !e.job.status.COMPLETED?
    ensures !Catch(e, attemptsMade, maxAttempts, sc).0.status.COMPLETED?
  {
  }

  lemma {:induction false} CompletedOnlyAtEnd(steps: seq<Step>, j: Job, up: seq<nat>, k: nat, sc: Script)
    requires k < |steps| && steps[|steps| - 1].Complete? && !j.status.COMPLETED?
    requires forall i | 0 <= i < |steps| - 1 :: !steps[i].Complete?
    ensures
      var e := Body(steps, j, up, k, sc);
      e.exit.Finished? <==> e.job.status.COMPLETED?
    decreases |steps| - k
  {
    var (j2, up2) := Effect(Interrupt(j, k, sc), up, steps[k], sc);
    if k + 1 < |steps| { CompletedOnlyAtEnd(steps, j2, up2, k + 1, sc); }
  }

  // The folder says what the status says.
  predicate FolderMatches(j: Job) {
    if j.status.COMPLETED? then Published(j) else j.storage == {}
  }

  // A commit whose check is older than the job's completion.
  predicate CancelsCompleted(q: Queue, e: Event) {
    e.CommitAsked? && q.cancelling > 0 && q.job.status.COMPLETED?
  }

  ghost predicate CancelledAfterCompletion(cost: int, es: seq<Event>, maxAttempts: nat) {
    exists i | 0 <= i < |es| :: CancelsCompleted(Run(Enqueued(cost), es[..i], maxAttempts), es[i])
  }

  lemma CancelledAfterCompletionSnoc(cost: int, es: seq<Event>, maxAttempts: nat)
    requires es != []
    ensures
      var before, e := es[..|es| - 1], es[|es| - 1];
      CancelledAfterCompletion(cost, es, maxAttempts) <==>
        CancelledAfterCompletion(cost, before, maxAttempts)
        || CancelsCompleted(Run(Enqueued(cost), before, maxAttempts), e)
  {
    var n := |es| - 1;
    assert forall i | 0 <= i < n :: es[..n][..i] == es[..i] && es[..n][i] == es[i];
  }

  // A delivery with working deletes, of a job whose folder is empty.
  lemma DeliveryKeepsFolder(q: Queue, sc: Script, maxAttempts: nat)
    requires q.queued && q.job.storage == {} && !q.job.status.COMPLETED? && forall k: nat :: sc.deletes(k)
    ensures
      var q' := Advance(q, Deliver(sc), maxAttempts);
      FolderMatches(q'.job) && (q'.job.status.COMPLETED? ==> !q'.queued)
  {
    if !SkipsJob(q.job) {
      var e := Body(HANDLE, q.job, [], 0, sc);
      AttemptArtifacts(q.job, q.attempts, maxAttempts, sc);
      CompletesIffFinished(q.job, q.attempts, maxAttempts, sc);
      assert !e.exit.Finished? ==> Undeleted(ToSet(e.uploaded), sc) == {};
      assert Swept(q.job, sc) == {};
      hide Body, Catch, Swept, PublishedBeside;
    }
  }

  lemma CompletesIffFinished(j: Job, attemptsMade: nat, maxAttempts: nat, sc: Script)
    requires !SkipsJob(j)
    ensures
      var e := Body(HANDLE, j, [], 0, sc);
      && (Attempt(j, attemptsMade, maxAttempts, sc).0.status.COMPLETED? <==> e.exit.Finished?)
      && (e.exit.Finished? ==> !Attempt(j, attemptsMade, maxAttempts, sc).1)
  {
    var e := Body(HANDLE, j, [], 0, sc);
    assert InSourceOrder(HANDLE);
    CompletedOnlyAtEnd(HANDLE, j, [], 0, sc);
    if !e.exit.Finished? { CatchNeverCompletes(e, attemptsMade, maxAttempts, sc); }
  }

  /** Over every history, with cancellations inside attempts, faults anywhere and the two
      halves of a cancel apart, while deletes succeed: the folder holds the two named
      objects when the job is COMPLETED and nothing otherwise, exactly when no cancel that
      was checked before the completion commits after it.  Such a commit leaves a
      CANCELLED job with both its objects and rows. */
  lemma {:induction false} StorageMatchesStatus(cost: int, es: seq<Event>, maxAttempts: nat)
    requires DeletesSucceed(es)
    ensures
      var q := Run(Enqueued(cost), es, maxAttempts);
      var late := CancelledAfterCompletion(cost, es, maxAttempts);
      && (FolderMatches(q.job) <==> !late)
      && (late ==> q.job.status.CANCELLED? && Published(q.job))
      && (late || q.job.status.COMPLETED? ==> !q.queued)
    decreases |es|
  {
    if es != [] {
      var before := es[..|es| - 1];
      var q := Run(Enqueued(cost), before, maxAttempts);
      CancelledAfterCompletionSnoc(cost, es, maxAttempts);
      forall i, k: nat | 0 <= i < |before| && before[i].Deliver? ensures before[i].script.deletes(k) {
        assert before[i] == es[i];
      }
      StorageMatchesStatus(cost, before, maxAttempts);
      match es[|es| - 1]
      case Deliver(sc) =>
        assert forall k: nat :: sc.deletes(k);
        if q.queued { DeliveryKeepsFolder(q, sc, maxAttempts); }
      case _ =>
    }
  }

  /** That history exists: a cancel is asked for, the attempt completes, the cancel
      commits.  The job ends CANCELLED and paid back, and its video stays. */
  lemma CancelledWithVideo(cost: int, maxAttempts: nat)
    requires cost > 0 && maxAttempts >= 1
    ensures
      var j := Run(Enqueued(cost), [AskCancel(false), Deliver(SMOOTH), CommitAsked], maxAttempts).job;
      j.status.CANCELLED? && Balance(j) == 0 && Published(j)
  {
    var es := [AskCancel(false), Deliver(SMOOTH), CommitAsked];
    var asked := Advance(Enqueued(cost), es[0], maxAttempts);
    var done := Advance(asked, es[1], maxAttempts);
    NothingThrown(HANDLE, asked.job, [], 0, SMOOTH);
    QuietAttempt(asked.job, 0, maxAttempts, SMOOTH);
    AttemptRefundsSane(asked.job, 0, maxAttempts, SMOOTH);
    DeliveryKeepsFolder(asked, SMOOTH, maxAttempts);
    assert done.job.status.COMPLETED? && done.job.refunds == [] && done.cancelling == 1;
    assert es[..2][..1] == es[..1] && es[..1][..0] == [] && es[..2] == [es[0], es[1]] && es[..1] == [es[0]];
    assert Run(Enqueued(cost), es[..1], maxAttempts) == asked;
    assert Run(Enqueued(cost), es[..2], maxAttempts) == done;
  }
}
