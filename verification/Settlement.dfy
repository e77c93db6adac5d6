/** The whole credit system at once: creations, failed enqueues, cancels, deliveries of
    jobs to the worker, and every other writer of the database, for any users and jobs.
    An attempt is one step here; its script says what meets it on the way. */
module Settlement {
  import opened Prelude
  import opened Catalog
  import opened Credits
  import L = LedgerRuns
  import V = VideoJob

  const MAX_ATTEMPTS: nat := 3

  // The database, what the queue knows of each job, and the cancels that have not committed yet.
  datatype System = System(db: Db, attempts: map<Id, nat>, queued: set<Id>, cancelling: multiset<Id>)

  datatype Action =
    | Create(user: Id, preset: PresetId, input: Input, job: Id, now: int, date: Id, enqueued: bool)
    | Cancel(user: Id, job: Id, removed: bool)
    | AskCancel(user: Id, job: Id, removed: bool)    // a cancel up to its commit
    | CommitCancel(job: Id)                          // the commit of one asked for earlier
    | Deliver(job: Id, script: V.Script)
    | Elsewhere(action: L.Action)

  // Writers that have nothing to do with jobs.
  predicate LeavesJobs(a: L.Action) {
    || a.DoRegister? || a.DoTopUp? || a.DoValidate? || a.DoDemote?
    || a.DoCreateOrder? || a.DoFailOrder? || a.DoClaim?
  }

  // Refund transactions one after the other; one that finds no wallet fails.
  function PayAll(db: Db, job: Id, reasons: seq<V.Reason>): (r: Db)
    requires job in db.jobs
    ensures r.jobs == db.jobs
    decreases |reasons|
  {
    if reasons == [] then db
    else
      var before := PayAll(db, job, reasons[..|reasons| - 1]);
      var paid := RefundIfMissing(before, job, reasons[|reasons| - 1]);
      if paid.Some? then paid.value else before
  }

  // What an attempt that took the row's view to `j` wrote: its status and the refunds it added.
  function Written(db: Db, job: Id, j: V.Job): Db
    requires job in db.jobs
  {
    var paid := |L.RefundsOf(db.ledger, job)|;
    PayAll(SetStatus(db, job, j.status), job, if paid <= |j.refunds| then j.refunds[paid..] else [])
  }

  function DoCreate(s: System, a: Action): System
    requires a.Create?
  {
    var (db, result) := CreateVideoJob(s.db, a.user, a.preset, a.input, a.job, a.now, a.date);
    if !result.Ok? then s
    else if a.enqueued then s.(db := db, attempts := s.attempts[a.job := 0], queued := s.queued + {a.job})
    else
      var refunded := CloseWithRefund(db, a.job, V.FAILED, V.REFUND_FAILED_JOB).0;
      s.(db := refunded, attempts := s.attempts[a.job := 0])
  }

  function DoCancel(s: System, u: Id, job: Id, removed: bool): System {
    var (db, result) := CancelJob(s.db, u, job);
    if !result.Ok? then s else s.(db := db, queued := if removed then s.queued - {job} else s.queued)
  }

  function DoAskCancel(s: System, u: Id, job: Id, removed: bool): System {
    if !CancelJob(s.db, u, job).1.Ok? then s
    else
      s.(queued := if removed then s.queued - {job} else s.queued,
         cancelling := s.cancelling + multiset{job})
  }

  function DoCommitCancel(s: System, job: Id): System {
    if job !in s.cancelling then s
    else
      s.(db := CloseWithRefund(s.db, job, V.CANCELLED, V.REFUND_CANCELED_JOB).0,
         cancelling := s.cancelling - multiset{job})
  }

  function DoDeliver(s: System, job: Id, sc: V.Script): System {
    if job !in s.queued || job !in s.db.jobs || job !in s.attempts then s
    else
      var made := s.attempts[job];
      var (j, threw) := V.Attempt(L.View(s.db, job), made, MAX_ATTEMPTS, sc);
      s.(db := Written(s.db, job, j),
         attempts := s.attempts[job := made + 1],
         queued := if threw && made + 1 < MAX_ATTEMPTS then s.queued else s.queued - {job})
  }

  function Step(s: System, a: Action): System {
    match a
    case Create(_, _, _, _, _, _, _) => DoCreate(s, a)
    case Cancel(u, job, removed) => DoCancel(s, u, job, removed)
    case AskCancel(u, job, removed) => DoAskCancel(s, u, job, removed)
    case CommitCancel(job) => DoCommitCancel(s, job)
    case Deliver(job, sc) => DoDeliver(s, job, sc)
    case Elsewhere(action) => if LeavesJobs(action) then s.(db := L.Step(s.db, action)) else s
  }

  const START := System(EMPTY, map[], {}, multiset{})

  function Run(run: seq<Action>): System
    decreases |run|
  {
    if run == [] then START else Step(Run(run[..|run| - 1]), run[|run| - 1])
  }

  // ---------- What every step keeps ----------

  function QueueOf(s: System, job: Id): V.Queue
    requires job in s.db.jobs && job in s.attempts
  {
    V.Queue(L.View(s.db, job), s.attempts[job], job in s.queued, s.cancelling[job])
  }

  // Whatever attempts meet.
  ghost predicate Kept(s: System) {
    && L.JobsBalance(s.db) && s.queued <= s.db.jobs.Keys <= s.attempts.Keys
    && forall job | job in s.cancelling :: job in s.db.jobs
  }

  // Every other job is as it was.
  ghost predicate OthersStay(s: System, s': System, job: Id) {
    forall j | j in s.db.jobs && j != job :: j in s.attempts ==> JobStays(s, s', j)
  }

  predicate JobStays(s: System, s': System, j: Id)
    requires j in s.db.jobs && j in s.attempts
  {
    j in s'.db.jobs && j in s'.attempts && QueueOf(s', j) == QueueOf(s, j)
  }

  // Refunds not paid before are paid, in order, and nothing else changes.
  lemma {:induction false} PayAllProjects(db: Db, job: Id, reasons: seq<V.Reason>)
    requires L.JobsBalance(db) && job in db.jobs && (reasons == [] || db.jobs[job].cost > 0)
    requires V.NoRepeat(L.View(db, job).refunds + reasons)
    ensures
      var db' := PayAll(db, job, reasons);
      && L.JobsBalance(db')
      && L.View(db', job) == L.View(db, job).(refunds := L.View(db, job).refunds + reasons)
      && (forall x | x in db.jobs && x != job :: L.View(db', x) == L.View(db, x))
    decreases |reasons|
  {
    var paid := L.View(db, job).refunds;
    if reasons == [] {
      assert paid + reasons == paid;
    } else {
      var front, last := reasons[..|reasons| - 1], reasons[|reasons| - 1];
      assert paid + reasons == (paid + front) + [last];
      NoRepeatFront(paid + front, last);
      hide L.JobsBalance, L.View, V.NoRepeat;
      PayAllProjects(db, job, front);
      L.RefundProjects(PayAll(db, job, front), job, last);
    }
  }

  lemma NoRepeatFront(front: seq<V.Reason>, last: V.Reason)
    requires V.NoRepeat(front + [last])
    ensures V.NoRepeat(front) && last !in front
  {
    var all := front + [last];
    assert forall i | 0 <= i < |front| :: all[i] == front[i];
    assert all[|front|] == last;
  }

  lemma WrittenProjects(db: Db, job: Id, j: V.Job)
    requires L.JobsBalance(db) && job in db.jobs
    requires L.View(db, job).refunds <= j.refunds && j.cost == db.jobs[job].cost && V.RefundsSane(j)
    ensures
      var db' := Written(db, job, j);
      && L.JobsBalance(db') && db'.jobs.Keys == db.jobs.Keys
      && L.View(db', job) == L.View(db, job).(status := j.status, refunds := j.refunds)
      && (forall x | x in db.jobs && x != job :: L.View(db', x) == L.View(db, x))
  {
    L.StatusKeepsJobs(db, job, j.status);
    var marked, paid := SetStatus(db, job, j.status), L.RefundsOf(db.ledger, job);
    assert L.View(marked, job) == L.View(db, job).(status := j.status);
    assert paid + j.refunds[|paid|..] == j.refunds;
    hide L.JobsBalance;
    PayAllProjects(marked, job, j.refunds[|paid|..]);
  }

  /** A delivery, whatever cancels and faults its attempt meets, advances its job as the
      queue of the per-job model does, up to the asset rows and objects: the ledger gains
      exactly the refunds of the attempt.  It leaves every other job alone. */
  lemma DeliverAdvances(s: System, job: Id, sc: V.Script)
    requires Kept(s) && job in s.queued
    ensures
      var s' := DoDeliver(s, job, sc);
      && Kept(s') && s'.db.jobs.Keys == s.db.jobs.Keys && job in s'.attempts
      && V.SameQueue(QueueOf(s', job), V.Advance(QueueOf(s, job), V.Deliver(sc), MAX_ATTEMPTS))
      && OthersStay(s, s', job)
  {
    assert L.JobBalances(s.db, job);
    hide V.Attempt, Written, L.JobBalances, L.JobsBalance, V.RefundsSane;
    var view, made := L.View(s.db, job), s.attempts[job];
    assert V.RefundsSane(view) by { ViewIsSane(s.db, job); }
    V.AttemptRefundsSane(view, made, MAX_ATTEMPTS, sc);
    V.AttemptRefundsGrow(view, made, MAX_ATTEMPTS, sc);
    WrittenProjects(s.db, job, V.Attempt(view, made, MAX_ATTEMPTS, sc).0);
  }

  lemma ViewIsSane(db: Db, job: Id)
    requires job in db.jobs && L.JobBalances(db, job)
    ensures V.RefundsSane(L.View(db, job))
  {
  }

  lemma AcceptedIff(db: Db, u: Id, preset: PresetId, input: Input, job: Id, now: int, date: Id)
    ensures
      CreateVideoJob(db, u, preset, input, job, now, date).1 == CreateJobResult(db, u, preset, input, job, now, date)
  {
  }

  lemma CreateKeepsOthers(db: Db, u: Id, preset: PresetId, input: Input, job: Id, now: int, date: Id)
    requires CreateJobResult(db, u, preset, input, job, now, date).Ok?
    ensures
      var db' := CreateVideoJob(db, u, preset, input, job, now, date).0;
      && job !in db.jobs && db'.jobs.Keys == db.jobs.Keys + {job}
      && forall j | j in db.jobs :: L.View(db', j) == L.View(db, j)
  {
    var free, charged := FreeApplied(db, u, preset, now, date), Charged(db, u, preset, now, date);
    RowsOfOthers(db.ledger, QuotaRow(u, free), job);
    RowsOfOthers(db.ledger + QuotaRow(u, free), ChargeRow(u, charged, job), job);
  }

  lemma RowsOfOthers(ledger: seq<Tx>, rows: seq<Tx>, job: Id)
    requires |rows| <= 1 && forall t | t in rows :: t.job.None? || t.job == Some(job)
    ensures forall j | j != job :: L.RefundsOf(ledger + rows, j) == L.RefundsOf(ledger, j)
  {
    if rows == [] {
      assert ledger + rows == ledger;
    } else {
      assert rows == [rows[0]];
      L.Snoc(ledger, rows[0]);
      forall j | j != job
        ensures L.RefundsOf(ledger + [rows[0]], j) == L.RefundsOf(ledger, j)
      {
        assert L.RefundsOf(ledger, j) + [] == L.RefundsOf(ledger, j);
      }
    }
  }

  // At most one new row, and none of a job.
  lemma ElsewhereRow(db: Db, a: L.Action)
    requires LeavesJobs(a)
    ensures var db' := L.Step(db, a);
      && db'.jobs == db.jobs
      && (db'.ledger == db.ledger
          || (|db'.ledger| == |db.ledger| + 1 && db'.ledger == db.ledger + [db'.ledger[|db.ledger|]]
              && db'.ledger[|db.ledger|].job.None?))
  {
    if a.DoClaim? { L.ClaimMoves(db, a.order, a.seen, a.seenExpiry, a.providerId, a.now); }
  }

  lemma ElsewhereKeepsViews(db: Db, a: L.Action)
    requires LeavesJobs(a)
    ensures L.Step(db, a).jobs == db.jobs && forall j | j in db.jobs :: L.View(L.Step(db, a), j) == L.View(db, j)
  {
    ElsewhereRow(db, a);
    hide L.Step;
    var db' := L.Step(db, a);
    if db'.ledger != db.ledger {
      L.Snoc(db.ledger, db'.ledger[|db.ledger|]);
    }
  }

  // ---------- Whatever attempts meet ----------

  lemma CreateKept(s: System, a: Action)
    requires Kept(s) && a.Create?
    ensures Kept(DoCreate(s, a))
  {
    hide CreateJobResult, L.JobsBalance, L.View, CloseWithRefund;
    var (db, result) := CreateVideoJob(s.db, a.user, a.preset, a.input, a.job, a.now, a.date);
    AcceptedIff(s.db, a.user, a.preset, a.input, a.job, a.now, a.date);
    hide CreateVideoJob;
    if result.Ok? {
      L.CreateKeepsJobs(s.db, a.user, a.preset, a.input, a.job, a.now, a.date);
      CreateKeepsOthers(s.db, a.user, a.preset, a.input, a.job, a.now, a.date);
      if !a.enqueued {
        L.CloseProjects(db, a.job, V.FAILED, V.REFUND_FAILED_JOB);
      }
    }
  }

  lemma StepKept(s: System, a: Action)
    requires Kept(s)
    ensures Kept(Step(s, a))
  {
    hide L.JobsBalance, L.View, L.Step, CloseWithRefund, CreateVideoJob, V.Attempt, V.Advance, Written;
    match a
    case Create(_, _, _, _, _, _, _) => CreateKept(s, a);
    case Cancel(u, job, removed) =>
      if CancelJob(s.db, u, job).1.Ok? { L.CloseProjects(s.db, job, V.CANCELLED, V.REFUND_CANCELED_JOB); }
    case AskCancel(u, job, removed) => assert CancelJob(s.db, u, job).1.Ok? ==> job in s.db.jobs;
    case CommitCancel(job) =>
      if job in s.cancelling { L.CloseProjects(s.db, job, V.CANCELLED, V.REFUND_CANCELED_JOB); }
    case Elsewhere(action) =>
      if LeavesJobs(action) {
        L.StepKeepsJobs(s.db, action);
        ElsewhereKeepsViews(s.db, action);
      }
    case Deliver(job, sc) => if job in s.queued { DeliverAdvances(s, job, sc); }
  }

  lemma {:induction false} RunKept(run: seq<Action>)
    ensures Kept(Run(run))
    decreases |run|
  {
    if run != [] {
      RunKept(run[..|run| - 1]);
      StepKept(Run(run[..|run| - 1]), run[|run| - 1]);
    }
  }

  /** After any run, with cancels inside attempts, faults anywhere and commits of old
      cancels: a job's ledger rows sum to its charge negated plus one charge per refund,
      and no refund reason is paid twice. */
  lemma EveryJobBalances(run: seq<Action>, job: Id)
    requires job in Run(run).db.jobs
    ensures
      var s := Run(run);
      var refunds := L.RefundsOf(s.db.ledger, job);
      && L.JobSum(s.db.ledger, job) == s.db.jobs[job].cost * |refunds| - s.db.jobs[job].cost
      && V.NoRepeat(refunds)
  {
    RunKept(run);
    assert L.JobBalances(Run(run).db, job);
  }

  // ---------- Each job's run is one of the per-job model ----------

  lemma CreateOthers(s: System, a: Action, job: Id)
    requires Kept(s) && a.Create? && job in s.db.jobs
    ensures job in s.attempts && JobStays(s, DoCreate(s, a), job)
  {
    hide CreateJobResult, L.JobsBalance, L.View, CloseWithRefund;
    var (db, result) := CreateVideoJob(s.db, a.user, a.preset, a.input, a.job, a.now, a.date);
    AcceptedIff(s.db, a.user, a.preset, a.input, a.job, a.now, a.date);
    hide CreateVideoJob;
    assert job in s.attempts.Keys;
    if result.Ok? {
      L.CreateKeepsJobs(s.db, a.user, a.preset, a.input, a.job, a.now, a.date);
      CreateKeepsOthers(s.db, a.user, a.preset, a.input, a.job, a.now, a.date);
      if !a.enqueued { L.CloseProjects(db, a.job, V.FAILED, V.REFUND_FAILED_JOB); }
    }
  }

  // A commit that lands on a charged job which has failed since the cancel was checked.
  predicate CommitsLate(s: System, a: Action, job: Id) {
    && a == CommitCancel(job) && job in s.cancelling
    && job in s.db.jobs && s.db.jobs[job].status.FAILED? && s.db.jobs[job].cost > 0
  }

  ghost predicate CommittedLate(run: seq<Action>, job: Id) {
    exists i | 0 <= i < |run| :: CommitsLate(Run(run[..i]), run[i], job)
  }

  lemma CommittedLateSnoc(run: seq<Action>, job: Id)
    requires run != []
    ensures
      var before, a := run[..|run| - 1], run[|run| - 1];
      CommittedLate(run, job) <==> CommittedLate(before, job) || CommitsLate(Run(before), a, job)
  {
    hide Run, CommitsLate;
    var n := |run| - 1;
    assert forall i | 0 <= i < n :: run[..n][..i] == run[..i] && run[..n][i] == run[i];
  }

  // The event of a job that an action is, if any.
  function EventOf(s: System, a: Action, job: Id): Option<V.Event> {
    match a
    case Cancel(u, j, removed) =>
      if j == job && CancelJob(s.db, u, j).1.Ok? then Some(V.CancelJob(removed)) else None
    case AskCancel(u, j, removed) =>
      if j == job && CancelJob(s.db, u, j).1.Ok? then Some(V.AskCancel(removed)) else None
    case CommitCancel(j) => if j == job then Some(V.CommitAsked) else None
    case Deliver(j, sc) => if j == job then Some(V.Deliver(sc)) else None
    case _ => None
  }

  function Followed(q: V.Queue, e: Option<V.Event>): V.Queue {
    if e.None? then q else V.Advance(q, e.value, MAX_ATTEMPTS)
  }

  lemma CancelProjects(s: System, u: Id, j: Id, removed: bool, job: Id)
    requires Kept(s) && job in s.db.jobs && job in s.attempts
    ensures
      var s' := DoCancel(s, u, j, removed);
      && job in s'.db.jobs && job in s'.attempts
      && QueueOf(s', job) == Followed(QueueOf(s, job), EventOf(s, Cancel(u, j, removed), job))
  {
    if CancelJob(s.db, u, j).1.Ok? { L.CloseProjects(s.db, j, V.CANCELLED, V.REFUND_CANCELED_JOB); }
    hide L.JobsBalance, CloseWithRefund;
  }

  lemma CommitProjects(s: System, j: Id, job: Id)
    requires Kept(s) && job in s.db.jobs && job in s.attempts
    ensures
      var s' := DoCommitCancel(s, j);
      && job in s'.db.jobs && job in s'.attempts
      && QueueOf(s', job) == Followed(QueueOf(s, job), EventOf(s, CommitCancel(j), job))
  {
    if j in s.cancelling { L.CloseProjects(s.db, j, V.CANCELLED, V.REFUND_CANCELED_JOB); }
    hide L.JobsBalance, CloseWithRefund;
  }

  lemma StepProjects(s: System, a: Action, job: Id)
    requires Kept(s) && job in s.db.jobs
    ensures
      var s' := Step(s, a);
      && job in s.attempts && job in s'.db.jobs && job in s'.attempts
      && V.SameQueue(QueueOf(s', job), Followed(QueueOf(s, job), EventOf(s, a, job)))
  {
    assert job in s.attempts.Keys;
    hide L.JobsBalance, L.View, V.Advance, L.Step, CreateVideoJob, CloseWithRefund, CancelJob;
    match a
    case Create(_, _, _, _, _, _, _) => CreateOthers(s, a, job);
    case Cancel(u, j, removed) => CancelProjects(s, u, j, removed, job);
    case AskCancel(u, j, removed) => AskProjects(s, u, j, removed, job);
    case CommitCancel(j) => CommitProjects(s, j, job);
    case Deliver(j, sc) => DeliverProjects(s, j, sc, job);
    case Elsewhere(action) =>
      if LeavesJobs(action) { ElsewhereKeepsViews(s.db, action); }
  }

  lemma AskProjects(s: System, u: Id, j: Id, removed: bool, job: Id)
    requires job in s.db.jobs && job in s.attempts
    ensures
      var s' := DoAskCancel(s, u, j, removed);
      && job in s'.db.jobs && job in s'.attempts
      && QueueOf(s', job) == Followed(QueueOf(s, job), EventOf(s, AskCancel(u, j, removed), job))
  {
  }

  lemma DeliverProjects(s: System, j: Id, sc: V.Script, job: Id)
    requires Kept(s) && job in s.db.jobs && job in s.attempts
    ensures
      var s' := DoDeliver(s, j, sc);
      && job in s'.db.jobs && job in s'.attempts
      && V.SameQueue(QueueOf(s', job), Followed(QueueOf(s, job), EventOf(s, Deliver(j, sc), job)))
  {
    hide V.Attempt, L.JobsBalance, L.View, Written;
    if j in s.queued { DeliverAdvances(s, j, sc); }
  }

  // Created, and failed with its refund because the queue did not take it.
  function Refused(cost: int): V.Queue {
    V.Queue(V.Refund(V.Created(cost).(status := V.FAILED), V.REFUND_FAILED_JOB), 0, false, 0)
  }

  lemma RefusedForGood(cost: int, e: V.Event)
    ensures V.Advance(Refused(cost), e, MAX_ATTEMPTS) == Refused(cost)
  {
  }

  lemma CreationProjects(s: System, a: Action, job: Id)
    requires Kept(s) && a.Create? && job !in s.db.jobs && job in DoCreate(s, a).db.jobs
    ensures
      var s' := DoCreate(s, a);
      && job in s'.attempts
      && var cost := s'.db.jobs[job].cost;
         QueueOf(s', job) == if a.enqueued then V.Enqueued(cost) else Refused(cost)
  {
    hide CreateJobResult, L.JobsBalance, L.View, CloseWithRefund;
    var (db, result) := CreateVideoJob(s.db, a.user, a.preset, a.input, a.job, a.now, a.date);
    AcceptedIff(s.db, a.user, a.preset, a.input, a.job, a.now, a.date);
    hide CreateVideoJob;
    L.CreateKeepsJobs(s.db, a.user, a.preset, a.input, a.job, a.now, a.date);
    CreateKeepsOthers(s.db, a.user, a.preset, a.input, a.job, a.now, a.date);
    assert a.job !in s.cancelling && a.job !in s.queued;
    if !a.enqueued {
      L.CloseProjects(db, a.job, V.FAILED, V.REFUND_FAILED_JOB);
      RefusedCost(db, DoCreate(s, a).db, job);
    }
  }

  lemma RefusedCost(db: Db, db': Db, job: Id)
    requires job in db.jobs && job in db'.jobs && L.View(db, job) == V.Created(db.jobs[job].cost)
    requires L.View(db', job) == V.Refund(L.View(db, job).(status := V.FAILED), V.REFUND_FAILED_JOB)
    ensures L.View(db', job) == Refused(db'.jobs[job].cost).job
  {
  }

  lemma OnlyCreationsAdd(s: System, a: Action, job: Id)
    requires Kept(s) && !a.Create? && job in Step(s, a).db.jobs
    ensures job in s.db.jobs
  {
    hide L.JobsBalance, L.View, V.Advance, L.Step, CreateVideoJob;
    match a
    case Deliver(j, sc) =>
      if j in s.queued { DeliverAdvances(s, j, sc); }
    case Elsewhere(action) =>
      if LeavesJobs(action) { ElsewhereKeepsViews(s.db, action); }
    case Cancel(u, j, removed) =>
      if CancelJob(s.db, u, j).1.Ok? { L.CloseProjects(s.db, j, V.CANCELLED, V.REFUND_CANCELED_JOB); }
    case CommitCancel(j) =>
      if j in s.cancelling { L.CloseProjects(s.db, j, V.CANCELLED, V.REFUND_CANCELED_JOB); }
    case _ =>
  }

  lemma {:induction false} NotLateBefore(run: seq<Action>, job: Id)
    requires job !in Run(run).db.jobs
    ensures !CommittedLate(run, job)
    decreases |run|
  {
    if run != [] {
      hide Kept, Step;
      var before, a := run[..|run| - 1], run[|run| - 1];
      RunKept(before);
      if job in Run(before).db.jobs { StepProjects(Run(before), a, job); }
      NotLateBefore(before, job);
      CommittedLateSnoc(run, job);
    }
  }

  // How the queue of the job began, and what has happened to it since.
  ghost predicate Follows(run: seq<Action>, job: Id, start: V.Queue, es: seq<V.Event>) {
    var s := Run(run);
    && job in s.db.jobs && job in s.attempts
    && V.SameQueue(QueueOf(s, job), V.Run(start, es, MAX_ATTEMPTS))
    && var cost := s.db.jobs[job].cost;
       if start == V.Enqueued(cost) then CommittedLate(run, job) <==> V.RefundedAfterFailure(cost, es, MAX_ATTEMPTS)
       else start == Refused(cost) && es == [] && !CommittedLate(run, job)
  }

  lemma LateProjects(s: System, a: Action, job: Id, q: V.Queue)
    requires job in s.db.jobs && job in s.attempts && V.SameQueue(QueueOf(s, job), q)
    ensures
      var e := EventOf(s, a, job);
      CommitsLate(s, a, job) <==> e.Some? && V.RefundsFailure(q, e.value)
  {
  }

  lemma SnocFollows(run: seq<Action>, job: Id, start: V.Queue, es: seq<V.Event>) returns (es': seq<V.Event>)
    requires run != [] && Follows(run[..|run| - 1], job, start, es)
    ensures Follows(run, job, start, es')
    ensures
      var e := EventOf(Run(run[..|run| - 1]), run[|run| - 1], job);
      es' == es || (e.Some? && es' == es + [e.value])
  {
    var before, a := run[..|run| - 1], run[|run| - 1];
    var s, q := Run(before), V.Run(start, es, MAX_ATTEMPTS);
    var e, cost := EventOf(s, a, job), s.db.jobs[job].cost;
    RunKept(before);
    hide Kept, V.Advance, V.RefundedAfterFailure, V.RefundsFailure, CommittedLate, CommitsLate, EventOf, Step;
    StepProjects(s, a, job);
    LateProjects(s, a, job, q);
    CommittedLateSnoc(run, job);
    es' := if e.Some? && start == V.Enqueued(cost) then es + [e.value] else es;
    if e.Some? {
      V.AdvanceLedger(QueueOf(s, job), q, e.value, MAX_ATTEMPTS);
      assert (es + [e.value])[..|es|] == es;
      if start == V.Enqueued(cost) {
        V.RefundedOncePerReason(cost, es', MAX_ATTEMPTS);
        V.RefundedAfterFailureSnoc(cost, es', MAX_ATTEMPTS);
      } else {
        RefusedNotLate(cost, e.value);
        RefusedForGood(cost, e.value);
      }
    }
  }

  lemma RefusedNotLate(cost: int, e: V.Event)
    ensures !V.RefundsFailure(Refused(cost), e)
  {
  }

  /** In the run of the whole system, whatever meets its attempts, each job goes through a
      run of the per-job queue, or failed with its refund when it could not be queued. */
  lemma {:induction false} RunProjects(run: seq<Action>, job: Id) returns (start: V.Queue, es: seq<V.Event>)
    requires job in Run(run).db.jobs
    ensures Follows(run, job, start, es)
    ensures QuietRun(run) ==> V.QuietEvents(es)
    decreases |run|
  {
    var before, a := run[..|run| - 1], run[|run| - 1];
    var s := Run(before);
    RunKept(before);
    assert V.QuietEvents([]);
    hide Kept, Step, Follows, EventOf, QuietRun, V.QuietEvents;
    if job in s.db.jobs {
      var es0;
      start, es0 := RunProjects(before, job);
      es := SnocFollows(run, job, start, es0);
      if QuietRun(run) {
        QuietRunSnoc(run);
        QuietEvent(s, a, job, es0, es);
      }
    } else {
      es := [];
      start := FirstFollows(run, job);
    }
  }

  lemma QuietRunSnoc(run: seq<Action>)
    requires QuietRun(run) && run != []
    ensures QuietRun(run[..|run| - 1]) && (run[|run| - 1].Deliver? ==> V.Quiet(run[|run| - 1].script))
  {
    assert run[|run| - 1] in run;
  }

  lemma QuietEvent(s: System, a: Action, job: Id, es: seq<V.Event>, es': seq<V.Event>)
    requires (a.Deliver? ==> V.Quiet(a.script)) && V.QuietEvents(es)
    requires var e := EventOf(s, a, job); es' == es || (e.Some? && es' == es + [e.value])
    ensures V.QuietEvents(es')
  {
  }

  lemma FirstFollows(run: seq<Action>, job: Id) returns (start: V.Queue)
    requires run != []
    ensures
      job in Run(run).db.jobs && job !in Run(run[..|run| - 1]).db.jobs ==> Follows(run, job, start, [])
  {
    var before, a := run[..|run| - 1], run[|run| - 1];
    var s := Run(before);
    if job !in Run(run).db.jobs || job in s.db.jobs { return V.Enqueued(0); }
    RunKept(before);
    NotLateBefore(before, job);
    CommittedLateSnoc(run, job);
    hide CommittedLate, Kept, DoCreate;
    if !a.Create? { OnlyCreationsAdd(s, a, job); }
    CreationProjects(s, a, job);
    start := QueueOf(Run(run), job);
  }

  // ---------- Settlement ----------

  // Nothing meets an attempt on its way.
  ghost predicate QuietRun(run: seq<Action>) {
    forall a | a in run && a.Deliver? :: V.Quiet(a.script)
  }

  lemma RunAtRest(run: seq<Action>, job: Id)
    requires QuietRun(run) && job in Run(run).db.jobs && !CommittedLate(run, job)
    ensures job in Run(run).attempts
    ensures var q := QueueOf(Run(run), job); V.AtRest(q) && !q.job.status.PENDING?
  {
    var start, es := RunProjects(run, job);
    var cost := Run(run).db.jobs[job].cost;
    hide Run, V.QuietEvents, V.Advance, CommittedLate;
    if start == V.Enqueued(cost) {
      V.SettledBetweenAttempts(cost, es, MAX_ATTEMPTS);
      V.NeverPending(cost, es, MAX_ATTEMPTS);
    }
  }

  lemma AtMostThreeAttempts(run: seq<Action>, job: Id)
    requires job in Run(run).db.jobs
    ensures job in Run(run).attempts && Run(run).attempts[job] <= 3
  {
    var start, es := RunProjects(run, job);
    hide Run, V.QuietEvents, V.Advance, CommittedLate;
    V.AttemptsBounded(Run(run).db.jobs[job].cost, es, MAX_ATTEMPTS);
  }

  /** After any run whose attempts nothing meets and whose commits do not follow a final
      failure: a job's ledger rows sum to minus its charge while it is queued or completed
      and to zero once it has failed or been cancelled, by a single refund of the right
      kind, and it is QUEUED only while the queue has it or a cancel is about to commit.  It has
      been handed out three times at most. */
  lemma EveryJobSettles(run: seq<Action>, job: Id)
    requires QuietRun(run) && job in Run(run).db.jobs && !CommittedLate(run, job)
    ensures
      var s := Run(run);
      var row := s.db.jobs[job];
      && L.JobSum(s.db.ledger, job) == (if row.status.FAILED? || row.status.CANCELLED? then 0 else -row.cost)
      && L.RefundsOf(s.db.ledger, job) ==
           (if row.cost > 0 && row.status.FAILED? then [V.REFUND_FAILED_JOB]
            else if row.cost > 0 && row.status.CANCELLED? then [V.REFUND_CANCELED_JOB]
            else [])
      && row.status in {V.QUEUED, V.COMPLETED, V.FAILED, V.CANCELLED}
      && job in s.attempts && s.attempts[job] <= 3
      && (row.status.QUEUED? ==> job in s.queued || job in s.cancelling)
      && (job in s.queued ==> row.status.QUEUED? || row.status.CANCELLED?)
  {
    RunAtRest(run, job);
    RunKept(run);
    AtMostThreeAttempts(run, job);
    var s := Run(run);
    assert L.JobBalances(s.db, job);
    V.SettledBalance(L.View(s.db, job));
  }

  /** The check and the commit of a cancel apart: a job is settled exactly when no cancel
      that was checked before the final failure of a charged job commits after it.  Such a
      commit pays the charge back twice. */
  lemma LateCommitSettlesIff(run: seq<Action>, job: Id)
    requires QuietRun(run) && job in Run(run).db.jobs
    ensures
      var db := Run(run).db;
      && (V.Settled(L.View(db, job)) <==> !CommittedLate(run, job))
      && (CommittedLate(run, job) ==> L.JobSum(db.ledger, job) == db.jobs[job].cost)
  {
    if CommittedLate(run, job) {
      var start, es := RunProjects(run, job);
      var cost := Run(run).db.jobs[job].cost;
      RunKept(run);
      assert L.JobBalances(Run(run).db, job);
      hide Run, V.QuietEvents, V.Advance, CommittedLate;
      V.TwiceRefundedForGood(cost, es, MAX_ATTEMPTS);
      assert cost * 2 == cost + cost;
    } else {
      RunAtRest(run, job);
    }
  }

  // ---------- Out of the queue for good ----------

  lemma StepNeverRequeues(s: System, a: Action, job: Id)
    requires Kept(s) && job in s.db.jobs && job !in s.queued
    ensures
      var s' := Step(s, a);
      && job in s'.db.jobs && job !in s'.queued
      && job in s.attempts && job in s'.attempts && s'.attempts[job] == s.attempts[job]
  {
    hide L.JobsBalance, L.View, V.Advance, L.Step, CloseWithRefund, V.Attempt, Written;
    StepProjects(s, a, job);
    if a.Create? { CreateOthers(s, a, job); }
    if a.Deliver? && a.job != job && a.job in s.queued { DeliverAdvances(s, a.job, a.script); }
  }

  /** A job that has left the queue, cancelled and removed, finished or refused, is never
      handed out again, whatever happens later. */
  lemma {:induction false} NeverQueuedAgain(run: seq<Action>, i: nat, k: nat, job: Id)
    requires i <= k <= |run| && job in Run(run[..i]).db.jobs && job !in Run(run[..i]).queued
    ensures
      var s, s' := Run(run[..i]), Run(run[..k]);
      && job in s'.db.jobs && job !in s'.queued
      && job in s.attempts && job in s'.attempts && s'.attempts[job] == s.attempts[job]
    decreases k
  {
    RunKept(run[..i]);
    assert job in Run(run[..i]).attempts.Keys;
    if i < k {
      hide Step, Kept;
      NeverQueuedAgain(run, i, k - 1, job);
      RunKept(run[..k - 1]);
      assert run[..k][..k - 1] == run[..k - 1];
      StepNeverRequeues(Run(run[..k - 1]), run[k - 1], job);
    }
  }

  /** An accepted cancel that could take the job off the queue has done so. */
  lemma RemovedIsGone(s: System, u: Id, job: Id)
    requires CancelJob(s.db, u, job).1.Ok?
    ensures job !in Step(s, Cancel(u, job, true)).queued && job !in Step(s, AskCancel(u, job, true)).queued
    ensures forall j | j != job ::
      (j in Step(s, Cancel(u, job, true)).queued <==> j in s.queued)
      && (j in Step(s, AskCancel(u, job, true)).queued <==> j in s.queued)
  {
  }

  // ---------- Wallets ----------

  lemma {:induction false} PayAllKeepsWallets(db: Db, job: Id, reasons: seq<V.Reason>)
    requires L.WalletsMatch(db.wallets, db.ledger) && job in db.jobs
    ensures L.WalletsMatch(PayAll(db, job, reasons).wallets, PayAll(db, job, reasons).ledger)
    decreases |reasons|
  {
    if reasons != [] {
      PayAllKeepsWallets(db, job, reasons[..|reasons| - 1]);
      L.RefundKeepsWallets(PayAll(db, job, reasons[..|reasons| - 1]), job, reasons[|reasons| - 1]);
    }
  }

  lemma WrittenKeepsWallets(db: Db, job: Id, j: V.Job)
    requires L.WalletsMatch(db.wallets, db.ledger) && job in db.jobs
    ensures L.WalletsMatch(Written(db, job, j).wallets, Written(db, job, j).ledger)
  {
    var paid := |L.RefundsOf(db.ledger, job)|;
    PayAllKeepsWallets(SetStatus(db, job, j.status), job, if paid <= |j.refunds| then j.refunds[paid..] else []);
  }

  lemma StepWallets(s: System, a: Action)
    requires L.WalletsMatch(s.db.wallets, s.db.ledger)
    ensures L.WalletsMatch(Step(s, a).db.wallets, Step(s, a).db.ledger)
  {
    match a
    case Create(u, preset, input, job, now, date, enqueued) =>
      L.CreateKeepsWallets(s.db, u, preset, input, job, now, date);
      var db := CreateVideoJob(s.db, u, preset, input, job, now, date).0;
      L.CloseKeepsWallets(db, job, V.FAILED, V.REFUND_FAILED_JOB);
    case Cancel(_, job, _) => L.CloseKeepsWallets(s.db, job, V.CANCELLED, V.REFUND_CANCELED_JOB);
    case AskCancel(_, _, _) =>
    case CommitCancel(job) => L.CloseKeepsWallets(s.db, job, V.CANCELLED, V.REFUND_CANCELED_JOB);
    case Elsewhere(action) => L.StepKeepsWallets(s.db, action);
    case Deliver(job, sc) =>
      if job in s.queued && job in s.db.jobs && job in s.attempts {
        WrittenKeepsWallets(s.db, job, V.Attempt(L.View(s.db, job), s.attempts[job], MAX_ATTEMPTS, sc).0);
      }
  }

  /** All the while wallets are the ledger, with every refund of every attempt on it. */
  lemma {:induction false} WalletsFollow(run: seq<Action>)
    ensures L.WalletsMatch(Run(run).db.wallets, Run(run).db.ledger)
    decreases |run|
  {
    if run != [] {
      WalletsFollow(run[..|run| - 1]);
      StepWallets(Run(run[..|run| - 1]), run[|run| - 1]);
    }
  }
}
