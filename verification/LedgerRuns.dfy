/** Runs of every writer of the credit database, in any order and for any users: the
    wallet is the ledger, refunds happen once per reason, each job's rows balance, and
    the daily quota has a closed form. */
module LedgerRuns {
  import opened Prelude
  import opened Catalog
  import opened Credits
  import VideoJob

  datatype Action =
    | DoRegister(user: Id)
    | DoTopUp(user: Id, amount: nat)
    | DoValidate(user: Id, now: int)
    | DoDemote(user: Id, now: int)                 // the write of a token validation that read an expired row
    | DoCreateJob(user: Id, preset: PresetId, input: Input, job: Id, now: int, date: Id)
    | DoEnqueueFails(job: Id)
    | DoCancel(user: Id, job: Id)
    | DoCommitCancel(job: Id)                      // a cancel whose status check passed earlier
    | DoSetStatus(job: Id, status: VideoJob.Status)
    | DoRefundFailed(job: Id)
    | DoCreateOrder(order: Id, user: Id, kind: OrderKind, credits: nat, proDays: nat)
    | DoFailOrder(order: Id)
    | DoClaim(order: Id, seen: Order, seenExpiry: Option<int>, providerId: Option<Id>, now: int)

  function Step(db: Db, a: Action): Db {
    match a
    case DoRegister(u) => Register(db, u).0
    case DoTopUp(u, amount) => TopUp(db, u, amount).0
    case DoValidate(u, now) => Validate(db, u, now).0
    case DoDemote(u, _) => Demote(db, u)
    case DoCreateJob(u, preset, input, job, now, date) => CreateVideoJob(db, u, preset, input, job, now, date).0
    case DoEnqueueFails(job) => CloseWithRefund(db, job, VideoJob.FAILED, VideoJob.REFUND_FAILED_JOB).0
    case DoCancel(u, job) => CancelJob(db, u, job).0
    case DoCommitCancel(job) => CloseWithRefund(db, job, VideoJob.CANCELLED, VideoJob.REFUND_CANCELED_JOB).0
    case DoSetStatus(job, status) => SetStatus(db, job, status)
    case DoRefundFailed(job) => RefundFailedJob(db, job)
    case DoCreateOrder(o, u, kind, credits, proDays) => CreateOrder(db, o, u, kind, credits, proDays)
    case DoFailOrder(o) => FailOrder(db, o)
    case DoClaim(o, seen, seenExpiry, providerId, now) => Claim(db, o, seen, seenExpiry, providerId, now).0
  }

  function Run(db: Db, run: seq<Action>): Db
    decreases |run|
  {
    if run == [] then db else Step(Run(db, run[..|run| - 1]), run[|run| - 1])
  }

  // ---------- Sums over the ledger ----------

  function UserSum(ledger: seq<Tx>, u: Id): int
    decreases |ledger|
  {
    if ledger == [] then 0
    else
      var t := ledger[|ledger| - 1];
      UserSum(ledger[..|ledger| - 1], u) + if t.user == u then t.amount else 0
  }

  function JobSum(ledger: seq<Tx>, job: Id): int
    decreases |ledger|
  {
    if ledger == [] then 0
    else
      var t := ledger[|ledger| - 1];
      JobSum(ledger[..|ledger| - 1], job) + if t.job == Some(job) then t.amount else 0
  }

  // The refunds of a job in ledger order, as the per-job model sees them.
  function RefundsOf(ledger: seq<Tx>, job: Id): seq<VideoJob.Reason>
    decreases |ledger|
  {
    if ledger == [] then []
    else
      var t := ledger[|ledger| - 1];
      RefundsOf(ledger[..|ledger| - 1], job)
      + if t.job == Some(job) && t.reason.REFUND? then [t.reason.reason] else []
  }

  lemma Snoc(ledger: seq<Tx>, t: Tx)
    ensures forall u :: UserSum(ledger + [t], u) == UserSum(ledger, u) + if t.user == u then t.amount else 0
    ensures forall j :: JobSum(ledger + [t], j) == JobSum(ledger, j) + if t.job == Some(j) then t.amount else 0
    ensures forall j :: RefundsOf(ledger + [t], j)
                     == RefundsOf(ledger, j) + if t.job == Some(j) && t.reason.REFUND? then [t.reason.reason] else []
  {
    assert (ledger + [t])[..|ledger|] == ledger;
  }

  lemma {:induction false} HasRefundIff(ledger: seq<Tx>, job: Id, reason: VideoJob.Reason)
    ensures HasRefund(ledger, job, reason) <==> reason in RefundsOf(ledger, job)
    decreases |ledger|
  {
    if ledger != [] {
      var n := |ledger| - 1;
      HasRefundIff(ledger[..n], job, reason);
      if IsRefund(ledger[n], job, reason) {
        assert HasRefund(ledger, job, reason);
      } else if HasRefund(ledger, job, reason) {
        var i :| 0 <= i < |ledger| && IsRefund(ledger[i], job, reason);
        assert IsRefund(ledger[..n][i], job, reason);
      }
      if HasRefund(ledger[..n], job, reason) {
        var i :| 0 <= i < n && IsRefund(ledger[..n][i], job, reason);
        assert IsRefund(ledger[i], job, reason);
      }
    }
  }

  // ---------- The wallet is the ledger ----------

  ghost predicate WalletsMatch(wallets: map<Id, int>, ledger: seq<Tx>) {
    && (forall u :: (if u in wallets then wallets[u] else 0) == UserSum(ledger, u))
    && (forall u | u in wallets :: wallets[u] >= 0)
  }

  lemma MoveKeepsWallets(db: Db, t: Tx)
    requires WalletsMatch(db.wallets, db.ledger) && Credits.Balance(db, t.user) + t.amount >= 0
    ensures WalletsMatch(Move(db, t).wallets, Move(db, t).ledger)
  {
    Snoc(db.ledger, t);
  }

  lemma StepKeepsWallets(db: Db, a: Action)
    requires WalletsMatch(db.wallets, db.ledger)
    ensures WalletsMatch(Step(db, a).wallets, Step(db, a).ledger)
  {
    match a
    case DoRegister(u) =>
      if u !in db.users {
        var known := db.(users := db.users[u := User(FREE, None)]);
        MoveKeepsWallets(known, Tx(u, REGISTER_BONUS_CREDITS, REGISTER_BONUS, None, None));
      }
    case DoTopUp(u, amount) => MoveKeepsWallets(db, Tx(u, amount, TEST_REWARD, None, None));
    case DoCreateJob(u, preset, input, job, now, date) => CreateKeepsWallets(db, u, preset, input, job, now, date);
    case DoEnqueueFails(job) => CloseKeepsWallets(db, job, VideoJob.FAILED, VideoJob.REFUND_FAILED_JOB);
    case DoCancel(u, job) => CloseKeepsWallets(db, job, VideoJob.CANCELLED, VideoJob.REFUND_CANCELED_JOB);
    case DoCommitCancel(job) => CloseKeepsWallets(db, job, VideoJob.CANCELLED, VideoJob.REFUND_CANCELED_JOB);
    case DoRefundFailed(job) =>
      if job in db.jobs { RefundKeepsWallets(db, job, VideoJob.REFUND_FAILED_JOB); }
    case DoClaim(o, seen, seenExpiry, providerId, now) => ClaimKeepsWallets(db, o, seen, seenExpiry, providerId, now);
    case _ =>
  }

  lemma RefundKeepsWallets(db: Db, job: Id, reason: VideoJob.Reason)
    requires WalletsMatch(db.wallets, db.ledger) && job in db.jobs
    ensures
      var r := RefundIfMissing(db, job, reason);
      r.Some? ==> WalletsMatch(r.value.wallets, r.value.ledger)
  {
    var row := db.jobs[job];
    if row.cost > 0 && row.user in db.wallets {
      MoveKeepsWallets(db, Tx(row.user, row.cost, REFUND(reason), Some(job), None));
    }
  }

  lemma CloseKeepsWallets(db: Db, job: Id, status: VideoJob.Status, reason: VideoJob.Reason)
    requires WalletsMatch(db.wallets, db.ledger)
    ensures
      var db' := CloseWithRefund(db, job, status, reason).0;
      WalletsMatch(db'.wallets, db'.ledger)
  {
    if job in db.jobs { RefundKeepsWallets(SetStatus(db, job, status), job, reason); }
  }

  // A claim moves nothing, or exactly the credits of the order.
  lemma ClaimMoves(db: Db, o: Id, seen: Order, seenExpiry: Option<int>, providerId: Option<Id>, now: int)
    ensures
      var db' := Claim(db, o, seen, seenExpiry, providerId, now).0;
      var reason := if seen.kind.PRO_SUBSCRIPTION? then PURCHASE_PRO_SUBSCRIPTION else PURCHASE_TOPUP;
      var moved := Move(db, Tx(seen.user, seen.credits, reason, None, Some(o)));
      && db'.jobs == db.jobs
      && ((db'.wallets == db.wallets && db'.ledger == db.ledger)
          || (db'.wallets == moved.wallets && db'.ledger == moved.ledger))
  {
  }

  lemma ClaimKeepsWallets(db: Db, o: Id, seen: Order, seenExpiry: Option<int>, providerId: Option<Id>, now: int)
    requires WalletsMatch(db.wallets, db.ledger)
    ensures
      var db' := Claim(db, o, seen, seenExpiry, providerId, now).0;
      WalletsMatch(db'.wallets, db'.ledger)
  {
    ClaimMoves(db, o, seen, seenExpiry, providerId, now);
    var reason := if seen.kind.PRO_SUBSCRIPTION? then PURCHASE_PRO_SUBSCRIPTION else PURCHASE_TOPUP;
    MoveKeepsWallets(db, Tx(seen.user, seen.credits, reason, None, Some(o)));
  }

  // The two ledger rows a creation can add: the free usage, then the charge.
  lemma CreateRows(db: Db, u: Id, preset: PresetId, input: Input, job: Id, now: int, date: Id) returns (mid: Db)
    requires CreateVideoJob(db, u, preset, input, job, now, date).1.Ok?
    ensures mid.wallets == db.wallets && mid.jobs == db.jobs
    ensures mid.ledger == db.ledger || mid.ledger == db.ledger + [Tx(u, 0, PRO_DAILY_FREE_USAGE, None, None)]
    ensures
      var db' := CreateVideoJob(db, u, preset, input, job, now, date).0;
      var charged := CreditCost(preset) - FreeApplied(db, u, preset, now, date);
      var charge := Tx(u, -charged, CREATE_IMAGE_TO_VIDEO_JOB, Some(job), None);
      && charged >= 0 && db'.jobs == db.jobs[job := JobRow(u, VideoJob.QUEUED, charged)]
      && db'.wallets == (if charged > 0 then Move(mid, charge) else mid).wallets
      && db'.ledger == (if charged > 0 then Move(mid, charge) else mid).ledger
      && (charged > 0 ==> u in db.wallets && db.wallets[u] >= charged)
  {
    var free := FreeApplied(db, u, preset, now, date);
    mid := db.(ledger := if UsesQuota(db, u, preset, now) && free > 0
                         then db.ledger + [Tx(u, 0, PRO_DAILY_FREE_USAGE, None, None)] else db.ledger);
  }

  lemma CreateKeepsWallets(db: Db, u: Id, preset: PresetId, input: Input, job: Id, now: int, date: Id)
    requires WalletsMatch(db.wallets, db.ledger)
    ensures
      var db' := CreateVideoJob(db, u, preset, input, job, now, date).0;
      WalletsMatch(db'.wallets, db'.ledger)
  {
    if CreateVideoJob(db, u, preset, input, job, now, date).1.Ok? {
      var mid := CreateRows(db, u, preset, input, job, now, date);
      FreeRowKeepsWallets(db, mid, u);
      ChargeKeepsWallets(mid, CreateVideoJob(db, u, preset, input, job, now, date).0, u,
                         CreditCost(preset) - FreeApplied(db, u, preset, now, date), job);
    }
  }

  lemma FreeRowKeepsWallets(db: Db, mid: Db, u: Id)
    requires WalletsMatch(db.wallets, db.ledger) && mid.wallets == db.wallets
    requires mid.ledger == db.ledger || mid.ledger == db.ledger + [Tx(u, 0, PRO_DAILY_FREE_USAGE, None, None)]
    ensures WalletsMatch(mid.wallets, mid.ledger)
  {
    Snoc(db.ledger, Tx(u, 0, PRO_DAILY_FREE_USAGE, None, None));
  }

  lemma ChargeKeepsWallets(mid: Db, db': Db, u: Id, charged: int, job: Id)
    requires WalletsMatch(mid.wallets, mid.ledger) && (charged > 0 ==> u in mid.wallets && mid.wallets[u] >= charged)
    requires
      var db1 := if charged > 0 then Move(mid, Tx(u, -charged, CREATE_IMAGE_TO_VIDEO_JOB, Some(job), None)) else mid;
      db'.wallets == db1.wallets && db'.ledger == db1.ledger
    ensures WalletsMatch(db'.wallets, db'.ledger)
  {
    if charged > 0 { MoveKeepsWallets(mid, Tx(u, -charged, CREATE_IMAGE_TO_VIDEO_JOB, Some(job), None)); }
  }

  /** Over every run of every writer, each wallet is the sum of its user's ledger rows
      and never negative. */
  lemma {:induction false} WalletIsLedger(run: seq<Action>)
    ensures WalletsMatch(Run(EMPTY, run).wallets, Run(EMPTY, run).ledger)
    decreases |run|
  {
    if run != [] {
      WalletIsLedger(run[..|run| - 1]);
      StepKeepsWallets(Run(EMPTY, run[..|run| - 1]), run[|run| - 1]);
    }
  }

  // ---------- Each job's rows, and the per-job model they project to ----------

  // One job as the handler model sees it; that model adds the rows and objects.
  function View(db: Db, job: Id): VideoJob.Job
    requires job in db.jobs
  {
    VideoJob.Job(db.jobs[job].status, db.jobs[job].cost, RefundsOf(db.ledger, job), [], {}, 0)
  }

  ghost predicate JobBalances(db: Db, j: Id)
    requires j in db.jobs
  {
    && db.jobs[j].cost >= 0
    && (db.jobs[j].cost > 0 ==> db.jobs[j].user in db.wallets)
    && VideoJob.RefundsSane(View(db, j))
    && JobSum(db.ledger, j) == VideoJob.Balance(View(db, j))
  }

  ghost predicate NoRows(db: Db, j: Id) {
    JobSum(db.ledger, j) == 0 && RefundsOf(db.ledger, j) == []
  }

  ghost predicate JobsBalance(db: Db) {
    && (forall j | j in db.jobs :: JobBalances(db, j))
    && (forall j | j !in db.jobs :: NoRows(db, j))
  }

  // A change that leaves jobs and their rows alone and keeps every wallet row.
  lemma SameJobs(db: Db, db': Db)
    requires JobsBalance(db) && db'.jobs == db.jobs && db.wallets.Keys <= db'.wallets.Keys
    requires db'.ledger == db.ledger || exists t: Tx :: t.job.None? && db'.ledger == db.ledger + [t]
    ensures JobsBalance(db')
  {
    if db'.ledger != db.ledger {
      var t: Tx :| t.job.None? && db'.ledger == db.ledger + [t];
      Snoc(db.ledger, t);
    }
    forall j ensures if j in db'.jobs then JobBalances(db', j) else NoRows(db', j) {
      if j in db.jobs { assert JobBalances(db, j) && View(db', j) == View(db, j); } else { assert NoRows(db, j); }
    }
  }

  lemma StatusKeepsJobs(db: Db, job: Id, status: VideoJob.Status)
    requires JobsBalance(db)
    ensures JobsBalance(SetStatus(db, job, status))
  {
    var db' := SetStatus(db, job, status);
    forall j ensures if j in db'.jobs then JobBalances(db', j) else NoRows(db', j) {
      if j in db.jobs { assert JobBalances(db, j); } else { assert NoRows(db, j); }
    }
  }

  // A row of one job leaves the others as they were.
  lemma MoveKeepsOthers(db: Db, t: Tx, job: Id, j: Id)
    requires t.job == Some(job) && j != job
    requires if j in db.jobs then JobBalances(db, j) else NoRows(db, j)
    ensures if j in db.jobs then JobBalances(Move(db, t), j) && View(Move(db, t), j) == View(db, j)
            else NoRows(Move(db, t), j)
  {
    Snoc(db.ledger, t);
  }

  lemma RefundRowBalances(db: Db, job: Id, reason: VideoJob.Reason)
    requires job in db.jobs && JobBalances(db, job) && db.jobs[job].cost > 0 && reason !in RefundsOf(db.ledger, job)
    ensures
      var db' := Move(db, Tx(db.jobs[job].user, db.jobs[job].cost, REFUND(reason), Some(job), None));
      JobBalances(db', job) && View(db', job) == VideoJob.Refund(View(db, job), reason)
  {
    var cost, refunds := db.jobs[job].cost, RefundsOf(db.ledger, job);
    var t := Tx(db.jobs[job].user, cost, REFUND(reason), Some(job), None);
    Snoc(db.ledger, t);
    assert RefundsOf(Move(db, t).ledger, job) == refunds + [reason];
    assert cost * |refunds + [reason]| == cost * |refunds| + cost;
  }

  /** The database refund is the per-job refund: it always finds the wallet of a
      charged job, pays the same reasons, and keeps every job's rows balanced. */
  lemma RefundProjects(db: Db, job: Id, reason: VideoJob.Reason)
    requires JobsBalance(db) && job in db.jobs
    ensures RefundIfMissing(db, job, reason).Some?
    ensures
      var db' := RefundIfMissing(db, job, reason).value;
      && db'.jobs == db.jobs && JobsBalance(db')
      && View(db', job) == VideoJob.Refund(View(db, job), reason)
      && (forall j | j in db.jobs && j != job :: View(db', j) == View(db, j))
  {
    HasRefundIff(db.ledger, job, reason);
    assert JobBalances(db, job);
    var row := db.jobs[job];
    if row.cost > 0 && !HasRefund(db.ledger, job, reason) {
      var t := Tx(row.user, row.cost, REFUND(reason), Some(job), None);
      RefundRowBalances(db, job, reason);
      forall j | j != job
        ensures if j in db.jobs then JobBalances(Move(db, t), j) && View(Move(db, t), j) == View(db, j)
                else NoRows(Move(db, t), j)
      {
        assert if j in db.jobs then JobBalances(db, j) else NoRows(db, j);
        MoveKeepsOthers(db, t, job, j);
      }
    }
  }

  /** A status write with its refund projects to the per-job model: for the cancel it
      is exactly the model's commit. */
  lemma CloseProjects(db: Db, job: Id, status: VideoJob.Status, reason: VideoJob.Reason)
    requires JobsBalance(db) && job in db.jobs
    ensures
      var (db', result) := CloseWithRefund(db, job, status, reason);
      && result.Ok? && JobsBalance(db') && db'.jobs.Keys == db.jobs.Keys
      && View(db', job) == VideoJob.Refund(View(db, job).(status := status), reason)
      && (forall j | j in db.jobs && j != job :: View(db', j) == View(db, j))
  {
    StatusKeepsJobs(db, job, status);
    RefundProjects(SetStatus(db, job, status), job, reason);
  }

  lemma ChargeRowBalances(mid: Db, u: Id, charged: int, job: Id)
    requires NoRows(mid, job) && job !in mid.jobs && charged >= 0 && (charged > 0 ==> u in mid.wallets)
    ensures
      var db1 := if charged > 0 then Move(mid, Tx(u, -charged, CREATE_IMAGE_TO_VIDEO_JOB, Some(job), None)) else mid;
      var db' := db1.(jobs := mid.jobs[job := JobRow(u, VideoJob.QUEUED, charged)]);
      JobBalances(db', job) && View(db', job) == VideoJob.Created(charged)
  {
    Snoc(mid.ledger, Tx(u, -charged, CREATE_IMAGE_TO_VIDEO_JOB, Some(job), None));
    assert charged * 0 == 0;
  }

  // Adding a job and, if it costs anything, its charge row.
  lemma NewJobBalances(mid: Db, db': Db, u: Id, charged: int, job: Id)
    requires JobsBalance(mid) && job !in mid.jobs && charged >= 0 && (charged > 0 ==> u in mid.wallets)
    requires db'.jobs == mid.jobs[job := JobRow(u, VideoJob.QUEUED, charged)]
    requires
      var db1 := if charged > 0 then Move(mid, Tx(u, -charged, CREATE_IMAGE_TO_VIDEO_JOB, Some(job), None)) else mid;
      db'.wallets == db1.wallets && db'.ledger == db1.ledger
    ensures JobsBalance(db') && View(db', job) == VideoJob.Created(charged)
  {
    assert NoRows(mid, job);
    ChargeRowBalances(mid, u, charged, job);
    var t := Tx(u, -charged, CREATE_IMAGE_TO_VIDEO_JOB, Some(job), None);
    forall j | j != job ensures if j in db'.jobs then JobBalances(db', j) else NoRows(db', j) {
      assert if j in mid.jobs then JobBalances(mid, j) else NoRows(mid, j);
      MoveKeepsOthers(mid, t, job, j);
    }
  }

  lemma CreateKeepsJobs(db: Db, u: Id, preset: PresetId, input: Input, job: Id, now: int, date: Id)
    requires JobsBalance(db)
    ensures
      var (db', result) := CreateVideoJob(db, u, preset, input, job, now, date);
      && JobsBalance(db')
      && (result.Ok? ==> job in db'.jobs && View(db', job) == VideoJob.Created(db'.jobs[job].cost))
  {
    if CreateVideoJob(db, u, preset, input, job, now, date).1.Ok? {
      AcceptedKeepsJobs(db, u, preset, input, job, now, date);
    }
  }

  lemma AcceptedKeepsJobs(db: Db, u: Id, preset: PresetId, input: Input, job: Id, now: int, date: Id)
    requires JobsBalance(db) && CreateVideoJob(db, u, preset, input, job, now, date).1.Ok?
    ensures
      var db' := CreateVideoJob(db, u, preset, input, job, now, date).0;
      JobsBalance(db') && job in db'.jobs && View(db', job) == VideoJob.Created(db'.jobs[job].cost)
  {
    assert job !in db.jobs;
    hide CreateVideoJob, JobsBalance, View;
    var db' := CreateVideoJob(db, u, preset, input, job, now, date).0;
    var mid := CreateRows(db, u, preset, input, job, now, date);
    SameJobs(db, mid);
    NewJobBalances(mid, db', u, db'.jobs[job].cost, job);
  }

  lemma StepKeepsJobs(db: Db, a: Action)
    requires JobsBalance(db)
    ensures JobsBalance(Step(db, a))
  {
    match a
    case DoCreateJob(u, preset, input, job, now, date) => CreateKeepsJobs(db, u, preset, input, job, now, date);
    case DoEnqueueFails(job) =>
      if job in db.jobs { CloseProjects(db, job, VideoJob.FAILED, VideoJob.REFUND_FAILED_JOB); }
    case DoCancel(u, job) =>
      if job in db.jobs { CloseProjects(db, job, VideoJob.CANCELLED, VideoJob.REFUND_CANCELED_JOB); }
    case DoCommitCancel(job) =>
      if job in db.jobs { CloseProjects(db, job, VideoJob.CANCELLED, VideoJob.REFUND_CANCELED_JOB); }
    case DoSetStatus(job, status) => StatusKeepsJobs(db, job, status);
    case DoRefundFailed(job) =>
      if job in db.jobs { RefundProjects(db, job, VideoJob.REFUND_FAILED_JOB); }
    case DoRegister(u) => OtherStepsKeepJobs(db, a);
    case DoTopUp(_, _) => OtherStepsKeepJobs(db, a);
    case DoClaim(_, _, _, _, _) => OtherStepsKeepJobs(db, a);
    case _ => SameJobs(db, Step(db, a));
  }

  lemma OtherStepsKeepJobs(db: Db, a: Action)
    requires JobsBalance(db) && (a.DoRegister? || a.DoTopUp? || a.DoClaim?)
    ensures JobsBalance(Step(db, a))
  {
    if a.DoClaim? { ClaimMoves(db, a.order, a.seen, a.seenExpiry, a.providerId, a.now); }
    var db' := Step(db, a);
    if db'.ledger != db.ledger {
      var t := db'.ledger[|db.ledger|];
      assert t.job.None? && db'.ledger == db.ledger + [t];
    }
    SameJobs(db, db');
  }

  /** Over every run of every writer, each job is refunded at most once per reason and
      its ledger rows sum to its charge negated plus one charge per refund paid. */
  lemma {:induction false} JobRowsBalance(run: seq<Action>)
    ensures JobsBalance(Run(EMPTY, run))
    decreases |run|
  {
    if run != [] {
      JobRowsBalance(run[..|run| - 1]);
      StepKeepsJobs(Run(EMPTY, run[..|run| - 1]), run[|run| - 1]);
    }
  }

  /** In ledger terms: a settled job's rows sum to minus its charge while it is queued
      or completed, and to zero once it is failed or cancelled. */
  lemma SettledJobRows(run: seq<Action>, job: Id)
    requires job in Run(EMPTY, run).jobs && VideoJob.Settled(View(Run(EMPTY, run), job))
    ensures
      var db := Run(EMPTY, run);
      var row := db.jobs[job];
      JobSum(db.ledger, job) == if row.status.FAILED? || row.status.CANCELLED? then 0 else -row.cost
  {
    JobRowsBalance(run);
    assert JobBalances(Run(EMPTY, run), job);
    VideoJob.SettledBalance(View(Run(EMPTY, run), job));
  }

  // ---------- Who can cancel, and what a refund pays ----------

  predicate Refunded(db: Db, job: Id, reason: VideoJob.Reason) {
    exists i | 0 <= i < |db.ledger| :: db.ledger[i].job == Some(job) && db.ledger[i].reason == REFUND(reason)
  }

  // What a refund for that reason still has to pay.
  function Outstanding(db: Db, job: Id, reason: VideoJob.Reason): int
    requires job in db.jobs
  {
    if db.jobs[job].cost > 0 && !Refunded(db, job, reason) then db.jobs[job].cost else 0
  }

  // The charge goes back to the owner's wallet, by one row of the job, unless it has already.
  ghost predicate PaidBack(db: Db, db': Db, job: Id, reason: VideoJob.Reason)
    requires job in db.jobs
  {
    var u, due := db.jobs[job].user, Outstanding(db, job, reason);
    && Credits.Balance(db', u) == Credits.Balance(db, u) + due
    && (forall v | v != u :: Credits.Balance(db', v) == Credits.Balance(db, v))
    && JobSum(db'.ledger, job) == JobSum(db.ledger, job) + due
    && (db.jobs[job].cost > 0 ==> Refunded(db', job, reason))
  }

  lemma RefundPays(db: Db, job: Id, reason: VideoJob.Reason)
    requires JobsBalance(db) && job in db.jobs
    ensures RefundIfMissing(db, job, reason).Some?
    ensures PaidBack(db, RefundIfMissing(db, job, reason).value, job, reason)
    ensures RefundIfMissing(db, job, reason).value.jobs == db.jobs
  {
    assert JobBalances(db, job);
    var row := db.jobs[job];
    var t := Tx(row.user, row.cost, REFUND(reason), Some(job), None);
    Snoc(db.ledger, t);
    var db' := RefundIfMissing(db, job, reason).value;
    if row.cost > 0 && !HasRefund(db.ledger, job, reason) {
      assert db'.ledger[|db.ledger|] == t;
    }
  }

  lemma ClosePays(db: Db, job: Id, status: VideoJob.Status, reason: VideoJob.Reason)
    requires JobsBalance(db) && job in db.jobs
    ensures
      var (db', result) := CloseWithRefund(db, job, status, reason);
      && result.Ok? && PaidBack(db, db', job, reason)
      && db'.jobs == db.jobs[job := db.jobs[job].(status := status)]
  {
    StatusKeepsJobs(db, job, status);
    RefundPays(SetStatus(db, job, status), job, reason);
    hide RefundIfMissing;
  }

  // Accepted for the caller's own open jobs, which it closes and pays back; nothing otherwise.
  ghost predicate CancelsRight(db: Db, u: Id, job: Id) {
    var (db', result) := CancelJob(db, u, job);
    var mine := job in db.jobs && db.jobs[job].user == u;
    && (result.Ok? <==>
          mine && (db.jobs[job].status.PENDING? || db.jobs[job].status.QUEUED? || db.jobs[job].status.PROCESSING?))
    && (result.NotFound? <==> !mine)
    && (result.Ok? || result.NotFound? || result.Rejected?)
    && (!result.Ok? ==> db' == db)
    && (result.Ok? ==>
          && db'.jobs == db.jobs[job := db.jobs[job].(status := VideoJob.CANCELLED)]
          && PaidBack(db, db', job, VideoJob.REFUND_CANCELED_JOB))
  }

  lemma CancelWhen(db: Db, u: Id, job: Id)
    requires JobsBalance(db)
    ensures CancelsRight(db, u, job)
  {
    if job in db.jobs { ClosePays(db, job, VideoJob.CANCELLED, VideoJob.REFUND_CANCELED_JOB); }
    hide CloseWithRefund, JobsBalance, PaidBack;
  }

  /** In every reachable database a cancel is accepted exactly when the job is the caller's
      and pending, queued or running.  Then it is CANCELLED, and the charge is back in the
      wallet; a foreign or closed job stays as it is, and so does everything else. */
  lemma CancelAnswers(run: seq<Action>, u: Id, job: Id)
    ensures CancelsRight(Run(EMPTY, run), u, job)
  {
    JobRowsBalance(run);
    CancelWhen(Run(EMPTY, run), u, job);
    hide *;
  }

  /** The worker's final failure leaves the job FAILED and pays its charge back, and so does
      a job the queue would not take. */
  lemma FailurePaysBack(run: seq<Action>, job: Id)
    requires job in Run(EMPTY, run).jobs
    ensures
      var db := Run(EMPTY, run);
      var failed := RefundFailedJob(SetStatus(db, job, VideoJob.FAILED), job);
      && failed.jobs == db.jobs[job := db.jobs[job].(status := VideoJob.FAILED)]
      && PaidBack(db, failed, job, VideoJob.REFUND_FAILED_JOB)
      && Step(db, DoEnqueueFails(job)) == failed
  {
    JobRowsBalance(run);
    ClosePays(Run(EMPTY, run), job, VideoJob.FAILED, VideoJob.REFUND_FAILED_JOB);
    hide JobsBalance, Run, PaidBack;
  }

  // ---------- What moves a wallet ----------

  // The job an action works on.
  function JobOf(a: Action): Option<Id> {
    match a
    case DoCreateJob(_, _, _, job, _, _) => Some(job)
    case DoEnqueueFails(job) => Some(job)
    case DoCancel(_, job) => Some(job)
    case DoCommitCancel(job) => Some(job)
    case DoRefundFailed(job) => Some(job)
    case _ => None
  }

  ghost predicate MovesRight(db: Db, a: Action, u: Id) {
    var db' := Step(db, a);
    var moved := Credits.Balance(db', u) - Credits.Balance(db, u);
    match a
    case DoRegister(v) => moved == if v == u && v !in db.users then 100 else 0
    case DoTopUp(v, amount) => moved == if v == u && v in db.users then amount else 0
    case DoClaim(o, seen, seenExpiry, providerId, now) =>
      moved == if seen.user == u && Claim(db, o, seen, seenExpiry, providerId, now).1.Ok? then seen.credits else 0
    case _ =>
      moved ==
        if JobOf(a).Some? && JobOf(a).value in db'.jobs && db'.jobs[JobOf(a).value].user == u then
          JobSum(db'.ledger, JobOf(a).value) - JobSum(db.ledger, JobOf(a).value)
        else 0
  }

  /** A wallet moves by a hundred credits at registration, by the amount of a top-up, by the
      credits of an order when it is claimed, and otherwise by just what the rows of the
      user's job move. */
  lemma WalletMoves(run: seq<Action>, a: Action, u: Id)
    ensures MovesRight(Run(EMPTY, run), a, u)
  {
    JobRowsBalance(run);
    var db := Run(EMPTY, run);
    if a.DoRegister? || a.DoTopUp? || a.DoClaim? {
      AccountMoves(db, a, u);
    } else if JobOf(a).Some? {
      JobActionMoves(db, a, u);
    } else {
      OthersMoveNothing(db, a, u);
    }
    hide *;
  }

  lemma AccountMoves(db: Db, a: Action, u: Id)
    requires a.DoRegister? || a.DoTopUp? || a.DoClaim?
    ensures MovesRight(db, a, u)
  {
  }

  lemma OthersMoveNothing(db: Db, a: Action, u: Id)
    requires !a.DoRegister? && !a.DoTopUp? && !a.DoClaim? && JobOf(a).None?
    ensures MovesRight(db, a, u)
  {
  }

  // A refund moves its owner's wallet as it moves the rows of the job.
  lemma JobActionMoves(db: Db, a: Action, u: Id)
    requires JobsBalance(db) && JobOf(a).Some?
    ensures MovesRight(db, a, u)
  {
    hide JobsBalance, CloseWithRefund, RefundIfMissing, CreateVideoJob;
    match a
    case DoCreateJob(v, preset, input, job, now, date) => CreationMoves(db, v, preset, input, job, now, date);
    case DoEnqueueFails(job) =>
      if job in db.jobs {
        ClosePays(db, job, VideoJob.FAILED, VideoJob.REFUND_FAILED_JOB);
      } else {
        NoJob(db, job);
      }
    case DoCancel(_, job) =>
      if job in db.jobs { ClosePays(db, job, VideoJob.CANCELLED, VideoJob.REFUND_CANCELED_JOB); }
    case DoCommitCancel(job) =>
      if job in db.jobs {
        ClosePays(db, job, VideoJob.CANCELLED, VideoJob.REFUND_CANCELED_JOB);
      } else {
        NoJob(db, job);
      }
    case DoRefundFailed(job) =>
      if job in db.jobs { RefundPays(db, job, VideoJob.REFUND_FAILED_JOB); }
  }

  lemma NoJob(db: Db, job: Id)
    requires job !in db.jobs
    ensures forall status, reason :: CloseWithRefund(db, job, status, reason) == (db, NotFound)
  {
  }

  lemma CreationMoves(db: Db, v: Id, preset: PresetId, input: Input, job: Id, now: int, date: Id)
    ensures forall u :: MovesRight(db, DoCreateJob(v, preset, input, job, now, date), u)
  {
    if CreateVideoJob(db, v, preset, input, job, now, date).1.Ok? {
      AcceptedMoves(db, v, preset, input, job, now, date);
    } else {
      CreationAnswers(db, v, preset, input, job, now, date);
    }
    hide CreateVideoJob;
  }

  lemma AcceptedMoves(db: Db, u: Id, preset: PresetId, input: Input, job: Id, now: int, date: Id)
    requires CreateVideoJob(db, u, preset, input, job, now, date).1.Ok?
    ensures
      var db' := CreateVideoJob(db, u, preset, input, job, now, date).0;
      && job in db'.jobs && db'.jobs[job].user == u
      && Credits.Balance(db', u) - Credits.Balance(db, u) == JobSum(db'.ledger, job) - JobSum(db.ledger, job)
      && forall v | v != u :: Credits.Balance(db', v) == Credits.Balance(db, v)
  {
    CreationCharges(db, u, preset, input, job, now, date);
    var mid := CreateRows(db, u, preset, input, job, now, date);
    Snoc(db.ledger, Tx(u, 0, PRO_DAILY_FREE_USAGE, None, None));
    var charged := CreditCost(preset) - FreeApplied(db, u, preset, now, date);
    Snoc(mid.ledger, Tx(u, -charged, CREATE_IMAGE_TO_VIDEO_JOB, Some(job), None));
    hide CreateVideoJob;
  }

  // ---------- The daily quota ----------

  // An accepted premium creation by a PRO user on that day.
  predicate CountsForQuota(db: Db, a: Action, u: Id, date: Id) {
    && a.DoCreateJob? && a.user == u && a.date == date && ProPremium(db, u, a.preset, a.now)
    && CreateVideoJob(db, u, a.preset, a.input, a.job, a.now, date).1.Ok?
  }

  function PremiumBase(run: seq<Action>, u: Id, date: Id): nat
    decreases |run|
  {
    if run == [] then 0
    else
      var before, a := run[..|run| - 1], run[|run| - 1];
      PremiumBase(before, u, date)
      + if !CountsForQuota(Run(EMPTY, before), a, u, date) then 0 else if a.preset.TURBO_WAN22_I2V_A14B? then 15 else 20
  }

  // What those creations took from the wallet, read off the job rows they made.
  function PremiumCharged(run: seq<Action>, u: Id, date: Id): int
    decreases |run|
  {
    if run == [] then 0
    else
      var before, a := run[..|run| - 1], run[|run| - 1];
      PremiumCharged(before, u, date)
      + if CountsForQuota(Run(EMPTY, before), a, u, date) then Step(Run(EMPTY, before), a).jobs[a.job].cost else 0
  }

  function Min(a: int, b: int): int { if a <= b then a else b }
  function Max(a: int, b: int): int { if a >= b then a else b }

  lemma StepQuota(db: Db, a: Action, u: Id, date: Id)
    requires 0 <= FreeUsed(db, u, date) <= 20
    ensures
      var used, used' := FreeUsed(db, u, date), FreeUsed(Step(db, a), u, date);
      if CountsForQuota(db, a, u, date) then
        var cost := if a.preset.TURBO_WAN22_I2V_A14B? then 15 else 20;
        && used' == Min(20, used + cost)
        && a.job in Step(db, a).jobs && Step(db, a).jobs[a.job].cost == cost - (used' - used)
      else used' == used
  {
    if a.DoCreateJob? && CreateVideoJob(db, a.user, a.preset, a.input, a.job, a.now, a.date).1.Ok? {
      FreeCreditsIff(db, a.user, a.preset, a.input, a.job, a.now, a.date);
      CreationCharges(db, a.user, a.preset, a.input, a.job, a.now, a.date);
      hide CreateVideoJob;
    }
  }

  /** Whatever else happens, refunds included, on one day the premium jobs of a user with a
      running PRO use min(20, total base cost) free credits and charge the wallet the rest. */
  lemma {:induction false} QuotaClosedForm(run: seq<Action>, u: Id, date: Id)
    ensures FreeUsed(Run(EMPTY, run), u, date) == Min(20, PremiumBase(run, u, date))
    ensures PremiumCharged(run, u, date) == Max(0, PremiumBase(run, u, date) - 20)
    decreases |run|
  {
    if run != [] {
      var before := run[..|run| - 1];
      QuotaClosedForm(before, u, date);
      StepQuota(Run(EMPTY, before), run[|run| - 1], u, date);
    }
  }
}
