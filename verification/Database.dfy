/** The services as they run: each method updates the tables in the order the source
    does, inside a transaction that commits its working copies at the end and drops
    them when it throws.  The contracts tie every method to its function in Credits. */
module Database {
  import opened Prelude
  import opened Catalog
  import opened Credits
  import VideoJob
  import Payments

  lemma AnswersInOrder(db: Db, u: Id, preset: PresetId, job: Id, now: int, date: Id)
    requires u in db.users
    ensures
      var role := EffectiveRole(db.users[u], now);
      var refusal := WalletRefusal(db, u, Charged(db, u, preset, now, date));
      TransactionResult(db, u, preset, job, now, date) ==
        if IsProOnlyPreset(preset) && !role.PRO? && !role.ADMIN? then Forbidden
        else if refusal.Some? then refusal.value
        else if job in db.jobs then Rejected
        else Ok
    ensures
      var refusal := WalletRefusal(db, u, Charged(db, u, preset, now, date));
      refusal.Some? ==> !refusal.value.Ok?
  {
  }

  class Store {
    var users: map<Id, User>
    var wallets: map<Id, int>
    var ledger: seq<Tx>
    var usage: map<(Id, Id), int>
    var jobs: map<Id, JobRow>
    var orders: map<Id, Order>

    constructor ()
      ensures Snapshot() == EMPTY
    {
      users, wallets, ledger, usage, jobs, orders := map[], map[], [], map[], map[], map[];
    }

    function Snapshot(): Db
      reads this
    {
      Db(users, wallets, ledger, usage, jobs, orders)
    }

    method RegisterUser(u: Id) returns (result: Result)
      modifies this
      ensures (Snapshot(), result) == Register(old(Snapshot()), u)
    {
      if u in users {
        return Rejected;
      }
      users := users[u := User(FREE, None)];
      wallets := wallets[u := (if u in wallets then wallets[u] else 0) + REGISTER_BONUS_CREDITS];
      ledger := ledger + [Tx(u, REGISTER_BONUS_CREDITS, REGISTER_BONUS, None, None)];
      return Ok;
    }

    method TopUpMyCredits(u: Id, amount: nat) returns (result: Result)
      modifies this
      ensures (Snapshot(), result) == TopUp(old(Snapshot()), u, amount)
    {
      if u !in users {
        return NotFound;
      }
      var balance := if u in wallets then wallets[u] + amount else amount;
      wallets := wallets[u := balance];
      ledger := ledger + [Tx(u, amount, TEST_REWARD, None, None)];
      return Ok;
    }

    // The user an access token stands for: an expired PRO is stored as FREE.
    method ValidateToken(u: Id, now: int) returns (role: Option<Role>)
      modifies this`users
      ensures (Snapshot(), role) == Validate(old(Snapshot()), u, now)
    {
      if u !in users {
        return None;
      }
      var user := users[u];
      if user.role.PRO? && (user.proExpiresAt.None? || user.proExpiresAt.value <= now) {
        users := users[u := User(FREE, None)];
        return Some(FREE);
      }
      assert users[u := user] == users;
      return Some(user.role);
    }

    // The quota part of the transaction, on its working copies of usage and ledger.
    method ApplyDailyQuota(u: Id, preset: PresetId, now: int, date: Id)
      returns (applied: int, txUsage: map<(Id, Id), int>, txLedger: seq<Tx>)
      requires u in users
      ensures applied == FreeApplied(Snapshot(), u, preset, now, date)
      ensures txUsage == UsageAfter(Snapshot(), u, preset, now, date)
      ensures txLedger == ledger + QuotaRow(u, applied)
    {
      applied, txUsage, txLedger := 0, usage, ledger;
      if EffectiveRole(users[u], now).PRO? && IsProOnlyPreset(preset) {
        var used := if (u, date) in usage then usage[(u, date)] else 0;
        var left := PRO_DAILY_FREE_PREMIUM_CREDITS - used;
        var freeRemaining := if left > 0 then left else 0;
        applied := if CreditCost(preset) <= freeRemaining then CreditCost(preset) else freeRemaining;
        txUsage := txUsage[(u, date) := used + applied];
        if applied > 0 {
          txLedger := txLedger + [Tx(u, 0, PRO_DAILY_FREE_USAGE, None, None)];
        }
      }
    }

    method InputRefusal(u: Id, preset: PresetId, input: Input) returns (refusal: Option<Result>)
      ensures refusal ==
        if InputAccepted(u, preset, input) then None else Some(if input.Unknown? then NotFound else Rejected)
    {
      match input {
        case NotGiven =>
          if PresetWorkflow(preset).I2V? { return Some(Rejected); }
        case Unknown =>
          return Some(NotFound);
        case Asset(owner, isInput, versions) =>
          if owner != u || !isInput || versions == 0 { return Some(Rejected); }
      }
      return None;
    }

    // The wallet part, on the working copies; a refusal leaves them unused.
    method ChargeWallet(u: Id, charged: int, job: Id, rows: seq<Tx>)
      returns (refusal: Option<Result>, txWallets: map<Id, int>, txLedger: seq<Tx>)
      ensures refusal == WalletRefusal(Snapshot(), u, charged)
      ensures refusal.None? ==>
        txWallets == WalletsAfter(Snapshot(), u, charged) && txLedger == rows + ChargeRow(u, charged, job)
    {
      refusal, txWallets, txLedger := None, wallets, rows;
      if charged > 0 {
        if u !in txWallets {
          return Some(NotFound), wallets, rows;
        }
        if txWallets[u] < charged {
          return Some(NotEnoughCredit), wallets, rows;
        }
        txWallets := txWallets[u := txWallets[u] - charged];
        txLedger := txLedger + [Tx(u, -charged, CREATE_IMAGE_TO_VIDEO_JOB, Some(job), None)];
      }
    }

    // The lazy downgrade: the role the rest of the transaction goes by.
    method SettleRole(u: Id, now: int) returns (effectiveRole: Role, txUsers: map<Id, User>)
      requires u in users
      ensures effectiveRole == EffectiveRole(users[u], now)
      ensures txUsers == UsersAfter(Snapshot(), u, now)
    {
      effectiveRole := EffectiveRole(users[u], now);
      txUsers := if users[u].role != effectiveRole then users[u := User(effectiveRole, None)] else users;
    }

    // The PENDING row, and its QUEUED write once the queue has the job.
    method InsertJob(u: Id, job: Id, charged: int) returns (txJobs: map<Id, JobRow>)
      ensures txJobs == JobsAfter(Snapshot(), u, charged, job)
    {
      txJobs := jobs[job := JobRow(u, VideoJob.PENDING, charged)];
      txJobs := txJobs[job := txJobs[job].(status := VideoJob.QUEUED)];
    }

    // Quota first, then the wallet.
    method ChargeJob(u: Id, preset: PresetId, job: Id, now: int, date: Id)
      returns (
        refusal: Option<Result>, charged: int, txUsage: map<(Id, Id), int>, txWallets: map<Id, int>, txLedger: seq<Tx>)
      requires u in users
      ensures charged == Charged(Snapshot(), u, preset, now, date)
      ensures refusal == WalletRefusal(Snapshot(), u, charged)
      ensures txUsage == UsageAfter(Snapshot(), u, preset, now, date)
      ensures refusal.None? ==>
        && txWallets == WalletsAfter(Snapshot(), u, charged)
        && txLedger == LedgerAfter(Snapshot(), u, preset, job, now, date)
    {
      hide FreeApplied, UsesQuota, QuotaRow, ChargeRow, WalletRefusal, WalletsAfter, UsageAfter, CreditCost;
      var dailyFreeApplied, quotaUsage, quotaLedger := ApplyDailyQuota(u, preset, now, date);
      txUsage := quotaUsage;
      charged := CreditCost(preset) - dailyFreeApplied;
      refusal, txWallets, txLedger := ChargeWallet(u, charged, job, quotaLedger);
    }

    // The body of the transaction: the tables to commit, or those it started from.
    method CreateTransaction(u: Id, preset: PresetId, job: Id, now: int, date: Id) returns (result: Result, tx: Db)
      requires u in users
      ensures result == TransactionResult(Snapshot(), u, preset, job, now, date)
      ensures tx == if result.Ok? then CreatedTables(Snapshot(), u, preset, job, now, date) else Snapshot()
    {
      hide Charged, UsersAfter, UsageAfter, WalletsAfter, LedgerAfter, JobsAfter;
      hide TransactionResult, WalletRefusal, EffectiveRole;
      tx := Snapshot();
      AnswersInOrder(tx, u, preset, job, now, date);
      var effectiveRole, txUsers := SettleRole(u, now);
      if IsProOnlyPreset(preset) && !effectiveRole.PRO? && !effectiveRole.ADMIN? {
        return Forbidden, tx;
      }
      var refused, charged, txUsage, txWallets, txLedger := ChargeJob(u, preset, job, now, date);
      if refused.Some? {
        return refused.value, tx;
      }
      if job in jobs {
        return Rejected, tx;
      }
      var txJobs := InsertJob(u, job, charged);
      return Ok, Db(txUsers, txWallets, txLedger, txUsage, txJobs, orders);
    }

    /** Creation with its QUEUED write; a rejected call leaves every table as it was. */
    method CreateVideoJob(u: Id, preset: PresetId, input: Input, job: Id, now: int, date: Id) returns (result: Result)
      modifies this
      ensures (Snapshot(), result) == Credits.CreateVideoJob(old(Snapshot()), u, preset, input, job, now, date)
      ensures !result.Ok? ==> Snapshot() == old(Snapshot())
    {
      var refusal := InputRefusal(u, preset, input);
      if refusal.Some? {
        return refusal.value;
      }
      if u !in users {
        return NotFound;
      }
      var tx;
      result, tx := CreateTransaction(u, preset, job, now, date);
      users, wallets, ledger, usage, jobs := tx.users, tx.wallets, tx.ledger, tx.usage, tx.jobs;
    }

    // False when the wallet row is missing: the update throws and the transaction is dropped.
    method RefundCreditIfMissing(job: Id, reason: VideoJob.Reason) returns (ok: bool)
      requires job in jobs
      modifies this`wallets, this`ledger
      ensures
        var r := RefundIfMissing(old(Snapshot()), job, reason);
        ok == r.Some? && Snapshot() == if ok then r.value else old(Snapshot())
    {
      var row := jobs[job];
      if row.cost <= 0 {
        return true;
      }
      if HasRefund(ledger, job, reason) {
        return true;
      }
      if row.user !in wallets {
        return false;
      }
      wallets := wallets[row.user := wallets[row.user] + row.cost];
      ledger := ledger + [Tx(row.user, row.cost, REFUND(reason), Some(job), None)];
      return true;
    }

    method CancelVideoJob(u: Id, job: Id) returns (result: Result)
      modifies this
      ensures (Snapshot(), result) == CancelJob(old(Snapshot()), u, job)
    {
      if job !in jobs || jobs[job].user != u {
        return NotFound;
      }
      if jobs[job].status.COMPLETED? || jobs[job].status.FAILED? || jobs[job].status.CANCELLED? {
        return Rejected;
      }
      var before := jobs;
      jobs := jobs[job := jobs[job].(status := VideoJob.CANCELLED)];
      var ok := RefundCreditIfMissing(job, VideoJob.REFUND_CANCELED_JOB);
      if !ok {
        jobs := before;
        return NotFound;
      }
      return Ok;
    }

    // The worker's final failure: the FAILED write, then the refund on its own.
    method FailVideoJob(job: Id)
      modifies this
      ensures Snapshot() == RefundFailedJob(SetStatus(old(Snapshot()), job, VideoJob.FAILED), job)
    {
      if job !in jobs {
        return;
      }
      jobs := jobs[job := jobs[job].(status := VideoJob.FAILED)];
      var _ := RefundCreditIfMissing(job, VideoJob.REFUND_FAILED_JOB);
    }

    method MarkOrderPaid(o: Id, providerId: Option<Id>, now: int) returns (result: Result)
      modifies this
      ensures (Snapshot(), result) == Credits.MarkOrderPaid(old(Snapshot()), o, providerId, now)
    {
      if o !in orders {
        return NotFound;
      }
      var order := orders[o];
      if order.status.PAID? {
        return AlreadyPaid;
      }
      if !order.status.PENDING? {
        return Rejected;
      }
      var stored := if providerId.Some? then providerId else order.providerId;
      if providerId.Some? && ProviderIdTaken(Snapshot(), o, providerId.value) {
        return Rejected;
      }
      if order.user !in users {
        return NotFound;
      }
      if stored.Some? && ProviderIdTaken(Snapshot(), o, stored.value) {
        return Rejected;
      }
      orders := orders[o := order.(status := PAID, paidAt := Some(now), providerId := stored)];
      if order.credits > 0 {
        wallets := wallets[order.user := (if order.user in wallets then wallets[order.user] else 0) + order.credits];
      }
      if order.kind.PRO_SUBSCRIPTION? {
        var expires := users[order.user].proExpiresAt;
        var baseStart := if expires.Some? && expires.value > now then expires.value else now;
        users := users[order.user := User(PRO, Some(baseStart + order.proDays * MS_PER_DAY))];
      }
      if order.credits > 0 {
        var reason := if order.kind.PRO_SUBSCRIPTION? then PURCHASE_PRO_SUBSCRIPTION else PURCHASE_TOPUP;
        ledger := ledger + [Tx(order.user, order.credits, reason, None, Some(o))];
      }
      return Ok;
    }

    // An authenticated MoMo notification; the order's provider and amount come with it.
    method HandleMomoIpn(o: Id, success: bool, isMomoOrder: bool, amountMatches: bool, transId: Id, now: int)
      returns (result: Result)
      modifies this
      ensures
        var callback := Payments.MomoIpn(success, isMomoOrder, amountMatches);
        var s := Payments.Alone(old(Snapshot()), o, callback, Some(transId), now);
        Snapshot() == s.db && s.callers[0] == Payments.Finished(result)
    {
      Payments.AloneIsOneCall(Snapshot(), o, Payments.MomoIpn(success, isMomoOrder, amountMatches), Some(transId), now);
      hide Payments.Alone;
      if o !in orders {
        return NotFound;
      }
      if !isMomoOrder || !amountMatches {
        return Ok;
      }
      if success {
        result := MarkOrderPaid(o, Some(transId), now);
        return;
      }
      if orders[o].status.PENDING? {
        orders := orders[o := orders[o].(status := FAILED)];
      }
      return Ok;
    }

    method HandlePayosWebhook(o: Id, success: bool, amountMatches: bool, reference: Id, now: int)
      returns (result: Result)
      modifies this
      ensures
        var callback := Payments.PayosWebhook(success, amountMatches);
        var s := Payments.Alone(old(Snapshot()), o, callback, Some(reference), now);
        Snapshot() == s.db && s.callers[0] == Payments.Finished(result)
    {
      Payments.AloneIsOneCall(Snapshot(), o, Payments.PayosWebhook(success, amountMatches), Some(reference), now);
      hide Payments.Alone;
      if o !in orders {
        return NotFound;
      }
      if !amountMatches {
        return Ok;
      }
      if success {
        result := MarkOrderPaid(o, Some(reference), now);
        return;
      }
      if orders[o].status.PENDING? {
        orders := orders[o := orders[o].(status := FAILED)];
      }
      return Ok;
    }

    // A lookup at the provider: it can mark an order paid, under the provider id on record or
    // the code of the lookup, and never fails one.
    method SyncPayosOrderStatus(o: Id, isPayosOrder: bool, paid: bool, amountMatches: bool, orderCode: Id, now: int)
      returns (result: Result)
      modifies this
      ensures
        var callback := Payments.PayosSync(isPayosOrder, paid, amountMatches);
        var recorded := if o in old(orders) then old(orders)[o].providerId else None;
        var providerId := if recorded.Some? then recorded else Some(orderCode);
        var s := Payments.Alone(old(Snapshot()), o, callback, providerId, now);
        Snapshot() == s.db && s.callers[0] == Payments.Finished(result)
    {
      var providerId := Some(orderCode);
      if o in orders && orders[o].providerId.Some? {
        providerId := orders[o].providerId;
      }
      Payments.AloneIsOneCall(Snapshot(), o, Payments.PayosSync(isPayosOrder, paid, amountMatches), providerId, now);
      hide Payments.Alone;
      if o !in orders {
        return NotFound;
      }
      if !isPayosOrder || !orders[o].status.PENDING? || !amountMatches || !paid {
        return Ok;
      }
      result := MarkOrderPaid(o, providerId, now);
    }
  }
}
