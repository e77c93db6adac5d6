/** Users, wallets, the credit ledger, the daily quota, jobs and payment orders: each
    database transaction of the services as a function of the whole database, and what
    every run of them keeps. */
module Credits {
  import opened Prelude
  import opened Catalog
  import VideoJob

  datatype Role = FREE | PRO | ADMIN

  datatype User = User(role: Role, proExpiresAt: Option<int>)

  datatype Reason =
    | REGISTER_BONUS
    | TEST_REWARD
    | PURCHASE_TOPUP
    | PURCHASE_PRO_SUBSCRIPTION
    | PRO_DAILY_FREE_USAGE
    | CREATE_IMAGE_TO_VIDEO_JOB
    | REFUND(reason: VideoJob.Reason)

  // `job` is the job a row belongs to; the source stores it in the metadata of refunds only.
  datatype Tx = Tx(user: Id, amount: int, reason: Reason, job: Option<Id>, order: Option<Id>)

  datatype JobRow = JobRow(user: Id, status: VideoJob.Status, cost: int)

  datatype OrderKind = CREDIT_TOPUP | PRO_SUBSCRIPTION
  datatype OrderStatus = PENDING | PAID | FAILED

  datatype Order = Order(
    user: Id,
    kind: OrderKind,
    status: OrderStatus,
    credits: nat,
    proDays: nat,
    providerId: Option<Id>,
    paidAt: Option<int>)

  datatype Db = Db(
    users: map<Id, User>,
    wallets: map<Id, int>,
    ledger: seq<Tx>,
    usage: map<(Id, Id), int>,
    jobs: map<Id, JobRow>,
    orders: map<Id, Order>)

  const EMPTY := Db(map[], map[], [], map[], map[], map[])

  datatype Result =
    | Ok
    | NotFound
    | Rejected
    | Forbidden
    | NotEnoughCredit
    | AlreadyPaid

  function Balance(db: Db, u: Id): int {
    if u in db.wallets then db.wallets[u] else 0
  }

  // Wallet movement and its ledger row, always in one transaction.
  function Move(db: Db, t: Tx): Db {
    db.(wallets := db.wallets[t.user := Balance(db, t.user) + t.amount], ledger := db.ledger + [t])
  }

  // ---------- Accounts ----------

  function Register(db: Db, u: Id): (Db, Result) {
    if u in db.users then (db, Rejected)
    else
      (Move(db.(users := db.users[u := User(FREE, None)]),
            Tx(u, REGISTER_BONUS_CREDITS, REGISTER_BONUS, None, None)), Ok)
  }

  function TopUp(db: Db, u: Id, amount: nat): (Db, Result) {
    if u !in db.users then (db, NotFound)
    else (Move(db, Tx(u, amount, TEST_REWARD, None, None)), Ok)
  }

  function EffectiveRole(user: User, now: int): Role {
    if !user.role.PRO? then user.role
    else if user.proExpiresAt.None? then FREE
    else if user.proExpiresAt.value > now then PRO else FREE
  }

  // The lazy downgrade, shared by token validation and job creation.
  function Downgraded(user: User, now: int): User {
    if EffectiveRole(user, now) == user.role then user else User(FREE, None)
  }

  function Validate(db: Db, u: Id, now: int): (Db, Option<Role>) {
    if u !in db.users then (db, None)
    else
      var user := Downgraded(db.users[u], now);
      (db.(users := db.users[u := user]), Some(user.role))
  }

  // The write of a token validation that read an expired row, whatever the row says by now.
  function Demote(db: Db, u: Id): Db {
    if u in db.users then db.(users := db.users[u := User(FREE, None)]) else db
  }

  // ---------- Jobs ----------

  datatype Input =
    | NotGiven
    | Unknown
    | Asset(owner: Id, isInput: bool, versions: nat)

  predicate InputAccepted(u: Id, preset: PresetId, input: Input) {
    match input
    case NotGiven => !PresetWorkflow(preset).I2V?
    case Unknown => false
    case Asset(owner, isInput, versions) => owner == u && isInput && versions > 0
  }

  function FreeRemaining(db: Db, u: Id, date: Id): int {
    var used := if (u, date) in db.usage then db.usage[(u, date)] else 0;
    if PRO_DAILY_FREE_PREMIUM_CREDITS - used > 0 then PRO_DAILY_FREE_PREMIUM_CREDITS - used else 0
  }

  predicate UsesQuota(db: Db, u: Id, preset: PresetId, now: int) {
    u in db.users && EffectiveRole(db.users[u], now).PRO? && IsProOnlyPreset(preset)
  }

  function FreeApplied(db: Db, u: Id, preset: PresetId, now: int, date: Id): int {
    if !UsesQuota(db, u, preset, now) then 0
    else if CreditCost(preset) <= FreeRemaining(db, u, date) then CreditCost(preset)
    else FreeRemaining(db, u, date)
  }

  function WalletRefusal(db: Db, u: Id, charged: int): Option<Result> {
    if charged <= 0 then None
    else if u !in db.wallets then Some(NotFound)
    else if db.wallets[u] < charged then Some(NotEnoughCredit)
    else None
  }

  function QuotaRow(u: Id, free: int): seq<Tx> {
    if free > 0 then [Tx(u, 0, PRO_DAILY_FREE_USAGE, None, None)] else []
  }

  function ChargeRow(u: Id, charged: int, job: Id): seq<Tx> {
    if charged > 0 then [Tx(u, -charged, CREATE_IMAGE_TO_VIDEO_JOB, Some(job), None)] else []
  }

  // What the transaction answers once the input has been accepted and the user found.
  function TransactionResult(db: Db, u: Id, preset: PresetId, job: Id, now: int, date: Id): Result
    requires u in db.users
  {
    if IsProOnlyPreset(preset) && EffectiveRole(db.users[u], now).FREE? then Forbidden
    else
      var refusal := WalletRefusal(db, u, CreditCost(preset) - FreeApplied(db, u, preset, now, date));
      if refusal.Some? then refusal.value
      else if job in db.jobs then Rejected
      else Ok
  }

  function CreateJobResult(db: Db, u: Id, preset: PresetId, input: Input, job: Id, now: int, date: Id): Result {
    if !InputAccepted(u, preset, input) then (if input.Unknown? then NotFound else Rejected)
    else if u !in db.users then NotFound
    else TransactionResult(db, u, preset, job, now, date)
  }

  // The tables a successful creation leaves, one by one.
  function Charged(db: Db, u: Id, preset: PresetId, now: int, date: Id): int {
    CreditCost(preset) - FreeApplied(db, u, preset, now, date)
  }

  function UsersAfter(db: Db, u: Id, now: int): map<Id, User>
    requires u in db.users
  {
    db.users[u := Downgraded(db.users[u], now)]
  }

  function UsageAfter(db: Db, u: Id, preset: PresetId, now: int, date: Id): map<(Id, Id), int> {
    if !UsesQuota(db, u, preset, now) then db.usage
    else
      var used := if (u, date) in db.usage then db.usage[(u, date)] else 0;
      db.usage[(u, date) := used + FreeApplied(db, u, preset, now, date)]
  }

  function WalletsAfter(db: Db, u: Id, charged: int): map<Id, int> {
    if charged > 0 then db.wallets[u := Balance(db, u) - charged] else db.wallets
  }

  function LedgerAfter(db: Db, u: Id, preset: PresetId, job: Id, now: int, date: Id): seq<Tx> {
    db.ledger + QuotaRow(u, FreeApplied(db, u, preset, now, date))
    + ChargeRow(u, Charged(db, u, preset, now, date), job)
  }

  function JobsAfter(db: Db, u: Id, charged: int, job: Id): map<Id, JobRow> {
    db.jobs[job := JobRow(u, VideoJob.QUEUED, charged)]
  }

  function CreatedTables(db: Db, u: Id, preset: PresetId, job: Id, now: int, date: Id): Db
    requires u in db.users
  {
    var charged := Charged(db, u, preset, now, date);
    Db(UsersAfter(db, u, now), WalletsAfter(db, u, charged), LedgerAfter(db, u, preset, job, now, date),
       UsageAfter(db, u, preset, now, date), JobsAfter(db, u, charged, job), db.orders)
  }

  // createVideoJob up to and including the QUEUED write; a rejected call rolls everything back.
  function CreateVideoJob(db: Db, u: Id, preset: PresetId, input: Input, job: Id, now: int, date: Id): (Db, Result) {
    var result := CreateJobResult(db, u, preset, input, job, now, date);
    if !result.Ok? then (db, result) else (CreatedTables(db, u, preset, job, now, date), Ok)
  }

  function FreeUsed(db: Db, u: Id, date: Id): int {
    if (u, date) in db.usage then db.usage[(u, date)] else 0
  }

  /** What an accepted creation takes from its user: the free credits it uses up and the
      charge on the job add up to the preset's cost, free credits only for a PRO user's
      premium preset and within the daily quota; the wallet drops by the charge and never
      below zero; an expired PRO is stored as FREE; and no other wallet, job, order or user
      changes. */
  lemma CreationCharges(db: Db, u: Id, preset: PresetId, input: Input, job: Id, now: int, date: Id)
    requires CreateVideoJob(db, u, preset, input, job, now, date).1.Ok?
    ensures
      var db' := CreateVideoJob(db, u, preset, input, job, now, date).0;
      var free := FreeUsed(db', u, date) - FreeUsed(db, u, date);
      && job !in db.jobs && job in db'.jobs && db'.jobs[job].user == u && db'.jobs[job].status.QUEUED?
      && 0 <= free && 0 <= db'.jobs[job].cost
      && free + db'.jobs[job].cost ==
           (match preset
            case PREVIEW_LTX_I2V => 5
            case TURBO_WAN22_I2V_A14B => 15
            case STANDARD_WAN22_TI2V => 10
            case STANDARD_WAN22_TI2V_8S => 14
            case QUALITY_HUNYUAN_I2V => 20)
      && (free > 0 ==>
            && EffectiveRole(db.users[u], now).PRO? && IsProOnlyPreset(preset)
            && FreeUsed(db', u, date) <= PRO_DAILY_FREE_PREMIUM_CREDITS)
      && (db'.jobs[job].cost > 0 ==> CreditCost(preset) == db'.jobs[job].cost || free == FreeRemaining(db, u, date))
      && Balance(db', u) == Balance(db, u) - db'.jobs[job].cost
      && (Balance(db, u) >= 0 ==> Balance(db', u) >= 0)
      && (forall v | v != u :: Balance(db', v) == Balance(db, v))
      && (forall j | j in db.jobs :: j in db'.jobs && db'.jobs[j] == db.jobs[j]) && db'.orders == db.orders
      && u in db.users
      && db'.users ==
           var row := db.users[u];
           if row.role.PRO? && (row.proExpiresAt.None? || row.proExpiresAt.value <= now) then
             db.users[u := User(FREE, None)]
           else db.users
  {
  }

  // PRO by a running subscription, and one of the two premium presets.
  predicate ProPremium(db: Db, u: Id, preset: PresetId, now: int) {
    && u in db.users && db.users[u].role.PRO? && db.users[u].proExpiresAt.Some? && now < db.users[u].proExpiresAt.value
    && preset in {TURBO_WAN22_I2V_A14B, QUALITY_HUNYUAN_I2V}
  }

  // What of the day's twenty free credits a premium job takes.
  function FreeShare(db: Db, u: Id, preset: PresetId, date: Id): int {
    var left := if FreeUsed(db, u, date) < 20 then 20 - FreeUsed(db, u, date) else 0;
    var cost := if preset.TURBO_WAN22_I2V_A14B? then 15 else 20;
    if cost <= left then cost else left
  }

  /** Free credits go to the premium jobs of PRO users and to no others: such a job takes as
      much of what is left of the day's twenty as it costs, and nobody else's usage moves. */
  lemma FreeCreditsIff(db: Db, u: Id, preset: PresetId, input: Input, job: Id, now: int, date: Id)
    requires CreateVideoJob(db, u, preset, input, job, now, date).1.Ok?
    ensures
      var db' := CreateVideoJob(db, u, preset, input, job, now, date).0;
      && FreeUsed(db', u, date) - FreeUsed(db, u, date) ==
           (if ProPremium(db, u, preset, now) then FreeShare(db, u, preset, date) else 0)
      && forall v, d | v != u || d != date :: FreeUsed(db', v, d) == FreeUsed(db, v, d)
  {
  }

  predicate InputUsable(u: Id, preset: PresetId, input: Input) {
    match input
    case NotGiven => preset in {STANDARD_WAN22_TI2V, STANDARD_WAN22_TI2V_8S}
    case Unknown => false
    case Asset(owner, isInput, versions) => owner == u && isInput && versions != 0
  }

  predicate Allowed(db: Db, u: Id, preset: PresetId, now: int) {
    && u in db.users
    && (preset in {TURBO_WAN22_I2V_A14B, QUALITY_HUNYUAN_I2V} ==>
          db.users[u].role.ADMIN? || ProPremium(db, u, preset, now))
  }

  // What is left to pay from the wallet.
  function Due(db: Db, u: Id, preset: PresetId, now: int, date: Id): int {
    match preset
    case PREVIEW_LTX_I2V => 5
    case STANDARD_WAN22_TI2V => 10
    case STANDARD_WAN22_TI2V_8S => 14
    case TURBO_WAN22_I2V_A14B => 15 - (if ProPremium(db, u, preset, now) then FreeShare(db, u, preset, date) else 0)
    case QUALITY_HUNYUAN_I2V => 20 - (if ProPremium(db, u, preset, now) then FreeShare(db, u, preset, date) else 0)
  }

  /** Who may create what: the answer of a creation by the fields of the request, the user's
      row, the day's usage and the wallet, and no table changes unless it is accepted. */
  lemma CreationAnswers(db: Db, u: Id, preset: PresetId, input: Input, job: Id, now: int, date: Id)
    ensures
      var (db', result) := CreateVideoJob(db, u, preset, input, job, now, date);
      var usable, due := InputUsable(u, preset, input), Due(db, u, preset, now, date);
      var asked := usable && Allowed(db, u, preset, now);
      && (result.Ok? <==> asked && job !in db.jobs && (due > 0 ==> u in db.wallets && db.wallets[u] >= due))
      && (result.Forbidden? <==> usable && u in db.users && !Allowed(db, u, preset, now))
      && (result.NotEnoughCredit? <==> asked && due > 0 && u in db.wallets && db.wallets[u] < due)
      && (result.NotFound? <==>
            input.Unknown? || (usable && u !in db.users) || (asked && due > 0 && u !in db.wallets))
      && (!result.Ok? ==> db' == db)
      && (result.Ok? ==> job in db'.jobs && db'.jobs[job].cost == due)
  {
  }

  /** And exactly these ledger rows. */
  lemma CreationRows(db: Db, u: Id, preset: PresetId, input: Input, job: Id, now: int, date: Id)
    requires CreateVideoJob(db, u, preset, input, job, now, date).1.Ok?
    ensures
      var db' := CreateVideoJob(db, u, preset, input, job, now, date).0;
      var free := FreeUsed(db', u, date) - FreeUsed(db, u, date);
      var rows := db'.ledger[|db.ledger|..];
      && db.ledger <= db'.ledger
      && |rows| == (if free > 0 then 1 else 0) + (if db'.jobs[job].cost > 0 then 1 else 0)
      && (free > 0 ==> rows[0] == Tx(u, 0, PRO_DAILY_FREE_USAGE, None, None))
      && (db'.jobs[job].cost > 0 ==>
            rows[|rows| - 1] == Tx(u, -db'.jobs[job].cost, CREATE_IMAGE_TO_VIDEO_JOB, Some(job), None))
  {
    var free, charged := FreeApplied(db, u, preset, now, date), Charged(db, u, preset, now, date);
    var rows := QuotaRow(u, free) + ChargeRow(u, charged, job);
    assert db.ledger + QuotaRow(u, free) + ChargeRow(u, charged, job) == db.ledger + rows;
    assert (db.ledger + rows)[|db.ledger|..] == rows;
  }

  predicate IsRefund(t: Tx, job: Id, reason: VideoJob.Reason) {
    t.job == Some(job) && t.reason == REFUND(reason)
  }

  predicate HasRefund(ledger: seq<Tx>, job: Id, reason: VideoJob.Reason) {
    exists i | 0 <= i < |ledger| :: IsRefund(ledger[i], job, reason)
  }

  // Nothing when the wallet row to increment is missing: the transaction fails.
  function RefundIfMissing(db: Db, job: Id, reason: VideoJob.Reason): Option<Db>
    requires job in db.jobs
  {
    var row := db.jobs[job];
    if row.cost <= 0 || HasRefund(db.ledger, job, reason) then Some(db)
    else if row.user !in db.wallets then None
    else Some(Move(db, Tx(row.user, row.cost, REFUND(reason), Some(job), None)))
  }

  function SetStatus(db: Db, job: Id, status: VideoJob.Status): Db {
    if job in db.jobs then db.(jobs := db.jobs[job := db.jobs[job].(status := status)]) else db
  }

  // A status write and a refund in one transaction: the cancel, or a failed enqueue.
  function CloseWithRefund(db: Db, job: Id, status: VideoJob.Status, reason: VideoJob.Reason): (Db, Result) {
    if job !in db.jobs then (db, NotFound)
    else
      var closed := RefundIfMissing(SetStatus(db, job, status), job, reason);
      if closed.Some? then (closed.value, Ok) else (db, NotFound)
  }

  function CancelJob(db: Db, u: Id, job: Id): (Db, Result) {
    if job !in db.jobs || db.jobs[job].user != u then (db, NotFound)
    else if db.jobs[job].status in {VideoJob.COMPLETED, VideoJob.FAILED, VideoJob.CANCELLED} then (db, Rejected)
    else CloseWithRefund(db, job, VideoJob.CANCELLED, VideoJob.REFUND_CANCELED_JOB)
  }

  // The worker's refund, a transaction of its own after the FAILED write.
  function RefundFailedJob(db: Db, job: Id): Db {
    if job !in db.jobs then db
    else
      var r := RefundIfMissing(db, job, VideoJob.REFUND_FAILED_JOB);
      if r.Some? then r.value else db
  }

  // ---------- Payment orders ----------

  function CreateOrder(db: Db, o: Id, u: Id, kind: OrderKind, credits: nat, proDays: nat): Db {
    if o in db.orders || u !in db.users then db
    else db.(orders := db.orders[o := Order(u, kind, PENDING, credits, proDays, None, None)])
  }

  // An unconditional status write by a failure callback.
  function FailOrder(db: Db, o: Id): Db {
    if o in db.orders then db.(orders := db.orders[o := db.orders[o].(status := FAILED)]) else db
  }

  predicate ProviderIdTaken(db: Db, o: Id, providerId: Id) {
    exists x | x in db.orders :: x != o && db.orders[x].providerId == Some(providerId)
  }

  function ExtendPro(expires: Option<int>, now: int, days: nat): int {
    (if expires.Some? && expires.value > now then expires.value else now) + days * MS_PER_DAY
  }

  /** What markOrderPaid does from its conditional update on.  `seen` is the order and
      `seenExpiry` the user's expiry as read before it. */
  function Claim(db: Db, o: Id, seen: Order, seenExpiry: Option<int>, providerId: Option<Id>, now: int): (Db, Result) {
    if o !in db.orders || !db.orders[o].status.PENDING? then (db, AlreadyPaid)
    else
      var stored := if providerId.Some? then providerId else seen.providerId;
      if stored.Some? && ProviderIdTaken(db, o, stored.value) then (db, Rejected)
      else if seen.user !in db.users then (db, NotFound)
      else
        var paid := db.orders[o].(status := PAID, paidAt := Some(now), providerId := stored);
        var db1 := db.(orders := db.orders[o := paid]);
        var db2 :=
          if !seen.kind.PRO_SUBSCRIPTION? then db1
          else db1.(users := db1.users[seen.user := User(PRO, Some(ExtendPro(seenExpiry, now, seen.proDays)))]);
        var reason := if seen.kind.PRO_SUBSCRIPTION? then PURCHASE_PRO_SUBSCRIPTION else PURCHASE_TOPUP;
        (if seen.credits > 0 then Move(db2, Tx(seen.user, seen.credits, reason, None, Some(o))) else db2, Ok)
  }

  // The whole of markOrderPaid with nothing in between.
  function MarkOrderPaid(db: Db, o: Id, providerId: Option<Id>, now: int): (Db, Result) {
    if o !in db.orders then (db, NotFound)
    else
      var seen := db.orders[o];
      if seen.status.PAID? then (db, AlreadyPaid)
      else if !seen.status.PENDING? || (providerId.Some? && ProviderIdTaken(db, o, providerId.value)) then
        (db, Rejected)
      else if seen.user !in db.users then (db, NotFound)
      else Claim(db, o, seen, db.users[seen.user].proExpiresAt, providerId, now)
  }
}
