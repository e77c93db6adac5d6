/** Payment callbacks racing for an order: MoMo notifications, payOS webhooks, payOS
    lookups and administrators, interleaved between every two of their database calls
    and with everything else the database does. */
module Payments {
  import opened Prelude
  import opened Catalog
  import opened Credits
  import LedgerRuns

  // What a callback knows when it starts; `amountMatches` also covers orders without a recorded amount.
  datatype Callback =
    | MomoIpn(success: bool, isMomoOrder: bool, amountMatches: bool)
    | PayosWebhook(success: bool, amountMatches: bool)
    | PayosSync(isPayosOrder: bool, paid: bool, amountMatches: bool)
    | Admin

  datatype Next = CallMarkPaid | WriteFailed | Stop

  // The decision a callback takes on the order it has just read.
  function Decide(order: Order, cb: Callback): Next {
    match cb
    case MomoIpn(success, isMomo, amountMatches) =>
      if !isMomo || !amountMatches then Stop
      else if success then CallMarkPaid
      else if order.status.PENDING? then WriteFailed else Stop
    case PayosWebhook(success, amountMatches) =>
      if !amountMatches then Stop
      else if success then CallMarkPaid
      else if order.status.PENDING? then WriteFailed else Stop
    case PayosSync(isPayos, paid, amountMatches) =>
      if isPayos && order.status.PENDING? && amountMatches && paid then CallMarkPaid else Stop
    case Admin => CallMarkPaid
  }

  datatype Caller =
    | Paying(order: Id, providerId: Option<Id>)
    | Claiming(order: Id, providerId: Option<Id>, seen: Order, seenExpiry: Option<int>)
    | Failing(order: Id)
    | Finished(result: Result)

  datatype State = State(db: Db, callers: map<Id, Caller>)

  datatype Action =
    | Begin(caller: Id, order: Id, cb: Callback, providerId: Option<Id>)
    | ReadOrder(caller: Id)
    | ClaimOrder(caller: Id, now: int)
    | WriteFailure(caller: Id)
    | Elsewhere(action: LedgerRuns.Action)

  function Became(s: State, caller: Id, phase: Caller): State {
    s.(callers := s.callers[caller := phase])
  }

  function Step(s: State, a: Action): State {
    match a
    case Begin(c, o, cb, providerId) =>
      if c in s.callers then s
      else if o !in s.db.orders then Became(s, c, Finished(NotFound))
      else
        (match Decide(s.db.orders[o], cb)
         case CallMarkPaid => Became(s, c, Paying(o, providerId))
         case WriteFailed => Became(s, c, Failing(o))
         case Stop => Became(s, c, Finished(Ok)))
    case ReadOrder(c) =>
      if c !in s.callers || !s.callers[c].Paying? then s
      else
        var Paying(o, providerId) := s.callers[c];
        if o !in s.db.orders then Became(s, c, Finished(NotFound))
        else
          var seen := s.db.orders[o];
          if seen.status.PAID? then Became(s, c, Finished(AlreadyPaid))
          else if !seen.status.PENDING? || (providerId.Some? && ProviderIdTaken(s.db, o, providerId.value)) then
            Became(s, c, Finished(Rejected))
          else if seen.user !in s.db.users then Became(s, c, Finished(NotFound))
          else Became(s, c, Claiming(o, providerId, seen, s.db.users[seen.user].proExpiresAt))
    case ClaimOrder(c, now) =>
      if c !in s.callers || !s.callers[c].Claiming? then s
      else
        var Claiming(o, providerId, seen, seenExpiry) := s.callers[c];
        var (db', result) := Claim(s.db, o, seen, seenExpiry, providerId, now);
        Became(s, c, Finished(result)).(db := db')
    case WriteFailure(c) =>
      if c !in s.callers || !s.callers[c].Failing? then s
      else Became(s, c, Finished(Ok)).(db := FailOrder(s.db, s.callers[c].order))
    case Elsewhere(action) =>
      if action.DoClaim? then s else s.(db := LedgerRuns.Step(s.db, action))
  }

  function Run(s: State, run: seq<Action>): State
    decreases |run|
  {
    if run == [] then s else Step(Run(s, run[..|run| - 1]), run[|run| - 1])
  }

  const START := State(EMPTY, map[])

  // ---------- What every interleaving keeps ----------

  function Grants(ledger: seq<Tx>, o: Id): nat
    decreases |ledger|
  {
    if ledger == [] then 0
    else Grants(ledger[..|ledger| - 1], o) + if ledger[|ledger| - 1].order == Some(o) then 1 else 0
  }

  lemma GrantsSnoc(ledger: seq<Tx>, t: Tx)
    ensures forall o :: Grants(ledger + [t], o) == Grants(ledger, o) + if t.order == Some(o) then 1 else 0
  {
    assert (ledger + [t])[..|ledger|] == ledger;
  }

  // A successful claim stamps paidAt; nothing else writes it.
  predicate OrderSane(db: Db, o: Id)
    requires o in db.orders
  {
    var order := db.orders[o];
    && (order.status.PENDING? ==> order.paidAt.None?)
    && (order.status.PAID? ==> order.paidAt.Some?)
    && (order.paidAt.None? ==> order.providerId.None?)
    && Grants(db.ledger, o) == if order.paidAt.Some? && order.credits > 0 then 1 else 0
  }

  ghost predicate OrdersSane(db: Db) {
    && (forall o | o in db.orders :: OrderSane(db, o))
    && (forall o | o !in db.orders :: Grants(db.ledger, o) == 0)
    && NoSharedPayment(db)
  }

  // The parts of an order that never change.
  predicate SameOrder(a: Order, b: Order) {
    a.user == b.user && a.kind == b.kind && a.credits == b.credits && a.proDays == b.proDays
  }

  ghost predicate CallersSane(s: State) {
    forall c | c in s.callers && s.callers[c].Claiming? ::
      var p := s.callers[c];
      p.order in s.db.orders && SameOrder(p.seen, s.db.orders[p.order]) && p.seen.providerId.None?
  }

  ghost predicate Sane(s: State) {
    OrdersSane(s.db) && CallersSane(s)
  }

  // A change of the database that leaves orders alone and adds no row of an order.
  lemma SameOrders(db: Db, db': Db)
    requires OrdersSane(db) && db'.orders == db.orders
    requires forall o :: Grants(db'.ledger, o) == Grants(db.ledger, o)
    ensures OrdersSane(db')
  {
    forall o | o in db'.orders ensures OrderSane(db', o) { assert OrderSane(db, o); }
  }

  // What a successful claim leaves, field by field; any other leaves the database alone.
  lemma ClaimEffect(db: Db, o: Id, seen: Order, seenExpiry: Option<int>, providerId: Option<Id>, now: int)
    returns (t: Tx)
    requires o in db.orders && seen.providerId.None?
    ensures t.order == Some(o)
    ensures
      var (db', result) := Claim(db, o, seen, seenExpiry, providerId, now);
      if result.Ok? then
        && db.orders[o].status.PENDING?
        && db'.orders == db.orders[o := db.orders[o].(status := PAID, paidAt := Some(now), providerId := providerId)]
        && (providerId.Some? ==> !ProviderIdTaken(db, o, providerId.value))
        && db'.ledger == (if seen.credits > 0 then db.ledger + [t] else db.ledger)
      else db' == db
  {
    var reason := if seen.kind.PRO_SUBSCRIPTION? then PURCHASE_PRO_SUBSCRIPTION else PURCHASE_TOPUP;
    t := Tx(seen.user, seen.credits, reason, None, Some(o));
  }

  predicate NoSharedPayment(db: Db) {
    forall o, x | o in db.orders && x in db.orders && o != x && db.orders[o].providerId.Some? ::
      db.orders[o].providerId != db.orders[x].providerId
  }

  lemma PaidKeepsUnshared(db: Db, o: Id, paid: Order)
    requires NoSharedPayment(db) && o in db.orders
    requires paid.providerId.Some? ==> !ProviderIdTaken(db, o, paid.providerId.value)
    ensures NoSharedPayment(db.(orders := db.orders[o := paid]))
  {
  }

  lemma PaidOrderSane(db: Db, db': Db, o: Id, t: Tx, providerId: Option<Id>, now: int)
    requires OrdersSane(db) && o in db.orders && db.orders[o].status.PENDING? && t.order == Some(o)
    requires db'.orders == db.orders[o := db.orders[o].(status := PAID, paidAt := Some(now), providerId := providerId)]
    requires providerId.Some? ==> !ProviderIdTaken(db, o, providerId.value)
    requires db'.ledger == if db.orders[o].credits > 0 then db.ledger + [t] else db.ledger
    ensures OrdersSane(db')
  {
    GrantsSnoc(db.ledger, t);
    PaidKeepsUnshared(db, o, db'.orders[o]);
    forall x | x in db'.orders ensures OrderSane(db', x) { assert OrderSane(db, x); }
  }

  lemma ClaimSane(db: Db, o: Id, seen: Order, seenExpiry: Option<int>, providerId: Option<Id>, now: int)
    requires OrdersSane(db) && o in db.orders && SameOrder(seen, db.orders[o]) && seen.providerId.None?
    ensures OrdersSane(Claim(db, o, seen, seenExpiry, providerId, now).0)
  {
    var t := ClaimEffect(db, o, seen, seenExpiry, providerId, now);
    var (db', result) := Claim(db, o, seen, seenExpiry, providerId, now);
    if result.Ok? { PaidOrderSane(db, db', o, t, providerId, now); }
  }

  lemma FailSane(db: Db, o: Id)
    requires OrdersSane(db)
    ensures OrdersSane(FailOrder(db, o))
  {
    var db' := FailOrder(db, o);
    forall x | x in db'.orders ensures OrderSane(db', x) { assert OrderSane(db, x); }
  }

  lemma CreateOrderSane(db: Db, o: Id, u: Id, kind: OrderKind, credits: nat, proDays: nat)
    requires OrdersSane(db)
    ensures OrdersSane(CreateOrder(db, o, u, kind, credits, proDays))
  {
    var db' := CreateOrder(db, o, u, kind, credits, proDays);
    forall x | x in db'.orders ensures OrderSane(db', x) { if x in db.orders { assert OrderSane(db, x); } }
  }

  // Every writer but these adds at most one row, and none of an order.
  lemma OtherRow(db: Db, a: LedgerRuns.Action)
    requires !a.DoClaim? && !a.DoCreateOrder? && !a.DoFailOrder? && !a.DoCreateJob?
    ensures var db' := LedgerRuns.Step(db, a);
      && db'.orders == db.orders
      && (db'.ledger == db.ledger
          || (|db'.ledger| == |db.ledger| + 1 && db'.ledger == db.ledger + [db'.ledger[|db.ledger|]]
              && db'.ledger[|db.ledger|].order.None?))
  {
  }

  // No other writer adds a ledger row of an order or touches the orders.
  lemma OtherRows(db: Db, a: LedgerRuns.Action)
    requires !a.DoClaim? && !a.DoCreateOrder? && !a.DoFailOrder?
    ensures LedgerRuns.Step(db, a).orders == db.orders
    ensures forall o :: Grants(LedgerRuns.Step(db, a).ledger, o) == Grants(db.ledger, o)
  {
    hide LedgerRuns.Step;
    if a.DoCreateJob? {
      CreateJobRows(db, a);
    } else {
      OtherRow(db, a);
      var db' := LedgerRuns.Step(db, a);
      if db'.ledger != db.ledger {
        GrantsSnoc(db.ledger, db'.ledger[|db.ledger|]);
      }
    }
  }

  lemma CreateJobRows(db: Db, a: LedgerRuns.Action)
    requires a.DoCreateJob?
    ensures LedgerRuns.Step(db, a).orders == db.orders
    ensures forall o :: Grants(LedgerRuns.Step(db, a).ledger, o) == Grants(db.ledger, o)
  {
    if CreateJobResult(db, a.user, a.preset, a.input, a.job, a.now, a.date).Ok? {
      AcceptedRows(db, a.user, a.preset, a.input, a.job, a.now, a.date);
    }
  }

  lemma AcceptedRows(db: Db, u: Id, preset: PresetId, input: Input, job: Id, now: int, date: Id)
    requires CreateJobResult(db, u, preset, input, job, now, date).Ok?
    ensures
      var db' := CreateVideoJob(db, u, preset, input, job, now, date).0;
      db'.orders == db.orders && forall o :: Grants(db'.ledger, o) == Grants(db.ledger, o)
  {
    var free, charged := FreeApplied(db, u, preset, now, date), Charged(db, u, preset, now, date);
    OrderlessRows(db.ledger, QuotaRow(u, free));
    OrderlessRows(db.ledger + QuotaRow(u, free), ChargeRow(u, charged, job));
    hide CreateVideoJob, CreateJobResult, FreeApplied, Charged, UsersAfter, UsageAfter, WalletsAfter, JobsAfter;
  }

  lemma OrderlessRows(ledger: seq<Tx>, rows: seq<Tx>)
    requires |rows| <= 1 && forall t | t in rows :: t.order.None?
    ensures forall o :: Grants(ledger + rows, o) == Grants(ledger, o)
  {
    if rows == [] {
      assert ledger + rows == ledger;
    } else {
      assert rows == [rows[0]];
      GrantsSnoc(ledger, rows[0]);
    }
  }

  lemma ElsewhereSane(db: Db, a: LedgerRuns.Action)
    requires OrdersSane(db) && !a.DoClaim?
    ensures OrdersSane(LedgerRuns.Step(db, a))
  {
    match a
    case DoCreateOrder(o, u, kind, credits, proDays) => CreateOrderSane(db, o, u, kind, credits, proDays);
    case DoFailOrder(o) => FailSane(db, o);
    case _ => OtherRows(db, a); SameOrders(db, LedgerRuns.Step(db, a));
  }

  // Orders never disappear, their terms never change, and a closed one never reopens.
  ghost predicate OrdersForward(db: Db, db': Db) {
    forall o | o in db.orders ::
      && o in db'.orders && SameOrder(db.orders[o], db'.orders[o])
      && (!db.orders[o].status.PENDING? ==> !db'.orders[o].status.PENDING?)
      && (db.orders[o].paidAt.Some? ==> db'.orders[o].paidAt == db.orders[o].paidAt)
  }

  lemma ClaimForward(db: Db, o: Id, seen: Order, seenExpiry: Option<int>, providerId: Option<Id>, now: int)
    requires OrdersSane(db) && o in db.orders && seen.providerId.None?
    ensures OrdersForward(db, Claim(db, o, seen, seenExpiry, providerId, now).0)
  {
    var _ := ClaimEffect(db, o, seen, seenExpiry, providerId, now);
    assert OrderSane(db, o);
  }

  lemma ElsewhereForward(db: Db, a: LedgerRuns.Action)
    requires !a.DoClaim?
    ensures OrdersForward(db, LedgerRuns.Step(db, a))
  {
    if !a.DoCreateOrder? && !a.DoFailOrder? {
      hide LedgerRuns.Step;
      OtherRows(db, a);
      assert OrdersForward(db, LedgerRuns.Step(db, a));
    }
  }

  lemma StepForward(s: State, a: Action)
    requires Sane(s)
    ensures OrdersForward(s.db, Step(s, a).db)
  {
    match a
    case Elsewhere(action) =>
      if !action.DoClaim? { ElsewhereForward(s.db, action); }
    case ClaimOrder(c, now) =>
      if c in s.callers && s.callers[c].Claiming? {
        var p := s.callers[c];
        ClaimForward(s.db, p.order, p.seen, p.seenExpiry, p.providerId, now);
      }
    case _ =>
  }

  lemma StepSane(s: State, a: Action)
    requires Sane(s)
    ensures Sane(Step(s, a))
  {
    hide LedgerRuns.Step, Claim, FailOrder;
    var s' := Step(s, a);
    StepForward(s, a);
    match a
    case ClaimOrder(c, now) =>
      if c in s.callers && s.callers[c].Claiming? {
        var Claiming(o, providerId, seen, seenExpiry) := s.callers[c];
        ClaimSane(s.db, o, seen, seenExpiry, providerId, now);
      }
    case WriteFailure(c) =>
      if c in s.callers && s.callers[c].Failing? { FailSane(s.db, s.callers[c].order); }
    case Elsewhere(action) =>
      if !action.DoClaim? { ElsewhereSane(s.db, action); }
    case ReadOrder(c) =>
      if c in s.callers && s.callers[c].Paying? && s.callers[c].order in s.db.orders {
        assert OrderSane(s.db, s.callers[c].order);
      }
    case Begin(_, _, _, _) =>
  }

  lemma {:induction false} AlwaysSane(run: seq<Action>)
    ensures Sane(Run(START, run))
    decreases |run|
  {
    if run != [] {
      AlwaysSane(run[..|run| - 1]);
      StepSane(Run(START, run[..|run| - 1]), run[|run| - 1]);
    }
  }

  // ---------- Credits are granted once ----------

  predicate ClaimSucceeds(s: State, a: Action, o: Id) {
    && a.ClaimOrder? && a.caller in s.callers && s.callers[a.caller].Claiming? && s.callers[a.caller].order == o
    && Step(s, a).callers[a.caller] == Finished(Ok)
  }

  function Successes(run: seq<Action>, o: Id): nat
    decreases |run|
  {
    if run == [] then 0
    else
      var before := run[..|run| - 1];
      Successes(before, o) + if ClaimSucceeds(Run(START, before), run[|run| - 1], o) then 1 else 0
  }

  predicate Stamped(db: Db, o: Id) {
    o in db.orders && db.orders[o].paidAt.Some?
  }

  lemma StepPaidAt(s: State, a: Action, o: Id)
    requires Sane(s)
    ensures if ClaimSucceeds(s, a, o) then !Stamped(s.db, o) && Stamped(Step(s, a).db, o)
            else Stamped(Step(s, a).db, o) == Stamped(s.db, o)
  {
    match a
    case Elsewhere(action) =>
      if !action.DoClaim? && !action.DoCreateOrder? && !action.DoFailOrder? { OtherRows(s.db, action); }
    case ClaimOrder(c, now) =>
      if c in s.callers && s.callers[c].Claiming? {
        var p := s.callers[c];
        var _ := ClaimEffect(s.db, p.order, p.seen, p.seenExpiry, p.providerId, now);
        assert OrderSane(s.db, p.order);
      }
    case _ =>
  }

  /** In every interleaving of any number of callers: at most one claim of an order
      ever succeeds, its credits are granted exactly as often, the paid stamp says
      whether one has, and two orders never hold the same provider payment. */
  lemma {:induction false} GrantedOnce(run: seq<Action>, o: Id)
    ensures
      var db := Run(START, run).db;
      && Successes(run, o) == (if o in db.orders && db.orders[o].paidAt.Some? then 1 else 0)
      && Grants(db.ledger, o) == (if o in db.orders && db.orders[o].credits > 0 then Successes(run, o) else 0)
      && (forall x | x in db.orders && o in db.orders && x != o && db.orders[x].providerId.Some? ::
            db.orders[x].providerId != db.orders[o].providerId)
    decreases |run|
  {
    if run != [] {
      GrantedOnce(run[..|run| - 1], o);
      AlwaysSane(run[..|run| - 1]);
      StepPaidAt(Run(START, run[..|run| - 1]), run[|run| - 1], o);
    }
    AlwaysSane(run);
    assert o in Run(START, run).db.orders ==> OrderSane(Run(START, run).db, o);
  }

  lemma ForwardTransitive(a: Db, b: Db, c: Db)
    requires OrdersForward(a, b) && OrdersForward(b, c)
    ensures OrdersForward(a, c)
  {
  }

  /** No run ever takes an order back to PENDING, and a paid stamp is for good. */
  lemma {:induction false} NeverPendingAgain(run: seq<Action>, i: nat, j: nat)
    requires i <= j <= |run|
    ensures OrdersForward(Run(START, run[..i]).db, Run(START, run[..j]).db)
    decreases j
  {
    if i < j {
      hide Step, OrdersForward, Sane;
      NeverPendingAgain(run, i, j - 1);
      AlwaysSane(run[..j - 1]);
      assert run[..j][..j - 1] == run[..j - 1];
      StepForward(Run(START, run[..j - 1]), run[j - 1]);
      ForwardTransitive(Run(START, run[..i]).db, Run(START, run[..j - 1]).db, Run(START, run[..j]).db);
    }
  }

  lemma ClosedStaysUnpaid(s: State, a: Action, o: Id)
    requires Sane(s) && o in s.db.orders && !s.db.orders[o].status.PENDING? && s.db.orders[o].paidAt.None?
    ensures !Stamped(Step(s, a).db, o)
  {
    StepPaidAt(s, a, o);
    if ClaimSucceeds(s, a, o) {
      var p := s.callers[a.caller];
      var _ := ClaimEffect(s.db, p.order, p.seen, p.seenExpiry, p.providerId, a.now);
    }
  }

  /** A failure written before any payment is final: whatever arrives afterwards, the
      order is never paid and none of its credits is ever granted. */
  lemma {:induction false} UnpaidFailureIsFinal(run: seq<Action>, i: nat, j: nat, o: Id)
    requires i <= j <= |run| && o in Run(START, run[..i]).db.orders
    requires var order := Run(START, run[..i]).db.orders[o]; !order.status.PENDING? && order.paidAt.None?
    ensures !Stamped(Run(START, run[..j]).db, o) && Grants(Run(START, run[..j]).db.ledger, o) == 0
    decreases j
  {
    hide Step, Sane;
    if i < j {
      UnpaidFailureIsFinal(run, i, j - 1, o);
      NeverPendingAgain(run, i, j - 1);
      AlwaysSane(run[..j - 1]);
      assert run[..j][..j - 1] == run[..j - 1];
      ClosedStaysUnpaid(Run(START, run[..j - 1]), run[j - 1], o);
    }
    GrantedOnce(run[..j], o);
  }

  // What a step does to the tables is nothing or one action of the database.
  lemma LedgerActionOf(s: State, a: Action) returns (last: Option<LedgerRuns.Action>)
    ensures Step(s, a).db == if last.None? then s.db else LedgerRuns.Step(s.db, last.value)
  {
    match a
    case ClaimOrder(c, now) =>
      if c in s.callers && s.callers[c].Claiming? {
        var p := s.callers[c];
        return Some(LedgerRuns.DoClaim(p.order, p.seen, p.seenExpiry, p.providerId, now));
      }
      return None;
    case WriteFailure(c) =>
      return if c in s.callers && s.callers[c].Failing? then Some(LedgerRuns.DoFailOrder(s.callers[c].order)) else None;
    case Elsewhere(action) =>
      return if action.DoClaim? then None else Some(action);
    case _ =>
      return None;
  }

  lemma {:induction false} LedgerRunOf(run: seq<Action>) returns (actions: seq<LedgerRuns.Action>)
    ensures LedgerRuns.Run(EMPTY, actions) == Run(START, run).db
    decreases |run|
  {
    hide Step, LedgerRuns.Step;
    if run == [] { return []; }
    var before := LedgerRunOf(run[..|run| - 1]);
    var last := LedgerActionOf(Run(START, run[..|run| - 1]), run[|run| - 1]);
    if last.None? { return before; }
    actions := before + [last.value];
    assert actions[..|before|] == before;
  }

  /** The race is a run of the database: wallets still equal the ledger throughout. */
  lemma RaceKeepsWallets(run: seq<Action>)
    ensures LedgerRuns.WalletsMatch(Run(START, run).db.wallets, Run(START, run).db.ledger)
  {
    var actions := LedgerRunOf(run);
    LedgerRuns.WalletIsLedger(actions);
  }

  // ---------- Where the status stops telling the truth ----------

  // A write of FAILED on the order: a failure callback goes by what it read.
  predicate FailsOrder(s: State, a: Action, o: Id) {
    && o in s.db.orders
    && ((a.WriteFailure? && a.caller in s.callers && s.callers[a.caller] == Failing(o))
        || (a.Elsewhere? && a.action == LedgerRuns.DoFailOrder(o)))
  }

  predicate PaidAndFailed(db: Db, o: Id) {
    Stamped(db, o) && db.orders[o].status.FAILED?
  }

  ghost predicate Claimed(run: seq<Action>, o: Id) {
    exists i | 0 <= i < |run| :: ClaimSucceeds(Run(START, run[..i]), run[i], o)
  }

  ghost predicate FailsClaimed(run: seq<Action>, j: nat, o: Id)
    requires j < |run|
  {
    FailsOrder(Run(START, run[..j]), run[j], o) && Claimed(run[..j], o)
  }

  ghost predicate FailedAfterClaim(run: seq<Action>, o: Id) {
    exists j | 0 <= j < |run| :: FailsClaimed(run, j, o)
  }

  lemma ClaimedSnoc(run: seq<Action>, o: Id)
    requires run != []
    ensures
      var n := |run| - 1;
      Claimed(run, o) <==> Claimed(run[..n], o) || ClaimSucceeds(Run(START, run[..n]), run[n], o)
  {
    var n := |run| - 1;
    assert forall i | 0 <= i < n :: run[..n][..i] == run[..i] && run[..n][i] == run[i];
    hide ClaimSucceeds, Run;
  }

  lemma FailedAfterClaimSnoc(run: seq<Action>, o: Id)
    requires run != []
    ensures
      var n := |run| - 1;
      FailedAfterClaim(run, o) <==>
        FailedAfterClaim(run[..n], o) || (FailsOrder(Run(START, run[..n]), run[n], o) && Claimed(run[..n], o))
  {
    var n := |run| - 1;
    hide FailsOrder, Claimed, Run;
    forall j | 0 <= j < n ensures FailsClaimed(run[..n], j, o) <==> FailsClaimed(run, j, o) {
      assert run[..n][..j] == run[..j];
    }
    assert FailsClaimed(run, n, o) <==> FailsOrder(Run(START, run[..n]), run[n], o) && Claimed(run[..n], o);
    hide FailsClaimed;
  }

  // An order carries a paid stamp exactly when some claim of it succeeded.
  lemma {:induction false} StampedIffClaimed(run: seq<Action>, o: Id)
    ensures Stamped(Run(START, run).db, o) <==> Claimed(run, o)
    decreases |run|
  {
    if run != [] {
      hide Step, ClaimSucceeds, Claimed, Sane;
      var n := |run| - 1;
      StampedIffClaimed(run[..n], o);
      AlwaysSane(run[..n]);
      StepPaidAt(Run(START, run[..n]), run[n], o);
      ClaimedSnoc(run, o);
    }
  }

  lemma StepPaidAndFailed(s: State, a: Action, o: Id)
    requires Sane(s)
    ensures PaidAndFailed(Step(s, a).db, o) <==>
      Stamped(s.db, o) && (s.db.orders[o].status.FAILED? || FailsOrder(s, a, o))
  {
    match a
    case Elsewhere(action) =>
      if !action.DoClaim? && !action.DoCreateOrder? && !action.DoFailOrder? { OtherRows(s.db, action); }
    case ClaimOrder(c, now) =>
      if c in s.callers && s.callers[c].Claiming? {
        var p := s.callers[c];
        var _ := ClaimEffect(s.db, p.order, p.seen, p.seenExpiry, p.providerId, now);
        assert OrderSane(s.db, p.order);
      }
    case _ =>
  }

  /** In every interleaving an order ends granted and FAILED exactly when some write of
      FAILED on it follows its successful claim. */
  lemma {:induction false} FailureOverwritesIff(run: seq<Action>, o: Id)
    ensures PaidAndFailed(Run(START, run).db, o) <==> FailedAfterClaim(run, o)
    decreases |run|
  {
    if run != [] {
      hide Step, FailsOrder, Claimed, FailedAfterClaim, Sane, Stamped;
      var n := |run| - 1;
      FailureOverwritesIff(run[..n], o);
      AlwaysSane(run[..n]);
      StepPaidAndFailed(Run(START, run[..n]), run[n], o);
      StampedIffClaimed(run[..n], o);
      FailedAfterClaimSnoc(run, o);
    }
  }

  /** That history exists: a paid top-up ends FAILED with its credits granted. */
  lemma GrantedButFailed(u: Id, o: Id)
    ensures
      var db := CreateOrder(Register(EMPTY, u).0, o, u, CREDIT_TOPUP, 50, 0);
      var s1 := Step(State(db, map[]), Begin(1, o, MomoIpn(false, true, true), None));
      var s2 := Step(s1, Begin(2, o, MomoIpn(true, true, true), Some(9)));
      var s3 := Step(Step(s2, ReadOrder(2)), ClaimOrder(2, 0));
      var end := Step(s3, WriteFailure(1)).db;
      end.orders[o].status.FAILED? && end.orders[o].paidAt.Some? && Credits.Balance(end, u) == 150
  {
    var db := CreateOrder(Register(EMPTY, u).0, o, u, CREDIT_TOPUP, 50, 0);
    var s1 := Step(State(db, map[]), Begin(1, o, MomoIpn(false, true, true), None));
    assert s1.callers[1] == Failing(o);
    var s2 := Step(s1, Begin(2, o, MomoIpn(true, true, true), Some(9)));
    assert s2.callers[2] == Paying(o, Some(9)) && s2.callers[1] == Failing(o) && s2.db == db;
    var s2r := Step(s2, ReadOrder(2));
    assert s2r.callers[2].Claiming? && s2r.db == db;
    var s3 := Step(s2r, ClaimOrder(2, 0));
    assert s3.db.orders[o].status.PAID? && Credits.Balance(s3.db, u) == 150 && s3.callers[1] == Failing(o);
  }

  /** A claim that finds the order taken reports it as already paid.  The order may
      have failed since it was read instead: the report is wrong exactly then. */
  lemma AlreadyPaidReportIff(s: State, c: Id, now: int)
    requires Sane(s) && c in s.callers && s.callers[c].Claiming?
    ensures
      var order := s.db.orders[s.callers[c].order];
      Step(s, ClaimOrder(c, now)).callers[c] == Finished(AlreadyPaid) && !order.status.PAID? <==> order.status.FAILED?
  {
  }

  /** That report exists too: an administrator reads a pending order, a failure callback
      writes FAILED, and the administrator is told it is already paid though nobody ever
      paid it. */
  lemma AlreadyPaidReported(u: Id, o: Id)
    ensures
      var db := CreateOrder(Register(EMPTY, u).0, o, u, CREDIT_TOPUP, 50, 0);
      var s1 := Step(State(db, map[]), Begin(1, o, MomoIpn(false, true, true), None));
      var s2 := Step(Step(s1, Begin(2, o, Admin, None)), ReadOrder(2));
      var end := Step(Step(s2, WriteFailure(1)), ClaimOrder(2, 0));
      && end.callers[2] == Finished(AlreadyPaid) && end.db.orders[o].status.FAILED?
      && end.db.orders[o].paidAt.None? && Credits.Balance(end.db, u) == 100
  {
    var db := CreateOrder(Register(EMPTY, u).0, o, u, CREDIT_TOPUP, 50, 0);
    var s1 := Step(State(db, map[]), Begin(1, o, MomoIpn(false, true, true), None));
    assert s1.callers[1] == Failing(o) && s1.db == db;
    var s2 := Step(Step(s1, Begin(2, o, Admin, None)), ReadOrder(2));
    assert s2.callers[2].Claiming? && s2.callers[2].order == o && s2.callers[1] == Failing(o) && s2.db == db;
    var s3 := Step(s2, WriteFailure(1));
    assert s3.db.orders[o].status.FAILED? && s3.callers[2] == s2.callers[2];
  }

  // ---------- One callback on its own ----------

  // The machine's steps of one caller with nothing in between.
  function Alone(db: Db, o: Id, cb: Callback, providerId: Option<Id>, now: int): State {
    var begun := Step(State(db, map[]), Begin(0, o, cb, providerId));
    if begun.callers[0].Failing? then Step(begun, WriteFailure(0))
    else Step(Step(begun, ReadOrder(0)), ClaimOrder(0, now))
  }

  /** A callback that meets no other is one whole call: it marks the order paid, fails a
      pending one, or does nothing. */
  lemma AloneIsOneCall(db: Db, o: Id, cb: Callback, providerId: Option<Id>, now: int)
    ensures
      var s := Alone(db, o, cb, providerId, now);
      && 0 in s.callers
      && if o !in db.orders then s.db == db && s.callers[0] == Finished(NotFound)
         else
           match Decide(db.orders[o], cb)
           case CallMarkPaid =>
             var (paid, result) := MarkOrderPaid(db, o, providerId, now);
             s.db == paid && s.callers[0] == Finished(result)
           case WriteFailed => s.db == FailOrder(db, o) && s.callers[0] == Finished(Ok)
           case Stop => s.db == db && s.callers[0] == Finished(Ok)
  {
    var begun := Step(State(db, map[]), Begin(0, o, cb, providerId));
    if o in db.orders && Decide(db.orders[o], cb).CallMarkPaid? {
      assert begun.callers[0] == Paying(o, providerId) && begun.db == db;
      PaidInOneCall(begun, o, providerId, now);
    }
  }

  lemma PaidInOneCall(s: State, o: Id, providerId: Option<Id>, now: int)
    requires 0 in s.callers && s.callers[0] == Paying(o, providerId) && o in s.db.orders
    ensures
      var s' := Step(Step(s, ReadOrder(0)), ClaimOrder(0, now));
      var (paid, result) := MarkOrderPaid(s.db, o, providerId, now);
      s'.db == paid && s'.callers[0] == Finished(result)
  {
    hide Claim;
  }

  // ---------- What it takes to be paid, or to fail ----------

  // By the fields a callback comes with alone.
  predicate SaysPaid(cb: Callback) {
    match cb
    case MomoIpn(success, isMomoOrder, amountMatches) => success && isMomoOrder && amountMatches
    case PayosWebhook(success, amountMatches) => success && amountMatches
    case PayosSync(isPayosOrder, paid, amountMatches) => isPayosOrder && paid && amountMatches
    case Admin => true
  }

  predicate SaysFailed(cb: Callback) {
    match cb
    case MomoIpn(success, isMomoOrder, amountMatches) => !success && isMomoOrder && amountMatches
    case PayosWebhook(success, amountMatches) => !success && amountMatches
    case PayosSync(_, _, _) => false
    case Admin => false
  }

  predicate SaidPaid(run: seq<Action>, i: nat, o: Id) {
    i < |run| && run[i].Begin? && run[i].order == o && SaysPaid(run[i].cb)
  }

  predicate SaidFailed(run: seq<Action>, i: nat, o: Id) {
    i < |run| && ((run[i].Begin? && run[i].order == o && SaysFailed(run[i].cb))
                  || run[i] == Elsewhere(LedgerRuns.DoFailOrder(o)))
  }

  ghost predicate PaidSaid(run: seq<Action>, o: Id) {
    exists i: nat :: SaidPaid(run, i, o)
  }

  ghost predicate FailureSaid(run: seq<Action>, o: Id) {
    exists i: nat :: SaidFailed(run, i, o)
  }

  lemma SaidGrows(run: seq<Action>, o: Id)
    requires run != []
    ensures PaidSaid(run[..|run| - 1], o) ==> PaidSaid(run, o)
    ensures FailureSaid(run[..|run| - 1], o) ==> FailureSaid(run, o)
  {
    var n := |run| - 1;
    if i: nat :| SaidPaid(run[..n], i, o) { assert SaidPaid(run, i, o); }
    if i: nat :| SaidFailed(run[..n], i, o) { assert SaidFailed(run, i, o); }
  }

  predicate WantsToPay(s: State, c: Id, o: Id) {
    c in s.callers && (s.callers[c].Paying? || s.callers[c].Claiming?) && s.callers[c].order == o
  }

  predicate WantsToFail(s: State, c: Id, o: Id) {
    c in s.callers && s.callers[c] == Failing(o)
  }

  // Where the wish comes from, in one step.
  lemma StepWants(s: State, a: Action, c: Id, o: Id)
    ensures WantsToPay(Step(s, a), c, o) ==>
      WantsToPay(s, c, o) || (a.Begin? && a.order == o && SaysPaid(a.cb))
    ensures WantsToFail(Step(s, a), c, o) ==>
      WantsToFail(s, c, o) || (a.Begin? && a.order == o && SaysFailed(a.cb))
  {
  }

  lemma {:induction false} WantsWereSaid(run: seq<Action>, c: Id, o: Id)
    ensures WantsToPay(Run(START, run), c, o) ==> PaidSaid(run, o)
    ensures WantsToFail(Run(START, run), c, o) ==> FailureSaid(run, o)
    decreases |run|
  {
    if run != [] {
      var n := |run| - 1;
      hide Step, WantsToPay, WantsToFail, PaidSaid, FailureSaid;
      WantsWereSaid(run[..n], c, o);
      SaidGrows(run, o);
      StepWants(Run(START, run[..n]), run[n], c, o);
      if run[n].Begin? && run[n].order == o { BeginSays(run, o); }
    }
    assert !WantsToPay(START, c, o) && !WantsToFail(START, c, o);
  }

  lemma BeginSays(run: seq<Action>, o: Id)
    requires run != [] && run[|run| - 1].Begin? && run[|run| - 1].order == o
    ensures SaysPaid(run[|run| - 1].cb) ==> PaidSaid(run, o)
    ensures SaysFailed(run[|run| - 1].cb) ==> FailureSaid(run, o)
  {
    if SaysPaid(run[|run| - 1].cb) { assert SaidPaid(run, |run| - 1, o); }
    if SaysFailed(run[|run| - 1].cb) { assert SaidFailed(run, |run| - 1, o); }
  }

  /** In every interleaving, an order is paid only if some callback on it, or an
      administrator, reported its payment with the right amount. */
  lemma {:induction false} PaidOnlyWhenSaid(run: seq<Action>, o: Id)
    ensures Stamped(Run(START, run).db, o) ==> PaidSaid(run, o)
    decreases |run|
  {
    if run != [] {
      var n := |run| - 1;
      PaidOnlyWhenSaid(run[..n], o);
      AlwaysSane(run[..n]);
      hide Step, PaidSaid, Sane;
      SaidGrows(run, o);
      var s := Run(START, run[..n]);
      StepPaidAt(s, run[n], o);
      if ClaimSucceeds(s, run[n], o) {
        WantsWereSaid(run[..n], run[n].caller, o);
      }
    }
  }

  lemma StepFails(s: State, a: Action, o: Id)
    requires o in Step(s, a).db.orders && Step(s, a).db.orders[o].status.FAILED?
    ensures (o in s.db.orders && s.db.orders[o].status.FAILED?) || FailsOrder(s, a, o)
  {
    match a
    case Elsewhere(action) =>
      if !action.DoClaim? && !action.DoCreateOrder? && !action.DoFailOrder? { OtherRows(s.db, action); }
    case _ =>
  }

  lemma FailedElsewhere(run: seq<Action>, o: Id)
    requires run != [] && run[|run| - 1] == Elsewhere(LedgerRuns.DoFailOrder(o))
    ensures FailureSaid(run, o)
  {
    assert SaidFailed(run, |run| - 1, o);
  }

  /** And it fails only if some callback on it reported a failure with the right amount, or
      it was failed from elsewhere. */
  lemma {:induction false} FailedOnlyWhenSaid(run: seq<Action>, o: Id)
    requires o in Run(START, run).db.orders && Run(START, run).db.orders[o].status.FAILED?
    ensures FailureSaid(run, o)
    decreases |run|
  {
    var n := |run| - 1;
    var s := Run(START, run[..n]);
    StepFails(s, run[n], o);
    hide Step, FailureSaid;
    SaidGrows(run, o);
    if o in s.db.orders && s.db.orders[o].status.FAILED? {
      FailedOnlyWhenSaid(run[..n], o);
    } else if run[n].WriteFailure? {
      WantsWereSaid(run[..n], run[n].caller, o);
    } else {
      FailedElsewhere(run, o);
    }
  }

  predicate IdFree(db: Db, o: Id, providerId: Option<Id>) {
    providerId.Some? ==> forall x | x in db.orders && x != o :: db.orders[x].providerId != providerId
  }

  // The user is PRO for the days of the order, counted from now or from the end of a running PRO.
  function ProExtended(db: Db, order: Order, now: int): map<Id, User>
    requires order.user in db.users
  {
    var expiry := db.users[order.user].proExpiresAt;
    var from := if expiry.Some? && now < expiry.value then expiry.value else now;
    db.users[order.user := User(PRO, Some(from + order.proDays * 86_400_000))]
  }

  // What paying a pending order of a known user does.
  lemma PaidInFull(db: Db, o: Id, providerId: Option<Id>, now: int)
    requires o in db.orders && db.orders[o].status.PENDING? && db.orders[o].user in db.users
    requires db.orders[o].providerId.None?
    ensures
      var order, db' := db.orders[o], MarkOrderPaid(db, o, providerId, now).0;
      if IdFree(db, o, providerId) then
        && db'.orders == db.orders[o := order.(status := PAID, paidAt := Some(now), providerId := providerId)]
        && Credits.Balance(db', order.user) == Credits.Balance(db, order.user) + order.credits
        && (forall u | u != order.user :: Credits.Balance(db', u) == Credits.Balance(db, u))
        && db.ledger <= db'.ledger && |db'.ledger| - |db.ledger| == (if order.credits > 0 then 1 else 0)
        && db'.users == if order.kind.PRO_SUBSCRIPTION? then ProExtended(db, order, now) else db.users
      else db' == db
  {
  }

  /** One callback on its own, on a pending order of a known user.  The order ends PAID
      exactly when the callback reports its payment and the provider payment is not in use,
      with its credits on the wallet and its days on the PRO time; FAILED exactly when the callback reports a failure;
      and otherwise nothing changes. */
  lemma AloneSettles(db: Db, o: Id, cb: Callback, providerId: Option<Id>, now: int)
    requires o in db.orders && db.orders[o].status.PENDING? && db.orders[o].user in db.users
    requires db.orders[o].providerId.None?
    ensures
      var order, db' := db.orders[o], Alone(db, o, cb, providerId, now).db;
      var paid := SaysPaid(cb) && IdFree(db, o, providerId);
      && o in db'.orders
      && (db'.orders[o].status.PAID? <==> paid) && (db'.orders[o].status.FAILED? <==> SaysFailed(cb))
      && (!paid && !SaysFailed(cb) ==> db' == db)
      && (SaysFailed(cb) ==> db' == db.(orders := db'.orders))
      && (paid ==>
            && db'.orders[o] == order.(status := PAID, paidAt := Some(now), providerId := providerId)
            && Credits.Balance(db', order.user) == Credits.Balance(db, order.user) + order.credits
            && db.ledger <= db'.ledger && |db'.ledger| - |db.ledger| == (if order.credits > 0 then 1 else 0)
            && db'.users == if order.kind.PRO_SUBSCRIPTION? then ProExtended(db, order, now) else db.users)
      && (forall x | x in db.orders && x != o :: x in db'.orders && db'.orders[x] == db.orders[x])
      && (forall u | u != order.user :: Credits.Balance(db', u) == Credits.Balance(db, u))
  {
    AloneIsOneCall(db, o, cb, providerId, now);
    PaidInFull(db, o, providerId, now);
    hide Alone, MarkOrderPaid;
  }

  /** On an order that is closed already no callback changes anything: a paid order is
      reported as such, a failed one is refused. */
  lemma ClosedAnswers(db: Db, o: Id, cb: Callback, providerId: Option<Id>, now: int)
    requires o in db.orders && !db.orders[o].status.PENDING?
    ensures
      var s := Alone(db, o, cb, providerId, now);
      && s.db == db && 0 in s.callers
      && s.callers[0] == Finished(
           if !SaysPaid(cb) || cb.PayosSync? then Ok
           else if db.orders[o].status.PAID? then AlreadyPaid
           else Rejected)
  {
    AloneIsOneCall(db, o, cb, providerId, now);
    hide Alone;
  }
}
