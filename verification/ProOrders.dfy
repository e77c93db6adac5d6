/** PRO time bought by orders that race each other: a claim extends the expiry that was read
    with its order, so whatever was claimed in between is lost. */
module ProOrders {
  import opened Prelude
  import opened Catalog
  import opened Credits
  import opened Payments
  import LedgerRuns
  import T = ProTime

  // ---------- What a user has paid for ----------

  // A claim that succeeds on a PRO order of the user.
  predicate PaysPro(s: State, a: Action, u: Id) {
    && a.ClaimOrder? && a.caller in s.callers && s.callers[a.caller].Claiming?
    && var o := s.callers[a.caller].order;
       && o in s.db.orders && s.db.orders[o].user == u && s.db.orders[o].kind.PRO_SUBSCRIPTION?
       && ClaimSucceeds(s, a, o)
  }

  function DaysOf(s: State, a: Action): nat
    requires a.ClaimOrder? && a.caller in s.callers && s.callers[a.caller].Claiming?
    requires s.callers[a.caller].order in s.db.orders
  {
    s.db.orders[s.callers[a.caller].order].proDays
  }

  // The user's paid PRO orders, as payments in the order of their claims.
  function ProPayments(run: seq<Action>, u: Id): seq<T.Event>
    decreases |run|
  {
    if run == [] then []
    else
      var before, a := run[..|run| - 1], run[|run| - 1];
      var s := Run(START, before);
      ProPayments(before, u) + if PaysPro(s, a, u) then [T.Pay(a.now, DaysOf(s, a))] else []
  }

  function PaidUntil(run: seq<Action>, u: Id): Option<int> {
    T.Deadline(None, ProPayments(run, u))
  }

  lemma PaidUntilSnoc(run: seq<Action>, u: Id)
    requires run != []
    ensures
      var before, a := run[..|run| - 1], run[|run| - 1];
      var s := Run(START, before);
      PaidUntil(run, u) ==
        if PaysPro(s, a, u) then Some(ExtendPro(PaidUntil(before, u), a.now, DaysOf(s, a))) else PaidUntil(before, u)
  {
    var before, a := run[..|run| - 1], run[|run| - 1];
    var paid, s := ProPayments(before, u), Run(START, before);
    if PaysPro(s, a, u) {
      assert ProPayments(run, u) == paid + [T.Pay(a.now, DaysOf(s, a))];
      assert ProPayments(run, u)[..|paid|] == paid;
    } else {
      assert ProPayments(run, u) == paid;
    }
  }

  // ---------- The clock ----------

  predicate Timed(a: Action) {
    a.ClaimOrder? || (a.Elsewhere? && (a.action.DoValidate? || a.action.DoDemote? || a.action.DoCreateJob?))
  }

  function At(a: Action): int
    requires Timed(a)
  {
    if a.ClaimOrder? then a.now else a.action.now
  }

  ghost predicate ClockForward(run: seq<Action>) {
    forall i, j | 0 <= i < j < |run| && Timed(run[i]) && Timed(run[j]) :: At(run[i]) <= At(run[j])
  }

  ghost predicate UpTo(run: seq<Action>, now: int) {
    forall i | 0 <= i < |run| && Timed(run[i]) :: At(run[i]) <= now
  }

  lemma ClockBefore(run: seq<Action>, k: nat)
    requires ClockForward(run) && k < |run|
    ensures ClockForward(run[..k]) && (Timed(run[k]) ==> UpTo(run[..k], At(run[k])))
  {
    assert forall i | 0 <= i < k :: run[..k][i] == run[i];
  }

  // ---------- What loses PRO time ----------

  // Where an extension starts: the later of now and the expiry.
  function Base(expiry: Option<int>, now: int): int {
    ExtendPro(expiry, now, 0)
  }

  // A claim whose order was read with an expiry that is no longer where it would start.
  predicate ClaimsStale(s: State, a: Action, u: Id) {
    && PaysPro(s, a, u) && u in s.db.users
    && Base(s.callers[a.caller].seenExpiry, a.now) != Base(s.db.users[u].proExpiresAt, a.now)
  }

  // A late demotion of a user who is PRO by now.
  predicate DemotesRunning(s: State, a: Action, u: Id) {
    && a.Elsewhere? && a.action.DoDemote? && a.action.user == u && u in s.db.users
    && EffectiveRole(s.db.users[u], a.action.now).PRO?
  }

  predicate Loses(s: State, a: Action, u: Id) {
    ClaimsStale(s, a, u) || DemotesRunning(s, a, u)
  }

  ghost predicate NothingLost(run: seq<Action>, u: Id) {
    forall k | 0 <= k < |run| :: !Loses(Run(START, run[..k]), run[k], u)
  }

  lemma NothingLostBefore(run: seq<Action>, k: nat, u: Id)
    requires NothingLost(run, u) && k <= |run|
    ensures NothingLost(run[..k], u)
  {
    hide Loses, Run;
    assert forall i | 0 <= i < k :: run[..k][..i] == run[..i] && run[..k][i] == run[i];
  }

  // ---------- The row follows what was paid ----------

  ghost predicate RowTracks(db: Db, u: Id, until: Option<int>, now: int) {
    if u in db.users then T.Tracks(db.users[u], until, now) else until.None?
  }

  lemma TrackedBase(db: Db, u: Id, until: Option<int>, now: int)
    requires u in db.users && RowTracks(db, u, until, now)
    ensures Base(db.users[u].proExpiresAt, now) == Base(until, now)
  {
  }

  // What a successful claim does to the users: it extends the expiry read with its order.
  lemma ClaimUsers(s: State, a: Action)
    requires Sane(s) && a.ClaimOrder? && a.caller in s.callers && s.callers[a.caller].Claiming?
    ensures
      var p, db' := s.callers[a.caller], Step(s, a).db;
      var order := s.db.orders[p.order];
      && p.order in s.db.orders
      && (PaysPro(s, a, order.user) ==>
            order.user in s.db.users
            && db'.users == s.db.users[order.user := User(PRO, Some(ExtendPro(p.seenExpiry, a.now, order.proDays)))])
      && (!PaysPro(s, a, order.user) ==> db'.users == s.db.users)
  {
  }

  // What the other writers do to a user's row.
  lemma ElsewhereUsers(db: Db, a: LedgerRuns.Action, u: Id)
    requires !a.DoClaim?
    ensures
      var db' := LedgerRuns.Step(db, a);
      if u !in db.users then u in db'.users ==> db'.users[u] == User(FREE, None)
      else
        && u in db'.users
        && (db'.users[u] == db.users[u]
            || (a.DoDemote? && a.user == u && db'.users[u] == User(FREE, None))
            || ((a.DoValidate? || a.DoCreateJob?) && db'.users[u] == Downgraded(db.users[u], a.now)))
  {
  }

  lemma StepTracks(s: State, a: Action, u: Id, until: Option<int>, now: int)
    requires Sane(s) && RowTracks(s.db, u, until, now) && (Timed(a) ==> At(a) == now) && !Loses(s, a, u)
    ensures RowTracks(Step(s, a).db, u,
                      if PaysPro(s, a, u) then Some(ExtendPro(until, a.now, DaysOf(s, a))) else until, now)
  {
    match a
    case ClaimOrder(c, _) =>
      if c in s.callers && s.callers[c].Claiming? {
        hide Step, Sane, ClaimSucceeds;
        ClaimUsers(s, a);
      }
    case Elsewhere(action) =>
      if !action.DoClaim? {
        hide LedgerRuns.Step;
        ElsewhereUsers(s.db, action, u);
      }
    case WriteFailure(_) =>
    case _ =>
  }

  /** While no claim is stale and no demotion is late, a user's row says what the paid
      orders add up to. */
  lemma {:induction false} RowFollowsOrders(run: seq<Action>, u: Id, now: int)
    requires ClockForward(run) && UpTo(run, now) && NothingLost(run, u)
    ensures RowTracks(Run(START, run).db, u, PaidUntil(run, u), now)
    decreases |run|
  {
    if run != [] {
      var n := |run| - 1;
      hide Step, Sane, Loses, PaidUntil;
      ClockBefore(run, n);
      NothingLostBefore(run, n, u);
      var at := if Timed(run[n]) then At(run[n]) else now;
      RowFollowsOrders(run[..n], u, at);
      AlwaysSane(run[..n]);
      StepTracks(Run(START, run[..n]), run[n], u, PaidUntil(run[..n], u), at);
      PaidUntilSnoc(run, u);
    }
  }

  // ---------- Paid time counts ----------

  predicate CountsAsPro(db: Db, u: Id, now: int) {
    u in db.users && EffectiveRole(db.users[u], now).PRO?
  }

  // The user counts as PRO exactly while what was paid for lasts.
  predicate AnswerRight(run: seq<Action>, u: Id, now: int) {
    CountsAsPro(Run(START, run).db, u, now) <==> PaidUntil(run, u).Some? && now < PaidUntil(run, u).value
  }

  // At every moment of the run and after it.
  ghost predicate AnswersRight(run: seq<Action>, u: Id) {
    forall k, now | 0 <= k <= |run| && UpTo(run[..k], now) :: AnswerRight(run[..k], u, now)
  }

  // Both expiries lie ahead, so a moment between them tells them apart.
  lemma StaleClaimShows(s: State, a: Action, u: Id, until: Option<int>) returns (later: int)
    requires Sane(s) && ClaimsStale(s, a, u) && RowTracks(s.db, u, until, a.now)
    ensures a.now <= later
    ensures CountsAsPro(Step(s, a).db, u, later) != (later < ExtendPro(until, a.now, DaysOf(s, a)))
  {
    ClaimUsers(s, a);
    TrackedBase(s.db, u, until, a.now);
    hide Step, ClaimSucceeds, Sane, RowTracks;
    var stored := ExtendPro(s.callers[a.caller].seenExpiry, a.now, DaysOf(s, a));
    var paid := ExtendPro(until, a.now, DaysOf(s, a));
    later := if stored <= paid then stored else paid;
  }

  lemma LossShows(run: seq<Action>, u: Id, now: int) returns (later: int)
    requires run != [] && ClockForward(run) && UpTo(run, now) && NothingLost(run[..|run| - 1], u)
    requires Timed(run[|run| - 1]) && now == At(run[|run| - 1])
    requires Loses(Run(START, run[..|run| - 1]), run[|run| - 1], u)
    ensures now <= later && !AnswerRight(run, u, later)
  {
    var n := |run| - 1;
    var s, a := Run(START, run[..n]), run[n];
    ClockBefore(run, n);
    RowFollowsOrders(run[..n], u, now);
    AlwaysSane(run[..n]);
    PaidUntilSnoc(run, u);
    if ClaimsStale(s, a, u) {
      hide PaidUntil, Sane, RowTracks, Step, ClaimSucceeds, CountsAsPro, NothingLost, UpTo, ClockForward;
      later := StaleClaimShows(s, a, u, PaidUntil(run[..n], u));
    } else {
      hide PaidUntil, Sane;
      later := now;
    }
  }

  lemma {:induction false} FirstLoss(run: seq<Action>, u: Id) returns (k: nat)
    requires !NothingLost(run, u)
    ensures k < |run| && NothingLost(run[..k], u) && Loses(Run(START, run[..k]), run[k], u)
    decreases |run|
  {
    hide Run, Loses;
    var n := |run| - 1;
    var front := run[..n];
    assert forall i | 0 <= i < n :: front[..i] == run[..i] && front[i] == run[i];
    if NothingLost(front, u) {
      k := n;
    } else {
      k := FirstLoss(front, u);
      assert front[..k] == run[..k];
    }
  }

  /** In every interleaving of callbacks, validations and everything else: a user counts as
      PRO at every moment exactly as long as the paid orders last, if and only if no order
      is claimed with an outdated expiry and no late demotion lands on a running PRO. */
  lemma BoughtTimeCountsIff(run: seq<Action>, u: Id)
    requires ClockForward(run)
    ensures AnswersRight(run, u) <==> NothingLost(run, u)
  {
    hide AnswerRight, Loses;
    if NothingLost(run, u) {
      forall k, now | 0 <= k <= |run| && UpTo(run[..k], now) ensures AnswerRight(run[..k], u, now) {
        NothingLostBefore(run, k, u);
        TrackedAnswer(run[..k], u, now);
      }
    } else {
      var k := FirstLoss(run, u);
      var upTo := run[..k + 1];
      assert upTo[..k] == run[..k];
      assert Timed(run[k]) by { LossIsTimed(Run(START, run[..k]), run[k], u); }
      assert UpTo(upTo, At(run[k]));
      var later := LossShows(upTo, u, At(run[k]));
      assert UpTo(run[..k + 1], later);
    }
  }

  lemma LossIsTimed(s: State, a: Action, u: Id)
    requires Loses(s, a, u)
    ensures Timed(a)
  {
  }

  lemma TrackedAnswer(run: seq<Action>, u: Id, now: int)
    requires ClockForward(run) && UpTo(run, now) && NothingLost(run, u)
    ensures AnswerRight(run, u, now)
  {
    RowFollowsOrders(run, u, now);
    hide Run, PaidUntil;
  }

  /** A token validation answers PRO exactly while the paid orders last, stores what it
      answers, and touches nobody else. */
  lemma TokenSaysPro(run: seq<Action>, u: Id, now: int)
    requires ClockForward(run) && UpTo(run, now) && NothingLost(run, u)
    ensures
      var db := Run(START, run).db;
      var (db', role) := Validate(db, u, now);
      && (role.Some? <==> u in db.users)
      && (role == Some(PRO) <==> PaidUntil(run, u).Some? && now < PaidUntil(run, u).value)
      && (role.Some? ==> role.value in {FREE, PRO} && u in db'.users && db'.users[u].role == role.value)
      && db' == db.(users := db'.users)
      && forall v | v in db.users && v != u :: v in db'.users && db'.users[v] == db.users[v]
  {
    RowFollowsOrders(run, u, now);
    hide Run, PaidUntil;
  }

  // ---------- What makes a claim stale ----------

  lemma {:induction false} PaidUntilGrows(run: seq<Action>, i: nat, k: nat, u: Id)
    requires i <= k <= |run| && PaidUntil(run[..i], u).Some?
    ensures PaidUntil(run[..k], u).Some? && PaidUntil(run[..i], u).value <= PaidUntil(run[..k], u).value
    decreases k
  {
    if i < k {
      hide PaidUntil, PaysPro;
      PaidUntilGrows(run, i, k - 1, u);
      assert run[..k][..k - 1] == run[..k - 1];
      PaidUntilSnoc(run[..k], u);
    }
  }

  // The last payment of a stretch, if it holds any.
  lemma {:induction false} LastPayment(run: seq<Action>, i: nat, k: nat, u: Id) returns (j: nat)
    requires i <= k <= |run| && PaidUntil(run[..i], u) != PaidUntil(run[..k], u)
    ensures i <= j < k && PaysPro(Run(START, run[..j]), run[j], u)
    ensures PaidUntil(run[..j + 1], u) == PaidUntil(run[..k], u)
    decreases k
  {
    hide PaidUntil, PaysPro, Run;
    assert run[..k][..k - 1] == run[..k - 1];
    PaidUntilSnoc(run[..k], u);
    if PaysPro(Run(START, run[..k - 1]), run[k - 1], u) {
      j := k - 1;
    } else {
      j := LastPayment(run, i, k - 1, u);
    }
  }

  // What a caller holds once it has read the order stays with it until it has claimed.
  lemma {:induction false} HoldsWhatItRead(run: seq<Action>, i: nat, k: nat, c: Id)
    requires i <= k <= |run| && c in Run(START, run[..i]).callers && c in Run(START, run[..k]).callers
    requires var p := Run(START, run[..i]).callers[c]; p.Claiming? || p.Finished?
    ensures
      var p, q := Run(START, run[..i]).callers[c], Run(START, run[..k]).callers[c];
      q.Finished? || q == p
    decreases k
  {
    if i < k {
      var s := Run(START, run[..k - 1]);
      assert run[..k][..k - 1] == run[..k - 1];
      CallersStay(run, i, k - 1, c);
      HoldsWhatItRead(run, i, k - 1, c);
    }
  }

  lemma {:induction false} CallersStay(run: seq<Action>, i: nat, k: nat, c: Id)
    requires i <= k <= |run| && c in Run(START, run[..i]).callers
    ensures c in Run(START, run[..k]).callers
    decreases k
  {
    if i < k {
      assert run[..k][..k - 1] == run[..k - 1];
      CallersStay(run, i, k - 1, c);
    }
  }

  // The expiry a claim holds is the row's at the moment of its read.
  lemma ReadAt(run: seq<Action>, i: nat, k: nat, c: Id)
    requires i < k <= |run| && run[i] == ReadOrder(c)
    requires c in Run(START, run[..i]).callers && Run(START, run[..i]).callers[c].Paying?
    requires c in Run(START, run[..k]).callers && Run(START, run[..k]).callers[c].Claiming?
    ensures
      var p, db := Run(START, run[..k]).callers[c], Run(START, run[..i]).db;
      p.seen.user in db.users && p.seenExpiry == db.users[p.seen.user].proExpiresAt
  {
    assert run[..i + 1][..i] == run[..i];
    HoldsWhatItRead(run, i + 1, k, c);
  }

  // A PRO order of the user claimed at `j`, up to which the time then lasts beyond `limit`.
  predicate PaidBeyond(run: seq<Action>, j: nat, u: Id, limit: int)
    requires j < |run|
  {
    && PaysPro(Run(START, run[..j]), run[j], u)
    && PaidUntil(run[..j + 1], u).Some? && PaidUntil(run[..j + 1], u).value > limit
  }

  lemma LaterBase(first: Option<int>, last: Option<int>, now: int)
    requires first.Some? ==> last.Some? && first.value <= last.value
    ensures Base(first, now) != Base(last, now) <==> last.Some? && last.value > Base(first, now)
  {
  }

  // The extension starts later at `k` than at `i` exactly when some payment in between reaches past it.
  lemma PaidBeyondIff(run: seq<Action>, i: nat, k: nat, u: Id, now: int)
    requires i < k <= |run| && run[i].ReadOrder?
    ensures
      var base := Base(PaidUntil(run[..i], u), now);
      base != Base(PaidUntil(run[..k], u), now) <==> exists j :: i < j < k && PaidBeyond(run, j, u, base)
  {
    var first, last := PaidUntil(run[..i], u), PaidUntil(run[..k], u);
    var base := Base(first, now);
    if first.Some? { PaidUntilGrows(run, i, k, u); }
    LaterBase(first, last, now);
    if base != Base(last, now) {
      var j := LastPayment(run, i, k, u);
      assert j != i by { assert !PaysPro(Run(START, run[..i]), run[i], u); }
      assert PaidBeyond(run, j, u, base) by { hide PaidUntil, PaysPro, Run; }
    }
    forall j | i < j < k && PaidBeyond(run, j, u, base) ensures last.Some? && last.value > base {
      hide PaidUntil, PaysPro, Run;
      PaidUntilGrows(run, j + 1, k, u);
    }
    hide *;
  }

  // The row at the claim and the expiry it holds, in terms of what was paid.
  lemma BasesTrack(run: seq<Action>, i: nat, u: Id, now: int)
    requires ClockForward(run) && UpTo(run, now) && i <= |run| && NothingLost(run, u)
    requires u in Run(START, run[..i]).db.users && u in Run(START, run).db.users
    ensures Base(Run(START, run).db.users[u].proExpiresAt, now) == Base(PaidUntil(run, u), now)
    ensures Base(Run(START, run[..i]).db.users[u].proExpiresAt, now) == Base(PaidUntil(run[..i], u), now)
  {
    assert UpTo(run[..i], now) && ClockForward(run[..i]);
    NothingLostBefore(run, i, u);
    hide Run, PaidUntil, NothingLost, Base, RowTracks, ClockForward, UpTo;
    RowFollowsOrders(run, u, now);
    RowFollowsOrders(run[..i], u, now);
    TrackedBase(Run(START, run).db, u, PaidUntil(run, u), now);
    TrackedBase(Run(START, run[..i]).db, u, PaidUntil(run[..i], u), now);
  }

  // A callback that is about to read its order at `i`.
  predicate ReadsToPay(run: seq<Action>, i: nat, c: Id)
    requires i <= |run|
  {
    c in Run(START, run[..i]).callers && Run(START, run[..i]).callers[c].Paying?
  }

  /** A callback that read its order at `i` and claims it at `k`, with nothing lost before:
      the claim loses time exactly when another PRO order of the user was claimed in
      between and lasts beyond the moment this claim extends from. */
  lemma StaleClaimIff(run: seq<Action>, i: nat, k: nat, u: Id)
    requires ClockForward(run) && i < k < |run| && run[k].ClaimOrder? && run[i] == ReadOrder(run[k].caller)
    ensures
      var s, c := Run(START, run[..k]), run[k].caller;
      ReadsToPay(run, i, c) && PaysPro(s, run[k], u) && NothingLost(run[..k], u) ==>
        var base := Base(s.callers[c].seenExpiry, run[k].now);
        ClaimsStale(s, run[k], u) <==> exists j :: i < j < k && PaidBeyond(run, j, u, base)
  {
    var s := Run(START, run[..k]);
    if !ReadsToPay(run, i, run[k].caller) || !PaysPro(s, run[k], u) || !NothingLost(run[..k], u) { return; }
    AlwaysSane(run[..k]);
    ReadAt(run, i, k, run[k].caller);
    ClaimUsers(s, run[k]);
    assert s.callers[run[k].caller].seen.user == u;
    ClockBefore(run, k);
    assert run[..k][..i] == run[..i];
    hide Run, PaidBeyond, Sane, Step, ClaimSucceeds;
    BasesTrack(run[..k], i, u, run[k].now);
    PaidBeyondIff(run, i, k, u, run[k].now);
  }

  // ---------- Two orders read together ----------

  // A claim that the order's status and its provider payment let through.
  predicate ReadyToPay(s: State, c: Id, u: Id) {
    && c in s.callers && s.callers[c].Claiming?
    && var p := s.callers[c];
       && p.seen.user == u && p.seen.kind.PRO_SUBSCRIPTION?
       && p.order in s.db.orders && s.db.orders[p.order].status.PENDING?
       && (p.providerId.Some? ==> !ProviderIdTaken(s.db, p.order, p.providerId.value))
  }

  predicate BothReady(s: State, a: Id, b: Id, u: Id) {
    && ReadyToPay(s, a, u) && ReadyToPay(s, b, u) && s.callers[a].order != s.callers[b].order
    && (s.callers[a].providerId.Some? ==> s.callers[a].providerId != s.callers[b].providerId)
    && u in s.db.users && s.callers[a].seenExpiry == s.db.users[u].proExpiresAt == s.callers[b].seenExpiry
  }

  lemma ReadyPays(s: State, c: Id, u: Id, now: int)
    requires Sane(s) && ReadyToPay(s, c, u) && u in s.db.users
    ensures PaysPro(s, ClaimOrder(c, now), u)
    ensures
      var p, s' := s.callers[c], Step(s, ClaimOrder(c, now));
      && s'.db.users == s.db.users[u := User(PRO, Some(ExtendPro(p.seenExpiry, now, p.seen.proDays)))]
      && s'.db.orders.Keys == s.db.orders.Keys
      && (forall o | o in s.db.orders && o != p.order :: s'.db.orders[o] == s.db.orders[o])
      && s'.db.orders[p.order].status.PAID? && s'.db.orders[p.order].providerId == p.providerId
      && (forall x | x in s.callers && x != c :: x in s'.callers && s'.callers[x] == s.callers[x])
  {
    var p := s.callers[c];
    var _ := ClaimEffect(s.db, p.order, p.seen, p.seenExpiry, p.providerId, now);
    ClaimUsers(s, ClaimOrder(c, now));
  }

  /** When two PRO orders of one user are read together and claimed at `t1 <= t2`, the user
      ends with the time of both exactly when the first purchase would have run out by the
      second anyway, or the standing expiry covers it. */
  lemma StaleExpiryIff(s: State, a: Id, b: Id, u: Id, t1: int, t2: int)
    requires Sane(s) && BothReady(s, a, b, u) && t1 <= t2
    ensures
      var days1, days2 := s.callers[a].seen.proDays, s.callers[b].seen.proDays;
      var expiry := s.db.users[u].proExpiresAt;
      var first := ExtendPro(expiry, t1, days1);
      var end := Step(Step(s, ClaimOrder(a, t1)), ClaimOrder(b, t2)).db;
      && end.users[u].proExpiresAt == Some(ExtendPro(expiry, t2, days2))
      && (end.users[u].proExpiresAt == Some(ExtendPro(Some(first), t2, days2))
          <==> first <= t2 || (expiry.Some? && first <= expiry.value))
  {
    var s1 := Step(s, ClaimOrder(a, t1));
    ReadyPays(s, a, u, t1);
    StepSane(s, ClaimOrder(a, t1));
    hide Step, Sane, PaysPro;
    ReadyPays(s1, b, u, t2);
  }

  // ---------- A run that loses thirty days ----------

  lemma RunThen(run: seq<Action>, a: Action, u: Id)
    ensures
      var s := Run(START, run);
      && Run(START, run + [a]) == Step(s, a)
      && PaidUntil(run + [a], u) ==
           if PaysPro(s, a, u) then Some(ExtendPro(PaidUntil(run, u), a.now, DaysOf(s, a))) else PaidUntil(run, u)
  {
    assert (run + [a])[..|run|] == run;
    PaidUntilSnoc(run + [a], u);
  }

  const PAID := MomoIpn(true, true, true)

  function BothRead(u: Id): seq<Action> {
    [Elsewhere(LedgerRuns.DoRegister(u)),
     Elsewhere(LedgerRuns.DoCreateOrder(1, u, PRO_SUBSCRIPTION, 0, 30)),
     Elsewhere(LedgerRuns.DoCreateOrder(2, u, PRO_SUBSCRIPTION, 0, 30)),
     Begin(1, 1, PAID, Some(7)), Begin(2, 2, PAID, Some(9)), ReadOrder(1), ReadOrder(2)]
  }

  const SEEN := Order(0, PRO_SUBSCRIPTION, PENDING, 0, 30, None, None)

  // Both orders are there, and nobody has called yet.
  lemma OrdersPlaced(u: Id)
    ensures
      var r := BothRead(u);
      var s := Step(Step(Step(START, r[0]), r[1]), r[2]);
      && s.db.users == map[u := User(FREE, None)] && s.callers == map[]
      && s.db.orders == map[1 := SEEN.(user := u), 2 := SEEN.(user := u)]
  {
    var s1 := Step(START, BothRead(u)[0]);
    assert s1.db.users == map[u := User(FREE, None)] && s1.db.orders == map[] && s1.callers == map[];
  }

  lemma OrdersRead(s: State, u: Id)
    requires u in s.db.users && s.db.users[u].proExpiresAt.None? && s.callers == map[]
    requires s.db.orders == map[1 := SEEN.(user := u), 2 := SEEN.(user := u)]
    ensures
      var r, seen := BothRead(u), SEEN.(user := u);
      var s' := Step(Step(Step(Step(s, r[3]), r[4]), r[5]), r[6]);
      s'.db == s.db && s'.callers == map[1 := Claiming(1, Some(7), seen, None), 2 := Claiming(2, Some(9), seen, None)]
  {
    var r, seen := BothRead(u), SEEN.(user := u);
    var s5 := Step(Step(s, r[3]), r[4]);
    assert s5.db == s.db && s5.callers == map[1 := Paying(1, Some(7)), 2 := Paying(2, Some(9))];
    var s6 := Step(s5, r[5]);
    assert s6.db == s.db && s6.callers == map[1 := Claiming(1, Some(7), seen, None), 2 := Paying(2, Some(9))];
  }

  // The run is its actions one by one, none of them a payment.
  lemma {:induction false} NoClaims(run: seq<Action>, u: Id)
    requires forall a | a in run :: !a.ClaimOrder?
    ensures PaidUntil(run, u) == None
    decreases |run|
  {
    if run != [] {
      NoClaims(run[..|run| - 1], u);
      PaidUntilSnoc(run, u);
      assert run[|run| - 1] in run;
    }
  }

  lemma NextStep(r: seq<Action>, k: nat)
    requires k < |r|
    ensures Run(START, r[..k + 1]) == Step(Run(START, r[..k]), r[k])
  {
    assert r[..k + 1][..k] == r[..k];
    hide Step;
  }

  lemma RunOfSeven(r: seq<Action>)
    requires |r| == 7
    ensures Run(START, r) ==
      Step(Step(Step(Step(Step(Step(Step(START, r[0]), r[1]), r[2]), r[3]), r[4]), r[5]), r[6])
  {
    hide Step;
    assert Run(START, r[..0]) == START;
    NextStep(r, 0);
    NextStep(r, 1);
    NextStep(r, 2);
    NextStep(r, 3);
    NextStep(r, 4);
    NextStep(r, 5);
    NextStep(r, 6);
    assert r[..7] == r;
  }

  // Both notifications have read their orders, and the user has no PRO time yet.
  lemma BothReadState(u: Id)
    ensures
      var s, seen := Run(START, BothRead(u)), SEEN.(user := u);
      && s.db.users == map[u := User(FREE, None)] && s.db.orders == map[1 := seen, 2 := seen]
      && s.callers == map[1 := Claiming(1, Some(7), seen, None), 2 := Claiming(2, Some(9), seen, None)]
    ensures PaidUntil(BothRead(u), u) == None
  {
    var r := BothRead(u);
    NoClaims(r, u);
    OrdersPlaced(u);
    hide Step, PaidUntil, Run;
    OrdersRead(Step(Step(Step(START, r[0]), r[1]), r[2]), u);
    RunOfSeven(r);
  }

  /** That run exists: two notifications for two thirty-day orders both read before either
      claims.  Both orders end PAID, and the user has one term instead of two. */
  lemma SecondTermLost(u: Id)
    ensures
      var run := BothRead(u) + [ClaimOrder(1, 0)] + [ClaimOrder(2, 1)];
      var db := Run(START, run).db;
      && {1, 2} <= db.orders.Keys && db.orders[1].status.PAID? && db.orders[2].status.PAID?
      && u in db.users && db.users[u] == User(PRO, Some(2_592_000_001))
      && PaidUntil(run, u) == Some(5_184_000_000)
  {
    var s := Run(START, BothRead(u));
    BothReadState(u);
    AlwaysSane(BothRead(u));
    RunThen(BothRead(u), ClaimOrder(1, 0), u);
    RunThen(BothRead(u) + [ClaimOrder(1, 0)], ClaimOrder(2, 1), u);
    hide Step, Run, PaidUntil, PaysPro, Sane, BothRead;
    ReadyPays(s, 1, u, 0);
    var s1 := Step(s, ClaimOrder(1, 0));
    StepSane(s, ClaimOrder(1, 0));
    ReadyPays(s1, 2, u, 1);
  }
}
