/** How long a user is PRO: every payment extends the expiry from the later of now and
    the present expiry, and an expired PRO is demoted only when someone looks.  A job
    creation looks and demotes in one transaction; a token validation reads the row and
    writes the demotion later, without looking again. */
module ProTime {
  import opened Prelude
  import opened Catalog
  import opened Credits

  datatype Event =
    | Pay(at: int, days: nat)
    | Look(at: int)                    // a job creation
    | Read(at: int, reader: Id)        // a token validation reads the row
    | Write(at: int, reader: Id)       // and demotes the user if the row it read had expired

  // The user, and the validations that have read an expired row and not written yet.
  datatype State = State(user: User, demoting: set<Id>)

  predicate Expired(u: User, now: int) {
    u.role.PRO? && !EffectiveRole(u, now).PRO?
  }

  function Step(s: State, e: Event): State {
    match e
    case Pay(at, days) => s.(user := User(PRO, Some(ExtendPro(s.user.proExpiresAt, at, days))))
    case Look(at) => s.(user := Downgraded(s.user, at))
    case Read(at, reader) => if Expired(s.user, at) then s.(demoting := s.demoting + {reader}) else s
    case Write(_, reader) => if reader in s.demoting then State(User(FREE, None), s.demoting - {reader}) else s
  }

  function Run(s: State, es: seq<Event>): State
    decreases |es|
  {
    if es == [] then s else Step(Run(s, es[..|es| - 1]), es[|es| - 1])
  }

  function Start(u: User): State {
    State(u, {})
  }

  function After(u: User, es: seq<Event>): User {
    Run(Start(u), es).user
  }

  // Milliseconds bought by a stretch of events.
  function Bought(es: seq<Event>): int
    decreases |es|
  {
    if es == [] then 0
    else
      var e := es[|es| - 1];
      Bought(es[..|es| - 1]) + if e.Pay? then e.days * MS_PER_DAY else 0
  }

  /** The closed form's candidates: the first expiry plus everything bought, and each
      payment's time plus everything bought from it on. */
  ghost predicate Candidate(first: Option<int>, es: seq<Event>, v: int) {
    || (first.Some? && v == first.value + Bought(es))
    || (exists i :: 0 <= i < |es| && es[i].Pay? && v == es[i].at + Bought(es[i..]))
  }

  ghost predicate IsLatest(first: Option<int>, es: seq<Event>, v: int) {
    Candidate(first, es, v) && forall c :: Candidate(first, es, c) ==> c <= v
  }

  // The deadline by the recurrence the payments follow.
  function Deadline(first: Option<int>, es: seq<Event>): Option<int>
    decreases |es|
  {
    if es == [] then first
    else
      var before, e := Deadline(first, es[..|es| - 1]), es[|es| - 1];
      if e.Pay? then Some(ExtendPro(before, e.at, e.days)) else before
  }

  lemma BoughtTail(es: seq<Event>, i: nat)
    requires i < |es|
    ensures
      var e := es[|es| - 1];
      Bought(es[i..]) == Bought(es[..|es| - 1][i..]) + if e.Pay? then e.days * MS_PER_DAY else 0
  {
    assert es[i..][..|es| - i - 1] == es[..|es| - 1][i..];
    assert es[i..][|es| - i - 1] == es[|es| - 1];
  }

  // Appending an event moves every candidate by what it buys, and a payment adds its own.
  lemma CandidateSnoc(first: Option<int>, es: seq<Event>, v: int)
    requires es != []
    ensures
      var e := es[|es| - 1];
      var d := if e.Pay? then e.days * MS_PER_DAY else 0;
      Candidate(first, es, v) <==>
        Candidate(first, es[..|es| - 1], v - d) || (e.Pay? && v == e.at + d)
  {
    var n := |es| - 1;
    var e := es[n];
    var d := if e.Pay? then e.days * MS_PER_DAY else 0;
    if exists i :: 0 <= i < |es| && es[i].Pay? && v == es[i].at + Bought(es[i..]) {
      var i :| 0 <= i < |es| && es[i].Pay? && v == es[i].at + Bought(es[i..]);
      BoughtTail(es, i);
      if i < n {
        assert es[..n][i].Pay? && v - d == es[..n][i].at + Bought(es[..n][i..]);
      } else {
        assert es[..n][n..] == [];
      }
    }
    if exists i :: 0 <= i < n && es[..n][i].Pay? && v - d == es[..n][i].at + Bought(es[..n][i..]) {
      var i :| 0 <= i < n && es[..n][i].Pay? && v - d == es[..n][i].at + Bought(es[..n][i..]);
      BoughtTail(es, i);
      assert es[i].Pay? && v == es[i].at + Bought(es[i..]);
    }
    if e.Pay? && v == e.at + d {
      BoughtTail(es, n);
      assert es[..n][n..] == [];
    }
  }

  /** The recurrence has the closed form: the deadline is the largest candidate, and
      there is none exactly when there is no candidate. */
  lemma {:induction false} DeadlineClosedForm(first: Option<int>, es: seq<Event>)
    ensures Deadline(first, es).Some? ==> IsLatest(first, es, Deadline(first, es).value)
    ensures Deadline(first, es).None? ==> forall v :: !Candidate(first, es, v)
    decreases |es|
  {
    if es != [] {
      var n := |es| - 1;
      DeadlineClosedForm(first, es[..n]);
      forall v ensures Candidate(first, es, v) <==>
        Candidate(first, es[..n], v - if es[n].Pay? then es[n].days * MS_PER_DAY else 0)
        || (es[n].Pay? && v == es[n].at + es[n].days * MS_PER_DAY)
      {
        CandidateSnoc(first, es, v);
      }
    }
  }

  ghost predicate ClockForward(es: seq<Event>) {
    forall i, j | 0 <= i < j < |es| :: es[i].at <= es[j].at
  }

  // Ordinary users before any event: FREE without an expiry, or PRO.
  predicate Ordinary(u: User) {
    !u.role.ADMIN? && (u.role.FREE? ==> u.proExpiresAt.None?)
  }

  // The stored row is the deadline, or was demoted after it.
  ghost predicate Tracks(u: User, deadline: Option<int>, now: int) {
    Ordinary(u) && (u.proExpiresAt == deadline || (u == User(FREE, None) && deadline.Some? && deadline.value <= now))
  }

  // ---------- When a demotion costs PRO time ----------

  // A demotion that lands on a row which is PRO at that moment.
  predicate Erases(s: State, e: Event) {
    e.Write? && e.reader in s.demoting && EffectiveRole(s.user, e.at).PRO?
  }

  ghost predicate NothingErased(u: User, es: seq<Event>) {
    forall k | 0 <= k < |es| :: !Erases(Run(Start(u), es[..k]), es[k])
  }

  lemma NothingErasedBefore(u: User, es: seq<Event>, n: nat)
    requires NothingErased(u, es) && n <= |es|
    ensures NothingErased(u, es[..n])
  {
    assert forall k | 0 <= k < n :: es[..n][..k] == es[..k] && es[..n][k] == es[k];
  }

  function LastAt(es: seq<Event>, now: int): int {
    if es == [] then now else es[|es| - 1].at
  }

  // While no demotion erases a running PRO, the row tracks the deadline.
  lemma {:induction false} RowTracksDeadline(u: User, es: seq<Event>, now: int)
    requires Ordinary(u) && ClockForward(es) && forall i | 0 <= i < |es| :: es[i].at <= now
    requires NothingErased(u, es)
    ensures Tracks(After(u, es), Deadline(u.proExpiresAt, es), LastAt(es, now))
    decreases |es|
  {
    if es != [] {
      var n := |es| - 1;
      NothingErasedBefore(u, es, n);
      RowTracksDeadline(u, es[..n], es[n].at);
      assert es[..n] == es[..n][..n];
      assert !Erases(Run(Start(u), es[..n]), es[n]);
    }
  }

  /** As long as no demotion erases a running PRO, a user who is no administrator counts
      as PRO at `now` exactly when some candidate lies after `now`. */
  lemma ProUntilDeadline(u: User, es: seq<Event>, now: int)
    requires Ordinary(u) && ClockForward(es) && forall i | 0 <= i < |es| :: es[i].at <= now
    requires NothingErased(u, es)
    ensures EffectiveRole(After(u, es), now).PRO? <==> exists v :: Candidate(u.proExpiresAt, es, v) && now < v
  {
    RowTracksDeadline(u, es, now);
    DeadlineClosedForm(u.proExpiresAt, es);
  }

  // The payments alone.
  function Payments(es: seq<Event>): seq<Event>
    decreases |es|
  {
    if es == [] then []
    else Payments(es[..|es| - 1]) + if es[|es| - 1].Pay? then [es[|es| - 1]] else []
  }

  lemma {:induction false} LooksBuyNothing(first: Option<int>, es: seq<Event>)
    ensures Deadline(first, Payments(es)) == Deadline(first, es)
    decreases |es|
  {
    if es != [] {
      var n := |es| - 1;
      LooksBuyNothing(first, es[..n]);
      if es[n].Pay? {
        assert (Payments(es[..n]) + [es[n]])[..|Payments(es[..n])|] == Payments(es[..n]);
      } else {
        assert Payments(es) == Payments(es[..n]);
      }
    }
  }

  lemma {:induction false} PaymentsOrdered(es: seq<Event>, now: int)
    requires ClockForward(es) && forall i | 0 <= i < |es| :: es[i].at <= now
    ensures ClockForward(Payments(es)) && forall i | 0 <= i < |Payments(es)| :: Payments(es)[i].at <= now
    ensures forall i | 0 <= i < |Payments(es)| :: Payments(es)[i].Pay?
    decreases |es|
  {
    if es != [] {
      var n := |es| - 1;
      PaymentsOrdered(es[..n], es[n].at);
    }
  }

  // The role a look at `now` would find, with and without the demotions.
  predicate SameAnswer(u: User, es: seq<Event>, now: int) {
    EffectiveRole(After(u, es), now) == EffectiveRole(After(u, Payments(es)), now)
  }

  lemma SameAnswerAt(u: User, es: seq<Event>, now: int)
    requires Ordinary(u) && ClockForward(es) && forall i | 0 <= i < |es| :: es[i].at <= now
    requires NothingErased(u, es)
    ensures SameAnswer(u, es, now)
  {
    PaymentsOrdered(es, now);
    LooksBuyNothing(u.proExpiresAt, es);
    RowTracksDeadline(u, es, now);
    RowTracksDeadline(u, Payments(es), now);
  }

  // At every moment of the history so far, and after it.
  ghost predicate AnswersKept(u: User, es: seq<Event>) {
    forall k, now | 0 <= k <= |es| && (forall i | 0 <= i < k :: es[i].at <= now) :: SameAnswer(u, es[..k], now)
  }

  // A demotion that erases a running PRO is answered FREE at once, where the payments alone say PRO.
  lemma ErasingShows(u: User, es: seq<Event>, k: nat)
    requires Ordinary(u) && ClockForward(es) && k < |es| && NothingErased(u, es[..k])
    requires Erases(Run(Start(u), es[..k]), es[k])
    ensures !SameAnswer(u, es[..k + 1], es[k].at)
  {
    var before, upTo := es[..k], es[..k + 1];
    assert upTo[..k] == before;
    SameAnswerAt(u, before, es[k].at);
    assert Payments(upTo) == Payments(before);
  }

  lemma {:induction false} FirstErasure(u: User, es: seq<Event>) returns (k: nat)
    requires !NothingErased(u, es)
    ensures k < |es| && NothingErased(u, es[..k]) && Erases(Run(Start(u), es[..k]), es[k])
    decreases |es|
  {
    hide Run, Erases;
    var n := |es| - 1;
    var front := es[..n];
    assert forall i | 0 <= i < n :: front[..i] == es[..i] && front[i] == es[i];
    if NothingErased(u, front) {
      k := n;
    } else {
      k := FirstErasure(u, front);
      assert front[..k] == es[..k];
    }
  }

  /** The demotions change no answer, at any moment of a history, exactly when none of them
      lands on a row that is PRO again. */
  lemma DemotionsChangeNothingIff(u: User, es: seq<Event>)
    requires Ordinary(u) && ClockForward(es)
    ensures AnswersKept(u, es) <==> NothingErased(u, es)
  {
    if NothingErased(u, es) {
      forall k, now | 0 <= k <= |es| && (forall i | 0 <= i < k :: es[i].at <= now)
        ensures SameAnswer(u, es[..k], now)
      {
        NothingErasedBefore(u, es, k);
        SameAnswerAt(u, es[..k], now);
      }
    } else {
      var k := FirstErasure(u, es);
      ErasingShows(u, es, k);
    }
  }

  // ---------- What makes a demotion erase ----------

  // After an expired row only what is bought since counts.
  lemma {:induction false} DeadlineSince(first: Option<int>, es: seq<Event>, i: nat)
    requires i <= |es| && ClockForward(es)
    requires Deadline(first, es[..i]).Some? ==> forall j | i <= j < |es| :: Deadline(first, es[..i]).value <= es[j].at
    ensures
      var since := Deadline(None, es[i..]);
      Deadline(first, es) == if since.Some? then since else Deadline(first, es[..i])
    decreases |es| - i
  {
    if i == |es| {
      assert es[..i] == es;
    } else {
      var n := |es| - 1;
      assert es[..n][..i] == es[..i];
      assert es[i..][..n - i] == es[..n][i..] && es[i..][n - i] == es[n];
      DeadlineSince(first, es[..n], i);
    }
  }

  // The row is PRO at `now` exactly when the deadline lies after it.
  lemma ProWhileAhead(u: User, es: seq<Event>, now: int)
    requires Ordinary(u) && ClockForward(es) && forall i | 0 <= i < |es| :: es[i].at <= now
    requires NothingErased(u, es)
    ensures
      var d := Deadline(u.proExpiresAt, es);
      && (EffectiveRole(After(u, es), now).PRO? <==> d.Some? && d.value > now)
      && (Expired(After(u, es), now) && d.Some? ==> d.value <= now)
  {
    RowTracksDeadline(u, es, now);
  }

  // Some payment of the stretch, with the later ones, reaches past `now`.
  ghost predicate PaidBeyond(es: seq<Event>, i: nat, k: nat, now: int)
    requires k <= |es|
  {
    exists j | i < j < k :: es[j].Pay? && es[j].at + Bought(es[j..k]) > now
  }

  lemma DeadlineOfStretch(es: seq<Event>, i: nat, k: nat, now: int)
    requires i < k <= |es| && !es[i].Pay?
    ensures
      var since := Deadline(None, es[i..k]);
      since.Some? && since.value > now <==> PaidBeyond(es, i, k, now)
  {
    var part := es[i..k];
    DeadlineClosedForm(None, part);
    forall j | i <= j < k ensures part[j - i] == es[j] && part[j - i..] == es[j..k] {
    }
    if PaidBeyond(es, i, k, now) {
      var j :| i < j < k && es[j].Pay? && es[j].at + Bought(es[j..k]) > now;
      assert part[j - i].Pay? && es[j].at + Bought(es[j..k]) == part[j - i].at + Bought(part[j - i..]);
      assert Candidate(None, part, es[j].at + Bought(es[j..k]));
    }
    var since := Deadline(None, part);
    if since.Some? && since.value > now {
      assert Candidate(None, part, since.value);
      var m :| 0 <= m < |part| && part[m].Pay? && since.value == part[m].at + Bought(part[m..]);
      assert part[m] == es[i + m] && part[m..] == es[i + m..k];
    }
  }

  /** A validation that read an expired row at `i` and writes at `k`: as long as nothing was
      erased before, its write erases a running PRO exactly when a payment came in
      between whose time, counted with the later ones from that payment on, is not over. */
  lemma ErasesIffPaidBetween(u: User, es: seq<Event>, i: nat, k: nat)
    requires Ordinary(u) && ClockForward(es) && i < k < |es| && NothingErased(u, es[..k])
    requires es[i].Read? && Expired(After(u, es[..i]), es[i].at)
    requires es[k].Write? && es[k].reader in Run(Start(u), es[..k]).demoting
    ensures Erases(Run(Start(u), es[..k]), es[k]) <==> PaidBeyond(es, i, k, es[k].at)
  {
    var upTo, now := es[..k], es[k].at;
    assert upTo[..i] == es[..i] && upTo[i..] == es[i..k];
    NothingErasedBefore(u, upTo, i);
    ProWhileAhead(u, upTo[..i], es[i].at);
    ProWhileAhead(u, upTo, now);
    hide Deadline, EffectiveRole, Run, Expired, PaidBeyond, NothingErased;
    DeadlineSince(u.proExpiresAt, upTo, i);
    DeadlineOfStretch(es, i, k, now);
  }

  /** That history exists: PRO until 5, read at 10, thirty days bought at 10, demoted at 11. */
  lemma BoughtTimeErased(reader: Id)
    ensures
      var u, es := User(PRO, Some(5)), [Read(10, reader), Pay(10, 30), Write(11, reader)];
      && After(u, es) == User(FREE, None)
      && Deadline(u.proExpiresAt, es) == Some(10 + 30 * MS_PER_DAY)
      && !SameAnswer(u, es, 11)
  {
    var u, es := User(PRO, Some(5)), [Read(10, reader), Pay(10, 30), Write(11, reader)];
    assert es[..2] == [es[0], es[1]] && es[..2][..1] == [es[0]] && es[..2][..1][..0] == [];
    var s1 := Step(Start(u), es[0]);
    assert s1 == State(u, {reader});
    assert Run(Start(u), es[..2][..1]) == s1;
    assert Run(Start(u), es[..2]) == State(User(PRO, Some(10 + 30 * MS_PER_DAY)), {reader});
    assert Payments(es[..2][..1]) == [];
    assert Payments(es[..2]) == [es[1]] && Payments(es) == [es[1]];
    assert [es[1]][..0] == [];
    assert Run(Start(u), [es[1]]) == Step(Start(u), es[1]);
    assert Deadline(u.proExpiresAt, es[..2][..1]) == Some(5);
    assert Deadline(u.proExpiresAt, es[..2]) == Some(10 + 30 * MS_PER_DAY);
    assert Run(Start(u), es) == Step(Run(Start(u), es[..2]), es[2]);
  }

  /** Paying replaces any role: an administrator keeps the role through a history
      exactly when it contains no payment. */
  lemma {:induction false} AdminKeptIff(expires: Option<int>, es: seq<Event>)
    ensures After(User(ADMIN, expires), es).role.ADMIN? <==> forall i | 0 <= i < |es| :: !es[i].Pay?
    ensures After(User(ADMIN, expires), es).role.ADMIN? ==> Run(Start(User(ADMIN, expires)), es).demoting == {}
    decreases |es|
  {
    if es != [] {
      AdminKeptIff(expires, es[..|es| - 1]);
      assert forall i | 0 <= i < |es| - 1 :: es[..|es| - 1][i] == es[i];
    }
  }
}
