/** The stale-while-revalidate cache of the explore feeds as a state machine: requests,
    background revalidations, producers, writes and expiry interleave freely on one
    store of keys. */
module ExploreCache {
  import opened Prelude
  import opened CacheKeys

  const LOCK_TTL_MS := 5000

  // A setting in seconds; None when it is absent or not a finite number.
  function ReadTtl(raw: Option<real>, fallback: nat): (seconds: nat)
    ensures raw.None? || raw.value <= 0.0 ==> seconds == fallback
    ensures raw.Some? && 0.0 < raw.value < 1.0 ==> seconds == 0
    ensures raw.Some? && raw.value > 0.0 ==> raw.value - 1.0 < seconds as real <= raw.value
  {
    if raw.None? || raw.value <= 0.0 then fallback else raw.value.Floor
  }

  datatype Config = Config(publicFresh: nat, publicStale: nat, forYouFresh: nat, forYouStale: nat)

  function FreshMs(cfg: Config, r: Request): nat {
    (if r.Public? then cfg.publicFresh else cfg.forYouFresh) * 1000
  }

  function StaleMs(cfg: Config, r: Request): nat {
    (if r.Public? then cfg.publicStale else cfg.forYouStale) * 1000
  }

  function TtlMs(cfg: Config, r: Request): nat {
    FreshMs(cfg, r) + StaleMs(cfg, r)
  }

  // What a producer returned: the request it answered and the time.
  datatype Payload = Made(request: Request, at: int)

  // The lock's value is the text 1; the request it was taken for is bookkeeping.
  datatype Value = Envelope(payload: Payload, freshUntil: int, staleUntil: int) | LockMark(request: Request)

  datatype Entry = Entry(value: Value, expires: int)

  type Redis = map<string, Entry>

  function Live(redis: Redis, key: string, now: int): Option<Value> {
    if key in redis && now < redis[key].expires then Some(redis[key].value) else None
  }

  // A fresh hit without a payload is the lock's mark, read as a plain cached value.
  datatype Lookup = Miss | Fresh(cached: Option<Payload>) | Stale(payload: Payload)

  function LookUp(redis: Redis, key: string, now: int): Lookup {
    match Live(redis, key, now)
    case None => Miss
    case Some(LockMark(_)) => Fresh(None)
    case Some(Envelope(payload, freshUntil, staleUntil)) =>
      if now <= freshUntil then Fresh(Some(payload))
      else if now <= staleUntil then Stale(payload)
      else Miss
  }

  datatype Served =
    | FromCache(request: Request, cached: Option<Payload>, at: int)
    | Direct(request: Request, payload: Payload)

  datatype Task =
    | Queued(request: Request)                                       // a background revalidation before its lock
    | Producing(request: Request, background: bool)
    | Writing(request: Request, background: bool, envelope: Value)
    | Ended

  // Every lock taken so far, with its time.
  datatype Lock = Lock(request: Request, at: int)

  datatype State = State(now: int, redis: Redis, tasks: seq<Task>, served: seq<Served>, locks: seq<Lock>)

  datatype Action =
    | Tick(ms: nat)
    | Ask(request: Request)
    | AskReadFails(request: Request)
    | TakeLock(task: nat)
    | LockFails(task: nat)
    | Produce(task: nat)
    | ProducerFails(task: nat)
    | Write(task: nat)
    | WriteFails(task: nat)

  function DoAsk(s: State, r: Request): State {
    match LookUp(s.redis, CacheKey(r), s.now)
    case Miss => s.(tasks := s.tasks + [Producing(r, false)])
    case Fresh(cached) => s.(served := s.served + [FromCache(r, cached, s.now)])
    case Stale(payload) =>
      s.(served := s.served + [FromCache(r, Some(payload), s.now)], tasks := s.tasks + [Queued(r)])
  }

  function DoTakeLock(s: State, i: nat): State
    requires i < |s.tasks| && s.tasks[i].Queued?
  {
    var r := s.tasks[i].request;
    if Live(s.redis, LockKey(r), s.now).Some? then s.(tasks := s.tasks[i := Ended])
    else
      s.(redis := s.redis[LockKey(r) := Entry(LockMark(r), s.now + LOCK_TTL_MS)],
         locks := s.locks + [Lock(r, s.now)],
         tasks := s.tasks[i := Producing(r, true)])
  }

  function NewEnvelope(cfg: Config, r: Request, now: int): Value {
    Envelope(Made(r, now), now + FreshMs(cfg, r), now + TtlMs(cfg, r))
  }

  function DoProduce(cfg: Config, s: State, i: nat): State
    requires i < |s.tasks| && s.tasks[i].Producing?
  {
    var r := s.tasks[i].request;
    s.(tasks := s.tasks[i := Writing(r, s.tasks[i].background, NewEnvelope(cfg, r, s.now))])
  }

  // The answer goes out once the write has settled either way.
  function DoSettle(s: State, i: nat): State
    requires i < |s.tasks| && s.tasks[i].Writing? && s.tasks[i].envelope.Envelope?
  {
    var t := s.tasks[i];
    s.(tasks := s.tasks[i := Ended],
       served := if t.background then s.served else s.served + [Direct(t.request, t.envelope.payload)])
  }

  // An expiry of zero seconds is refused by the store.
  function DoWrite(cfg: Config, s: State, i: nat): State
    requires i < |s.tasks| && s.tasks[i].Writing? && s.tasks[i].envelope.Envelope?
  {
    var t := s.tasks[i];
    if TtlMs(cfg, t.request) == 0 then DoSettle(s, i)
    else DoSettle(s.(redis := s.redis[CacheKey(t.request) := Entry(t.envelope, s.now + TtlMs(cfg, t.request))]), i)
  }

  function Step(cfg: Config, s: State, a: Action): State {
    match a
    case Tick(ms) => s.(now := s.now + ms)
    case Ask(r) => DoAsk(s, r)
    case AskReadFails(r) => s.(tasks := s.tasks + [Producing(r, false)])
    case TakeLock(i) => if i < |s.tasks| && s.tasks[i].Queued? then DoTakeLock(s, i) else s
    case LockFails(i) => if i < |s.tasks| && s.tasks[i].Queued? then s.(tasks := s.tasks[i := Ended]) else s
    case Produce(i) => if i < |s.tasks| && s.tasks[i].Producing? then DoProduce(cfg, s, i) else s
    case ProducerFails(i) => if i < |s.tasks| && s.tasks[i].Producing? then s.(tasks := s.tasks[i := Ended]) else s
    case Write(i) =>
      if i < |s.tasks| && s.tasks[i].Writing? && s.tasks[i].envelope.Envelope? then DoWrite(cfg, s, i) else s
    case WriteFails(i) =>
      if i < |s.tasks| && s.tasks[i].Writing? && s.tasks[i].envelope.Envelope? then DoSettle(s, i) else s
  }

  const START := State(0, map[], [], [], [])

  function Run(cfg: Config, run: seq<Action>): State
    decreases |run|
  {
    if run == [] then START else Step(cfg, Run(cfg, run[..|run| - 1]), run[|run| - 1])
  }

  // ---------- What every run keeps ----------

  function Requests(run: seq<Action>): set<Request> {
    set a | a in run && (a.Ask? || a.AskReadFails?) :: a.request
  }

  /** Requests that keep out of each other's entries: two that share a key ask for the same
      thing or are never stored, and none has the key of another's lock, unless that lock is
      never taken. */
  ghost predicate Apart(cfg: Config, rs: set<Request>) {
    && (forall a, b | a in rs && b in rs && CacheKey(a) == CacheKey(b) :: SameRequest(a, b) || TtlMs(cfg, a) == 0)
    && (forall a, b | a in rs && b in rs && LockKey(a) == CacheKey(b) :: StaleMs(cfg, a) == 0)
  }

  predicate OwnEnvelope(cfg: Config, e: Value, r: Request, now: int) {
    e.Envelope? && e.payload.request == r && e == NewEnvelope(cfg, r, e.payload.at) && e.payload.at <= now
  }

  predicate OwnEntry(cfg: Config, rs: set<Request>, key: string, e: Entry, now: int) {
    if e.value.Envelope? then
      var r := e.value.payload.request;
      r in rs && key == CacheKey(r) && TtlMs(cfg, r) > 0 && OwnEnvelope(cfg, e.value, r, now)
    else e.value.request in rs && key == LockKey(e.value.request) && StaleMs(cfg, e.value.request) > 0
  }

  predicate OwnTask(cfg: Config, rs: set<Request>, t: Task, now: int) {
    && (t.Ended? || t.request in rs)
    && (t.Queued? ==> StaleMs(cfg, t.request) > 0)
    && (t.Writing? ==> OwnEnvelope(cfg, t.envelope, t.request, now))
  }

  predicate Sound(cfg: Config, rs: set<Request>, s: State) {
    && (forall k | k in s.redis :: OwnEntry(cfg, rs, k, s.redis[k], s.now))
    && (forall i | 0 <= i < |s.tasks| :: OwnTask(cfg, rs, s.tasks[i], s.now))
  }

  // What a client may be given.
  predicate GoodAnswer(cfg: Config, v: Served) {
    if v.Direct? then v.payload.request == v.request
    else
      v.cached.Some? && SameRequest(v.cached.value.request, v.request)
      && 0 <= v.at - v.cached.value.at <= TtlMs(cfg, v.request)
  }

  // A request finds nothing but entries of its own kind under its key.
  lemma AskIsGood(cfg: Config, rs: set<Request>, s: State, r: Request)
    requires Apart(cfg, rs) && Sound(cfg, rs, s) && r in rs
    ensures
      var found := LookUp(s.redis, CacheKey(r), s.now);
      && (found.Fresh? ==> found.cached.Some? && GoodAnswer(cfg, FromCache(r, found.cached, s.now)))
      && (found.Stale? ==>
            StaleMs(cfg, r) > 0 && GoodAnswer(cfg, FromCache(r, Some(found.payload), s.now)))
  {
    hide CacheKey, LockKey;
    if CacheKey(r) in s.redis { assert OwnEntry(cfg, rs, CacheKey(r), s.redis[CacheKey(r)], s.now); }
  }

  predicate AsksIn(a: Action, rs: set<Request>) {
    a.Ask? || a.AskReadFails? ==> a.request in rs
  }

  lemma AskKeepsSound(cfg: Config, rs: set<Request>, s: State, r: Request)
    requires Apart(cfg, rs) && Sound(cfg, rs, s) && r in rs
    ensures Sound(cfg, rs, DoAsk(s, r))
    ensures forall v | v in DoAsk(s, r).served :: v in s.served || GoodAnswer(cfg, v)
  {
    hide CacheKey, LockKey;
    AskIsGood(cfg, rs, s, r);
    hide Apart, LookUp, GoodAnswer;
  }

  lemma WriteKeepsSound(cfg: Config, rs: set<Request>, s: State, i: nat)
    requires Sound(cfg, rs, s) && i < |s.tasks| && s.tasks[i].Writing? && s.tasks[i].envelope.Envelope?
    ensures Sound(cfg, rs, DoWrite(cfg, s, i))
    ensures forall v | v in DoWrite(cfg, s, i).served :: v in s.served || GoodAnswer(cfg, v)
  {
    hide CacheKey, LockKey;
    assert OwnTask(cfg, rs, s.tasks[i], s.now);
  }

  lemma LockKeepsSound(cfg: Config, rs: set<Request>, s: State, i: nat)
    requires Sound(cfg, rs, s) && i < |s.tasks| && s.tasks[i].Queued?
    ensures Sound(cfg, rs, DoTakeLock(s, i)) && DoTakeLock(s, i).served == s.served
  {
    hide CacheKey, LockKey;
    assert OwnTask(cfg, rs, s.tasks[i], s.now);
  }

  lemma StepKeepsSound(cfg: Config, rs: set<Request>, s: State, a: Action)
    requires Apart(cfg, rs) && Sound(cfg, rs, s) && AsksIn(a, rs)
    ensures Sound(cfg, rs, Step(cfg, s, a))
    ensures forall v | v in Step(cfg, s, a).served :: v in s.served || GoodAnswer(cfg, v)
  {
    hide CacheKey, LockKey, Apart, DoAsk, DoWrite, DoTakeLock;
    match a
    case Ask(r) => AskKeepsSound(cfg, rs, s, r);
    case Write(i) =>
      if i < |s.tasks| && s.tasks[i].Writing? && s.tasks[i].envelope.Envelope? { WriteKeepsSound(cfg, rs, s, i); }
    case TakeLock(i) =>
      if i < |s.tasks| && s.tasks[i].Queued? { LockKeepsSound(cfg, rs, s, i); }
    case _ =>
  }

  lemma RequestsSnoc(run: seq<Action>, rs: set<Request>)
    requires Requests(run) <= rs && run != []
    ensures Requests(run[..|run| - 1]) <= rs && AsksIn(run[|run| - 1], rs)
  {
    var a := run[|run| - 1];
    assert a in run && (a.Ask? || a.AskReadFails? ==> a.request in Requests(run));
    assert forall x | x in run[..|run| - 1] :: x in run;
  }

  lemma {:induction false} RunIsSound(cfg: Config, rs: set<Request>, run: seq<Action>)
    requires Apart(cfg, rs) && Requests(run) <= rs
    ensures Sound(cfg, rs, Run(cfg, run))
    ensures forall v | v in Run(cfg, run).served :: GoodAnswer(cfg, v)
    decreases |run|
  {
    if run != [] {
      hide Apart, Sound, Step, GoodAnswer, Requests;
      RequestsSnoc(run, rs);
      RunIsSound(cfg, rs, run[..|run| - 1]);
      StepKeepsSound(cfg, rs, Run(cfg, run[..|run| - 1]), run[|run| - 1]);
    }
  }

  // Nobody who asks for one of these is ever given anything else.
  ghost predicate AnswersOwn(cfg: Config, rs: set<Request>) {
    forall run | Requests(run) <= rs :: RunAnswersOwn(cfg, run)
  }

  predicate RunAnswersOwn(cfg: Config, run: seq<Action>) {
    forall v | v in Run(cfg, run).served :: GoodAnswer(cfg, v)
  }

  // ---------- Locks ----------

  // A lock stays in the store until five seconds after it was taken.
  predicate Held(cfg: Config, rs: set<Request>, s: State, l: Lock) {
    && l.request in rs && StaleMs(cfg, l.request) > 0 && l.at <= s.now
    && (s.now < l.at + 5000 ==>
          LockKey(l.request) in s.redis && s.redis[LockKey(l.request)].expires >= l.at + 5000)
  }

  predicate Spaced(locks: seq<Lock>) {
    forall i, j | 0 <= i < j < |locks| && LockKey(locks[i].request) == LockKey(locks[j].request) ::
      locks[j].at - locks[i].at >= 5000
  }

  predicate LocksSound(cfg: Config, rs: set<Request>, s: State) {
    Spaced(s.locks) && forall i | 0 <= i < |s.locks| :: Held(cfg, rs, s, s.locks[i])
  }

  // Writes never touch a lock.
  lemma WriteKeepsLocks(cfg: Config, rs: set<Request>, s: State, i: nat)
    requires Apart(cfg, rs) && Sound(cfg, rs, s) && LocksSound(cfg, rs, s)
    requires i < |s.tasks| && s.tasks[i].Writing? && s.tasks[i].envelope.Envelope?
    ensures LocksSound(cfg, rs, DoWrite(cfg, s, i))
  {
    hide CacheKey, LockKey;
    assert OwnTask(cfg, rs, s.tasks[i], s.now);
    var s' := DoWrite(cfg, s, i);
    forall n | 0 <= n < |s.locks|
      ensures Held(cfg, rs, s', s'.locks[n])
    {
      assert Held(cfg, rs, s, s.locks[n]);
    }
  }

  lemma TakeLockKeepsLocks(cfg: Config, rs: set<Request>, s: State, i: nat)
    requires Sound(cfg, rs, s) && LocksSound(cfg, rs, s)
    requires i < |s.tasks| && s.tasks[i].Queued?
    ensures LocksSound(cfg, rs, DoTakeLock(s, i))
  {
    hide CacheKey, LockKey;
    var r := s.tasks[i].request;
    assert OwnTask(cfg, rs, s.tasks[i], s.now);
    var s' := DoTakeLock(s, i);
    if Live(s.redis, LockKey(r), s.now).None? {
      forall n | 0 <= n < |s.locks|
        ensures LockKey(s.locks[n].request) == LockKey(r) ==> s.now - s.locks[n].at >= 5000
        ensures Held(cfg, rs, s', s.locks[n])
      {
        assert Held(cfg, rs, s, s.locks[n]);
      }
    }
  }

  lemma StepKeepsLocks(cfg: Config, rs: set<Request>, s: State, a: Action)
    requires Apart(cfg, rs) && Sound(cfg, rs, s) && LocksSound(cfg, rs, s)
    ensures LocksSound(cfg, rs, Step(cfg, s, a))
  {
    hide CacheKey, LockKey, LocksSound;
    match a
    case Write(i) =>
      if i < |s.tasks| && s.tasks[i].Writing? && s.tasks[i].envelope.Envelope? { WriteKeepsLocks(cfg, rs, s, i); }
    case TakeLock(i) =>
      if i < |s.tasks| && s.tasks[i].Queued? { TakeLockKeepsLocks(cfg, rs, s, i); }
    case _ =>
      var s' := Step(cfg, s, a);
      assert s'.locks == s.locks && s'.redis == s.redis && s'.now >= s.now;
      LocksStay(cfg, rs, s, s');
  }

  lemma LocksStay(cfg: Config, rs: set<Request>, s: State, s': State)
    requires LocksSound(cfg, rs, s) && s'.locks == s.locks && s'.redis == s.redis && s'.now >= s.now
    ensures LocksSound(cfg, rs, s')
  {
    assert forall n | 0 <= n < |s.locks| :: Held(cfg, rs, s, s.locks[n]);
  }

  /** Background revalidations of one key take their lock at least five seconds apart. */
  lemma {:induction false} RevalidationsSpaced(cfg: Config, rs: set<Request>, run: seq<Action>)
    requires Apart(cfg, rs) && Requests(run) <= rs
    ensures LocksSound(cfg, rs, Run(cfg, run))
    decreases |run|
  {
    if run != [] {
      hide Apart, Sound, LocksSound, Step, Requests;
      RequestsSnoc(run, rs);
      RevalidationsSpaced(cfg, rs, run[..|run| - 1]);
      RunIsSound(cfg, rs, run[..|run| - 1]);
      StepKeepsLocks(cfg, rs, Run(cfg, run[..|run| - 1]), run[|run| - 1]);
    }
  }

  predicate TakenFor(l: Lock, key: string, expires: int) {
    LockKey(l.request) == key && expires == l.at + 5000
  }

  // Every mark in the store is that of a lock taken five seconds before it expires.
  ghost predicate MarksAreLocks(s: State) {
    forall k | k in s.redis && s.redis[k].value.LockMark? ::
      exists n | 0 <= n < |s.locks| :: TakenFor(s.locks[n], k, s.redis[k].expires)
  }

  lemma StepKeepsMarks(cfg: Config, s: State, a: Action)
    requires MarksAreLocks(s)
    ensures MarksAreLocks(Step(cfg, s, a))
  {
    hide CacheKey, LockKey;
    var s' := Step(cfg, s, a);
    forall k | k in s'.redis && s'.redis[k].value.LockMark?
      ensures exists n | 0 <= n < |s'.locks| :: TakenFor(s'.locks[n], k, s'.redis[k].expires)
    {
      if k in s.redis && s'.redis[k] == s.redis[k] {
        var n :| 0 <= n < |s.locks| && TakenFor(s.locks[n], k, s.redis[k].expires);
        assert s'.locks[n] == s.locks[n];
      } else {
        assert TakenFor(s'.locks[|s.locks|], k, s'.redis[k].expires);
      }
    }
  }

  lemma {:induction false} RunKeepsMarks(cfg: Config, run: seq<Action>)
    ensures MarksAreLocks(Run(cfg, run))
    decreases |run|
  {
    if run != [] {
      hide Step, MarksAreLocks;
      RunKeepsMarks(cfg, run[..|run| - 1]);
      StepKeepsMarks(cfg, Run(cfg, run[..|run| - 1]), run[|run| - 1]);
    }
    assert MarksAreLocks(START);
  }

  // No lock of that key was taken in the last five seconds.
  predicate Untaken(s: State, r: Request) {
    forall n | 0 <= n < |s.locks| && LockKey(s.locks[n].request) == LockKey(r) :: s.now - s.locks[n].at >= 5000
  }

  lemma LockFreeIff(cfg: Config, rs: set<Request>, s: State, r: Request)
    requires Apart(cfg, rs) && Sound(cfg, rs, s) && LocksSound(cfg, rs, s) && MarksAreLocks(s)
    requires r in rs && StaleMs(cfg, r) > 0
    ensures Live(s.redis, LockKey(r), s.now).None? <==> Untaken(s, r)
  {
    hide CacheKey, LockKey;
    if LockKey(r) in s.redis { assert OwnEntry(cfg, rs, LockKey(r), s.redis[LockKey(r)], s.now); }
    assert forall n | 0 <= n < |s.locks| :: Held(cfg, rs, s, s.locks[n]);
  }

  /** A background revalidation gets its lock, and goes on, exactly when none of that key was
      taken in the last five seconds; otherwise it ends. */
  lemma LockTakenIff(cfg: Config, rs: set<Request>, run: seq<Action>, i: nat)
    requires Apart(cfg, rs) && Requests(run) <= rs
    requires i < |Run(cfg, run).tasks| && Run(cfg, run).tasks[i].Queued?
    ensures
      var s := Run(cfg, run);
      var r := s.tasks[i].request;
      Step(cfg, s, TakeLock(i)).tasks == s.tasks[i := if Untaken(s, r) then Producing(r, true) else Ended]
  {
    var s := Run(cfg, run);
    RunIsSound(cfg, rs, run);
    assert OwnTask(cfg, rs, s.tasks[i], s.now);
    hide Run, CacheKey, LockKey, Sound, LocksSound, Apart, MarksAreLocks, Untaken, Requests;
    RevalidationsSpaced(cfg, rs, run);
    RunKeepsMarks(cfg, run);
    LockFreeIff(cfg, rs, s, s.tasks[i].request);
  }

  // ---------- Requests that get into each other's entries ----------

  lemma RunThen(cfg: Config, before: seq<Action>, a: Action, run: seq<Action>)
    requires run == before + [a]
    ensures Run(cfg, run) == Step(cfg, Run(cfg, before), a)
  {
    assert run[..|run| - 1] == before;
  }

  function Fill(r: Request): seq<Action> {
    [Ask(r), Produce(0), Write(0)]
  }

  // An entry is filled.
  lemma Filled(cfg: Config, r: Request)
    requires TtlMs(cfg, r) > 0
    ensures
      var s := Run(cfg, Fill(r));
      && s.now == 0 && s.tasks == [Ended] && s.served == [Direct(r, Made(r, 0))]
      && s.redis == map[CacheKey(r) := Entry(NewEnvelope(cfg, r, 0), TtlMs(cfg, r))]
  {
    RunThen(cfg, [], Ask(r), [Ask(r)]);
    RunThen(cfg, [Ask(r)], Produce(0), [Ask(r), Produce(0)]);
    RunThen(cfg, [Ask(r), Produce(0)], Write(0), Fill(r));
    hide CacheKey, Run;
    var s1 := Step(cfg, START, Ask(r));
    assert s1.tasks == [Producing(r, false)] && s1.redis == map[] && s1.now == 0 && s1.served == [];
    var s2 := Step(cfg, s1, Produce(0));
    assert s2.tasks == [Writing(r, false, NewEnvelope(cfg, r, 0))] && s2.redis == map[] && s2.now == 0;
    assert s2.served == [];
  }

  /** How long an answer lasts: for the fresh seconds it is served as it is, for the stale
      seconds after that it is served and made anew behind the client's back, and from then on
      a client waits for a new one. */
  lemma FreshThenStale(cfg: Config, r: Request, age: nat)
    requires TtlMs(cfg, r) > 0
    ensures
      var s := Run(cfg, Fill(r) + [Tick(age)] + [Ask(r)]);
      var freshMs := 1000 * if r.Public? then cfg.publicFresh else cfg.forYouFresh;
      var staleMs := 1000 * if r.Public? then cfg.publicStale else cfg.forYouStale;
      var cached := FromCache(r, Some(Made(r, 0)), age);
      if age >= freshMs + staleMs then s.served == [Direct(r, Made(r, 0))] && s.tasks == [Ended, Producing(r, false)]
      else
        && s.served == [Direct(r, Made(r, 0)), cached]
        && s.tasks == if age <= freshMs then [Ended] else [Ended, Queued(r)]
  {
    Filled(cfg, r);
    RunThen(cfg, Fill(r), Tick(age), Fill(r) + [Tick(age)]);
    RunThen(cfg, Fill(r) + [Tick(age)], Ask(r), Fill(r) + [Tick(age)] + [Ask(r)]);
    hide CacheKey, Run;
  }

  // The run in which a stale answer is made anew behind the client's back, and asked for again.
  function Renew(r: Request, age: nat): seq<Action> {
    Fill(r) + [Tick(age)] + [Ask(r)] + [TakeLock(1)] + [Produce(1)] + [Write(1)] + [Ask(r)]
  }

  lemma RenewSteps(cfg: Config, r: Request, age: nat)
    ensures
      var asked := Run(cfg, Fill(r) + [Tick(age)] + [Ask(r)]);
      Run(cfg, Renew(r, age)) ==
        Step(cfg, Step(cfg, Step(cfg, Step(cfg, asked, TakeLock(1)), Produce(1)), Write(1)), Ask(r))
  {
    hide Step, Run, Fill;
    var asked := Fill(r) + [Tick(age)] + [Ask(r)];
    RunThen(cfg, asked, TakeLock(1), asked + [TakeLock(1)]);
    RunThen(cfg, asked + [TakeLock(1)], Produce(1), asked + [TakeLock(1)] + [Produce(1)]);
    RunThen(cfg, asked + [TakeLock(1)] + [Produce(1)], Write(1), asked + [TakeLock(1)] + [Produce(1)] + [Write(1)]);
    RunThen(cfg, asked + [TakeLock(1)] + [Produce(1)] + [Write(1)], Ask(r), Renew(r, age));
  }

  // A stale answer leaves the store as it was, and its revalidation waiting.
  lemma StaleAsked(cfg: Config, r: Request, age: nat)
    requires FreshMs(cfg, r) < age < TtlMs(cfg, r)
    ensures
      var s := Run(cfg, Fill(r) + [Tick(age)] + [Ask(r)]);
      && s.now == age && s.tasks == [Ended, Queued(r)]
      && s.redis == map[CacheKey(r) := Entry(NewEnvelope(cfg, r, 0), TtlMs(cfg, r))]
  {
    Filled(cfg, r);
    RunThen(cfg, Fill(r), Tick(age), Fill(r) + [Tick(age)]);
    RunThen(cfg, Fill(r) + [Tick(age)], Ask(r), Fill(r) + [Tick(age)] + [Ask(r)]);
    hide CacheKey, Run;
  }

  lemma RenewFrom(cfg: Config, s: State, r: Request) returns (s': State)
    requires s.tasks == [Ended, Queued(r)] && LockKey(r) !in s.redis && TtlMs(cfg, r) > 0
    ensures s' == Step(cfg, Step(cfg, Step(cfg, s, TakeLock(1)), Produce(1)), Write(1))
    ensures s'.now == s.now && s'.served == s.served
    ensures CacheKey(r) in s'.redis
    ensures s'.redis[CacheKey(r)] == Entry(NewEnvelope(cfg, r, s.now), s.now + TtlMs(cfg, r))
  {
    hide CacheKey, LockKey;
    var s1 := Step(cfg, s, TakeLock(1));
    assert s1.tasks == [Ended, Producing(r, true)];
    var s2 := Step(cfg, s1, Produce(1));
    assert s2.tasks == [Ended, Writing(r, true, NewEnvelope(cfg, r, s.now))];
    s' := Step(cfg, s2, Write(1));
  }

  /** A stale answer is renewed in the background: once the revalidation has written, the next
      client is served what was made then, as fresh. */
  lemma StaleIsRenewed(cfg: Config, r: Request, age: nat)
    requires FreshMs(cfg, r) < age < TtlMs(cfg, r)
    ensures FromCache(r, Some(Made(r, age)), age) in Run(cfg, Renew(r, age)).served
  {
    StaleAsked(cfg, r, age);
    RenewSteps(cfg, r, age);
    assert |LockKey(r)| > |CacheKey(r)|;
    hide CacheKey, LockKey, Run, Renew, Step;
    var s := RenewFrom(cfg, Run(cfg, Fill(r) + [Tick(age)] + [Ask(r)]), r);
    AskedFresh(cfg, s, r, age);
  }

  lemma AskedFresh(cfg: Config, s: State, r: Request, made: int)
    requires CacheKey(r) in s.redis && s.now == made && TtlMs(cfg, r) > 0
    requires s.redis[CacheKey(r)] == Entry(NewEnvelope(cfg, r, made), made + TtlMs(cfg, r))
    ensures FromCache(r, Some(Made(r, made)), made) in Step(cfg, s, Ask(r)).served
  {
    hide CacheKey;
    assert Step(cfg, s, Ask(r)).served == s.served + [FromCache(r, Some(Made(r, made)), made)];
  }

  /** Another request with the same key is served that entry. */
  lemma OtherServed(cfg: Config, r: Request, other: Request)
    requires TtlMs(cfg, r) > 0 && CacheKey(other) == CacheKey(r)
    ensures FromCache(other, Some(Made(r, 0)), 0) in Run(cfg, Fill(r) + [Ask(other)]).served
  {
    Filled(cfg, r);
    RunThen(cfg, Fill(r), Ask(other), Fill(r) + [Ask(other)]);
    hide CacheKey, Run;
    var s := Run(cfg, Fill(r));
    assert Live(s.redis, CacheKey(r), 0).Some?;
    assert Step(cfg, s, Ask(other)).served == s.served + [FromCache(other, Some(Made(r, 0)), 0)];
  }

  // The entry goes stale and is asked for again.
  lemma StaleStep(cfg: Config, s: State, r: Request) returns (s': State)
    requires StaleMs(cfg, r) > 0 && s.now == 0 && s.tasks == [Ended]
    requires s.redis == map[CacheKey(r) := Entry(NewEnvelope(cfg, r, 0), TtlMs(cfg, r))]
    ensures s' == Step(cfg, Step(cfg, s, Tick(FreshMs(cfg, r) + 1)), Ask(r))
    ensures s'.now == FreshMs(cfg, r) + 1 && s'.redis == s.redis
    ensures s'.tasks == [Ended, Queued(r)]
  {
    hide CacheKey;
    s' := Step(cfg, Step(cfg, s, Tick(FreshMs(cfg, r) + 1)), Ask(r));
  }

  lemma ClashStep(cfg: Config, s: State, r: Request, other: Request) returns (s': State)
    requires s.tasks == [Ended, Queued(r)] && LockKey(r) !in s.redis && CacheKey(other) == LockKey(r)
    ensures s' == Step(cfg, Step(cfg, s, TakeLock(1)), Ask(other))
    ensures s'.served == s.served + [FromCache(other, None, s.now)]
  {
    hide CacheKey, LockKey;
    var s1 := Step(cfg, s, TakeLock(1));
    assert s1.redis == s.redis[LockKey(r) := Entry(LockMark(r), s.now + LOCK_TTL_MS)];
    s' := Step(cfg, s1, Ask(other));
  }

  function ServeLock(cfg: Config, r: Request, other: Request): seq<Action> {
    Fill(r) + [Tick(FreshMs(cfg, r) + 1)] + [Ask(r)] + [TakeLock(1)] + [Ask(other)]
  }

  /** For every request whose entries go stale there is a run after which a request with the
      key of its lock is served the lock's mark: the same request with the lock suffix on
      its cursor, for one. */
  lemma LockMarkServed(cfg: Config, r: Request, other: Request)
    requires StaleMs(cfg, r) > 0 && LockKey(r) == CacheKey(other)
    ensures FromCache(other, None, FreshMs(cfg, r) + 1) in Run(cfg, ServeLock(cfg, r, other)).served
  {
    assert |LockKey(r)| > |CacheKey(r)|;
    hide CacheKey, LockKey, Run, Step, ServeLock;
    Filled(cfg, r);
    ServeLockSteps(cfg, r, other);
    var s5 := StaleStep(cfg, Run(cfg, Fill(r)), r);
    var s7 := ClashStep(cfg, s5, r, other);
    assert s7.served[|s7.served| - 1] == FromCache(other, None, FreshMs(cfg, r) + 1);
  }

  lemma ServeLockSteps(cfg: Config, r: Request, other: Request)
    ensures
      var stale := Step(cfg, Step(cfg, Run(cfg, Fill(r)), Tick(FreshMs(cfg, r) + 1)), Ask(r));
      Run(cfg, ServeLock(cfg, r, other)) == Step(cfg, Step(cfg, stale, TakeLock(1)), Ask(other))
  {
    hide Step, Run, Fill;
    var ticked := Fill(r) + [Tick(FreshMs(cfg, r) + 1)];
    RunThen(cfg, Fill(r), Tick(FreshMs(cfg, r) + 1), ticked);
    RunThen(cfg, ticked, Ask(r), ticked + [Ask(r)]);
    RunThen(cfg, ticked + [Ask(r)], TakeLock(1), ticked + [Ask(r)] + [TakeLock(1)]);
    RunThen(cfg, ticked + [Ask(r)] + [TakeLock(1)], Ask(other), ServeLock(cfg, r, other));
  }

  lemma ApartAnswersOwn(cfg: Config, rs: set<Request>)
    requires Apart(cfg, rs)
    ensures AnswersOwn(cfg, rs)
  {
    hide Apart, GoodAnswer, Requests, Run;
    forall run | Requests(run) <= rs ensures RunAnswersOwn(cfg, run) {
      RunIsSound(cfg, rs, run);
    }
  }

  lemma SharedKeyBreaks(cfg: Config, rs: set<Request>, a: Request, b: Request)
    requires {a, b} <= rs && CacheKey(a) == CacheKey(b) && !SameRequest(a, b) && TtlMs(cfg, a) > 0
    ensures !AnswersOwn(cfg, rs)
  {
    hide CacheKey, Run;
    var run := Fill(a) + [Ask(b)];
    OtherServed(cfg, a, b);
    assert Requests(run) <= rs;
    assert !GoodAnswer(cfg, FromCache(b, Some(Made(a, 0)), 0));
    assert !RunAnswersOwn(cfg, run);
  }

  lemma LockKeyBreaks(cfg: Config, rs: set<Request>, a: Request, b: Request)
    requires {a, b} <= rs && LockKey(a) == CacheKey(b) && StaleMs(cfg, a) > 0
    ensures !AnswersOwn(cfg, rs)
  {
    hide CacheKey, LockKey, Run;
    var run := ServeLock(cfg, a, b);
    LockMarkServed(cfg, a, b);
    assert Requests(run) <= rs;
    assert !GoodAnswer(cfg, FromCache(b, None, FreshMs(cfg, a) + 1));
    assert !RunAnswersOwn(cfg, run);
  }

  /** Whatever interleaves, every answer is one produced for the same request, and a cached
      one at most fresh plus stale seconds old when it is served, exactly when the requests
      keep out of each other's entries. */
  lemma AnswersAreOwnIff(cfg: Config, rs: set<Request>)
    ensures AnswersOwn(cfg, rs) <==> Apart(cfg, rs)
  {
    hide CacheKey, LockKey, AnswersOwn, SameRequest;
    if Apart(cfg, rs) {
      ApartAnswersOwn(cfg, rs);
    } else if a, b :| a in rs && b in rs && CacheKey(a) == CacheKey(b) && !SameRequest(a, b) && TtlMs(cfg, a) > 0 {
      SharedKeyBreaks(cfg, rs, a, b);
    } else {
      var a, b :| a in rs && b in rs && LockKey(a) == CacheKey(b) && StaleMs(cfg, a) > 0;
      LockKeyBreaks(cfg, rs, a, b);
    }
  }

  // Topics without colons and cursors without the lock suffix, or no colons in cursors at all.
  predicate Clean(rs: set<Request>) {
    && (forall r | r in rs :: Valid(r))
    && ((forall r | r in rs :: NoColon(TextOf(r.topic)) && !EndsInLockSuffix(TextOf(r.cursor)))
        || (forall r | r in rs :: NoColon(TextOf(r.cursor))))
  }

  /** What the texts of the requests must be for that. */
  lemma CleanIsApart(cfg: Config, rs: set<Request>)
    requires Clean(rs)
    ensures Apart(cfg, rs)
  {
    forall a, b | a in rs && b in rs
      ensures CacheKey(a) == CacheKey(b) ==> SameRequest(a, b)
      ensures LockKey(a) != CacheKey(b)
    {
      hide CacheKey, LockKey, SameRequest, WithCursor;
      SharedKeyIff(a, b);
      if NoColon(TextOf(b.cursor)) {
        PlainCursorNoLock(a, b);
      } else {
        LockClashIff(a, b);
      }
    }
  }

  // ---------- No client is forgotten ----------

  predicate Serving(t: Task) {
    (t.Producing? || t.Writing?) && !t.background
  }

  // Clients that wait for a producer or a write.
  function Waiting(tasks: seq<Task>): nat
    decreases |tasks|
  {
    if tasks == [] then 0 else Waiting(tasks[..|tasks| - 1]) + if Serving(tasks[|tasks| - 1]) then 1 else 0
  }

  // Clients whose producer failed.
  function Failed(cfg: Config, run: seq<Action>): nat
    decreases |run|
  {
    if run == [] then 0
    else
      var before, a := run[..|run| - 1], run[|run| - 1];
      var tasks := Run(cfg, before).tasks;
      Failed(cfg, before)
      + if a.ProducerFails? && a.task < |tasks| && tasks[a.task].Producing? && !tasks[a.task].background then 1 else 0
  }

  function Asked(run: seq<Action>): nat
    decreases |run|
  {
    if run == [] then 0
    else Asked(run[..|run| - 1]) + if run[|run| - 1].Ask? || run[|run| - 1].AskReadFails? then 1 else 0
  }

  lemma {:induction false} WaitingUpdate(tasks: seq<Task>, i: nat, t: Task)
    requires i < |tasks|
    ensures Waiting(tasks[i := t]) ==
      Waiting(tasks) - (if Serving(tasks[i]) then 1 else 0) + if Serving(t) then 1 else 0
    decreases |tasks|
  {
    var n := |tasks| - 1;
    if i == n {
      assert tasks[i := t][..n] == tasks[..n];
    } else {
      WaitingUpdate(tasks[..n], i, t);
      assert tasks[i := t][..n] == tasks[..n][i := t];
    }
  }

  lemma WaitingSnoc(tasks: seq<Task>, t: Task)
    ensures Waiting(tasks + [t]) == Waiting(tasks) + if Serving(t) then 1 else 0
  {
    assert (tasks + [t])[..|tasks|] == tasks;
  }

  // Writing tasks hold the envelope they were given.
  predicate Enveloped(s: State) {
    forall i | 0 <= i < |s.tasks| && s.tasks[i].Writing? :: s.tasks[i].envelope.Envelope?
  }

  // A step serves a client, gives up on one, or takes one in.
  ghost predicate ServesRight(cfg: Config, s: State, a: Action) {
    var s' := Step(cfg, s, a);
    var failed := a.ProducerFails? && a.task < |s.tasks| && s.tasks[a.task].Producing? && !s.tasks[a.task].background;
    && Enveloped(s')
    && |s'.served| + Waiting(s'.tasks) + (if failed then 1 else 0)
       == |s.served| + Waiting(s.tasks) + if a.Ask? || a.AskReadFails? then 1 else 0
  }

  lemma AskServes(cfg: Config, s: State, a: Action)
    requires Enveloped(s) && (a.Ask? || a.AskReadFails? || a.Tick?)
    ensures ServesRight(cfg, s, a)
  {
    hide CacheKey, LookUp;
    if !a.Tick? {
      WaitingSnoc(s.tasks, Producing(a.request, false));
      WaitingSnoc(s.tasks, Queued(a.request));
    }
  }

  lemma TaskServes(cfg: Config, s: State, a: Action)
    requires Enveloped(s) && !a.Ask? && !a.AskReadFails? && !a.Tick?
    ensures ServesRight(cfg, s, a)
  {
    hide CacheKey, LockKey, Live, Waiting, TtlMs;
    if a.task < |s.tasks| {
      WaitingUpdate(s.tasks, a.task, Step(cfg, s, a).tasks[a.task]);
    }
  }

  lemma StepServes(cfg: Config, s: State, a: Action)
    requires Enveloped(s)
    ensures ServesRight(cfg, s, a)
  {
    hide ServesRight;
    if a.Ask? || a.AskReadFails? || a.Tick? { AskServes(cfg, s, a); } else { TaskServes(cfg, s, a); }
  }

  /** In every interleaving, each client that asked has been served once, waits for its
      producer, or was told of its failure. */
  lemma {:induction false} EveryClientCounted(cfg: Config, run: seq<Action>)
    ensures
      var s := Run(cfg, run);
      Enveloped(s) && Asked(run) == |s.served| + Waiting(s.tasks) + Failed(cfg, run)
    decreases |run|
  {
    if run != [] {
      hide Step, Enveloped;
      EveryClientCounted(cfg, run[..|run| - 1]);
      StepServes(cfg, Run(cfg, run[..|run| - 1]), run[|run| - 1]);
    }
  }

  // ---------- One call on its own ----------

  // The machine's steps when one request runs to completion with nothing in between.
  function Alone(cfg: Config, redis: Redis, r: Request, now: int): State {
    var asked := DoAsk(State(now, redis, [], [], []), r);
    if asked.tasks == [] then asked
    else
      var locked := if asked.tasks[0].Queued? then DoTakeLock(asked, 0) else asked;
      if !locked.tasks[0].Producing? then locked else DoWrite(cfg, DoProduce(cfg, locked, 0), 0)
  }

  class ExploreCacheService {
    var redis: Redis

    constructor ()
      ensures redis == map[]
    {
      redis := map[];
    }

    method GetCacheEnvelope(key: string, now: int) returns (state: Lookup)
      ensures state == LookUp(redis, key, now)
    {
      if key !in redis || redis[key].expires <= now {
        return Miss;
      }
      match redis[key].value {
        case LockMark(_) =>
          return Fresh(None);
        case Envelope(payload, freshUntil, staleUntil) =>
          if now <= freshUntil { return Fresh(Some(payload)); }
          if now <= staleUntil { return Stale(payload); }
          return Miss;
      }
    }

    method SetCacheEnvelope(cfg: Config, r: Request, payload: Payload, now: int)
      modifies this
      ensures redis ==
        if TtlMs(cfg, r) == 0 then old(redis)
        else old(redis)[CacheKey(r) :=
          Entry(Envelope(payload, now + FreshMs(cfg, r), now + TtlMs(cfg, r)), now + TtlMs(cfg, r))]
    {
      var freshUntilMs := now + FreshMs(cfg, r);
      var staleUntilMs := freshUntilMs + StaleMs(cfg, r);
      if staleUntilMs > now {
        redis := redis[CacheKey(r) := Entry(Envelope(payload, freshUntilMs, staleUntilMs), staleUntilMs)];
      }
    }

    method RevalidateCacheInBackground(cfg: Config, r: Request, now: int)
      modifies this
      ensures
        var s := DoTakeLock(State(now, old(redis), [Queued(r)], [], []), 0);
        redis == if s.tasks[0].Producing? then DoWrite(cfg, DoProduce(cfg, s, 0), 0).redis else s.redis
    {
      var lockKey := LockKey(r);
      if lockKey in redis && now < redis[lockKey].expires {
        return;
      }
      redis := redis[lockKey := Entry(LockMark(r), now + LOCK_TTL_MS)];
      SetCacheEnvelope(cfg, r, Made(r, now), now);
    }

    method GetCachedWithStaleWhileRevalidate(cfg: Config, r: Request, now: int) returns (served: Served)
      modifies this
      ensures redis == Alone(cfg, old(redis), r, now).redis
      ensures Alone(cfg, old(redis), r, now).served == [served]
    {
      hide CacheKey, LockKey;
      var state := GetCacheEnvelope(CacheKey(r), now);
      match state {
        case Fresh(cached) =>
          return FromCache(r, cached, now);
        case Stale(payload) =>
          RevalidateCacheInBackground(cfg, r, now);
          return FromCache(r, Some(payload), now);
        case Miss =>
          SetCacheEnvelope(cfg, r, Made(r, now), now);
          return Direct(r, Made(r, now));
      }
    }
  }
}
