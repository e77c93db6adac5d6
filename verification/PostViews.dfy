/** View counting: the per-viewer lock, the Redis buffer, and the sync job that
    renames, reads, deletes and applies it while viewers keep arriving.

    Every await in the source is one action of the machine below, so any number
    of viewers and sync runs interleave freely.  Times are milliseconds. */
module PostViews {

  import opened Prelude

  type PostId = Id

  // A signed-in viewer is known by user id, a guest by the hash of address and agent.
  datatype Viewer = User(id: Id) | Guest(hash: Id)

  type Counts = map<PostId, nat>

  function Ttl(viewer: Viewer): nat {
    if viewer.User? then 86_400_000 else 1_800_000
  }

  function Get(counts: Counts, p: PostId): nat {
    if p in counts then counts[p] else 0
  }

  function Bump(counts: Counts, p: PostId): Counts {
    counts[p := Get(counts, p) + 1]
  }

  // Where one run of the sync job stands between two of its awaits.
  datatype Sync =
    | Renamed(key: int)
    | Fetched(key: int, data: Counts)
    | Deleted(data: Counts)
    | Done

  datatype State = State(
    viewCount: map<PostId, int>,
    locks: map<(PostId, Viewer), int>,
    pending: Counts,
    buffer: Counts,
    temps: map<int, Counts>,
    syncs: seq<Sync>)

  datatype Action =
    | SetLock(post: PostId, viewer: Viewer, now: int)
    | Increment(post: PostId)
    | Rename(key: int)
    | Fetch(i: nat)
    | Delete(i: nat)
    | Apply(i: nat)
    | ApplyFails(i: nat)
    | RemovePost(post: PostId)

  // SET key 1 EX ttl NX succeeds exactly when no unexpired lock is there.
  predicate Accepts(s: State, post: PostId, viewer: Viewer, now: int) {
    (post, viewer) in s.locks ==> s.locks[(post, viewer)] <= now
  }

  // The UPDATE joins on the post id: counts of posts that are gone match no row.
  function Applied(viewCount: map<PostId, int>, data: Counts): map<PostId, int> {
    map p | p in viewCount :: viewCount[p] + Get(data, p)
  }

  function Step(s: State, a: Action): State {
    match a
    case SetLock(post, viewer, now) =>
      if Accepts(s, post, viewer, now) then
        s.(locks := s.locks[(post, viewer) := now + Ttl(viewer)], pending := Bump(s.pending, post))
      else s
    case Increment(post) =>
      if Get(s.pending, post) > 0 then
        s.(pending := s.pending[post := s.pending[post] - 1], buffer := Bump(s.buffer, post))
      else s
    case Rename(key) =>
      if s.buffer == map[] then s
      else s.(buffer := map[], temps := s.temps[key := s.buffer], syncs := s.syncs + [Renamed(key)])
    case Fetch(i) =>
      if i < |s.syncs| && s.syncs[i].Renamed? then
        var key := s.syncs[i].key;
        s.(syncs := s.syncs[i := Fetched(key, if key in s.temps then s.temps[key] else map[])])
      else s
    case Delete(i) =>
      if i < |s.syncs| && s.syncs[i].Fetched? then
        s.(temps := s.temps - {s.syncs[i].key}, syncs := s.syncs[i := Deleted(s.syncs[i].data)])
      else s
    case Apply(i) =>
      if i < |s.syncs| && s.syncs[i].Deleted? then
        s.(viewCount := Applied(s.viewCount, s.syncs[i].data), syncs := s.syncs[i := Done])
      else s
    case ApplyFails(i) =>
      if i < |s.syncs| && s.syncs[i].Deleted? then s.(syncs := s.syncs[i := Done]) else s
    case RemovePost(post) => s.(viewCount := s.viewCount - {post})
  }

  function Run(s: State, run: seq<Action>): State
    decreases |run|
  {
    if run == [] then s else Step(Run(s, run[..|run| - 1]), run[|run| - 1])
  }

  // ---------- What a state still owes each post ----------

  // Views of `p` that a sync run has taken out of the buffer and not yet applied.
  function Carried(temps: map<int, Counts>, sync: Sync, p: PostId): nat {
    match sync
    case Renamed(key) => if key in temps then Get(temps[key], p) else 0
    case Fetched(_, data) => Get(data, p)
    case Deleted(data) => Get(data, p)
    case Done => 0
  }

  function InFlight(temps: map<int, Counts>, syncs: seq<Sync>, p: PostId): nat {
    if syncs == [] then 0
    else InFlight(temps, syncs[..|syncs| - 1], p) + Carried(temps, syncs[|syncs| - 1], p)
  }

  function Total(s: State, p: PostId): int {
    (if p in s.viewCount then s.viewCount[p] else 0)
    + Get(s.pending, p) + Get(s.buffer, p) + InFlight(s.temps, s.syncs, p)
  }

  // Views of `p` that action `a` accepts, and that it throws away.
  function AcceptedBy(s: State, a: Action, p: PostId): nat {
    if a.SetLock? && a.post == p && Accepts(s, p, a.viewer, a.now) then 1 else 0
  }

  function DroppedBy(s: State, a: Action, p: PostId): int {
    match a
    case ApplyFails(i) =>
      if i < |s.syncs| && s.syncs[i].Deleted? then Get(s.syncs[i].data, p) else 0
    case Apply(i) =>
      if i < |s.syncs| && s.syncs[i].Deleted? && p !in s.viewCount then Get(s.syncs[i].data, p) else 0
    case RemovePost(post) => if post == p && p in s.viewCount then s.viewCount[p] else 0
    case _ => 0
  }

  function Accepted(s: State, run: seq<Action>, p: PostId): nat
    decreases |run|
  {
    if run == [] then 0
    else
      var before := run[..|run| - 1];
      Accepted(s, before, p) + AcceptedBy(Run(s, before), run[|run| - 1], p)
  }

  function Dropped(s: State, run: seq<Action>, p: PostId): int
    decreases |run|
  {
    if run == [] then 0
    else
      var before := run[..|run| - 1];
      Dropped(s, before, p) + DroppedBy(Run(s, before), run[|run| - 1], p)
  }

  // ---------- Conservation ----------

  predicate Holds(sync: Sync, key: int) {
    (sync.Renamed? || sync.Fetched?) && sync.key == key
  }

  // Each temporary key in use belongs to one sync run.
  ghost predicate OwnTemps(s: State) {
    && (forall i | 0 <= i < |s.syncs| && (s.syncs[i].Renamed? || s.syncs[i].Fetched?) :: s.syncs[i].key in s.temps)
    && (forall i, j | 0 <= i < j < |s.syncs| && (s.syncs[i].Renamed? || s.syncs[i].Fetched?) ::
          !Holds(s.syncs[j], s.syncs[i].key))
  }

  predicate Held(s: State, key: int) {
    exists i | 0 <= i < |s.syncs| :: Holds(s.syncs[i], key)
  }

  // No rename targets a temporary key that another sync run still holds.
  ghost predicate FreshRenames(s: State, run: seq<Action>) {
    forall k | 0 <= k < |run| && run[k].Rename? :: !Held(Run(s, run[..k]), run[k].key)
  }

  // In-flight views depend only on what each sync run carries.
  lemma {:induction false} InFlightSame(t1: map<int, Counts>, t2: map<int, Counts>, syncs: seq<Sync>, p: PostId)
    requires forall i | 0 <= i < |syncs| :: Carried(t1, syncs[i], p) == Carried(t2, syncs[i], p)
    ensures InFlight(t1, syncs, p) == InFlight(t2, syncs, p)
    decreases |syncs|
  {
    if syncs != [] {
      InFlightSame(t1, t2, syncs[..|syncs| - 1], p);
    }
  }

  lemma {:induction false} InFlightUpdate(temps: map<int, Counts>, syncs: seq<Sync>, i: nat, x: Sync, p: PostId)
    requires i < |syncs|
    ensures InFlight(temps, syncs[i := x], p)
         == InFlight(temps, syncs, p) - Carried(temps, syncs[i], p) + Carried(temps, x, p)
    decreases |syncs|
  {
    var n := |syncs| - 1;
    if i == n {
      assert syncs[i := x][..n] == syncs[..n];
    } else {
      InFlightUpdate(temps, syncs[..n], i, x, p);
      assert syncs[i := x][..n] == syncs[..n][i := x];
    }
  }

  lemma StepKeepsOwnTemps(s: State, a: Action)
    requires OwnTemps(s) && (a.Rename? ==> !Held(s, a.key))
    ensures OwnTemps(Step(s, a))
  {
    var s' := Step(s, a);
    if a.Delete? && s' != s {
      var key := s.syncs[a.i].key;
      forall i | 0 <= i < |s'.syncs| && (s'.syncs[i].Renamed? || s'.syncs[i].Fetched?)
        ensures s'.syncs[i].key in s'.temps
      {
        assert s'.syncs[i] == s.syncs[i] && i != a.i;
        assert !Holds(s.syncs[if i < a.i then a.i else i], s.syncs[if i < a.i then i else a.i].key);
      }
    }
  }

  /** A rename keeps every temporary key with one owner exactly when there is
      nothing to rename or no sync run holds the target key. */
  lemma RenameKeepsOwnTempsIff(s: State, key: int)
    requires OwnTemps(s)
    ensures OwnTemps(Step(s, Rename(key))) <==> s.buffer == map[] || !Held(s, key)
  {
    var s' := Step(s, Rename(key));
    if Held(s, key) && s' != s {
      var i :| 0 <= i < |s.syncs| && Holds(s.syncs[i], key);
      assert s'.syncs[i] == s.syncs[i] && Holds(s'.syncs[|s.syncs|], key);
    } else if s' != s {
      StepKeepsOwnTemps(s, Rename(key));
    }
  }

  lemma RenameConserves(s: State, key: int, p: PostId)
    requires OwnTemps(s) && !Held(s, key)
    ensures Total(Step(s, Rename(key)), p) == Total(s, p)
  {
    var s' := Step(s, Rename(key));
    if s' != s {
      forall i | 0 <= i < |s.syncs| ensures Carried(s.temps, s.syncs[i], p) == Carried(s'.temps, s.syncs[i], p) {
        assert !Holds(s.syncs[i], key);
      }
      InFlightSame(s.temps, s'.temps, s.syncs, p);
      assert s'.syncs[..|s'.syncs| - 1] == s.syncs;
    }
  }

  lemma DeleteConserves(s: State, i: nat, p: PostId)
    requires OwnTemps(s)
    ensures Total(Step(s, Delete(i)), p) == Total(s, p)
  {
    var s' := Step(s, Delete(i));
    if s' != s {
      InFlightUpdate(s.temps, s.syncs, i, s'.syncs[i], p);
      forall j | 0 <= j < |s'.syncs|
        ensures Carried(s.temps, s'.syncs[j], p) == Carried(s'.temps, s'.syncs[j], p)
      {
        assert j < i && s.syncs[j].Renamed? ==> !Holds(s.syncs[i], s.syncs[j].key);
        assert i < j ==> !Holds(s.syncs[j], s.syncs[i].key);
      }
      InFlightSame(s.temps, s'.temps, s'.syncs, p);
    }
  }

  lemma FetchConserves(s: State, i: nat, p: PostId)
    requires OwnTemps(s)
    ensures Total(Step(s, Fetch(i)), p) == Total(s, p)
  {
    if i < |s.syncs| { InFlightUpdate(s.temps, s.syncs, i, Step(s, Fetch(i)).syncs[i], p); }
  }

  lemma ApplyConserves(s: State, i: nat, p: PostId)
    ensures Total(Step(s, Apply(i)), p) == Total(s, p) - DroppedBy(s, Apply(i), p)
    ensures Total(Step(s, ApplyFails(i)), p) == Total(s, p) - DroppedBy(s, ApplyFails(i), p)
  {
    if i < |s.syncs| { InFlightUpdate(s.temps, s.syncs, i, Done, p); }
  }

  // One action changes the total of a post by what it accepts less what it drops.
  lemma StepConserves(s: State, a: Action, p: PostId)
    requires OwnTemps(s) && (a.Rename? ==> !Held(s, a.key))
    ensures Total(Step(s, a), p) == Total(s, p) + AcceptedBy(s, a, p) - DroppedBy(s, a, p)
  {
    match a
    case Rename(key) => RenameConserves(s, key, p);
    case Fetch(i) => FetchConserves(s, i, p);
    case Delete(i) => DeleteConserves(s, i, p);
    case Apply(i) => ApplyConserves(s, i, p);
    case ApplyFails(i) => ApplyConserves(s, i, p);
    case _ =>
  }

  /** Conservation over every interleaving: what is stored, buffered, renamed or
      fetched is what there was plus every accepted view less the views dropped
      by a failed or unmatched update or a removed post. */
  lemma {:induction false} ViewsConserved(s: State, run: seq<Action>, p: PostId)
    requires OwnTemps(s) && FreshRenames(s, run)
    ensures OwnTemps(Run(s, run))
    ensures Total(Run(s, run), p) == Total(s, p) + Accepted(s, run, p) - Dropped(s, run, p)
    decreases |run|
  {
    if run != [] {
      var n := |run| - 1;
      forall k | 0 <= k < n && run[..n][k].Rename?
        ensures !Held(Run(s, run[..n][..k]), run[..n][k].key)
      {
        assert run[..n][..k] == run[..k];
      }
      ViewsConserved(s, run[..n], p);
      StepKeepsOwnTemps(Run(s, run[..n]), run[n]);
      StepConserves(Run(s, run[..n]), run[n], p);
    }
  }

  // Nothing waits in the lock holders, the buffer or a sync run.
  predicate Quiet(s: State) {
    && (forall p | p in s.pending :: s.pending[p] == 0)
    && s.buffer == map[]
    && (forall i | 0 <= i < |s.syncs| :: s.syncs[i].Done?)
  }

  lemma {:induction false} QuietCarriesNothing(temps: map<int, Counts>, syncs: seq<Sync>, p: PostId)
    requires forall i | 0 <= i < |syncs| :: syncs[i].Done?
    ensures InFlight(temps, syncs, p) == 0
    decreases |syncs|
  {
    if syncs != [] { QuietCarriesNothing(temps, syncs[..|syncs| - 1], p); }
  }

  lemma StepKeepsPost(s: State, a: Action, p: PostId)
    requires p in s.viewCount && a != RemovePost(p) && !a.ApplyFails?
    ensures p in Step(s, a).viewCount && DroppedBy(s, a, p) == 0
  {
  }

  // Posts appear and disappear only by removal in this machine.
  lemma {:induction false} UnremovedPostStays(s: State, run: seq<Action>, p: PostId)
    requires p in s.viewCount && RemovePost(p) !in run
    requires forall k | 0 <= k < |run| :: !run[k].ApplyFails?
    ensures p in Run(s, run).viewCount && Dropped(s, run, p) == 0
    decreases |run|
  {
    if run != [] {
      var n := |run| - 1;
      hide Step, DroppedBy;
      var last := run[n];
      assert run == run[..n] + [last];
      assert last in run && !run[n].ApplyFails?;
      UnremovedPostStays(s, run[..n], p);
      StepKeepsPost(Run(s, run[..n]), last, p);
    }
  }

  /** No view is lost or counted twice: between two quiet states the stored count
      of a post that stays grows by exactly its accepted views. */
  lemma QuietCountExact(s: State, run: seq<Action>, p: PostId)
    requires OwnTemps(s) && FreshRenames(s, run) && Quiet(s) && Quiet(Run(s, run))
    requires p in s.viewCount && RemovePost(p) !in run
    requires forall k | 0 <= k < |run| :: !run[k].ApplyFails?
    ensures p in Run(s, run).viewCount
    ensures Run(s, run).viewCount[p] == s.viewCount[p] + Accepted(s, run, p)
  {
    ViewsConserved(s, run, p);
    UnremovedPostStays(s, run, p);
    QuietCarriesNothing(s.temps, s.syncs, p);
    QuietCarriesNothing(Run(s, run).temps, Run(s, run).syncs, p);
  }

  // A sync run whose temporary key is gone by the time it reads applies nothing.
  lemma GoneKeySyncsNothing(s: State, i: nat, key: int)
    requires i < |s.syncs| && s.syncs[i] == Renamed(key) && key !in s.temps
    ensures Step(Step(Step(s, Fetch(i)), Delete(i)), Apply(i)) == s.(syncs := s.syncs[i := Done])
  {
    var s1 := Step(s, Fetch(i));
    assert s1 == s.(syncs := s.syncs[i := Fetched(key, map[])]);
    var s2 := Step(s1, Delete(i));
    assert s.temps - {key} == s.temps;
    assert s2 == s.(syncs := s.syncs[i := Deleted(map[])]);
    assert Applied(s.viewCount, map[]) == s.viewCount;
  }

  /** The temporary key is the clock in milliseconds.  When a second sync run takes
      the key of one that has not read yet, two views that were safely in hand end
      as a stored count of one although every action succeeds. */
  lemma SharedTempKeyLosesViews(p: PostId)
    ensures
      var one: Counts := map[p := 1];
      var s := State(map[p := 0], map[], map[], one, map[7 := one], [Renamed(7)]);
      var first := Step(Step(Step(Step(s, Rename(7)), Fetch(0)), Delete(0)), Apply(0));
      var end := Step(Step(Step(first, Fetch(1)), Delete(1)), Apply(1));
      OwnTemps(s) && Total(s, p) == 2 && Quiet(end) && end.viewCount == map[p := 1]
  {
    var one: Counts := map[p := 1];
    var s := State(map[p := 0], map[], map[], one, map[7 := one], [Renamed(7)]);
    assert InFlight(s.temps, s.syncs, p) == 1 by { assert s.syncs[..0] == []; }
    var s1 := Step(s, Rename(7));
    assert s1 == s.(buffer := map[], syncs := [Renamed(7), Renamed(7)]);
    var s2 := Step(s1, Fetch(0));
    assert s2 == s1.(syncs := [Fetched(7, one), Renamed(7)]);
    var s3 := Step(s2, Delete(0));
    assert s3 == s2.(temps := map[], syncs := [Deleted(one), Renamed(7)]);
    var s4 := Step(s3, Apply(0));
    assert s4 == s3.(viewCount := map[p := 1], syncs := [Done, Renamed(7)]);
    GoneKeySyncsNothing(s4, 1, 7);
  }

  // ---------- Renaming onto a key another run holds ----------

  ghost predicate Filled(counts: Counts) {
    exists p :: p in counts && counts[p] > 0
  }

  // A hash of the store exists only with something counted in it.
  ghost predicate Counting(s: State) {
    (s.buffer == map[] || Filled(s.buffer)) && forall key | key in s.temps :: Filled(s.temps[key])
  }

  lemma StepKeepsCounting(s: State, a: Action)
    requires Counting(s)
    ensures Counting(Step(s, a))
  {
    if a.Increment? && Get(s.pending, a.post) > 0 {
      assert a.post in Bump(s.buffer, a.post);
    }
  }

  lemma {:induction false} RunsKeepCounting(s: State, run: seq<Action>)
    requires Counting(s)
    ensures Counting(Run(s, run))
    decreases |run|
  {
    if run != [] {
      hide Step, Counting;
      RunsKeepCounting(s, run[..|run| - 1]);
      StepKeepsCounting(Run(s, run[..|run| - 1]), run[|run| - 1]);
    }
  }

  // The whole account of a run: nothing appears or vanishes but what is accepted and dropped.
  ghost predicate Conserves(s: State, run: seq<Action>) {
    forall p :: Total(Run(s, run), p) == Total(s, p) + Accepted(s, run, p) - Dropped(s, run, p)
  }

  lemma {:induction false} RunFromFirst(s: State, a: Action, rest: seq<Action>, p: PostId)
    ensures Run(s, [a] + rest) == Run(Step(s, a), rest)
    ensures Accepted(s, [a] + rest, p) == AcceptedBy(s, a, p) + Accepted(Step(s, a), rest, p)
    ensures Dropped(s, [a] + rest, p) == DroppedBy(s, a, p) + Dropped(Step(s, a), rest, p)
    decreases |rest|
  {
    var run := [a] + rest;
    if rest == [] {
      assert run[..0] == [];
    } else {
      assert run[..|run| - 1] == [a] + rest[..|rest| - 1];
      RunFromFirst(s, a, rest[..|rest| - 1], p);
    }
  }

  // What the rename puts at stake: the views the holder had not read, or those it is about to delete.
  function AtStake(s: State, i: nat, p: PostId): nat
    requires i < |s.syncs|
  {
    match s.syncs[i]
    case Renamed(key) => if key in s.temps then Get(s.temps[key], p) else 0
    case _ => Get(s.buffer, p)
  }

  // The holder goes on first, then the run that renamed; nothing fails and no post goes.
  function HolderFirst(s: State, i: nat): seq<Action>
    requires i < |s.syncs|
  {
    var n := |s.syncs|;
    (if s.syncs[i].Renamed? then [Fetch(i)] else [])
    + [Delete(i), Apply(i), Fetch(n), Delete(n), Apply(n)]
  }

  // What the holder applies.
  function HolderData(s: State, i: nat): Counts
    requires i < |s.syncs|
  {
    match s.syncs[i]
    case Fetched(_, data) => data
    case _ => s.buffer
  }

  lemma Extend(s: State, run: seq<Action>, a: Action, p: PostId, longer: seq<Action>)
    requires longer == run + [a]
    ensures Run(s, longer) == Step(Run(s, run), a)
    ensures Accepted(s, longer, p) == Accepted(s, run, p) + AcceptedBy(Run(s, run), a, p)
    ensures Dropped(s, longer, p) == Dropped(s, run, p) + DroppedBy(Run(s, run), a, p)
  {
    assert longer[..|longer| - 1] == run;
  }

  // The holder reads, if it has not yet.
  lemma HolderReads(s: State, key: int, i: nat) returns (s': State)
    requires i < |s.syncs| && Holds(s.syncs[i], key) && s.buffer != map[]
    ensures
      var after := Step(s, Rename(key));
      && s' == after.(syncs := after.syncs[i := Fetched(key, HolderData(s, i))])
      && s' == if s.syncs[i].Renamed? then Step(after, Fetch(i)) else after
  {
    var after := Step(s, Rename(key));
    s' := after.(syncs := after.syncs[i := Fetched(key, HolderData(s, i))]);
  }

  lemma HolderFinishes(s: State, key: int, i: nat, data: Counts) returns (s': State)
    requires i < |s.syncs| && s.syncs[i] == Fetched(key, data)
    ensures s' == Step(Step(s, Delete(i)), Apply(i))
    ensures s' == s.(viewCount := Applied(s.viewCount, data), temps := s.temps - {key}, syncs := s.syncs[i := Done])
  {
    var s1 := Step(s, Delete(i));
    assert s1 == s.(temps := s.temps - {key}, syncs := s.syncs[i := Deleted(data)]);
    s' := Step(s1, Apply(i));
  }

  // The state both runs leave, and what is dropped on the way for a post that is gone.
  lemma HolderFirstRun(s: State, key: int, i: nat, p: PostId) returns (end: State)
    requires i < |s.syncs| && Holds(s.syncs[i], key) && s.buffer != map[]
    ensures end == Run(Step(s, Rename(key)), HolderFirst(s, i))
    ensures end.viewCount == Applied(s.viewCount, HolderData(s, i)) && end.pending == s.pending
    ensures end.buffer == map[] && end.temps == s.temps - {key} && end.syncs == s.syncs[i := Done] + [Done]
    ensures Accepted(Step(s, Rename(key)), HolderFirst(s, i), p) == 0
    ensures Dropped(Step(s, Rename(key)), HolderFirst(s, i), p) ==
      if p in s.viewCount then 0 else Get(HolderData(s, i), p)
  {
    var after, data, n := Step(s, Rename(key)), HolderData(s, i), |s.syncs|;
    var s1 := HolderReads(s, key, i);
    var s3 := HolderFinishes(s1, key, i, data);
    GoneKeySyncsNothing(s3, n, key);
    end := s3.(syncs := s3.syncs[n := Done]);
    assert end.temps == s.temps - {key} && end.syncs == s.syncs[i := Done] + [Done];
    GoneKeyDropsNothing(s3, n, key, p);
    hide Step, AcceptedBy, DroppedBy;
    var full := [Delete(i), Apply(i), Fetch(n), Delete(n), Apply(n)];
    FiveSteps(s1, Delete(i), Apply(i), Fetch(n), Delete(n), Apply(n), p);
    HolderDrops(s1, key, i, data, p);
    if s.syncs[i].Renamed? {
      RunFromFirst(after, Fetch(i), full, p);
      ReadDropsNothing(after, i, p);
    } else {
      assert [] + full == full;
    }
  }

  lemma ReadDropsNothing(s: State, i: nat, p: PostId)
    ensures AcceptedBy(s, Fetch(i), p) == 0 && DroppedBy(s, Fetch(i), p) == 0
    ensures AcceptedBy(s, Delete(i), p) == 0 && DroppedBy(s, Delete(i), p) == 0
  {
  }

  lemma HolderDrops(s: State, key: int, i: nat, data: Counts, p: PostId)
    requires i < |s.syncs| && s.syncs[i] == Fetched(key, data)
    ensures AcceptedBy(s, Delete(i), p) == 0 && DroppedBy(s, Delete(i), p) == 0
    ensures AcceptedBy(Step(s, Delete(i)), Apply(i), p) == 0
    ensures DroppedBy(Step(s, Delete(i)), Apply(i), p) == if p in s.viewCount then 0 else Get(data, p)
  {
  }

  lemma GoneKeyDropsNothing(s: State, i: nat, key: int, p: PostId)
    requires i < |s.syncs| && s.syncs[i] == Renamed(key) && key !in s.temps
    ensures AcceptedBy(s, Fetch(i), p) == 0 && DroppedBy(s, Fetch(i), p) == 0
    ensures
      var s1 := Step(s, Fetch(i));
      var s2 := Step(s1, Delete(i));
      && AcceptedBy(s1, Delete(i), p) == 0 && DroppedBy(s1, Delete(i), p) == 0
      && AcceptedBy(s2, Apply(i), p) == 0 && DroppedBy(s2, Apply(i), p) == 0
  {
  }

  lemma FiveSteps(s: State, a: Action, b: Action, c: Action, d: Action, e: Action, p: PostId)
    ensures
      var s1 := Step(s, a);
      var s2 := Step(s1, b);
      var s3 := Step(s2, c);
      var s4 := Step(s3, d);
      && Run(s, [a, b, c, d, e]) == Step(s4, e)
      && Accepted(s, [a, b, c, d, e], p) ==
           AcceptedBy(s, a, p) + AcceptedBy(s1, b, p) + AcceptedBy(s2, c, p)
           + AcceptedBy(s3, d, p) + AcceptedBy(s4, e, p)
      && Dropped(s, [a, b, c, d, e], p) ==
           DroppedBy(s, a, p) + DroppedBy(s1, b, p) + DroppedBy(s2, c, p) + DroppedBy(s3, d, p) + DroppedBy(s4, e, p)
  {
    hide Step, AcceptedBy, DroppedBy;
    Extend(s, [], a, p, [a]);
    Extend(s, [a], b, p, [a, b]);
    Extend(s, [a, b], c, p, [a, b, c]);
    Extend(s, [a, b, c], d, p, [a, b, c, d]);
    Extend(s, [a, b, c, d], e, p, [a, b, c, d, e]);
  }

  /** Renaming onto a held key: when the holder goes on before the run that renamed, every
      step succeeds, both runs finish, and exactly the views at stake are gone. */
  lemma HeldKeyLosesViews(s: State, key: int, i: nat, p: PostId)
    requires OwnTemps(s) && i < |s.syncs| && Holds(s.syncs[i], key) && s.buffer != map[]
    ensures
      var run := [Rename(key)] + HolderFirst(s, i);
      && Run(s, run).syncs == s.syncs[i := Done] + [Done] && Accepted(s, run, p) == 0
      && Total(Run(s, run), p) == Total(s, p) - Dropped(s, run, p) - AtStake(s, i, p)
  {
    var end := HolderFirstRun(s, key, i, p);
    RunFromFirst(s, Rename(key), HolderFirst(s, i), p);
    EndOfHolderFirst(s, key, i, p, end);
    assert AcceptedBy(s, Rename(key), p) == 0 && DroppedBy(s, Rename(key), p) == 0;
    hide Step, Total, AtStake, OwnTemps;
  }

  // The total of the state both runs leave.
  lemma EndOfHolderFirst(s: State, key: int, i: nat, p: PostId, end: State)
    requires OwnTemps(s) && i < |s.syncs| && Holds(s.syncs[i], key) && s.buffer != map[]
    requires end.viewCount == Applied(s.viewCount, HolderData(s, i)) && end.pending == s.pending
    requires end.buffer == map[] && end.temps == s.temps - {key} && end.syncs == s.syncs[i := Done] + [Done]
    ensures
      var dropped := if p in s.viewCount then 0 else Get(HolderData(s, i), p);
      Total(end, p) == Total(s, p) - dropped - AtStake(s, i, p)
  {
    var done := s.syncs[i := Done];
    assert end.syncs[..|end.syncs| - 1] == done;
    InFlightUpdate(s.temps, s.syncs, i, Done, p);
    forall j | 0 <= j < |done| ensures Carried(s.temps, done[j], p) == Carried(end.temps, done[j], p) {
      assert j < i && s.syncs[j].Renamed? ==> !Holds(s.syncs[i], s.syncs[j].key);
      assert i < j ==> !Holds(s.syncs[j], s.syncs[i].key);
    }
    InFlightSame(s.temps, end.temps, done, p);
  }

  // Every run that begins with the rename and later renames onto free keys only.
  ghost predicate ConservesAfter(s: State, key: int) {
    forall rest | FreshRenames(Step(s, Rename(key)), rest) :: Conserves(s, [Rename(key)] + rest)
  }

  /** A rename is safe exactly when there is nothing to rename or no run holds the target
      key: then every continuation keeps account of every view, and otherwise some
      continuation in which nothing fails loses some. */
  lemma RenameConservesIff(s: State, key: int)
    requires OwnTemps(s) && Counting(s)
    ensures ConservesAfter(s, key) <==> s.buffer == map[] || !Held(s, key)
  {
    if s.buffer == map[] || !Held(s, key) {
      forall rest | FreshRenames(Step(s, Rename(key)), rest) ensures Conserves(s, [Rename(key)] + rest) {
        SafeRenameConserves(s, key, rest);
      }
    } else {
      var i :| 0 <= i < |s.syncs| && Holds(s.syncs[i], key);
      var lost := if s.syncs[i].Renamed? then s.temps[key] else s.buffer;
      assert Filled(lost);
      var p :| p in lost && lost[p] > 0;
      HeldKeyLosesViews(s, key, i, p);
      assert AtStake(s, i, p) > 0;
      assert FreshRenames(Step(s, Rename(key)), HolderFirst(s, i));
      assert !Conserves(s, [Rename(key)] + HolderFirst(s, i));
    }
  }

  lemma SafeRenameConserves(s: State, key: int, rest: seq<Action>)
    requires OwnTemps(s) && (s.buffer == map[] || !Held(s, key)) && FreshRenames(Step(s, Rename(key)), rest)
    ensures Conserves(s, [Rename(key)] + rest)
  {
    var after := Step(s, Rename(key));
    RenameKeepsOwnTempsIff(s, key);
    forall p ensures
      Total(Run(s, [Rename(key)] + rest), p)
      == Total(s, p) + Accepted(s, [Rename(key)] + rest, p) - Dropped(s, [Rename(key)] + rest, p)
    {
      if s.buffer != map[] { RenameConserves(s, key, p); }
      ViewsConserved(after, rest, p);
      RunFromFirst(s, Rename(key), rest, p);
    }
  }

  // ---------- One view per viewer and TTL ----------

  ghost predicate AcceptedAt(s: State, run: seq<Action>, i: nat)
    requires i < |run|
  {
    run[i].SetLock? && Accepts(Run(s, run[..i]), run[i].post, run[i].viewer, run[i].now)
  }

  lemma StepKeepsLock(s: State, a: Action, key: (PostId, Viewer), until: int)
    requires key in s.locks && s.locks[key] >= until
    ensures key in Step(s, a).locks && Step(s, a).locks[key] >= until
  {
  }

  // After an accepted view the lock never expires earlier than that view's TTL.
  lemma {:induction false} LockOutlives(s: State, run: seq<Action>, i: nat, j: nat)
    requires i < j <= |run| && AcceptedAt(s, run, i)
    ensures (run[i].post, run[i].viewer) in Run(s, run[..j]).locks
    ensures Run(s, run[..j]).locks[(run[i].post, run[i].viewer)] >= run[i].now + Ttl(run[i].viewer)
    decreases j
  {
    assert run[..j][..j - 1] == run[..j - 1];
    if j > i + 1 {
      LockOutlives(s, run, i, j - 1);
      StepKeepsLock(Run(s, run[..j - 1]), run[j - 1], (run[i].post, run[i].viewer), run[i].now + Ttl(run[i].viewer));
    }
  }

  /** Without any condition on store or clock, two accepted views of one post by one viewer
      are at least a day apart, half an hour for guests. */
  lemma AcceptedViewsApart(s: State, run: seq<Action>, i: nat, j: nat)
    requires i < j < |run| && AcceptedAt(s, run, i) && AcceptedAt(s, run, j)
    requires run[i].post == run[j].post && run[i].viewer == run[j].viewer
    ensures run[j].now >= run[i].now + if run[i].viewer.User? then 86_400_000 else 1_800_000
  {
    LockOutlives(s, run, i, j);
  }

  ghost predicate ClockForward(run: seq<Action>) {
    forall i, j | 0 <= i < j < |run| && run[i].SetLock? && run[j].SetLock? :: run[i].now <= run[j].now
  }

  // An accepted view of the post by the viewer that locks them until `until`: for a day, or half an hour for guests.
  ghost predicate LocksUntil(s: State, run: seq<Action>, i: nat, post: PostId, viewer: Viewer, until: int) {
    && i < |run| && AcceptedAt(s, run, i) && run[i].post == post && run[i].viewer == viewer
    && until == run[i].now + if viewer.User? then 86_400_000 else 1_800_000
  }

  lemma StepLock(s: State, a: Action, post: PostId, viewer: Viewer)
    ensures
      var key := (post, viewer);
      var mine := a.SetLock? && (a.post, a.viewer) == key && Accepts(s, post, viewer, a.now);
      && (mine ==> key in Step(s, a).locks && Step(s, a).locks[key] == a.now + Ttl(viewer))
      && (!mine && key in s.locks ==> key in Step(s, a).locks && Step(s, a).locks[key] == s.locks[key])
      && (!mine && key !in s.locks ==> key !in Step(s, a).locks)
  {
  }

  lemma PrefixLocks(s: State, run: seq<Action>, n: nat, i: nat, post: PostId, viewer: Viewer, until: int)
    requires i < n <= |run|
    ensures LocksUntil(s, run[..n], i, post, viewer, until) <==> LocksUntil(s, run, i, post, viewer, until)
  {
    assert run[..n][..i] == run[..i];
  }

  // A lock that stands is that of an accepted view, and no earlier than that of any.
  lemma {:induction false} LockFollows(s: State, run: seq<Action>, post: PostId, viewer: Viewer)
    requires s.locks == map[] && ClockForward(run)
    ensures
      var locks := Run(s, run).locks;
      && ((post, viewer) in locks ==> exists i: nat :: LocksUntil(s, run, i, post, viewer, locks[(post, viewer)]))
      && (forall i: nat, until | LocksUntil(s, run, i, post, viewer, until) ::
            (post, viewer) in locks && until <= locks[(post, viewer)])
    decreases |run|
  {
    if run != [] {
      var n := |run| - 1;
      assert ClockForward(run[..n]);
      LockFollows(s, run[..n], post, viewer);
      var before, locks := Run(s, run[..n]).locks, Run(s, run).locks;
      StepLock(Run(s, run[..n]), run[n], post, viewer);
      hide Step, Run;
      if AcceptedAt(s, run, n) && run[n].post == post && run[n].viewer == viewer {
        assert LocksUntil(s, run, n, post, viewer, locks[(post, viewer)]);
      } else if (post, viewer) in before {
        var i: nat :| LocksUntil(s, run[..n], i, post, viewer, before[(post, viewer)]);
        PrefixLocks(s, run, n, i, post, viewer, before[(post, viewer)]);
      }
      forall i: nat, until | LocksUntil(s, run, i, post, viewer, until)
        ensures (post, viewer) in locks && until <= locks[(post, viewer)]
      {
        if i < n { PrefixLocks(s, run, n, i, post, viewer, until); }
      }
    }
  }

  /** From a store without locks, with a clock that does not go back: a view is counted
      exactly when no view of the same post by the same viewer was counted less than a day
      before it, half an hour for guests. */
  lemma AcceptedIff(s: State, run: seq<Action>, j: nat)
    requires s.locks == map[] && ClockForward(run) && j < |run| && run[j].SetLock?
    ensures AcceptedAt(s, run, j) <==>
      forall i: nat, until | i < j && LocksUntil(s, run, i, run[j].post, run[j].viewer, until) :: until <= run[j].now
  {
    var post, viewer := run[j].post, run[j].viewer;
    assert ClockForward(run[..j]);
    LockFollows(s, run[..j], post, viewer);
    var locks := Run(s, run[..j]).locks;
    forall i: nat, until | i < j
      ensures LocksUntil(s, run[..j], i, post, viewer, until) <==> LocksUntil(s, run, i, post, viewer, until)
    {
      PrefixLocks(s, run, j, i, post, viewer, until);
    }
    if (post, viewer) in locks {
      var i: nat :| LocksUntil(s, run[..j], i, post, viewer, locks[(post, viewer)]);
      assert LocksUntil(s, run, i, post, viewer, locks[(post, viewer)]);
    }
    hide Run, LocksUntil;
  }

  // ---------- The service itself ----------

  function TrackAlone(s: State, post: PostId, viewer: Viewer, now: int): State {
    Step(Step(s, SetLock(post, viewer, now)), Increment(post)).(pending := map[])
  }

  function SyncAlone(s: State, key: int): State {
    var i := |s.syncs|;
    Step(Step(Step(Step(s, Rename(key)), Fetch(i)), Delete(i)), Apply(i)).(syncs := s.syncs)
  }

  /** The two operations run without interference are runs of the machine. */
  class PostsService {
    var viewCount: map<PostId, int>
    var locks: map<(PostId, Viewer), int>
    var buffer: Counts
    var temps: map<int, Counts>

    constructor (viewCount: map<PostId, int>)
      ensures Snapshot() == State(viewCount, map[], map[], map[], map[], [])
    {
      this.viewCount := viewCount;
      locks, buffer, temps := map[], map[], map[];
    }

    function Snapshot(): State
      reads this
    {
      State(viewCount, locks, map[], buffer, temps, [])
    }

    method TrackView(post: PostId, viewer: Viewer, now: int) returns (counted: bool)
      modifies this
      ensures counted == Accepts(old(Snapshot()), post, viewer, now)
      ensures Snapshot() == TrackAlone(old(Snapshot()), post, viewer, now)
    {
      if (post, viewer) in locks && now < locks[(post, viewer)] {
        return false;
      }
      locks := locks[(post, viewer) := now + Ttl(viewer)];
      buffer := buffer[post := Get(buffer, post) + 1];
      return true;
    }

    method SyncViewsToDb(key: int)
      modifies this
      ensures Snapshot() == SyncAlone(old(Snapshot()), key)
      ensures viewCount == Applied(old(viewCount), old(buffer)) && buffer == map[]
    {
      if buffer == map[] {
        return;
      }
      temps, buffer := temps[key := buffer], map[];
      var data := temps[key];
      temps := temps - {key};
      viewCount := map p | p in viewCount :: viewCount[p] + Get(data, p);
    }
  }
}
