/** Interaction events: a batch is normalised, its rows are logged, topic profiles are
    incremented by totals and hidden posts are noted. */
module ExploreEvents {
  import opened Prelude

  type Post = string
  type Topic = Id

  datatype Kind = IMPRESSION | OPEN_POST | WATCH_3S | WATCH_50 | LIKE | COMMENT | FOLLOW_CREATOR | HIDE

  // In tenths.
  function Weight(kind: Kind): int {
    match kind
    case IMPRESSION => 2
    case OPEN_POST => 10
    case WATCH_3S => 15
    case WATCH_50 => 25
    case LIKE => 30
    case COMMENT => 40
    case FOLLOW_CREATOR => 35
    case HIDE => -80
  }

  function Name(kind: Kind): string {
    match kind
    case IMPRESSION => "IMPRESSION"
    case OPEN_POST => "OPEN_POST"
    case WATCH_3S => "WATCH_3S"
    case WATCH_50 => "WATCH_50"
    case LIKE => "LIKE"
    case COMMENT => "COMMENT"
    case FOLLOW_CREATOR => "FOLLOW_CREATOR"
    case HIDE => "HIDE"
  }

  function KindOf(name: string): Option<Kind> {
    if name == "IMPRESSION" then Some(IMPRESSION)
    else if name == "OPEN_POST" then Some(OPEN_POST)
    else if name == "WATCH_3S" then Some(WATCH_3S)
    else if name == "WATCH_50" then Some(WATCH_50)
    else if name == "LIKE" then Some(LIKE)
    else if name == "COMMENT" then Some(COMMENT)
    else if name == "FOLLOW_CREATOR" then Some(FOLLOW_CREATOR)
    else if name == "HIDE" then Some(HIDE)
    else None
  }

  // As sent, trimmed and upper-cased; a missing field is the empty string.
  datatype RawEvent = RawEvent(postId: string, eventType: string)

  datatype Event = Event(post: Post, kind: Kind)

  function Parse(raw: RawEvent): Option<Event> {
    if raw.postId == "" || KindOf(raw.eventType).None? then None
    else Some(Event(raw.postId, KindOf(raw.eventType).value))
  }

  // ---------- Normalising ----------

  function Key(e: Event): string {
    e.post + ":" + Name(e.kind)
  }

  lemma NamesHaveNoColon(kind: Kind)
    ensures ':' !in Name(kind)
  {
  }

  lemma NamesDiffer(a: Kind, b: Kind)
    ensures Name(a) == Name(b) <==> a == b
  {
    assert KindOf(Name(a)) == Some(a) && KindOf(Name(b)) == Some(b);
  }

  // A post id may hold a colon; the part after the last colon is always the type.
  lemma KeysDiffer(a: Event, b: Event)
    ensures Key(a) == Key(b) <==> a == b
  {
    if Key(a) == Key(b) {
      NamesHaveNoColon(a.kind);
      NamesHaveNoColon(b.kind);
      LastColon(a.post, Name(a.kind), b.post, Name(b.kind));
      NamesDiffer(a.kind, b.kind);
    }
  }

  function Normalised(raws: seq<RawEvent>, dedupe: bool): seq<Event>
    decreases |raws|
  {
    if raws == [] then []
    else
      var front, e := Normalised(raws[..|raws| - 1], dedupe), Parse(raws[|raws| - 1]);
      if e.None? || (dedupe && e.value in front) then front else front + [e.value]
  }

  method NormalizeExploreEvents(events: seq<RawEvent>, dedupeImpression: bool) returns (normalized: seq<Event>)
    ensures normalized == Normalised(events, dedupeImpression)
  {
    normalized := [];
    var impressionSeen: set<Post> := {};
    var eventSeen: set<string> := {};
    for i := 0 to |events|
      invariant normalized == Normalised(events[..i], dedupeImpression)
      invariant dedupeImpression ==> forall e: Event ::
        e in normalized <==> if e.kind.IMPRESSION? then e.post in impressionSeen else Key(e) in eventSeen
    {
      assert events[..i + 1][..i] == events[..i];
      var postId := events[i].postId;
      if postId == "" { continue; }
      var eventType := KindOf(events[i].eventType);
      if eventType.None? { continue; }
      var event := Event(postId, eventType.value);
      assert forall e: Event {:trigger Key(e)} :: Key(e) == Key(event) <==> e == event by {
        forall e: Event
          ensures Key(e) == Key(event) <==> e == event
        {
          KeysDiffer(e, event);
        }
      }
      if dedupeImpression && event.kind.IMPRESSION? {
        if postId in impressionSeen { continue; }
        impressionSeen := impressionSeen + {postId};
      } else if dedupeImpression {
        if Key(event) in eventSeen { continue; }
        eventSeen := eventSeen + {Key(event)};
      }
      normalized := normalized + [event];
    }
    assert events[..|events|] == events;
  }

  // ---------- Recording ----------

  datatype Row = Row(user: Id, post: Post, topic: Topic, kind: Kind, weight: int)

  datatype Tables = Tables(log: seq<Row>, profiles: map<(Id, Topic), int>, hidden: set<(Id, Post)>)

  function Score(profiles: map<(Id, Topic), int>, u: Id, t: Topic): int {
    if (u, t) in profiles then profiles[(u, t)] else 0
  }

  // One row on its own.
  function RecordOne(db: Tables, row: Row): Tables {
    Tables(
      db.log + [row],
      db.profiles[(row.user, row.topic) := Score(db.profiles, row.user, row.topic) + row.weight],
      if row.kind.HIDE? then db.hidden + {(row.user, row.post)} else db.hidden)
  }

  function RecordAll(db: Tables, rows: seq<Row>): Tables
    decreases |rows|
  {
    if rows == [] then db else RecordOne(RecordAll(db, rows[..|rows| - 1]), rows[|rows| - 1])
  }

  // Posts without a topic are skipped.
  function Rows(user: Id, events: seq<Event>, topics: map<Post, Topic>): seq<Row>
    decreases |events|
  {
    if events == [] then []
    else
      var front, e := Rows(user, events[..|events| - 1], topics), events[|events| - 1];
      if e.post !in topics then front else front + [Row(user, e.post, topics[e.post], e.kind, Weight(e.kind))]
  }

  function Recorded(db: Tables, user: Id, raws: seq<RawEvent>, dedupe: bool, topics: map<Post, Topic>): Tables {
    RecordAll(db, Rows(user, Normalised(raws, dedupe), topics))
  }

  function WeightSum(rows: seq<Row>, u: Id, t: Topic): int
    decreases |rows|
  {
    if rows == [] then 0
    else
      var r := rows[|rows| - 1];
      WeightSum(rows[..|rows| - 1], u, t) + if r.user == u && r.topic == t then r.weight else 0
  }

  predicate Touches(rows: seq<Row>, u: Id, t: Topic) {
    exists i | 0 <= i < |rows| :: rows[i].user == u && rows[i].topic == t
  }

  predicate Hides(rows: seq<Row>, u: Id, p: Post) {
    exists i | 0 <= i < |rows| :: rows[i].user == u && rows[i].post == p && rows[i].kind.HIDE?
  }

  lemma {:induction false} RecordAllTables(db: Tables, rows: seq<Row>)
    ensures var db' := RecordAll(db, rows);
      && db'.log == db.log + rows
      && (forall u, t :: (u, t) in db'.profiles <==> (u, t) in db.profiles || Touches(rows, u, t))
      && (forall u, t :: Score(db'.profiles, u, t) == Score(db.profiles, u, t) + WeightSum(rows, u, t))
      && (forall u, p :: (u, p) in db'.hidden <==> (u, p) in db.hidden || Hides(rows, u, p))
    decreases |rows|
  {
    if rows != [] {
      var front, row := rows[..|rows| - 1], rows[|rows| - 1];
      RecordAllTables(db, front);
      assert rows == front + [row];
      assert forall i | 0 <= i < |front| :: front[i] == rows[i];
    }
  }

  // ---------- Runs ----------

  const EMPTY := Tables([], map[], {})

  datatype Batch = Batch(user: Id, raws: seq<RawEvent>, dedupe: bool, topics: map<Post, Topic>)

  function Run(batches: seq<Batch>): Tables
    decreases |batches|
  {
    if batches == [] then EMPTY
    else
      var b := batches[|batches| - 1];
      Recorded(Run(batches[..|batches| - 1]), b.user, b.raws, b.dedupe, b.topics)
  }

  lemma {:induction false} RecordInTwoParts(db: Tables, a: seq<Row>, b: seq<Row>)
    ensures RecordAll(RecordAll(db, a), b) == RecordAll(db, a + b)
    decreases |b|
  {
    if b == [] {
      assert a + b == a;
    } else {
      RecordInTwoParts(db, a, b[..|b| - 1]);
      assert (a + b)[..|a + b| - 1] == a + b[..|b| - 1];
    }
  }

  lemma {:induction false} RunIsItsLog(batches: seq<Batch>)
    ensures Run(batches) == RecordAll(EMPTY, Run(batches).log)
    decreases |batches|
  {
    if batches != [] {
      var before, b := Run(batches[..|batches| - 1]), batches[|batches| - 1];
      RunIsItsLog(batches[..|batches| - 1]);
      var rows := Rows(b.user, Normalised(b.raws, b.dedupe), b.topics);
      RecordAllTables(before, rows);
      RecordInTwoParts(EMPTY, before.log, rows);
    }
  }

  /** After any batches of any users, a topic profile is the sum of the weights logged for
      it, and exactly the posts with a logged HIDE are hidden. */
  lemma ProfilesAreLogSums(batches: seq<Batch>)
    ensures var db := Run(batches);
      && (forall u, t :: Score(db.profiles, u, t) == WeightSum(db.log, u, t))
      && (forall u, t :: (u, t) in db.profiles <==> Touches(db.log, u, t))
      && (forall u, p :: (u, p) in db.hidden <==> Hides(db.log, u, p))
  {
    RunIsItsLog(batches);
    RecordAllTables(EMPTY, Run(batches).log);
  }

  // ---------- One by one ----------

  predicate Parsed(raws: seq<RawEvent>, e: Event) {
    exists i | 0 <= i < |raws| :: Parse(raws[i]) == Some(e)
  }

  // The first occurrence of each valid (post, type) pair.
  function FirstOfEach(raws: seq<RawEvent>): seq<RawEvent>
    decreases |raws|
  {
    if raws == [] then []
    else
      var front, raw := raws[..|raws| - 1], raws[|raws| - 1];
      if Parse(raw).None? || Parsed(front, Parse(raw).value) then FirstOfEach(front)
      else FirstOfEach(front) + [raw]
  }

  // Each event sent on its own.
  function OneByOne(db: Tables, user: Id, raws: seq<RawEvent>, topics: map<Post, Topic>): Tables
    decreases |raws|
  {
    if raws == [] then db
    else Recorded(OneByOne(db, user, raws[..|raws| - 1], topics), user, [raws[|raws| - 1]], false, topics)
  }

  lemma {:induction false} NormalisedMembers(raws: seq<RawEvent>, dedupe: bool)
    ensures forall e :: e in Normalised(raws, dedupe) <==> Parsed(raws, e)
    decreases |raws|
  {
    if raws != [] {
      var front, raw := raws[..|raws| - 1], raws[|raws| - 1];
      NormalisedMembers(front, dedupe);
      assert raws == front + [raw];
      forall e
        ensures Parsed(raws, e) <==> Parsed(front, e) || Parse(raw) == Some(e)
      {
        assert forall i | 0 <= i < |front| :: front[i] == raws[i];
      }
    }
  }

  lemma {:induction false} DedupeIsFirstOfEach(raws: seq<RawEvent>)
    ensures Normalised(raws, true) == Normalised(FirstOfEach(raws), false)
    decreases |raws|
  {
    if raws != [] {
      var front, raw := raws[..|raws| - 1], raws[|raws| - 1];
      DedupeIsFirstOfEach(front);
      NormalisedMembers(front, true);
      assert (FirstOfEach(front) + [raw])[..|FirstOfEach(front)|] == FirstOfEach(front);
    }
  }

  lemma RowsOfAppend(user: Id, events: seq<Event>, e: Event, topics: map<Post, Topic>)
    ensures Rows(user, events + [e], topics) == Rows(user, events, topics) + Rows(user, [e], topics)
  {
    assert (events + [e])[..|events|] == events;
    assert [e][..0] == [];
  }

  lemma {:induction false} OneByOneIsUndeduped(db: Tables, user: Id, raws: seq<RawEvent>, topics: map<Post, Topic>)
    ensures OneByOne(db, user, raws, topics) == Recorded(db, user, raws, false, topics)
    decreases |raws|
  {
    if raws != [] {
      var front, raw := raws[..|raws| - 1], raws[|raws| - 1];
      OneByOneIsUndeduped(db, user, front, topics);
      assert [raw][..0] == [];
      var events := Normalised(front, false);
      RecordInTwoParts(db, Rows(user, events, topics), Rows(user, Normalised([raw], false), topics));
      assert [raw][..0] == [];
      if Parse(raw).Some? {
        assert Normalised([raw], false) == [Parse(raw).value];
        RowsOfAppend(user, events, Parse(raw).value, topics);
      } else {
        assert Normalised([raw], false) == [];
      }
    }
  }

  /** For a fixed post-to-topic map, a batch leaves the log, the profiles and the hidden
      posts as sending the first occurrence of each pair on its own would. */
  lemma BatchIsOneByOne(db: Tables, user: Id, raws: seq<RawEvent>, topics: map<Post, Topic>)
    ensures Recorded(db, user, raws, true, topics) == OneByOne(db, user, FirstOfEach(raws), topics)
  {
    DedupeIsFirstOfEach(raws);
    OneByOneIsUndeduped(db, user, FirstOfEach(raws), topics);
  }

  // ---------- What the raw events do ----------

  // In tenths, by the type as it is sent.
  function Points(eventType: string): int {
    if eventType == "IMPRESSION" then 2
    else if eventType == "OPEN_POST" then 10
    else if eventType == "WATCH_3S" then 15
    else if eventType == "WATCH_50" then 25
    else if eventType == "LIKE" then 30
    else if eventType == "COMMENT" then 40
    else if eventType == "FOLLOW_CREATOR" then 35
    else if eventType == "HIDE" then -80
    else 0
  }

  // The points of all events sent on posts of the topic, repeated ones once when duplicates are dropped.
  function SentPoints(raws: seq<RawEvent>, topics: map<Post, Topic>, t: Topic, dedupe: bool): int
    decreases |raws|
  {
    if raws == [] then 0
    else
      var front, raw := raws[..|raws| - 1], raws[|raws| - 1];
      SentPoints(front, topics, t, dedupe)
      + if raw.postId != "" && raw.postId in topics && topics[raw.postId] == t && !(dedupe && raw in front)
        then Points(raw.eventType) else 0
  }

  predicate SentHide(raws: seq<RawEvent>, topics: map<Post, Topic>, p: Post) {
    p != "" && p in topics && RawEvent(p, "HIDE") in raws
  }

  lemma ParseOfName(raw: RawEvent)
    ensures Points(raw.eventType) == if KindOf(raw.eventType).None? then 0 else Weight(KindOf(raw.eventType).value)
    ensures KindOf(raw.eventType).Some? ==> raw.eventType == Name(KindOf(raw.eventType).value)
    ensures raw.eventType == "HIDE" <==> KindOf(raw.eventType) == Some(HIDE)
  {
  }

  // An event is a repetition exactly when the same text was sent before.
  lemma RepeatedIff(front: seq<RawEvent>, raw: RawEvent, dedupe: bool)
    requires Parse(raw).Some?
    ensures Parse(raw).value in Normalised(front, dedupe) <==> raw in front
  {
    NormalisedMembers(front, dedupe);
    ParseOfName(raw);
    forall i | 0 <= i < |front| && Parse(front[i]) == Parse(raw) ensures front[i] == raw {
      ParseOfName(front[i]);
    }
  }

  // A batch with one more event: nothing, or one more row.
  lemma RecordedSnoc(db: Tables, user: Id, raws: seq<RawEvent>, dedupe: bool, topics: map<Post, Topic>)
    requires raws != []
    ensures
      var front, raw := raws[..|raws| - 1], raws[|raws| - 1];
      var before, e := Recorded(db, user, front, dedupe, topics), Parse(raw);
      Recorded(db, user, raws, dedupe, topics) ==
        if e.None? || raw.postId !in topics || (dedupe && raw in front) then before
        else RecordOne(before, Row(user, raw.postId, topics[raw.postId], e.value.kind, Points(raw.eventType)))
  {
    var front, raw := raws[..|raws| - 1], raws[|raws| - 1];
    ParseOfName(raw);
    if Parse(raw).Some? {
      RepeatedIff(front, raw, dedupe);
      var events, e := Normalised(front, dedupe), Parse(raw).value;
      RowsOfAppend(user, events, e, topics);
      var rows := Rows(user, events, topics);
      assert [e][..0] == [];
      if raw.postId in topics && !(dedupe && raw in front) {
        var row := Row(user, raw.postId, topics[raw.postId], e.kind, Points(raw.eventType));
        assert Rows(user, [e], topics) == [row];
        assert (rows + [row])[..|rows|] == rows;
      } else if !(dedupe && raw in front) {
        assert Rows(user, [e], topics) == [];
      }
    }
  }

  /** What a batch does, by the texts sent: each topic of the user gains the points of the
      events on its posts, exactly the posts with a HIDE are hidden besides, and nobody else is
      touched.  Events without a post, of an unknown type or on a post without a topic count
      for nothing. */
  lemma {:induction false} BatchEffects(
    db: Tables, user: Id, raws: seq<RawEvent>, dedupe: bool, topics: map<Post, Topic>)
    ensures
      var db' := Recorded(db, user, raws, dedupe, topics);
      && (forall t :: Score(db'.profiles, user, t) == Score(db.profiles, user, t) + SentPoints(raws, topics, t, dedupe))
      && (forall v, t | v != user :: Score(db'.profiles, v, t) == Score(db.profiles, v, t))
      && (forall p :: (user, p) in db'.hidden <==> (user, p) in db.hidden || SentHide(raws, topics, p))
      && (forall v, p | v != user :: (v, p) in db'.hidden <==> (v, p) in db.hidden)
    decreases |raws|
  {
    if raws != [] {
      var front, raw := raws[..|raws| - 1], raws[|raws| - 1];
      assert raws == front + [raw];
      BatchEffects(db, user, front, dedupe, topics);
      RecordedSnoc(db, user, raws, dedupe, topics);
      ParseOfName(raw);
      assert forall p :: SentHide(raws, topics, p) <==>
        SentHide(front, topics, p) || (p != "" && p in topics && raw == RawEvent(p, "HIDE"));
      hide Recorded, KindOf, Points;
    }
  }

  // ---------- The transaction ----------

  function KindCount(rows: seq<Row>, kind: Kind): nat
    decreases |rows|
  {
    if rows == [] then 0 else KindCount(rows[..|rows| - 1], kind) + if rows[|rows| - 1].kind == kind then 1 else 0
  }

  function HiddenIn(rows: seq<Row>): set<Post>
    decreases |rows|
  {
    if rows == [] then {}
    else HiddenIn(rows[..|rows| - 1]) + if rows[|rows| - 1].kind.HIDE? then {rows[|rows| - 1].post} else {}
  }

  function Grouped(grouped: map<Kind, int>, kind: Kind): int {
    if kind in grouped then grouped[kind] else 0
  }

  datatype Summary = Summary(
    accepted: int,
    skipped: int,
    hiddenPostCount: int,
    grouped: map<Kind, int>,
    topicUpdates: map<Topic, int>,
    recorded: seq<Row>)

  ghost predicate Summarises(s: Summary, events: seq<Event>, rows: seq<Row>, user: Id) {
    && s.recorded == rows
    && s.accepted == |events| && s.skipped == |events| - |rows|
    && s.hiddenPostCount == |HiddenIn(rows)|
    && (forall k :: Grouped(s.grouped, k) == KindCount(rows, k))
    && (forall t :: t in s.topicUpdates <==> Touches(rows, user, t))
    && (forall t | t in s.topicUpdates :: s.topicUpdates[t] == WeightSum(rows, user, t))
  }

  lemma {:induction false} KindsAddUp(rows: seq<Row>)
    ensures
      KindCount(rows, IMPRESSION) + KindCount(rows, OPEN_POST) + KindCount(rows, WATCH_3S) + KindCount(rows, WATCH_50)
      + KindCount(rows, LIKE) + KindCount(rows, COMMENT) + KindCount(rows, FOLLOW_CREATOR) + KindCount(rows, HIDE)
      == |rows|
    decreases |rows|
  {
    if rows != [] {
      KindsAddUp(rows[..|rows| - 1]);
    }
  }

  lemma {:induction false} RowsWithinEvents(user: Id, events: seq<Event>, topics: map<Post, Topic>)
    ensures |Rows(user, events, topics)| <= |events|
    decreases |events|
  {
    if events != [] {
      RowsWithinEvents(user, events[..|events| - 1], topics);
    }
  }

  /** Accepted is recorded plus skipped, neither negative, and the counts by type add up
      to recorded. */
  lemma SummaryBalances(s: Summary, events: seq<Event>, user: Id, topics: map<Post, Topic>)
    requires Summarises(s, events, Rows(user, events, topics), user)
    ensures s.accepted == |s.recorded| + s.skipped && 0 <= s.skipped
    ensures
      Grouped(s.grouped, IMPRESSION) + Grouped(s.grouped, OPEN_POST) + Grouped(s.grouped, WATCH_3S)
      + Grouped(s.grouped, WATCH_50) + Grouped(s.grouped, LIKE) + Grouped(s.grouped, COMMENT)
      + Grouped(s.grouped, FOLLOW_CREATOR) + Grouped(s.grouped, HIDE) == |s.recorded|
  {
    KindsAddUp(s.recorded);
    RowsWithinEvents(user, events, topics);
  }

  lemma {:induction false} OfOneUser(user: Id, events: seq<Event>, topics: map<Post, Topic>)
    ensures forall r | r in Rows(user, events, topics) :: r.user == user
    decreases |events|
  {
    if events != [] {
      OfOneUser(user, events[..|events| - 1], topics);
    }
  }

  lemma {:induction false} UntouchedSum(rows: seq<Row>, u: Id, t: Topic)
    requires !Touches(rows, u, t)
    ensures WeightSum(rows, u, t) == 0
    decreases |rows|
  {
    if rows != [] {
      assert forall i | 0 <= i < |rows| - 1 :: rows[..|rows| - 1][i] == rows[i];
      UntouchedSum(rows[..|rows| - 1], u, t);
    }
  }

  lemma {:induction false} HiddenByUser(rows: seq<Row>, user: Id, u: Id, p: Post)
    requires forall r | r in rows :: r.user == user
    ensures Hides(rows, u, p) <==> u == user && p in HiddenIn(rows)
    decreases |rows|
  {
    if rows != [] {
      var front, last := rows[..|rows| - 1], rows[|rows| - 1];
      HiddenByUser(front, user, u, p);
      assert Hides(rows, u, p) <==> Hides(front, u, p) || (last.user == u && last.post == p && last.kind.HIDE?) by {
        assert forall i | 0 <= i < |front| :: front[i] == rows[i];
      }
    }
  }

  // Each listed topic of the user goes up by its total, and is created when missing.
  ghost predicate Added(
    before: map<(Id, Topic), int>, after: map<(Id, Topic), int>, user: Id, totals: map<Topic, int>, topics: seq<Topic>)
    requires forall t | t in topics :: t in totals
  {
    && (forall u, t :: (u, t) in after <==> (u, t) in before || (u == user && t in topics))
    && (forall u, t ::
          Score(after, u, t) == Score(before, u, t) + (if u == user && t in topics then totals[t] else 0))
  }

  lemma CommitIsRecordAll(
    db: Tables, db': Tables, user: Id, events: seq<Event>, topics: map<Post, Topic>, totals: map<Topic, int>,
    topicOrder: seq<Topic>)
    requires forall t :: t in topicOrder <==> t in totals
    requires forall t :: t in totals <==> Touches(Rows(user, events, topics), user, t)
    requires forall t | t in totals :: totals[t] == WeightSum(Rows(user, events, topics), user, t)
    requires db'.log == db.log + Rows(user, events, topics)
    requires Added(db.profiles, db'.profiles, user, totals, topicOrder)
    requires forall u, p :: (u, p) in db'.hidden <==>
      (u, p) in db.hidden || (u == user && p in HiddenIn(Rows(user, events, topics)))
    ensures db' == RecordAll(db, Rows(user, events, topics))
  {
    var rows := Rows(user, events, topics);
    var all := RecordAll(db, rows);
    RecordAllTables(db, rows);
    OfOneUser(user, events, topics);
    forall key: (Id, Topic)
      ensures key in all.profiles <==> key in db'.profiles
      ensures key in all.profiles ==> all.profiles[key] == db'.profiles[key]
    {
      var (u, t) := key;
      if !Touches(rows, u, t) {
        UntouchedSum(rows, u, t);
      }
      assert Score(all.profiles, u, t) == Score(db'.profiles, u, t);
      assert (u, t) in all.profiles <==> (u, t) in db'.profiles;
    }
    forall key: (Id, Post)
      ensures key in all.hidden <==> key in db'.hidden
    {
      var (u, p) := key;
      HiddenByUser(rows, user, u, p);
      assert (u, p) in all.hidden <==> (u, p) in db'.hidden;
    }
    assert all.profiles == db'.profiles && all.hidden == db'.hidden;
  }

  class ExploreTables {
    var log: seq<Row>
    var profiles: map<(Id, Topic), int>
    var hidden: set<(Id, Post)>

    constructor ()
      ensures Contents() == EMPTY
    {
      log, profiles, hidden := [], map[], {};
    }

    function Contents(): Tables
      reads this
    {
      Tables(log, profiles, hidden)
    }

    // One pass over the events; `topicOrder` is the insertion order of the totals.
    static method CollectRows(user: Id, events: seq<Event>, postTopicMap: map<Post, Topic>)
      returns (rows: seq<Row>, topicOrder: seq<Topic>, totals: map<Topic, int>,
               hiddenPosts: set<Post>, grouped: map<Kind, int>)
      ensures rows == Rows(user, events, postTopicMap)
      ensures forall t :: t in totals <==> t in topicOrder
      ensures forall i, j | 0 <= i < j < |topicOrder| :: topicOrder[i] != topicOrder[j]
      ensures forall t :: t in totals <==> Touches(rows, user, t)
      ensures forall t | t in totals :: totals[t] == WeightSum(rows, user, t)
      ensures hiddenPosts == HiddenIn(rows)
      ensures forall k :: Grouped(grouped, k) == KindCount(rows, k)
    {
      rows, topicOrder, totals, hiddenPosts, grouped := [], [], map[], {}, map[];
      for n := 0 to |events|
        invariant rows == Rows(user, events[..n], postTopicMap)
        invariant forall t :: t in totals <==> t in topicOrder
        invariant forall i, j | 0 <= i < j < |topicOrder| :: topicOrder[i] != topicOrder[j]
        invariant forall t :: t in totals <==> Touches(rows, user, t)
        invariant forall t :: (if t in totals then totals[t] else 0) == WeightSum(rows, user, t)
        invariant hiddenPosts == HiddenIn(rows)
        invariant forall k :: Grouped(grouped, k) == KindCount(rows, k)
      {
        var event := events[n];
        assert events[..n + 1][..n] == events[..n];
        if event.post !in postTopicMap { continue; }
        var topic, weight := postTopicMap[event.post], Weight(event.kind);
        ghost var before := rows;
        rows := rows + [Row(user, event.post, topic, event.kind, weight)];
        assert rows[..|before|] == before;
        assert forall t :: Touches(rows, user, t) <==> Touches(before, user, t) || t == topic by {
          assert rows[|before|].topic == topic;
          assert forall i | 0 <= i < |before| :: rows[i] == before[i];
        }
        if topic !in totals {
          topicOrder := topicOrder + [topic];
        }
        totals := totals[topic := (if topic in totals then totals[topic] else 0) + weight];
        grouped := grouped[event.kind := (if event.kind in grouped then grouped[event.kind] else 0) + 1];
        if event.kind.HIDE? {
          hiddenPosts := hiddenPosts + {event.post};
        }
      }
      assert events[..|events|] == events;
    }

    // Rows, profile totals and hidden posts, in one transaction.
    method Commit(user: Id, rows: seq<Row>, topicOrder: seq<Topic>, totals: map<Topic, int>, hiddenPosts: set<Post>)
      requires forall t :: t in totals <==> t in topicOrder
      requires forall i, j | 0 <= i < j < |topicOrder| :: topicOrder[i] != topicOrder[j]
      modifies this
      ensures log == old(log) + rows
      ensures Added(old(profiles), profiles, user, totals, topicOrder)
      ensures forall u, p :: (u, p) in hidden <==> (u, p) in old(hidden) || (u == user && p in hiddenPosts)
    {
      log := log + rows;
      for n := 0 to |topicOrder|
        invariant log == old(log) + rows && hidden == old(hidden)
        invariant Added(old(profiles), profiles, user, totals, topicOrder[..n])
      {
        var topic := topicOrder[n];
        assert topicOrder[..n + 1] == topicOrder[..n] + [topic];
        assert topic !in topicOrder[..n];
        profiles := profiles[(user, topic) :=
          if (user, topic) in profiles then profiles[(user, topic)] + totals[topic] else totals[topic]];
      }
      assert topicOrder[..|topicOrder|] == topicOrder;
      var pending := hiddenPosts;
      while pending != {}
        invariant pending <= hiddenPosts
        invariant forall u, p ::
          (u, p) in hidden <==> (u, p) in old(hidden) || (u == user && p in hiddenPosts - pending)
        invariant log == old(log) + rows && Added(old(profiles), profiles, user, totals, topicOrder)
        decreases |pending|
      {
        var post :| post in pending;
        hidden := hidden + {(user, post)};
        pending := pending - {post};
      }
    }

    /** One call records the rows of its normalised events, as if one by one. */
    method ProcessExploreEvents(
        user: Id, inputEvents: seq<RawEvent>, dedupeImpression: bool, postTopicMap: map<Post, Topic>)
      returns (summary: Summary)
      modifies this
      ensures Contents() == Recorded(old(Contents()), user, inputEvents, dedupeImpression, postTopicMap)
      ensures
        var events := Normalised(inputEvents, dedupeImpression);
        Summarises(summary, events, Rows(user, events, postTopicMap), user)
    {
      var normalizedEvents := NormalizeExploreEvents(inputEvents, dedupeImpression);
      if |normalizedEvents| == 0 {
        return Summary(0, 0, 0, map[], map[], []);
      }
      var rows, topicOrder, totals, hiddenPosts, grouped := CollectRows(user, normalizedEvents, postTopicMap);
      if |rows| == 0 {
        return Summary(|normalizedEvents|, |normalizedEvents|, 0, map[], map[], []);
      }
      Commit(user, rows, topicOrder, totals, hiddenPosts);
      CommitIsRecordAll(old(Contents()), Contents(), user, normalizedEvents, postTopicMap, totals, topicOrder);
      summary := Summary(|normalizedEvents|, |normalizedEvents| - |rows|, |hiddenPosts|, grouped, totals, rows);
    }
  }
}
