/** Cache keys of the explore feeds: field strings joined by colons, and which requests
    share a key. */
module CacheKeys {
  import opened Prelude

  datatype Mode = TRENDING | NEW | TOP
  datatype SortBy = SCORE | NEWEST
  datatype Flag = TRUE | FALSE | ONE | ZERO     // the boolean strings the query accepts

  datatype Request =
    | Public(
        mode: Mode, topic: Option<string>, trending: Option<Flag>, sort: Option<SortBy>, limit: nat,
        cursor: Option<string>)
    | ForYou(user: string, topic: Option<string>, limit: nat, cursor: Option<string>)

  function ModeName(m: Mode): string {
    match m
    case TRENDING => "trending"
    case NEW => "new"
    case TOP => "top"
  }

  function FlagName(f: Option<Flag>): string {
    if f.None? then ""
    else
      match f.value
      case TRUE => "true"
      case FALSE => "false"
      case ONE => "1"
      case ZERO => "0"
  }

  function SortName(s: Option<SortBy>): string {
    if s.None? then "" else if s.value.SCORE? then "score" else "newest"
  }

  const DIGITS := "0123456789"

  function Decimal(n: nat): string {
    if n < 10 then [DIGITS[n]] else Decimal(n / 10) + [DIGITS[n % 10]]
  }

  function TextOf(s: Option<string>): string {
    if s.None? then "" else s.value
  }

  function Labelled(tag: string, text: string): string {
    tag + "=" + text
  }

  // The fields of a key in order; only the topic and the cursor are free text.
  function Fields(r: Request): seq<string> {
    match r
    case Public(mode, topic, trending, sort, limit, cursor) =>
      ["explore", "v1", "public", Labelled("mode", ModeName(mode)), Labelled("topic", TextOf(topic)),
       Labelled("trending", FlagName(trending)), Labelled("sort", SortName(sort)), Labelled("limit", Decimal(limit)),
       Labelled("cursor", TextOf(cursor))]
    case ForYou(user, topic, limit, cursor) =>
      ["explore", "v1", "for-you", Labelled("user", user), Labelled("topic", TextOf(topic)),
       Labelled("limit", Decimal(limit)), Labelled("cursor", TextOf(cursor))]
  }

  function Join(fields: seq<string>): string
    decreases |fields|
  {
    if fields == [] then ""
    else if |fields| == 1 then fields[0]
    else fields[0] + ":" + Join(fields[1..])
  }

  function CacheKey(r: Request): string {
    Join(Fields(r))
  }

  predicate NoColon(s: string) {
    ':' !in s
  }

  // Equal but for absent fields given as empty text, which the queries treat alike.
  predicate SameRequest(a: Request, b: Request) {
    match (a, b)
    case (Public(_, _, _, _, _, _), Public(_, _, _, _, _, _)) =>
      && a.mode == b.mode && TextOf(a.topic) == TextOf(b.topic) && a.trending == b.trending && a.sort == b.sort
      && a.limit == b.limit && TextOf(a.cursor) == TextOf(b.cursor)
    case (ForYou(_, _, _, _), ForYou(_, _, _, _)) =>
      && a.user == b.user && TextOf(a.topic) == TextOf(b.topic) && a.limit == b.limit
      && TextOf(a.cursor) == TextOf(b.cursor)
    case _ => false
  }

  // ---------- Joining is injective ----------

  lemma {:induction false} JoinOfParts(fields: seq<string>, i: nat)
    requires 0 < i < |fields|
    ensures Join(fields) == Join(fields[..i]) + ":" + Join(fields[i..])
    decreases i
  {
    if i == 1 {
      assert fields[..1] == [fields[0]];
    } else {
      JoinOfParts(fields[1..], i - 1);
      assert fields[1..][..i - 1] == fields[..i][1..] && fields[1..][i - 1..] == fields[i..];
    }
  }

  // With at most one free field, at `i`, the joined string determines every field.
  lemma {:induction false} JoinInjective(a: seq<string>, b: seq<string>, i: nat)
    requires |a| == |b| && i < |a| && Join(a) == Join(b)
    requires forall j | 0 <= j < |a| && j != i :: NoColon(a[j]) && NoColon(b[j])
    ensures a == b
    decreases |a|
  {
    if |a| == 1 {
    } else if i > 0 {
      FirstColon(a[0], Join(a[1..]), b[0], Join(b[1..]));
      JoinInjective(a[1..], b[1..], i - 1);
      assert a == [a[0]] + a[1..] && b == [b[0]] + b[1..];
    } else {
      var n := |a| - 1;
      JoinOfParts(a, n);
      JoinOfParts(b, n);
      assert a[n..] == [a[n]] && b[n..] == [b[n]];
      LastColon(Join(a[..n]), a[n], Join(b[..n]), b[n]);
      JoinInjective(a[..n], b[..n], 0);
      assert a == a[..n] + [a[n]] && b == b[..n] + [b[n]];
    }
  }

  // ---------- The fields ----------

  lemma {:induction false} DecimalText(n: nat)
    ensures Decimal(n) != [] && forall i | 0 <= i < |Decimal(n)| :: Decimal(n)[i] in DIGITS
    ensures |Decimal(n)| == 1 <==> n < 10
    ensures Decimal(n)[|Decimal(n)| - 1] == DIGITS[n % 10]
  {
    if n >= 10 {
      DecimalText(n / 10);
    }
  }

  lemma {:induction false} DecimalInjective(m: nat, n: nat)
    requires Decimal(m) == Decimal(n)
    ensures m == n
  {
    DecimalText(m);
    DecimalText(n);
    assert m % 10 == n % 10;
    if m >= 10 {
      assert Decimal(m / 10) == Decimal(m)[..|Decimal(m)| - 1] == Decimal(n / 10);
      DecimalInjective(m / 10, n / 10);
    }
  }

  // User ids are generated and hold no colon.
  predicate Valid(r: Request) {
    r.ForYou? ==> NoColon(r.user)
  }

  const TOPIC_AT := 4

  function CursorAt(r: Request): nat {
    |Fields(r)| - 1
  }

  lemma LabelledText(tag: string, a: string, b: string)
    requires NoColon(tag)
    ensures NoColon(Labelled(tag, a)) <==> NoColon(a)
    ensures Labelled(tag, a) == Labelled(tag, b) <==> a == b
  {
    var head := tag + "=";
    assert Labelled(tag, a) == head + a && Labelled(tag, b) == head + b;
    assert (head + a)[|head|..] == a && (head + b)[|head|..] == b;
  }

  lemma NamesAreClean(r: Request)
    requires r.Public?
    ensures NoColon(ModeName(r.mode)) && NoColon(FlagName(r.trending)) && NoColon(SortName(r.sort))
  {
  }

  lemma NamesDiffer(a: Request, b: Request)
    requires a.Public? && b.Public?
    ensures ModeName(a.mode) == ModeName(b.mode) <==> a.mode == b.mode
    ensures FlagName(a.trending) == FlagName(b.trending) <==> a.trending == b.trending
    ensures SortName(a.sort) == SortName(b.sort) <==> a.sort == b.sort
  {
  }

  lemma DecimalIsClean(n: nat)
    ensures NoColon(Decimal(n))
  {
    DecimalText(n);
  }

  lemma LabelledClean(tag: string, text: string)
    requires NoColon(tag)
    ensures NoColon(Labelled(tag, text)) <==> NoColon(text)
  {
    LabelledText(tag, text, text);
  }

  lemma PublicClean(r: Request)
    requires r.Public?
    ensures forall j | 0 <= j < |Fields(r)| && j != TOPIC_AT && j != CursorAt(r) :: NoColon(Fields(r)[j])
  {
    NamesAreClean(r);
    DecimalIsClean(r.limit);
    LabelledClean("mode", ModeName(r.mode));
    LabelledClean("trending", FlagName(r.trending));
    LabelledClean("sort", SortName(r.sort));
    LabelledClean("limit", Decimal(r.limit));
  }

  lemma ForYouClean(r: Request)
    requires r.ForYou? && Valid(r)
    ensures forall j | 0 <= j < |Fields(r)| && j != TOPIC_AT && j != CursorAt(r) :: NoColon(Fields(r)[j])
  {
    DecimalIsClean(r.limit);
    LabelledClean("user", r.user);
    LabelledClean("limit", Decimal(r.limit));
  }

  // Only the topic and the cursor can bring a colon into a key.
  lemma FieldsClean(r: Request)
    requires Valid(r)
    ensures forall j | 0 <= j < |Fields(r)| && j != TOPIC_AT && j != CursorAt(r) :: NoColon(Fields(r)[j])
    ensures NoColon(TextOf(r.topic)) ==> NoColon(Fields(r)[TOPIC_AT])
    ensures NoColon(TextOf(r.cursor)) ==> NoColon(Fields(r)[CursorAt(r)])
  {
    LabelledClean("topic", TextOf(r.topic));
    LabelledClean("cursor", TextOf(r.cursor));
    if r.Public? { PublicClean(r); } else { ForYouClean(r); }
  }

  lemma SameLimitFields(m: nat, n: nat)
    ensures Labelled("limit", Decimal(m)) == Labelled("limit", Decimal(n)) <==> m == n
  {
    LabelledText("limit", Decimal(m), Decimal(n));
    if Decimal(m) == Decimal(n) {
      DecimalInjective(m, n);
    }
  }

  lemma SamePublicFields(a: Request, b: Request)
    requires a.Public? && b.Public?
    ensures Fields(a) == Fields(b) <==> SameRequest(a, b)
  {
    SameLimitFields(a.limit, b.limit);
    NamesDiffer(a, b);
    LabelledText("topic", TextOf(a.topic), TextOf(b.topic));
    LabelledText("cursor", TextOf(a.cursor), TextOf(b.cursor));
    LabelledText("mode", ModeName(a.mode), ModeName(b.mode));
    LabelledText("trending", FlagName(a.trending), FlagName(b.trending));
    LabelledText("sort", SortName(a.sort), SortName(b.sort));
    var f, g := Fields(a), Fields(b);
    assert f == g <==> f[3] == g[3] && f[4] == g[4] && f[5] == g[5] && f[6] == g[6] && f[7] == g[7] && f[8] == g[8];
  }

  lemma SameForYouFields(a: Request, b: Request)
    requires a.ForYou? && b.ForYou?
    ensures Fields(a) == Fields(b) <==> SameRequest(a, b)
  {
    SameLimitFields(a.limit, b.limit);
    LabelledText("topic", TextOf(a.topic), TextOf(b.topic));
    LabelledText("cursor", TextOf(a.cursor), TextOf(b.cursor));
    LabelledText("user", a.user, b.user);
    var f, g := Fields(a), Fields(b);
    assert f == g <==> f[3] == g[3] && f[4] == g[4] && f[5] == g[5] && f[6] == g[6];
  }

  lemma SameFields(a: Request, b: Request)
    ensures Fields(a) == Fields(b) <==> SameRequest(a, b)
  {
    if a.Public? && b.Public? {
      SamePublicFields(a, b);
    } else if a.ForYou? && b.ForYou? {
      SameForYouFields(a, b);
    } else {
      assert |Fields(a)| != |Fields(b)|;
    }
  }

  // ---------- Which requests share a key ----------

  lemma KeyHead(r: Request)
    ensures |CacheKey(r)| > 11 && CacheKey(r)[11] == if r.Public? then 'p' else 'f'
  {
    var f := Fields(r);
    JoinOfParts(f, 2);
    assert f[..2] == ["explore", "v1"];
    assert f[..2][1..] == ["v1"];
    assert Join(f[..2]) == "explore:v1";
    assert f[2..][0] == if r.Public? then "public" else "for-you";
  }

  // What stands between the topic's text and the cursor's.
  function Middle(r: Request): string {
    ":" + Join(Fields(r)[TOPIC_AT + 1..CursorAt(r)]) + ":" + "cursor="
  }

  lemma Regroup(a: string, b: string, c: string, d: string)
    ensures a + (b + (c + d)) == (a + (b + c)) + d
  {
  }

  lemma ColonFirst(a: string, b: string, c: string)
    ensures ":" + (a + ":" + (b + c)) == (":" + a + ":" + b) + c
    ensures (a + b) + ":" + c == a + (b + (":" + c))
  {
    assert ":" + (a + ":" + (b + c)) == (":" + a + ":" + b) + c;
    assert (a + b) + ":" + c == a + (b + (":" + c));
  }

  lemma MiddleTail(r: Request)
    ensures ":" + Join(Fields(r)[TOPIC_AT + 1..]) == Middle(r) + TextOf(r.cursor)
  {
    var f, c := Fields(r), CursorAt(r);
    var tail := f[TOPIC_AT + 1..];
    assert tail[..|tail| - 1] == f[TOPIC_AT + 1..c] && tail[|tail| - 1..] == [f[c]];
    assert f[c] == "cursor=" + TextOf(r.cursor);
    hide Fields;
    JoinOfParts(tail, |tail| - 1);
    var inner := Join(tail[..|tail| - 1]);
    assert Join(tail) == inner + ":" + ("cursor=" + TextOf(r.cursor));
    hide Join, TextOf;
    ColonFirst(inner, "cursor=", TextOf(r.cursor));
  }

  // Requests that differ at most in what a page of the feed is asked for.
  predicate SameFeed(a: Request, b: Request) {
    if a.Public? then b.Public? && a.mode == b.mode else b.ForYou? && a.user == b.user
  }

  // The topic of `b` takes in the topic of `a`, its middle and the start `y` of its cursor.
  predicate SwallowsWith(a: Request, b: Request, y: string) {
    && TextOf(b.topic) == TextOf(a.topic) + (Middle(a) + y)
    && TextOf(a.cursor) == y + (Middle(b) + TextOf(b.cursor))
  }

  ghost predicate Swallows(a: Request, b: Request) {
    exists y :: SwallowsWith(a, b, y)
  }

  // ---------- Where the middle of a key can stand ----------

  // It starts at its only colon that is followed by `letter`.
  predicate StartsOnce(m: string, letter: char) {
    && |m| >= 2 && m[0] == ':' && m[1] == letter && m[|m| - 1] != ':'
    && forall i | 1 <= i < |m| - 1 && m[i] == ':' :: m[i + 1] != letter
  }

  lemma StartsOnceThen(m: string, field: string, letter: char)
    requires StartsOnce(m, letter) && NoColon(field) && field != [] && field[0] != letter
    ensures StartsOnce(m + ":" + field, letter)
  {
    var all := m + ":" + field;
    assert forall i | 0 <= i < |m| :: all[i] == m[i];
    assert all[|m|] == ':';
    assert forall i | |m| < i < |all| :: all[i] == field[i - |m| - 1];
  }

  function FirstLetter(r: Request): char {
    if r.Public? then 't' else 'l'
  }

  lemma JoinOfThree(a: string, b: string, c: string)
    ensures ":" + Join([a, b, c]) == ":" + a + ":" + b + ":" + c
  {
    assert [a, b, c][1..] == [b, c] && [b, c][1..] == [c];
    assert Join([b, c]) == b + ":" + Join([c]) == b + ":" + c;
    assert Join([a, b, c]) == a + ":" + (b + ":" + c);
    assert ":" + (a + ":" + (b + ":" + c)) == ":" + a + ":" + b + ":" + c;
  }

  lemma PublicMiddle(r: Request)
    requires r.Public?
    ensures StartsOnce(Middle(r), 't')
  {
    PublicClean(r);
    var f := Fields(r);
    assert f[5..8] == [f[5], f[6], f[7]];
    assert f[5][0] == 't' && f[6][0] == 's' && f[7][0] == 'l';
    var a, b, c := f[5], f[6], f[7];
    assert StartsOnce(":" + a, 't');
    hide Fields, StartsOnce, Join;
    JoinOfThree(a, b, c);
    StartsOnceThen(":" + a, b, 't');
    StartsOnceThen(":" + a + ":" + b, c, 't');
    StartsOnceThen(":" + a + ":" + b + ":" + c, "cursor=", 't');
  }

  lemma ForYouMiddle(r: Request)
    requires r.ForYou?
    ensures StartsOnce(Middle(r), 'l')
  {
    DecimalIsClean(r.limit);
    LabelledClean("limit", Decimal(r.limit));
    var f := Fields(r);
    assert f[5..6] == [f[5]];
    StartsOnceThen(":" + f[5], "cursor=", 'l');
  }

  lemma MiddleStartsOnce(r: Request)
    ensures StartsOnce(Middle(r), FirstLetter(r))
  {
    if r.Public? { PublicMiddle(r); } else { ForYouMiddle(r); }
  }

  // Two readings of one text around such middles: the longer front holds the other's middle.
  lemma TwoReadings(s: string, m: string, x: string, t: string, n: string, y: string, letter: char)
    returns (between: string)
    requires s + (m + x) == t + (n + y) && |s| < |t| && StartsOnce(m, letter) && StartsOnce(n, letter)
    ensures t == s + (m + between) && x == between + (n + y)
  {
    var all, d := s + (m + x), |t| - |s|;
    assert all == t + (n + y) && all[|s| + d] == ':' && all[|s| + d + 1] == letter;
    forall i | 1 <= i < |m| ensures m[i] == all[|s| + i] && i != d {
      assert i + 1 < |m| ==> all[|s| + i + 1] == m[i + 1];
    }
    between := t[|s| + |m|..];
    assert t == all[..|t|] && all[..|s|] == s && all[|s|..|s| + |m|] == m && all[|s| + |m|..] == x;
    assert x == all[|s| + |m|..|t|] + all[|t|..];
  }

  // ---------- Exactly which requests share a key ----------

  function Rest(r: Request): string {
    TextOf(r.topic) + (Middle(r) + TextOf(r.cursor))
  }

  lemma {:induction false} CleanPrefix(a: seq<string>, b: seq<string>, n: nat)
    requires |a| == |b| && n < |a| && Join(a) == Join(b)
    requires forall j | 0 <= j < n :: NoColon(a[j]) && NoColon(b[j])
    ensures a[..n] == b[..n] && Join(a[n..]) == Join(b[n..])
    decreases n
  {
    if n > 0 {
      FirstColon(a[0], Join(a[1..]), b[0], Join(b[1..]));
      CleanPrefix(a[1..], b[1..], n - 1);
      assert a[..n] == [a[0]] + a[1..][..n - 1] && b[..n] == [b[0]] + b[1..][..n - 1];
      assert a[1..][n - 1..] == a[n..] && b[1..][n - 1..] == b[n..];
    } else {
      assert a[0..] == a && b[0..] == b;
    }
  }

  lemma SameFeedIff(a: Request, b: Request)
    requires a.Public? == b.Public?
    ensures Fields(a)[..TOPIC_AT] == Fields(b)[..TOPIC_AT] <==> SameFeed(a, b)
  {
    var f, g := Fields(a), Fields(b);
    assert f[..TOPIC_AT] == [f[0], f[1], f[2], f[3]] && g[..TOPIC_AT] == [g[0], g[1], g[2], g[3]];
    if a.Public? {
      NamesDiffer(a, b);
      LabelledText("mode", ModeName(a.mode), ModeName(b.mode));
    } else {
      LabelledText("user", a.user, b.user);
    }
  }

  lemma TopicTail(r: Request)
    ensures Join(Fields(r)[TOPIC_AT..]) == "topic=" + Rest(r)
  {
    var f := Fields(r);
    var tail := f[TOPIC_AT + 1..];
    assert f[TOPIC_AT..][1..] == tail && f[TOPIC_AT..][0] == "topic=" + TextOf(r.topic);
    MiddleTail(r);
    hide Middle, Fields;
    assert Join(f[TOPIC_AT..]) == "topic=" + TextOf(r.topic) + ":" + Join(tail);
    hide Join, TextOf;
    ColonFirst("topic=", TextOf(r.topic), Join(tail));
  }

  // The key is the feed and the rest.
  lemma KeyIff(a: Request, b: Request)
    requires Valid(a) && Valid(b)
    ensures CacheKey(a) == CacheKey(b) <==> SameFeed(a, b) && Rest(a) == Rest(b)
  {
    var tag := "topic=";
    TopicTail(a);
    TopicTail(b);
    assert (tag + Rest(a))[|tag|..] == Rest(a) && (tag + Rest(b))[|tag|..] == Rest(b);
    KeyHead(a);
    KeyHead(b);
    hide Rest;
    if a.Public? == b.Public? {
      SameFeedIff(a, b);
      if CacheKey(a) == CacheKey(b) {
        FieldsClean(a);
        FieldsClean(b);
        CleanPrefix(Fields(a), Fields(b), TOPIC_AT);
      }
      JoinOfParts(Fields(a), TOPIC_AT);
      JoinOfParts(Fields(b), TOPIC_AT);
    }
  }

  // With topics of one length only the same request gives the same text.
  lemma SameRestSameTopic(a: Request, b: Request)
    requires Valid(a) && Valid(b) && SameFeed(a, b) && Rest(a) == Rest(b)
    requires |TextOf(a.topic)| == |TextOf(b.topic)|
    ensures SameRequest(a, b)
  {
    var s, t := TextOf(a.topic), TextOf(b.topic);
    assert s == Rest(a)[..|s|] == Rest(b)[..|t|] == t;
    assert Rest(a)[|s|..] == Middle(a) + TextOf(a.cursor) && Rest(b)[|t|..] == Middle(b) + TextOf(b.cursor);
    MiddleTail(a);
    MiddleTail(b);
    var f, g := Fields(a)[TOPIC_AT + 1..], Fields(b)[TOPIC_AT + 1..];
    assert (":" + Join(f))[1..] == Join(f) && (":" + Join(g))[1..] == Join(g);
    SameTail(a, b);
  }

  lemma SameTail(a: Request, b: Request)
    requires Valid(a) && Valid(b) && SameFeed(a, b) && TextOf(a.topic) == TextOf(b.topic)
    requires Join(Fields(a)[TOPIC_AT + 1..]) == Join(Fields(b)[TOPIC_AT + 1..])
    ensures SameRequest(a, b)
  {
    var f, g := Fields(a)[TOPIC_AT + 1..], Fields(b)[TOPIC_AT + 1..];
    FieldsClean(a);
    FieldsClean(b);
    SameFeedIff(a, b);
    SameFields(a, b);
    assert Fields(a)[TOPIC_AT] == Fields(b)[TOPIC_AT] && |Fields(a)| == |Fields(b)|;
    hide Fields, SameRequest, SameFeed, TextOf, Valid;
    JoinInjective(f, g, |f| - 1);
    assert Fields(a) == Fields(a)[..TOPIC_AT] + [Fields(a)[TOPIC_AT]] + f;
    assert Fields(b) == Fields(b)[..TOPIC_AT] + [Fields(b)[TOPIC_AT]] + g;
  }

  lemma ShorterTopic(a: Request, b: Request)
    requires SameFeed(a, b) && Rest(a) == Rest(b) && |TextOf(a.topic)| < |TextOf(b.topic)|
    ensures Swallows(a, b)
  {
    MiddleStartsOnce(a);
    MiddleStartsOnce(b);
    hide Middle, StartsOnce;
    var y := TwoReadings(TextOf(a.topic), Middle(a), TextOf(a.cursor),
                         TextOf(b.topic), Middle(b), TextOf(b.cursor), FirstLetter(a));
    assert SwallowsWith(a, b, y);
  }

  lemma SwallowedRest(a: Request, b: Request)
    requires Swallows(a, b)
    ensures Rest(a) == Rest(b)
  {
    var y :| SwallowsWith(a, b, y);
    hide Middle;
    Regroup(TextOf(a.topic), Middle(a), y, Middle(b) + TextOf(b.cursor));
  }

  /** Two requests share a cache key exactly when they ask for the same thing, or the
      topic of one takes in the topic, the middle and the start of the cursor of the other. */
  lemma SameKeyIff(a: Request, b: Request)
    requires Valid(a) && Valid(b)
    ensures CacheKey(a) == CacheKey(b) <==>
      SameRequest(a, b) || (SameFeed(a, b) && (Swallows(a, b) || Swallows(b, a)))
  {
    KeyIff(a, b);
    SameFields(a, b);
    hide Swallows, Rest, Fields, Valid;
    if Swallows(a, b) { SwallowedRest(a, b); }
    if Swallows(b, a) { SwallowedRest(b, a); }
    if SameFeed(a, b) && Rest(a) == Rest(b) {
      if |TextOf(a.topic)| == |TextOf(b.topic)| {
        SameRestSameTopic(a, b);
      } else if |TextOf(a.topic)| < |TextOf(b.topic)| {
        ShorterTopic(a, b);
      } else {
        ShorterTopic(b, a);
      }
    }
  }

  lemma SwallowingTakesColons(a: Request, b: Request)
    requires Swallows(a, b)
    ensures !NoColon(TextOf(b.topic)) && !NoColon(TextOf(a.cursor))
  {
    var y :| SwallowsWith(a, b, y);
    assert TextOf(b.topic)[|TextOf(a.topic)|] == ':' && TextOf(a.cursor)[|y|] == ':';
  }

  /** As long as topics, or else cursors, hold no colon, two requests share a cache key
      exactly when they ask for the same thing. */
  lemma SharedKeyIff(a: Request, b: Request)
    requires Valid(a) && Valid(b)
    requires
      || (NoColon(TextOf(a.topic)) && NoColon(TextOf(b.topic)))
      || (NoColon(TextOf(a.cursor)) && NoColon(TextOf(b.cursor)))
    ensures CacheKey(a) == CacheKey(b) <==> SameRequest(a, b)
  {
    SameKeyIff(a, b);
    hide Swallows, CacheKey;
    if Swallows(a, b) { SwallowingTakesColons(a, b); }
    if Swallows(b, a) { SwallowingTakesColons(b, a); }
  }

  function Asking(r: Request, topic: string, cursor: string): Request {
    match r
    case Public(mode, _, trending, sort, limit, _) => Public(mode, Some(topic), trending, sort, limit, Some(cursor))
    case ForYou(user, _, limit, _) => ForYou(user, Some(topic), limit, Some(cursor))
  }

  lemma AskingKeepsMiddle(r: Request, topic: string, cursor: string)
    ensures Middle(Asking(r, topic, cursor)) == Middle(r)
  {
    var f, g := Fields(r), Fields(Asking(r, topic, cursor));
    assert f[TOPIC_AT + 1..CursorAt(r)] == g[TOPIC_AT + 1..CursorAt(r)];
  }

  /** Such requests exist for every feed and all texts. */
  lemma AmbiguousKey(r: Request, x: string, y: string, z: string)
    requires Valid(r)
    ensures
      var inCursor, inTopic := Asking(r, x, y + (Middle(r) + z)), Asking(r, x + (Middle(r) + y), z);
      CacheKey(inCursor) == CacheKey(inTopic) && !SameRequest(inCursor, inTopic)
  {
    var inCursor, inTopic := Asking(r, x, y + (Middle(r) + z)), Asking(r, x + (Middle(r) + y), z);
    AskingKeepsMiddle(r, x, y + (Middle(r) + z));
    AskingKeepsMiddle(r, x + (Middle(r) + y), z);
    assert SwallowsWith(inCursor, inTopic, y);
    assert |Middle(r)| > 0;
    SameKeyIff(inCursor, inTopic);
  }

  // ---------- Lock keys ----------

  const LOCK_SUFFIX := ":revalidate-lock"

  function LockKey(r: Request): string {
    CacheKey(r) + LOCK_SUFFIX
  }

  function WithCursor(r: Request, cursor: string): Request {
    match r
    case Public(mode, topic, trending, sort, limit, _) => Public(mode, topic, trending, sort, limit, Some(cursor))
    case ForYou(user, topic, limit, _) => ForYou(user, topic, limit, Some(cursor))
  }

  lemma {:induction false} JoinExtends(fields: seq<string>, suffix: string)
    requires fields != []
    ensures Join(fields[|fields| - 1 := fields[|fields| - 1] + suffix]) == Join(fields) + suffix
    decreases |fields|
  {
    if |fields| > 1 {
      JoinExtends(fields[1..], suffix);
      var last := |fields| - 1;
      assert fields[last := fields[last] + suffix][1..] == fields[1..][last - 1 := fields[last] + suffix];
    }
  }

  // The lock of a request has the key of the same request with the suffix on its cursor.
  lemma LockKeyIsCacheKey(a: Request)
    ensures LockKey(a) == CacheKey(WithCursor(a, TextOf(a.cursor) + LOCK_SUFFIX))
  {
    var f := Fields(a);
    JoinExtends(f, LOCK_SUFFIX);
    assert Labelled("cursor", TextOf(a.cursor)) + LOCK_SUFFIX == Labelled("cursor", TextOf(a.cursor) + LOCK_SUFFIX);
    assert Fields(WithCursor(a, TextOf(a.cursor) + LOCK_SUFFIX)) == f[|f| - 1 := f[|f| - 1] + LOCK_SUFFIX];
  }

  predicate EndsInLockSuffix(cursor: string) {
    |cursor| >= |LOCK_SUFFIX| && cursor[|cursor| - |LOCK_SUFFIX|..] == LOCK_SUFFIX
  }

  /** For colon-free topics, one request's lock is another's cache entry exactly when the
      other is the same request with the lock suffix on its cursor. */
  lemma LockClashIff(a: Request, b: Request)
    requires Valid(a) && Valid(b) && NoColon(TextOf(a.topic)) && NoColon(TextOf(b.topic))
    ensures LockKey(a) == CacheKey(b) <==> SameRequest(WithCursor(a, TextOf(a.cursor) + LOCK_SUFFIX), b)
    ensures LockKey(a) == CacheKey(b) ==> EndsInLockSuffix(TextOf(b.cursor))
  {
    LockKeyIsCacheKey(a);
    SharedKeyIff(WithCursor(a, TextOf(a.cursor) + LOCK_SUFFIX), b);
  }

  lemma MarksAgree(s: string, mark: string, t: string, last: string)
    requires s + ":" + mark == t + ":" + last && NoColon(mark) && NoColon(last)
    ensures mark == last
  {
    LastColon(s, mark, t, last);
  }

  lemma KeyEnd(r: Request)
    ensures CacheKey(r) == Join(Fields(r)[..CursorAt(r)]) + ":" + Labelled("cursor", TextOf(r.cursor))
  {
    var f, c := Fields(r), CursorAt(r);
    assert f[c..] == [f[c]] && f[c] == Labelled("cursor", TextOf(r.cursor));
    hide Fields, Labelled;
    JoinOfParts(f, c);
  }

  const LOCK_NAME := "revalidate-lock"

  lemma LockKeyEnd(r: Request)
    ensures LockKey(r) == CacheKey(r) + ":" + LOCK_NAME && NoColon(LOCK_NAME)
  {
    hide CacheKey;
    assert LOCK_SUFFIX == ":" + LOCK_NAME;
  }

  // A cursor without colons gives no lock's key, whatever the topics.
  lemma PlainCursorNoLock(a: Request, b: Request)
    requires NoColon(TextOf(b.cursor))
    ensures LockKey(a) != CacheKey(b)
  {
    LabelledClean("cursor", TextOf(b.cursor));
    KeyEnd(b);
    LockKeyEnd(a);
    var last := Labelled("cursor", TextOf(b.cursor));
    assert last[0] != LOCK_NAME[0];
    hide *;
    if LockKey(a) == CacheKey(b) {
      MarksAgree(CacheKey(a), LOCK_NAME, Join(Fields(b)[..CursorAt(b)]), last);
    }
  }
}
