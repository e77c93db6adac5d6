/** The public score of a post and its trending flag, as every refresh recomputes them. */
module ExploreScore {
  // Counts of a post; `logViews` stands for log1p(views).
  datatype Engagement = Engagement(likes: nat, comments: nat, views: nat, logViews: real)

  predicate Valid(e: Engagement) {
    e.logViews >= 0.0 && (e.views == 0 ==> e.logViews == 0.0)
  }

  function Max(a: real, b: real): real {
    if a >= b then a else b
  }

  function Min(a: real, b: real): real {
    if a <= b then a else b
  }

  // Four decimals, ties away from zero.
  function Rounded(x: real): real {
    if x >= 0.0 then (x * 10000.0 + 0.5).Floor as real / 10000.0
    else -((-x * 10000.0 + 0.5).Floor as real / 10000.0)
  }

  function AgeHours(createdAt: int, now: int): real {
    (now - createdAt) as real / 3_600_000.0
  }

  function EngagementPart(e: Engagement): real {
    var qualityRate := (e.likes + e.comments * 2) as real / (if e.views >= 20 then e.views else 20) as real;
    (e.likes * 3 + e.comments * 4) as real + e.logViews * 2.0 + Min(8.0, qualityRate * 40.0)
  }

  function ColdStart(age: real): real {
    if age <= 2.0 then 10.0 else if age <= 12.0 then 6.0 else if age <= 24.0 then 3.0 else 0.0
  }

  function AgePart(age: real): real {
    Max(0.0, 24.0 - age) * 0.35 + ColdStart(age) - age * 0.15
  }

  function Score(e: Engagement, age: real): real {
    Max(0.0, Rounded(EngagementPart(e) + AgePart(age)))
  }

  predicate Trending(e: Engagement, age: real) {
    age <= 72.0 && Score(e, age) >= 14.0
  }

  lemma FloorMonotone(x: real, y: real)
    requires x <= y
    ensures x.Floor <= y.Floor
  {
  }

  lemma RoundedMonotone(x: real, y: real)
    requires x <= y
    ensures Rounded(x) <= Rounded(y)
  {
    if x >= 0.0 {
      FloorMonotone(x * 10000.0 + 0.5, y * 10000.0 + 0.5);
    } else if y < 0.0 {
      FloorMonotone(-y * 10000.0 + 0.5, -x * 10000.0 + 0.5);
    } else {
      FloorMonotone(0.5, -x * 10000.0 + 0.5);
      FloorMonotone(0.5, y * 10000.0 + 0.5);
    }
  }

  lemma AgePartFalls(a: real, b: real)
    requires a <= b
    ensures AgePart(b) <= AgePart(a)
    ensures a < b ==> AgePart(b) < AgePart(a)
  {
    assert Max(0.0, 24.0 - b) <= Max(0.0, 24.0 - a);
    assert ColdStart(b) <= ColdStart(a);
  }

  /** With the counts frozen a score never rises with age. */
  lemma ScoreFalls(e: Engagement, a: real, b: real)
    requires a <= b
    ensures Score(e, b) <= Score(e, a)
  {
    AgePartFalls(a, b);
    RoundedMonotone(EngagementPart(e) + AgePart(b), EngagementPart(e) + AgePart(a));
  }

  function Flags(e: Engagement, createdAt: int, refreshes: seq<int>): (r: seq<bool>)
    ensures |r| == |refreshes|
    ensures forall i | 0 <= i < |r| :: r[i] == Trending(e, AgeHours(createdAt, refreshes[i]))
  {
    seq(|refreshes|, i requires 0 <= i < |refreshes| => Trending(e, AgeHours(createdAt, refreshes[i])))
  }

  /** Over successive refreshes without new engagement the trending flag is on up to some
      point and off from there. */
  lemma TrendingNeverReturns(e: Engagement, createdAt: int, refreshes: seq<int>) returns (n: nat)
    requires forall i, j | 0 <= i < j < |refreshes| :: refreshes[i] <= refreshes[j]
    ensures n <= |refreshes| && forall i | 0 <= i < |refreshes| :: Flags(e, createdAt, refreshes)[i] <==> i < n
  {
    n := 0;
    while n < |refreshes| && Trending(e, AgeHours(createdAt, refreshes[n]))
      invariant n <= |refreshes|
      invariant forall i | 0 <= i < n :: Trending(e, AgeHours(createdAt, refreshes[i]))
    {
      n := n + 1;
    }
    forall i | n <= i < |refreshes|
      ensures !Trending(e, AgeHours(createdAt, refreshes[i]))
    {
      assert refreshes[n] <= refreshes[i];
      ScoreFalls(e, AgeHours(createdAt, refreshes[n]), AgeHours(createdAt, refreshes[i]));
    }
  }

  /** Likes and comments never cost a post its flag. */
  lemma LikesHelp(e: Engagement, likes: nat, comments: nat, age: real)
    requires e.likes <= likes && e.comments <= comments
    ensures Score(e, age) <= Score(e.(likes := likes, comments := comments), age)
  {
    var more := e.(likes := likes, comments := comments);
    var views := (if e.views >= 20 then e.views else 20) as real;
    QuotientMonotone((e.likes + e.comments * 2) as real, (likes + comments * 2) as real, views);
    RoundedMonotone(EngagementPart(e) + AgePart(age), EngagementPart(more) + AgePart(age));
  }

  lemma QuotientMonotone(x: real, y: real, d: real)
    requires x <= y && d > 0.0
    ensures x / d <= y / d
  {
    assert y / d - x / d == (y - x) / d;
  }

  // What the age of a post adds, bracket by bracket.
  function AgePoints(age: real): real {
    if age <= 2.0 then 18.4 - 0.5 * age
    else if age <= 12.0 then 14.4 - 0.5 * age
    else if age <= 24.0 then 11.4 - 0.5 * age
    else -0.15 * age
  }

  lemma RoundedReaches14(x: real)
    ensures Rounded(x) >= 14.0 <==> x >= 13.99995
  {
    if x >= 0.0 {
      var n := (x * 10000.0 + 0.5).Floor;
      assert Rounded(x) >= 14.0 <==> n >= 140000;
    } else {
      FloorMonotone(0.5, -x * 10000.0 + 0.5);
    }
  }

  /** The flag in closed form: a post of at most three days trends exactly when three points
      per like, four per comment, two per logarithm of the views, at most eight for the rate of
      reactions, and what its age adds come to fourteen after rounding. */
  lemma TrendingIff(e: Engagement, age: real)
    ensures
      var views := if e.views <= 20 then 20.0 else e.views as real;
      var rate := 40.0 * (e.likes + 2 * e.comments) as real / views;
      Trending(e, age) <==>
        age <= 72.0
        && (3 * e.likes + 4 * e.comments) as real + 2.0 * e.logViews + (if rate <= 8.0 then rate else 8.0)
           + AgePoints(age) >= 13.99995
  {
    var views := if e.views <= 20 then 20.0 else e.views as real;
    Factor((e.likes + 2 * e.comments) as real, views);
    assert AgePart(age) == AgePoints(age) by {
      if age <= 24.0 { assert Max(0.0, 24.0 - age) == 24.0 - age; }
    }
    RoundedReaches14(EngagementPart(e) + AgePart(age));
    hide Rounded, AgePart, AgePoints;
  }

  lemma Factor(x: real, d: real)
    requires d > 0.0
    ensures x / d * 40.0 == 40.0 * x / d
  {
  }

  /** A post nobody has reacted to trends for exactly its first two hours. */
  lemma QuietPostTrendsIff(e: Engagement, age: real)
    requires Valid(e) && e.likes == 0 && e.comments == 0 && e.views == 0
    ensures Trending(e, age) <==> age <= 2.0
  {
    assert EngagementPart(e) == 0.0;
    if age <= 2.0 {
      AgePartFalls(age, 2.0);
      assert AgePart(2.0) == 17.4;
      RoundedMonotone(17.4, AgePart(age));
      assert Rounded(17.4) == 17.4;
    } else {
      assert AgePart(age) <= 13.4 by {
        if age <= 12.0 { } else { }
      }
      RoundedMonotone(AgePart(age), 13.4);
      assert Rounded(13.4) == 13.4;
    }
  }
}
