/**
 The engagement level derived from the total click count (app.py:41-52) and
 the emoji shown next to it in the engagement summary (app.py:56-62).
 */
module Engagement {

  datatype Level = Low | Moderate | High | VeryHigh

  /** The inclusive upper bounds of the first three brackets, in increasing order. */
  const Thresholds: seq<int> := [100, 1000, 10000]

  /** The position of a level in the order Low < Moderate < High < Very High. */
  function Rank(l: Level): nat {
    match l
    case Low => 0
    case Moderate => 1
    case High => 2
    case VeryHigh => 3
  }

  /** The string the program uses for a level, and the key of its emoji. */
  function LevelName(l: Level): string {
    match l
    case Low => "Low"
    case Moderate => "Moderate"
    case High => "High"
    case VeryHigh => "Very High"
  }

  /** Distinct levels have distinct names. */
  lemma LevelNamesDistinct()
    ensures forall l, m :: LevelName(l) == LevelName(m) ==> l == m
  {
  }

  /** How many of the bounds `ts` a click count lies strictly above. */
  function Exceeded(ts: seq<int>, clicks: int): (k: nat)
    ensures k <= |ts|
  {
    if |ts| == 0 then 0
    else (if ts[0] < clicks then 1 else 0) + Exceeded(ts[1..], clicks)
  }

  /** Against the three fixed bounds, the count is one per bound lying below the clicks. */
  lemma ExceededThresholds(clicks: int)
    ensures Exceeded(Thresholds, clicks) ==
      (if 100 < clicks then 1 else 0) + (if 1000 < clicks then 1 else 0) + (if 10000 < clicks then 1 else 0)
  {
    var t1, t2, t3 := Thresholds[1..], Thresholds[2..], Thresholds[3..];
    assert t1 == [1000, 10000] && t2 == [10000] && t3 == [];
    assert t1[1..] == t2 && t2[1..] == t3;
    assert Exceeded(t3, clicks) == 0;
    assert Exceeded(t2, clicks) == (if 10000 < clicks then 1 else 0);
    assert Exceeded(t1, clicks) == (if 1000 < clicks then 1 else 0) + Exceeded(t2, clicks);
  }

  /** `calculate_engagement`: the bracket of `clicks`, each bracket's upper bound inclusive. */
  function CalculateEngagement(clicks: int): (l: Level)
    ensures Rank(l) == Exceeded(Thresholds, clicks)
  {
    ExceededThresholds(clicks);
    if clicks <= 100 then Low
    else if clicks <= 1000 then Moderate
    else if clicks <= 10000 then High
    else VeryHigh
  }

  /** The four brackets, both directions: a level is returned exactly for the counts in its bracket. */
  lemma EngagementBrackets(clicks: int)
    ensures CalculateEngagement(clicks) == Low <==> clicks <= 100
    ensures CalculateEngagement(clicks) == Moderate <==> 100 < clicks <= 1000
    ensures CalculateEngagement(clicks) == High <==> 1000 < clicks <= 10000
    ensures CalculateEngagement(clicks) == VeryHigh <==> 10000 < clicks
  {
    ExceededThresholds(clicks);
  }

  /** The bracket boundaries 100, 1000 and 10000 belong to the lower bracket. */
  lemma BoundariesFallLow()
    ensures CalculateEngagement(100) == Low && CalculateEngagement(101) == Moderate
    ensures CalculateEngagement(1000) == Moderate && CalculateEngagement(1001) == High
    ensures CalculateEngagement(10000) == High && CalculateEngagement(10001) == VeryHigh
  {
  }

  lemma {:induction false} ExceededMonotone(ts: seq<int>, a: int, b: int)
    requires a <= b
    ensures Exceeded(ts, a) <= Exceeded(ts, b)
  {
    if |ts| > 0 {
      ExceededMonotone(ts[1..], a, b);
    }
  }

  /** More clicks never give a lower engagement level. */
  lemma EngagementMonotone(a: int, b: int)
    requires a <= b
    ensures Rank(CalculateEngagement(a)) <= Rank(CalculateEngagement(b))
  {
    ExceededMonotone(Thresholds, a, b);
  }

  /** `emoji_map`: the emoji shown beside each level name. */
  const EmojiMap: map<string, string> := map[
    "Low" := "\U{1F634}",
    "Moderate" := "\U{1F642}",
    "High" := "\U{1F4AA}",
    "Very High" := "\U{1F680}"]

  /**
   The lookup `emoji_map[engagement_level]` cannot fail: the map's keys are
   exactly the level names, and the names of distinct levels differ.
   */
  lemma EmojiLookupTotal(clicks: int)
    ensures LevelName(CalculateEngagement(clicks)) in EmojiMap
    ensures forall k :: k in EmojiMap <==> exists l :: LevelName(l) == k
    ensures forall l, m :: LevelName(l) == LevelName(m) ==> l == m
  {
    LevelNamesDistinct();
    forall k | k in EmojiMap
      ensures exists l :: LevelName(l) == k
    {
      if k == "Low" { assert LevelName(Low) == k; }
      else if k == "Moderate" { assert LevelName(Moderate) == k; }
      else if k == "High" { assert LevelName(High) == k; }
      else { assert LevelName(VeryHigh) == k; }
    }
  }
}
