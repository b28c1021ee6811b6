/** The tracing score and its star rating (view/DrawingView.kt, calculateScore and
    getStarsFromScore). Durations are in milliseconds. The source computes with 32-bit
    floats; on scores 0..100 the float products truncate to the integer quotients used
    here, and RealScore below is the same rule read with exact real arithmetic. */
module Scoring {

  /** Attempts shorter than this are taken for accidental taps. */
  const TooFastMs: int := 1000
  /** The bonus window, both ends included. */
  const BonusFromMs: int := 2000
  const BonusToMs: int := 8000
  /** Attempts longer than this are penalised. */
  const PenaltyAboveMs: int := 15000
  const MaxScore: int := 100

  /** Kotlin's `coerceIn`. */
  function CoerceIn(v: int, lo: int, hi: int): (r: int)
    requires lo <= hi
    ensures lo <= r <= hi
    ensures lo <= v <= hi ==> r == v
    ensures v < lo ==> r == lo
    ensures hi < v ==> r == hi
  {
    if v < lo then lo else if hi < v then hi else v
  }

  /** Kotlin's `Int / Int`, which truncates toward zero (Dafny's `/` is Euclidean). */
  function TruncDiv(a: int, b: int): (q: int)
    requires b > 0
    ensures 0 <= a ==> q == a / b
    ensures a < 0 ==> q <= 0
  {
    if 0 <= a then a / b else -((-a) / b)
  }

  /** One score point per ten touch points, clamped to 0..100. */
  function BaseScore(points: int): (b: int)
    ensures 0 <= b <= MaxScore
    ensures points < 10 ==> b == 0
    ensures 1000 <= points ==> b == MaxScore
  {
    CoerceIn(TruncDiv(points, 10), 0, MaxScore)
  }

  /** calculateScore(points, duration). */
  function CalculateScore(points: int, duration: int): (score: int)
    ensures 0 <= score <= MaxScore
    ensures duration < TooFastMs ==> score == 0
    ensures points < 10 ==> score == 0
  {
    if duration < TooFastMs then 0
    else
      var base := BaseScore(points);
      var adjusted :=
        if BonusFromMs <= duration <= BonusToMs then CoerceIn(base * 6 / 5, 0, MaxScore)
        else if PenaltyAboveMs < duration then base * 4 / 5
        else base;
      CoerceIn(adjusted, 0, MaxScore)
  }

  /** The scoring rule as the source writes it, with exact reals in place of floats:
      seconds = duration / 1000, the bonus multiplies by 1.2 and the penalty by 0.8,
      and each product is truncated. */
  function RealScore(points: int, duration: int): (score: int)
    ensures 0 <= score <= MaxScore
    ensures duration < TooFastMs ==> score == 0
  {
    var seconds := duration as real / 1000.0;
    if seconds < 1.0 then 0
    else
      var base := BaseScore(points);
      var adjusted :=
        if 2.0 <= seconds <= 8.0 then CoerceIn((base as real * 1.2).Floor, 0, MaxScore)
        else if seconds > 15.0 then (base as real * 0.8).Floor
        else base;
      CoerceIn(adjusted, 0, MaxScore)
  }

  /** The integer rule and the real-arithmetic rule agree on every input. */
  lemma IntegerScoreMatchesRealScore(points: int, duration: int)
    ensures CalculateScore(points, duration) == RealScore(points, duration)
  {
    var base := BaseScore(points);
    assert (base as real * 1.2).Floor == base * 6 / 5 by {
      var q := base * 6 / 5;
      assert 5 * q <= 6 * base < 5 * q + 5;
      assert q as real <= base as real * 1.2 < q as real + 1.0;
    }
    assert (base as real * 0.8).Floor == base * 4 / 5 by {
      var q := base * 4 / 5;
      assert 5 * q <= 4 * base < 5 * q + 5;
      assert q as real <= base as real * 0.8 < q as real + 1.0;
    }
  }

  /** The three duration bands, in terms of the base score. */
  lemma ScoreByDurationBand(points: int, duration: int)
    ensures var base := BaseScore(points);
      && (BonusFromMs <= duration <= BonusToMs ==>
            CalculateScore(points, duration) == if base * 6 / 5 < MaxScore then base * 6 / 5 else MaxScore)
      && (PenaltyAboveMs < duration ==> CalculateScore(points, duration) == base * 4 / 5)
      && ((TooFastMs <= duration < BonusFromMs || BonusToMs < duration <= PenaltyAboveMs) ==>
            CalculateScore(points, duration) == base)
  {
  }

  lemma BaseScoreMonotone(p1: int, p2: int)
    requires p1 <= p2
    ensures BaseScore(p1) <= BaseScore(p2)
  {
    if 0 <= p1 {
      assert p1 / 10 <= p2 / 10;
    }
  }

  /** For a fixed duration, more touch points never lower the score. */
  lemma ScoreMonotoneInPoints(p1: int, p2: int, duration: int)
    requires p1 <= p2
    ensures CalculateScore(p1, duration) <= CalculateScore(p2, duration)
  {
    BaseScoreMonotone(p1, p2);
    var b1, b2 := BaseScore(p1), BaseScore(p2);
    assert b1 * 6 / 5 <= b2 * 6 / 5;
    assert b1 * 4 / 5 <= b2 * 4 / 5;
  }

  /** getStarsFromScore(score). */
  function StarsFromScore(score: int): (stars: int)
    ensures 0 <= stars <= 3
  {
    if score >= 70 then 3
    else if score >= 40 then 2
    else if score >= 20 then 1
    else 0
  }

  /** The score a rating of one, two and three stars needs. */
  const StarThresholds: seq<int> := [20, 40, 70]

  /** How many of the thresholds `ts` the score reaches. */
  function ThresholdsReached(ts: seq<int>, score: int): nat
  {
    if ts == [] then 0
    else (if ts[0] <= score then 1 else 0) + ThresholdsReached(ts[1..], score)
  }

  /** The rating is the number of thresholds the score reaches. */
  lemma StarsCountThresholds(score: int)
    ensures StarsFromScore(score) == ThresholdsReached(StarThresholds, score)
  {
    var ts := StarThresholds;
    assert ts[1..][1..][1..] == [];
    assert ThresholdsReached(ts[1..][1..], score) == if 70 <= score then 1 else 0;
    assert ThresholdsReached(ts[1..], score) == (if 40 <= score then 1 else 0) + (if 70 <= score then 1 else 0);
  }

  /** At least k stars exactly when the score reaches the k-th threshold. */
  lemma StarsReachThreshold(score: int, k: int)
    requires 1 <= k <= 3
    ensures StarsFromScore(score) >= k <==> score >= StarThresholds[k - 1]
  {
  }

  lemma StarsMonotone(s1: int, s2: int)
    requires s1 <= s2
    ensures StarsFromScore(s1) <= StarsFromScore(s2)
  {
  }

  /** The boundary values of the rating. */
  lemma StarBoundaries()
    ensures StarsFromScore(19) == 0 && StarsFromScore(20) == 1
    ensures StarsFromScore(39) == 1 && StarsFromScore(40) == 2
    ensures StarsFromScore(69) == 2 && StarsFromScore(70) == 3
  {
  }

  /** An attempt under one second scores 0 and earns no star. */
  lemma QuickTapEarnsNoStar(points: int, duration: int)
    requires duration < TooFastMs
    ensures CalculateScore(points, duration) == 0
    ensures StarsFromScore(CalculateScore(points, duration)) == 0
  {
  }

  /** The fewest touch points that earn at least k stars, by duration band. */
  function PointsForStars(k: int, duration: int): int
    requires 1 <= k <= 3
  {
    if BonusFromMs <= duration <= BonusToMs then [170, 340, 590][k - 1]
    else if PenaltyAboveMs < duration then [250, 500, 880][k - 1]
    else [200, 400, 700][k - 1]
  }

  /** Touch points and stars: once an attempt lasts a second, it earns at least k stars
      exactly when it has at least PointsForStars(k, duration) touch points. */
  lemma StarsFromPoints(points: int, duration: int, k: int)
    requires 1 <= k <= 3
    requires TooFastMs <= duration
    ensures StarsFromScore(CalculateScore(points, duration)) >= k <==> points >= PointsForStars(k, duration)
  {
    var base := BaseScore(points);
    var m := StarThresholds[k - 1];
    StarsReachThreshold(CalculateScore(points, duration), k);
    // base >= b exactly when points >= 10 * b, for every b in 1..100
    assert forall b :: 1 <= b <= MaxScore ==> (base >= b <==> points >= 10 * b);
    if BonusFromMs <= duration <= BonusToMs {
      var need := [17, 34, 59][k - 1];
      assert base * 6 / 5 >= m <==> base >= need;
    } else if PenaltyAboveMs < duration {
      var need := [25, 50, 88][k - 1];
      assert base * 4 / 5 >= m <==> base >= need;
    }
  }

  /** Three worked examples: two in the bonus window and one over 15 s. */
  lemma ScoreExamples()
    ensures CalculateScore(50, 3000) == 6 && StarsFromScore(6) == 0
    ensures CalculateScore(800, 5000) == 96 && StarsFromScore(96) == 3
    ensures CalculateScore(500, 20000) == 40 && StarsFromScore(40) == 2
  {
  }
}
