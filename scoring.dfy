/** The revenue-leak score: start from 100, subtract one capped penalty
    per weakness found, clamp to [0, 100], map the score to a letter
    grade and estimate the monthly revenue lost. */
module Scoring {
  import opened Store
  import opened Seqs
  import opened Text
  import opened Arith
  import opened Signals
  import opened Checkouts

  /** What the scorer reads back from the scan result. */
  datatype ScoreInputs = ScoreInputs(
    withoutImages: nat,
    withoutDescriptions: nat,
    trust: seq<Signal>,
    abandonmentTenths: nat,   // `parseFloat(cartAnalytics.abandonmentRate)`, in tenths
    tracking: seq<Signal>,
    theme: string)

  // ---------------------------------------------------------------- penalties

  /** Two points per product without an image, at most 15. */
  function ImagePenalty(n: nat): (p: nat)
    ensures p <= 15 && p <= 2 * n
    ensures p == 0 <==> n == 0
  {
    if n > 0 then Min(15, n * 2) else 0
  }

  /** One point per product without a description, at most 10. */
  function DescriptionPenalty(n: nat): (p: nat)
    ensures p <= 10 && p <= n
    ensures p == 0 <==> n == 0
  {
    if n > 0 then Min(10, n) else 0
  }

  /** 20, 15, 10 or 5 points above 70%, 50%, 30% or 20% abandonment. */
  function AbandonmentPenalty(tenths: nat): (p: nat)
    ensures p <= 20 && p % 5 == 0
  {
    if tenths > 700 then 20
    else if tenths > 500 then 15
    else if tenths > 300 then 10
    else if tenths > 200 then 5
    else 0
  }

  /** Ten points when the theme's name mentions Debut or Brooklyn. */
  function ThemePenalty(theme: string): (p: nat)
    ensures p == 0 || p == 10
  {
    if Contains(theme, "Debut") || Contains(theme, "Brooklyn") then 10 else 0
  }

  function TotalPenalty(inp: ScoreInputs): nat {
    ImagePenalty(inp.withoutImages)
    + DescriptionPenalty(inp.withoutDescriptions)
    + 8 * MissingHigh(inp.trust)
    + AbandonmentPenalty(inp.abandonmentTenths)
    + 10 * MissingHigh(inp.tracking)
    + ThemePenalty(inp.theme)
  }

  function Clamp(x: int): (c: int)
    ensures 0 <= c <= 100
    ensures 0 <= x <= 100 ==> c == x
  {
    if x < 0 then 0 else if x > 100 then 100 else x
  }

  /** `let score = 100`, the six conditional decrements, then
      `Math.max(0, Math.min(100, score))`. */
  method ComputeScore(inp: ScoreInputs) returns (score: int)
    ensures 0 <= score <= 100
    ensures score == Clamp(100 - TotalPenalty(inp))
    ensures TotalPenalty(inp) <= 100 ==> score == 100 - TotalPenalty(inp)
    ensures TotalPenalty(inp) >= 100 ==> score == 0
  {
    score := 100;
    if inp.withoutImages > 0 {
      score := score - Min(15, inp.withoutImages * 2);
    }
    if inp.withoutDescriptions > 0 {
      score := score - Min(10, inp.withoutDescriptions);
    }
    var missingHighTrust := MissingHigh(inp.trust);
    score := score - missingHighTrust * 8;
    var rate := inp.abandonmentTenths;
    if rate > 700 {
      score := score - 20;
    } else if rate > 500 {
      score := score - 15;
    } else if rate > 300 {
      score := score - 10;
    } else if rate > 200 {
      score := score - 5;
    }
    var missingTracking := MissingHigh(inp.tracking);
    score := score - missingTracking * 10;
    if Contains(inp.theme, "Debut") || Contains(inp.theme, "Brooklyn") {
      score := score - 10;
    }
    score := if score < 0 then 0 else if score > 100 then 100 else score;
  }

  /** A larger penalty never gives a higher score. */
  lemma ScoreAntitone(a: ScoreInputs, b: ScoreInputs)
    requires TotalPenalty(a) <= TotalPenalty(b)
    ensures Clamp(100 - TotalPenalty(b)) <= Clamp(100 - TotalPenalty(a))
  {
  }

  /** The abandonment penalty, stated on the counts behind the rate: each
      step is reached exactly when the abandoned share of the checkout
      starts passes the step's percentage once rounded to one decimal. */
  lemma AbandonmentPenaltyOfCounts(abandoned: nat, starts: nat)
    requires starts > 0
    ensures var p := AbandonmentPenalty(PercentTenths(abandoned, starts));
      && (p == 20 <==> 2000 * abandoned >= 1401 * starts)
      && (p >= 15 <==> 2000 * abandoned >= 1001 * starts)
      && (p >= 10 <==> 2000 * abandoned >= 601 * starts)
      && (p >= 5 <==> 2000 * abandoned >= 401 * starts)
  {
    PercentAbove(abandoned, starts, 70);
    PercentAbove(abandoned, starts, 50);
    PercentAbove(abandoned, starts, 30);
    PercentAbove(abandoned, starts, 20);
  }

  /** The abandonment penalty grows with the rate. */
  lemma AbandonmentPenaltyMonotone(t1: nat, t2: nat)
    requires t1 <= t2
    ensures AbandonmentPenalty(t1) <= AbandonmentPenalty(t2)
  {
  }

  // ---------------------------------------------------------------- grade

  const GradeThresholds: seq<int> := [50, 60, 65, 70, 75, 80, 85, 90, 95]

  const GradeLetters: seq<string> := ["D", "D+", "C-", "C", "C+", "B-", "B", "B+", "A-", "A"]

  function Reached(score: int): int -> bool {
    t => t <= score
  }

  /** How many grade thresholds the score reaches: the position of its
      grade in `GradeLetters`. */
  function GradeRank(score: int): (k: nat)
    ensures k <= 9
  {
    Count(GradeThresholds, Reached(score))
  }

  /** A higher score never gets a lower grade. */
  lemma GradeRankMonotone(s1: int, s2: int)
    requires s1 <= s2
    ensures GradeRank(s1) <= GradeRank(s2)
  {
    CountMonotone(GradeThresholds, Reached(s1), Reached(s2));
  }

  lemma ThresholdsIncrease()
    ensures forall i, j :: 0 <= i < j < |GradeThresholds| ==> GradeThresholds[i] < GradeThresholds[j]
  {
  }

  lemma ReachedPrefix(ts: seq<int>, score: int, k: nat)
    requires forall i, j :: 0 <= i < j < |ts| ==> ts[i] < ts[j]
    requires 0 < k <= |ts| && ts[k - 1] <= score
    ensures Count(ts[..k], Reached(score)) == k
  {
    var lo := ts[..k];
    forall i | 0 <= i < |lo|
      ensures Reached(score)(lo[i])
    {
      assert lo[i] == ts[i] <= ts[k - 1];
    }
    AllCounted(lo, Reached(score));
  }

  lemma ReachedNoneAbove(ts: seq<int>, score: int, k: nat)
    requires forall i, j :: 0 <= i < j < |ts| ==> ts[i] < ts[j]
    requires k < |ts| && score < ts[k]
    ensures Count(ts[k..], Reached(score)) == 0
  {
    var hi := ts[k..];
    forall i | 0 <= i < |hi|
      ensures !Reached(score)(hi[i])
    {
      assert hi[i] == ts[k + i];
      assert i == 0 || ts[k] < ts[k + i];
    }
    NoneCounted(hi, Reached(score));
  }

  /** In an increasing list, a score between the `k`-th entry and the next
      reaches exactly `k` entries. */
  lemma ReachedBetween(ts: seq<int>, score: int, k: nat)
    requires forall i, j :: 0 <= i < j < |ts| ==> ts[i] < ts[j]
    requires k <= |ts|
    requires k == 0 || ts[k - 1] <= score
    requires k == |ts| || score < ts[k]
    ensures Count(ts, Reached(score)) == k
  {
    assert ts == ts[..k] + ts[k..];
    CountAppend(ts[..k], ts[k..], Reached(score));
    if k > 0 {
      ReachedPrefix(ts, score, k);
    }
    if k < |ts| {
      ReachedNoneAbove(ts, score, k);
    }
  }

  /** A score between the `k`-th threshold and the next has rank `k`. */
  lemma GradeRankBetween(score: int, k: nat)
    requires k <= 9
    requires k == 0 || GradeThresholds[k - 1] <= score
    requires k == 9 || score < GradeThresholds[k]
    ensures GradeRank(score) == k
  {
    ThresholdsIncrease();
    ReachedBetween(GradeThresholds, score, k);
  }

  lemma {:induction false} AllCounted(s: seq<int>, f: int -> bool)
    requires forall i :: 0 <= i < |s| ==> f(s[i])
    ensures Count(s, f) == |s|
    decreases |s|
  {
    if s != [] { AllCounted(s[1..], f); }
  }

  lemma {:induction false} NoneCounted(s: seq<int>, f: int -> bool)
    requires forall i :: 0 <= i < |s| ==> !f(s[i])
    ensures Count(s, f) == 0
    decreases |s|
  {
    if s != [] { NoneCounted(s[1..], f); }
  }

  /** The `let grade` if-chain. */
  method GradeFor(score: int) returns (grade: string)
    ensures grade == GradeLetters[GradeRank(score)]
  {
    if score < 50 {
      grade := "D";
      GradeRankBetween(score, 0);
    } else if score < 60 {
      grade := "D+";
      GradeRankBetween(score, 1);
    } else if score < 65 {
      grade := "C-";
      GradeRankBetween(score, 2);
    } else if score < 70 {
      grade := "C";
      GradeRankBetween(score, 3);
    } else if score < 75 {
      grade := "C+";
      GradeRankBetween(score, 4);
    } else if score < 80 {
      grade := "B-";
      GradeRankBetween(score, 5);
    } else if score < 85 {
      grade := "B";
      GradeRankBetween(score, 6);
    } else if score < 90 {
      grade := "B+";
      GradeRankBetween(score, 7);
    } else if score < 95 {
      grade := "A-";
      GradeRankBetween(score, 8);
    } else {
      grade := "A";
      GradeRankBetween(score, 9);
    }
  }

  // ---------------------------------------------------------------- loss

  /** `Math.round(revenue * ((100 - score) / 100))`, in whole units, over
      exact rationals. */
  function MonthlyLoss(revenue: nat, score: int): (loss: nat)
    requires 0 <= score <= 100
    ensures 100 * loss <= revenue * (100 - score) + 50 < 100 * loss + 100
    ensures loss <= revenue
    ensures score == 100 ==> loss == 0
    ensures score == 0 ==> loss == revenue
  {
    var x := revenue * (100 - score) + 50;
    DivBounds(x, 100);
    MulMonotone(revenue, 100 - score, 100);
    DivBelow(x, 100, revenue + 1);
    if score == 0 then
      DivUnique(x, 100, revenue, 50);
      x / 100
    else
      x / 100
  }

  /** A higher score never means a larger estimated loss. */
  lemma LossAntitone(revenue: nat, s1: int, s2: int)
    requires 0 <= s1 <= s2 <= 100
    ensures MonthlyLoss(revenue, s2) <= MonthlyLoss(revenue, s1)
  {
    MulMonotone(revenue, 100 - s2, 100 - s1);
  }

  // ---------------------------------------------------------------- example

  /** Two products without images, three without a description, one
      missing policy page, 45.0% abandonment, one missing high-severity
      tracking record and the Debut theme: 100 - 4 - 3 - 8 - 10 - 10 - 10
      gives 55, grade D+. */
  lemma ExampleScore(inp: ScoreInputs)
    requires inp.withoutImages == 2 && inp.withoutDescriptions == 3
    requires MissingHigh(inp.trust) == 1 && MissingHigh(inp.tracking) == 1
    requires inp.abandonmentTenths == 450 && inp.theme == "Debut"
    ensures Clamp(100 - TotalPenalty(inp)) == 55
    ensures GradeLetters[GradeRank(55)] == "D+"
  {
    assert StartsWith(inp.theme, "Debut");
    GradeRankBetween(55, 1);
  }
}
