/**
 * Lead score v2.1: four capped step-function factors (response behaviour,
 * rating problem, review volume, recency of complaints) are summed and
 * weighted by an industry multiplier.
 */
module LeadScoring {
  import opened Wrappers
  import opened Rounding

  /** Industry multipliers; the weights are exact reals. */
  const BranchFactors: map<string, real> := map[
    "Zahnarzt" := 1.3,
    "Arzt" := 1.3,
    "Anwalt" := 1.25,
    "Steuerberater" := 1.25,
    "Restaurant" := 1.1,
    "Hotel" := 1.1,
    "Café" := 1.1,
    "Fitness" := 1.0,
    "Physiotherapie" := 1.0,
    "Friseur" := 1.0,
    "Kosmetik" := 1.0,
    "Handwerker" := 0.9,
    "Autohaus" := 0.95,
    "Imbiss" := 0.8,
    "Kiosk" := 0.8
  ]

  /** Weight of an industry; an unknown industry weighs 1.0. */
  function BranchFactor(branche: string): (w: real)
    ensures 0.8 <= w <= 1.3
    ensures branche !in BranchFactors ==> w == 1.0
  {
    if branche in BranchFactors then BranchFactors[branche] else 1.0
  }

  /** The only industries whose weight reaches the high-value threshold 1.2. */
  lemma HighValueBranches(branche: string)
    ensures BranchFactor(branche) >= 1.2 <==>
      branche in {"Zahnarzt", "Arzt", "Anwalt", "Steuerberater"}
  {
  }

  /** A business rating is truthy when it is present and non-zero. */
  predicate Truthy(rating: Option<real>) {
    rating.Some? && rating.value != 0.0
  }

  /** Factor 1, response behaviour (cap 35), from the unanswered percentage. */
  function ResponseFactor(unansweredPct: real): (f: nat)
    ensures f in {0, 10, 20, 28, 35}
    ensures f == 0 <==> unansweredPct == 0.0
    ensures f == 35 <==> unansweredPct > 75.0
  {
    if unansweredPct == 0.0 then 0
    else if unansweredPct <= 25.0 then 10
    else if unansweredPct <= 50.0 then 20
    else if unansweredPct <= 75.0 then 28
    else 35
  }

  /** Factor 2 before the low-volume halving: a falsy rating scores the midpoint 12. */
  function RatingBase(rating: Option<real>): (f: nat)
    ensures f in {0, 8, 12, 15, 20, 25}
    ensures !Truthy(rating) ==> f == 12
    ensures Truthy(rating) ==> (f == 0 <==> rating.value >= 4.5)
  {
    if Truthy(rating) then
      var r := rating.value;
      if r < 3.0 then 25
      else if r < 3.5 then 20
      else if r < 4.0 then 15
      else if r < 4.5 then 8
      else 0
    else 12
  }

  /**
   * Factor 2, rating problem (cap 25). Below ten reviews the base value is
   * halved and truncated, which for a non-negative value is the floor.
   */
  function RatingFactor(rating: Option<real>, reviewCount: int): (f: nat)
    ensures f in {0, 4, 6, 7, 8, 10, 12, 15, 20, 25}
    ensures reviewCount >= 10 ==> f == RatingBase(rating)
    ensures reviewCount < 10 ==> 2 * f <= RatingBase(rating) < 2 * f + 2
  {
    var base := RatingBase(rating);
    if reviewCount < 10 then base / 2 else base
  }

  /** Factor 3, volume (cap 20); fewer than five reviews score nothing. */
  function VolumeFactor(reviewCount: int): (f: nat)
    ensures f in {0, 5, 10, 15, 20}
    ensures f == 0 <==> reviewCount < 5
    ensures f == 20 <==> reviewCount >= 100
  {
    if reviewCount >= 100 then 20
    else if reviewCount >= 31 then 15
    else if reviewCount >= 10 then 10
    else if reviewCount >= 5 then 5
    else 0
  }

  /** Factor 4, recency of complaints (cap 10); the sentinel 999 scores nothing. */
  function RecencyFactor(lastNegativeDays: int): (f: nat)
    ensures f in {0, 4, 7, 10}
    ensures f == 0 <==> lastNegativeDays > 90
    ensures f == 10 <==> lastNegativeDays <= 7
  {
    if lastNegativeDays <= 7 then 10
    else if lastNegativeDays <= 30 then 7
    else if lastNegativeDays <= 90 then 4
    else 0
  }

  /** The itemised score: the four factors, their sum, the weight and the result. */
  datatype Breakdown = Breakdown(
    antwort: nat,
    rating: nat,
    volumen: nat,
    aktualitaet: nat,
    raw: nat,
    factor: real,
    final: int)

  /**
   * A raw score multiplied by an industry weight and rounded to the nearest
   * integer, ties to even.
   */
  function WeightedScore(raw: nat, w: real): (n: int)
    ensures -0.5 <= n as real - raw as real * w <= 0.5
    ensures (n as real - raw as real * w == 0.5 || raw as real * w - n as real == 0.5) ==> n % 2 == 0
    ensures w == 1.0 ==> n == raw
  {
    RoundHalfEvenOfInt(raw);
    RoundHalfEven(raw as real * w)
  }

  /** The lead score and its breakdown. */
  function CalculateLeadScore(rating: Option<real>, reviewCount: int, unansweredPct: real,
                              lastNegativeDays: int, branche: string): (r: (int, Breakdown))
    ensures r.1.antwort == ResponseFactor(unansweredPct)
    ensures r.1.rating == RatingFactor(rating, reviewCount)
    ensures r.1.volumen == VolumeFactor(reviewCount)
    ensures r.1.aktualitaet == RecencyFactor(lastNegativeDays)
    ensures r.1.raw == r.1.antwort + r.1.rating + r.1.volumen + r.1.aktualitaet
    ensures r.1.raw <= 90
    ensures r.1.factor == BranchFactor(branche)
    ensures r.0 == r.1.final == WeightedScore(r.1.raw, r.1.factor)
    ensures branche !in BranchFactors ==> r.0 == r.1.raw
  {
    var f1 := ResponseFactor(unansweredPct);
    var f2 := RatingFactor(rating, reviewCount);
    var f3 := VolumeFactor(reviewCount);
    var f4 := RecencyFactor(lastNegativeDays);
    var raw := f1 + f2 + f3 + f4;
    var factor := BranchFactor(branche);
    var final := WeightedScore(raw, factor);
    (final, Breakdown(f1, f2, f3, f4, raw, factor, final))
  }

  /** Weighting by a positive factor and rounding keeps the order of raw scores. */
  lemma WeightedScoreMonotone(a: nat, b: nat, w: real)
    requires a <= b && w > 0.0
    ensures WeightedScore(a, w) <= WeightedScore(b, w)
  {
    assert a as real * w <= b as real * w by {
      assert (b - a) as real * w >= 0.0;
    }
    RoundHalfEvenMonotone(a as real * w, b as real * w);
  }

  /** A raw score of at most 90 weighted by at most 1.3 gives at most 117. */
  lemma WeightedScoreBounds(raw: nat, w: real)
    requires raw <= 90 && 0.0 < w <= 1.3
    ensures 0 <= WeightedScore(raw, w) <= 117
  {
    WeightedScoreMonotone(0, raw, w);
    WeightedScoreMonotone(raw, 90, w);
    RoundHalfEvenMonotone(90 as real * w, 117.0);
    RoundHalfEvenOfInt(0);
    RoundHalfEvenOfInt(117);
  }

  /** The final score lies between 0 and 117 (= 90 x 1.3). */
  lemma LeadScoreBounds(rating: Option<real>, reviewCount: int, unansweredPct: real,
                        lastNegativeDays: int, branche: string)
    ensures 0 <= CalculateLeadScore(rating, reviewCount, unansweredPct, lastNegativeDays, branche).0 <= 117
  {
    var b := CalculateLeadScore(rating, reviewCount, unansweredPct, lastNegativeDays, branche).1;
    WeightedScoreBounds(b.raw, b.factor);
  }

  /** Factor 1 is non-decreasing in a non-negative unanswered percentage. */
  lemma ResponseFactorMonotone(p: real, q: real)
    requires 0.0 <= p <= q
    ensures ResponseFactor(p) <= ResponseFactor(q)
  {
  }

  /** Factor 2 is non-increasing in a truthy rating. */
  lemma RatingFactorAntitone(r1: real, r2: real, reviewCount: int)
    requires r1 != 0.0 && r2 != 0.0 && r1 <= r2
    ensures RatingFactor(Some(r1), reviewCount) >= RatingFactor(Some(r2), reviewCount)
  {
  }

  /** Factor 3 is non-decreasing in the review count. */
  lemma VolumeFactorMonotone(c1: int, c2: int)
    requires c1 <= c2
    ensures VolumeFactor(c1) <= VolumeFactor(c2)
  {
  }

  /** Factor 4 is non-increasing in the days since the last negative review. */
  lemma RecencyFactorAntitone(d1: int, d2: int)
    requires d1 <= d2
    ensures RecencyFactor(d1) >= RecencyFactor(d2)
  {
  }

  /** The final score is non-decreasing in a non-negative unanswered percentage. */
  lemma LeadScoreMonotoneInUnansweredPct(rating: Option<real>, reviewCount: int, p: real, q: real,
                                         lastNegativeDays: int, branche: string)
    requires 0.0 <= p <= q
    ensures CalculateLeadScore(rating, reviewCount, p, lastNegativeDays, branche).0
         <= CalculateLeadScore(rating, reviewCount, q, lastNegativeDays, branche).0
  {
    var b1 := CalculateLeadScore(rating, reviewCount, p, lastNegativeDays, branche).1;
    var b2 := CalculateLeadScore(rating, reviewCount, q, lastNegativeDays, branche).1;
    ResponseFactorMonotone(p, q);
    WeightedScoreMonotone(b1.raw, b2.raw, b1.factor);
  }

  /** The final score is non-increasing in a truthy rating. */
  lemma LeadScoreAntitoneInRating(r1: real, r2: real, reviewCount: int, unansweredPct: real,
                                  lastNegativeDays: int, branche: string)
    requires r1 != 0.0 && r2 != 0.0 && r1 <= r2
    ensures CalculateLeadScore(Some(r1), reviewCount, unansweredPct, lastNegativeDays, branche).0
         >= CalculateLeadScore(Some(r2), reviewCount, unansweredPct, lastNegativeDays, branche).0
  {
    var b1 := CalculateLeadScore(Some(r1), reviewCount, unansweredPct, lastNegativeDays, branche).1;
    var b2 := CalculateLeadScore(Some(r2), reviewCount, unansweredPct, lastNegativeDays, branche).1;
    RatingFactorAntitone(r1, r2, reviewCount);
    WeightedScoreMonotone(b2.raw, b1.raw, b1.factor);
  }

  /**
   * The final score is non-decreasing in the review count: the halving of
   * factor 2 below ten reviews never outweighs the growth of factor 3.
   */
  lemma LeadScoreMonotoneInReviewCount(rating: Option<real>, c1: int, c2: int, unansweredPct: real,
                                       lastNegativeDays: int, branche: string)
    requires c1 <= c2
    ensures CalculateLeadScore(rating, c1, unansweredPct, lastNegativeDays, branche).0
         <= CalculateLeadScore(rating, c2, unansweredPct, lastNegativeDays, branche).0
  {
    var b1 := CalculateLeadScore(rating, c1, unansweredPct, lastNegativeDays, branche).1;
    var b2 := CalculateLeadScore(rating, c2, unansweredPct, lastNegativeDays, branche).1;
    VolumeFactorMonotone(c1, c2);
    WeightedScoreMonotone(b1.raw, b2.raw, b1.factor);
  }

  /** The final score is non-increasing in the days since the last negative review. */
  lemma LeadScoreAntitoneInLastNegativeDays(rating: Option<real>, reviewCount: int, unansweredPct: real,
                                            d1: int, d2: int, branche: string)
    requires d1 <= d2
    ensures CalculateLeadScore(rating, reviewCount, unansweredPct, d1, branche).0
         >= CalculateLeadScore(rating, reviewCount, unansweredPct, d2, branche).0
  {
    var b1 := CalculateLeadScore(rating, reviewCount, unansweredPct, d1, branche).1;
    var b2 := CalculateLeadScore(rating, reviewCount, unansweredPct, d2, branche).1;
    RecencyFactorAntitone(d1, d2);
    WeightedScoreMonotone(b2.raw, b1.raw, b1.factor);
  }
}
