/**
 * Review aggregation: reduces the review records of one business to the
 * summary the lead score is computed from (total, answered and unanswered
 * counts, the unanswered percentage and the age of the newest negative review).
 */
module ReviewAnalysis {
  import opened Wrappers

  /** Value of `last_negative_days` when no dated negative review lowers it. */
  const NoNegativeDays: int := 999

  /**
   * The `review_rating` entry of a review record: absent (read as the
   * default 5), present but null, or a star value.
   */
  datatype RatingField = Missing | Null | Stars(n: int)

  /**
   * One review record. `daysAgo` is the whole number of days between the
   * report time and the review date, already computed by the caller; it is
   * None when the date is missing, not a string or cannot be parsed.
   */
  datatype Review = Review(
    rating: RatingField,
    ownerResponse: Option<string>,
    responseText: Option<string>,
    daysAgo: Option<int>)

  datatype Summary = Summary(
    total: nat,
    answered: nat,
    unanswered: int,
    unansweredPct: real,
    lastNegativeDays: int)

  /** A string field is truthy when it is present and non-empty. */
  predicate NonEmpty(s: Option<string>) {
    s.Some? && s.value != ""
  }

  /** A review is answered when the owner response or the response text is truthy. */
  predicate Answered(r: Review) {
    NonEmpty(r.ownerResponse) || NonEmpty(r.responseText)
  }

  /** The rating as read with a default of 5; None stands for null. */
  function EffectiveRating(f: RatingField): (e: Option<int>)
    ensures f.Missing? ==> e == Some(5)
    ensures e.None? <==> f.Null?
  {
    match f
    case Missing => Some(5)
    case Null => None
    case Stars(n) => Some(n)
  }

  /** A review is negative when its rating is truthy (present, non-zero) and at most 3. */
  predicate IsNegative(r: Review) {
    var e := EffectiveRating(r.rating);
    e.Some? && e.value != 0 && e.value <= 3
  }

  /** A negative review whose date could be turned into an age in days. */
  predicate DatedNegative(r: Review) {
    IsNegative(r) && r.daysAgo.Some?
  }

  /** Number of answered reviews, counted from the front as the loop does. */
  function CountAnswered(s: seq<Review>): (c: nat)
    ensures c <= |s|
    ensures c == |s| <==> forall i :: 0 <= i < |s| ==> Answered(s[i])
    ensures c == 0 <==> forall i :: 0 <= i < |s| ==> !Answered(s[i])
  {
    if s == [] then 0
    else
      var p := s[..|s| - 1];
      assert forall i :: 0 <= i < |p| ==> p[i] == s[i];
      CountAnswered(p) + (if Answered(s[|s| - 1]) then 1 else 0)
  }

  /** One loop step of the running minimum over dated negative reviews. */
  function NegativeStep(m: int, r: Review): int {
    if DatedNegative(r) && r.daysAgo.value < m then r.daysAgo.value else m
  }

  /** The running minimum after every review of `s`, starting from 999. */
  function LastNegativeDays(s: seq<Review>): (d: int)
    ensures d <= NoNegativeDays
  {
    if s == [] then NoNegativeDays
    else NegativeStep(LastNegativeDays(s[..|s| - 1]), s[|s| - 1])
  }

  /** Indices of the answered reviews: an independent description of the count. */
  function AnsweredIndices(s: seq<Review>): set<int> {
    set i | 0 <= i < |s| && Answered(s[i])
  }

  /** The answered indices of a list: those of all but its last review, plus the last if answered. */
  lemma AnsweredIndicesSnoc(s: seq<Review>)
    requires s != []
    ensures AnsweredIndices(s) == AnsweredIndices(s[..|s| - 1])
      + (if Answered(s[|s| - 1]) then {|s| - 1} else {})
    ensures |s| - 1 !in AnsweredIndices(s[..|s| - 1])
  {
    var p := s[..|s| - 1];
    assert forall i :: 0 <= i < |p| ==> p[i] == s[i];
  }

  /** The loop's count of answered reviews is the number of answered reviews. */
  lemma {:induction false} CountAnsweredIsCardinality(s: seq<Review>)
    ensures CountAnswered(s) == |AnsweredIndices(s)|
  {
    if s != [] {
      CountAnsweredIsCardinality(s[..|s| - 1]);
      AnsweredIndicesSnoc(s);
    }
  }

  /**
   * `last_negative_days` is the minimum of 999 and the ages of all dated
   * negative reviews: no such age is smaller, and unless it is 999 it is the
   * age of one of them.
   */
  lemma {:induction false} LastNegativeDaysIsMinimum(s: seq<Review>)
    ensures forall i :: 0 <= i < |s| && DatedNegative(s[i]) ==>
      LastNegativeDays(s) <= s[i].daysAgo.value
    ensures LastNegativeDays(s) == NoNegativeDays ||
      exists i :: 0 <= i < |s| && DatedNegative(s[i]) && s[i].daysAgo.value == LastNegativeDays(s)
  {
    if s != [] {
      var p := s[..|s| - 1];
      LastNegativeDaysIsMinimum(p);
      assert forall i :: 0 <= i < |p| ==> p[i] == s[i];
      if LastNegativeDays(s) != LastNegativeDays(p) {
        assert DatedNegative(s[|s| - 1]) && s[|s| - 1].daysAgo.value == LastNegativeDays(s);
      }
    }
  }

  /** Without a dated negative review the sentinel 999 is returned. */
  lemma NoDatedNegativeGivesSentinel(s: seq<Review>)
    requires forall i :: 0 <= i < |s| ==> !DatedNegative(s[i])
    ensures LastNegativeDays(s) == NoNegativeDays
  {
    LastNegativeDaysIsMinimum(s);
  }

  /**
   * The aggregation loop. The empty list gives the pessimistic default
   * (100 % unanswered, no negative review); otherwise every review is
   * counted and the ages of dated negative reviews are minimised.
   */
  method AnalyzeReviews(reviews: seq<Review>) returns (s: Summary)
    ensures reviews == [] ==> s == Summary(0, 0, 0, 100.0, NoNegativeDays)
    ensures s.total == |reviews|
    ensures s.answered == CountAnswered(reviews)
    ensures s.answered + s.unanswered == s.total
    ensures reviews != [] ==>
      s.unansweredPct == s.unanswered as real / s.total as real * 100.0
    ensures 0.0 <= s.unansweredPct <= 100.0
    ensures s.lastNegativeDays == LastNegativeDays(reviews)
  {
    if reviews == [] {
      s := Summary(0, 0, 0, 100.0, NoNegativeDays);
    } else {
      var total := |reviews|;
      var answered := 0;
      var lastNegativeDays := NoNegativeDays;
      for i := 0 to |reviews|
        invariant answered == CountAnswered(reviews[..i])
        invariant lastNegativeDays == LastNegativeDays(reviews[..i])
      {
        var review := reviews[i];
        assert reviews[..i + 1][..i] == reviews[..i];
        if NonEmpty(review.ownerResponse) || NonEmpty(review.responseText) {
          answered := answered + 1;
        }
        var rating := EffectiveRating(review.rating);
        if rating.Some? && rating.value != 0 && rating.value <= 3 && review.daysAgo.Some? {
          var daysAgo := review.daysAgo.value;
          if daysAgo < lastNegativeDays {
            lastNegativeDays := daysAgo;
          }
        }
      }
      assert reviews[..|reviews|] == reviews;
      var unanswered := total - answered;
      PercentRange(unanswered, total);
      s := Summary(total, answered, unanswered, unanswered as real / total as real * 100.0, lastNegativeDays);
    }
  }

  /** The percentage of `u` out of `t` lies in 0..100, with 0 only for u == 0 and 100 only for u == t. */
  lemma PercentRange(u: int, t: int)
    requires 0 <= u <= t && 0 < t
    ensures 0.0 <= u as real / t as real * 100.0 <= 100.0
    ensures u as real / t as real * 100.0 == 0.0 <==> u == 0
    ensures u as real / t as real * 100.0 == 100.0 <==> u == t
  {
    var q := u as real / t as real;
    assert q * t as real == u as real;
    assert 0.0 <= q;
    assert q <= 1.0;
    if q == 0.0 { assert u as real == 0.0; }
    if q == 1.0 { assert u as real == t as real; }
  }

  /**
   * For a non-empty list the percentage is 0 exactly when every review is
   * answered and 100 exactly when none is.
   */
  lemma UnansweredPctExtremes(reviews: seq<Review>, s: Summary)
    requires reviews != []
    requires s.total == |reviews| && s.answered == CountAnswered(reviews)
    requires s.unanswered == s.total - s.answered
    requires s.unansweredPct == s.unanswered as real / s.total as real * 100.0
    ensures s.unansweredPct == 0.0 <==> forall i :: 0 <= i < |reviews| ==> Answered(reviews[i])
    ensures s.unansweredPct == 100.0 <==> forall i :: 0 <= i < |reviews| ==> !Answered(reviews[i])
  {
    PercentRange(s.unanswered, s.total);
  }
}
