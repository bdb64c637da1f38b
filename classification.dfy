/**
 * What is shown beside a lead score: the pain flags of a business and the
 * band its score falls into.
 */
module Classification {
  import opened Wrappers
  import opened LeadScoring
  import opened Rounding

  /** The four pain flags, declared in the order in which they are listed. */
  datatype PainFlag = ReputationRisk | ResponseProblem | HighValueIndustry | HighVolume {
    /** Position of the flag in the fixed listing order. */
    function Rank(): nat {
      match this
      case ReputationRisk => 0
      case ResponseProblem => 1
      case HighValueIndustry => 2
      case HighVolume => 3
    }

    /** The emoji the flag is displayed as. */
    function Symbol(): string {
      match this
      case ReputationRisk => "\U{1F6A8}"
      case ResponseProblem => "\U{23F0}"
      case HighValueIndustry => "\U{1F4B0}"
      case HighVolume => "\U{1F4CA}"
    }
  }

  /** `[flag]` when the condition holds, nothing otherwise. */
  function FlagIf(condition: bool, flag: PainFlag): (s: seq<PainFlag>)
    ensures flag in s <==> condition
    ensures |s| <= 1 && forall g :: g in s ==> g == flag
  {
    if condition then [flag] else []
  }

  /** Flags listed in strictly increasing rank: in the fixed order, without duplicates. */
  predicate InFlagOrder(flags: seq<PainFlag>) {
    forall i, j :: 0 <= i < j < |flags| ==> flags[i].Rank() < flags[j].Rank()
  }

  /**
   * Appending a conditional flag that ranks above all listed flags keeps the
   * order and adds that flag, and only it, exactly when the condition holds.
   */
  lemma AppendFlag(flags: seq<PainFlag>, condition: bool, flag: PainFlag)
    requires InFlagOrder(flags)
    requires forall g :: g in flags ==> g.Rank() < flag.Rank()
    ensures InFlagOrder(flags + FlagIf(condition, flag))
    ensures forall g :: g in flags + FlagIf(condition, flag) <==> g in flags || (condition && g == flag)
    ensures forall g :: g in flags + FlagIf(condition, flag) ==> g.Rank() <= flag.Rank()
    ensures |flags + FlagIf(condition, flag)| <= |flags| + 1
  {
    var t := flags + FlagIf(condition, flag);
    forall i, j | 0 <= i < j < |t|
      ensures t[i].Rank() < t[j].Rank()
    {
      if j >= |flags| {
        assert t[i] in flags;
      }
    }
  }

  /** The pain flags of a business, each decided on its own, in the fixed order. */
  function GetPainFlags(rating: Option<real>, unansweredPct: real, branchFactor: real,
                        reviewCount: int): (flags: seq<PainFlag>)
    ensures ReputationRisk in flags <==> Truthy(rating) && rating.value < 4.0
    ensures ResponseProblem in flags <==> unansweredPct > 50.0
    ensures HighValueIndustry in flags <==> branchFactor >= 1.2
    ensures HighVolume in flags <==> reviewCount >= 50
    ensures InFlagOrder(flags)
    ensures |flags| <= 4
  {
    var reputationRisk := Truthy(rating) && rating.value < 4.0;
    var responseProblem := unansweredPct > 50.0;
    var highValue := branchFactor >= 1.2;
    var highVolume := reviewCount >= 50;
    var s1 := FlagIf(reputationRisk, ReputationRisk);
    var s2 := s1 + FlagIf(responseProblem, ResponseProblem);
    AppendFlag(s1, responseProblem, ResponseProblem);
    var s3 := s2 + FlagIf(highValue, HighValueIndustry);
    AppendFlag(s2, highValue, HighValueIndustry);
    var s4 := s3 + FlagIf(highVolume, HighVolume);
    AppendFlag(s3, highVolume, HighVolume);
    s4
  }

  /**
   * With the weight of the scored industry passed in, as the report does,
   * the high-value flag marks exactly dentists, doctors, lawyers and tax
   * advisers.
   */
  lemma HighValueFlagBranches(rating: Option<real>, unansweredPct: real, branche: string,
                              reviewCount: int)
    ensures HighValueIndustry in GetPainFlags(rating, unansweredPct, BranchFactor(branche), reviewCount)
      <==> branche in {"Zahnarzt", "Arzt", "Anwalt", "Steuerberater"}
  {
    HighValueBranches(branche);
  }

  /** The four score bands, from the best lead to the worst. */
  datatype Category = Hot | Warm | Cold | Low {
    /** Position of the band, 0 for the lowest. */
    function Rank(): nat {
      match this
      case Low => 0
      case Cold => 1
      case Warm => 2
      case Hot => 3
    }

    function Label(): string {
      match this
      case Hot => "\U{1F525} Hot"
      case Warm => "\U{1F7E1} Warm"
      case Cold => "\U{1F535} Cold"
      case Low => "\U{26AA} Low"
    }

    function CssClass(): string {
      match this
      case Hot => "score-hot"
      case Warm => "score-warm"
      case Cold => "score-cold"
      case Low => "score-none"
    }
  }

  /** The band of a score; every band includes its lower bound. */
  function GetScoreCategory(score: int): (c: Category)
    ensures c == Hot <==> score >= 70
    ensures c == Warm <==> 50 <= score < 70
    ensures c == Cold <==> 30 <= score < 50
    ensures c == Low <==> score < 30
  {
    if score >= 70 then Hot
    else if score >= 50 then Warm
    else if score >= 30 then Cold
    else Low
  }

  /** A higher score never lands in a lower band. */
  lemma CategoryMonotone(s1: int, s2: int)
    requires s1 <= s2
    ensures GetScoreCategory(s1).Rank() <= GetScoreCategory(s2).Rank()
  {
  }

  /** The band boundaries. */
  lemma CategoryBoundaries()
    ensures GetScoreCategory(70) == Hot && GetScoreCategory(69) == Warm
    ensures GetScoreCategory(50) == Warm && GetScoreCategory(49) == Cold
    ensures GetScoreCategory(30) == Cold && GetScoreCategory(29) == Low
  {
  }

  /**
   * A dentist rated 3.2 with 45 reviews, 80 % unanswered and a negative
   * review 5 days old: 35 + 20 + 15 + 10 = 80, weighted by 1.3 to 104, a hot
   * lead with the reputation, response and high-value flags.
   */
  lemma DentistExample()
    ensures CalculateLeadScore(Some(3.2), 45, 80.0, 5, "Zahnarzt")
      == (104, Breakdown(35, 20, 15, 10, 80, 1.3, 104))
    ensures GetScoreCategory(104) == Hot
    ensures GetPainFlags(Some(3.2), 80.0, 1.3, 45)
      == [ReputationRisk, ResponseProblem, HighValueIndustry]
  {
    RoundHalfEvenOfInt(104);
  }

  /**
   * A snack bar rated 4.8 with 2 reviews and no review data: only the
   * response factor scores, 35 weighted by 0.8 to 28, a low lead.
   */
  lemma SnackBarExample()
    ensures CalculateLeadScore(Some(4.8), 2, 100.0, 999, "Imbiss")
      == (28, Breakdown(35, 0, 0, 0, 35, 0.8, 28))
    ensures GetScoreCategory(28) == Low
    ensures GetPainFlags(Some(4.8), 100.0, 0.8, 2) == [ResponseProblem]
  {
    RoundHalfEvenOfInt(28);
  }

  /** Without a rating and with three reviews, factor 2 is half of 12. */
  lemma MissingRatingExample()
    ensures RatingFactor(None, 3) == 6
    ensures RatingFactor(Some(0.0), 3) == 6
  {
  }
}
