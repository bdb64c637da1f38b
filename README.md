# ReviewHunter lead scoring, in Dafny

ReviewHunter finds businesses whose online reviews are poorly managed and
ranks them as sales leads. This project models its scoring core in `app.py`:

- the review aggregation `analyze_reviews_outscraper`: counts answered and
  unanswered reviews and finds the age of the newest negative review;
- the lead score `calculate_lead_score`: four capped step-function factors
  (response behaviour, rating problem, review volume, recency of complaints),
  summed and weighted by the industry multiplier table `BRANCH_FACTORS`, then
  rounded;
- the pain flags `get_pain_flags` and the score bands `get_score_category`.

Modules:

- `Wrappers` (wrappers.dfy): the `Option` type.
- `ReviewAnalysis` (review_analysis.dfy): review records, the aggregation loop
  as a method, and the recursive functions it is proved against.
- `Rounding` (rounding.dfy): Python's `round` on a real, ties to even.
- `LeadScoring` (lead_scoring.dfy): the industry table, the four factors, the
  score with its breakdown, and the bound and monotonicity lemmas.
- `Classification` (classification.dfy): pain flags, score bands and worked
  examples.

A review record is a `Review` whose `rating` is `Missing` (read as the default
5), `Null` or `Stars(n)`. The owner response and response text are optional
strings. The review's age in days, `daysAgo`, is computed by the caller; it is
`None` when the date is missing, not a string, or cannot be parsed. Business
ratings are `Option<real>`, with `None` for null. A rating is truthy when it is
present and non-zero.

Where the code departs from the system's documented design, the model follows
the code:

- A review counts as answered when `owner_response` or `response_text` is a
  non-empty string. There is no single "responded" flag.
- A missing review rating reads as 5. A null or zero rating is falsy. Neither
  is ever negative.
- Any falsy business rating scores the midpoint 12 for factor 2. That covers
  null and 0, and the report passes 0 for a business without a rating.
- `last_negative_days` is a running minimum that starts at 999. An age of 999
  days or more therefore leaves 999, which is also the "no negative review"
  value.
- Ages are not clamped at 0. A future-dated negative review gives a negative
  minimum, and factor 4 scores it 10.
- The low-volume halving of factor 2 truncates (`int(f2 * 0.5)`). For the
  non-negative values involved, this is the floor of half.

## Model

| member | source | states |
|---|---|---|
| `ReviewAnalysis.EffectiveRating` | app.py:189 | a missing rating reads as 5, and only a null rating gives no value |
| `ReviewAnalysis.CountAnswered` | app.py:182-186 | the answered count is at most the number of reviews; it equals that number iff every review is answered, and is 0 iff none is |
| `ReviewAnalysis.CountAnsweredIsCardinality` | app.py:182-186 | the answered count is the number of indices whose review has a truthy owner response or response text |
| `ReviewAnalysis.LastNegativeDays` | app.py:178-200 | the running minimum never exceeds the sentinel 999 |
| `ReviewAnalysis.LastNegativeDaysIsMinimum` | app.py:178-200 | `last_negative_days` is at most the age of every dated negative review, and is either 999 or the age of one of them |
| `ReviewAnalysis.NoDatedNegativeGivesSentinel` | app.py:188-200 | with no negative review that has a usable date, the result is 999 |
| `ReviewAnalysis.AnalyzeReviews` | app.py:161-211 | empty list gives total 0, answered 0, unanswered 0, 100 % and 999; otherwise total is the list length, answered is the answered count, answered + unanswered = total, the percentage is unanswered/total*100 within 0..100, and `last_negative_days` is the minimum over dated negative reviews |
| `ReviewAnalysis.PercentRange` | app.py:202-203 | unanswered/total*100 lies in 0..100; it is 0 iff nothing is unanswered and 100 iff everything is |
| `ReviewAnalysis.UnansweredPctExtremes` | app.py:176-203 | for a non-empty list the percentage is 0 iff every review is answered and 100 iff none is |
| `Rounding.RoundHalfEven` | app.py:278 | the result is within 1/2 of its argument, and on a tie it is even |
| `Rounding.RoundHalfEvenUnique` | app.py:278 | those two properties determine the rounded value |
| `Rounding.RoundHalfEvenMonotone` | app.py:278 | rounding preserves order |
| `Rounding.RoundHalfEvenOfInt` | app.py:278 | an integer rounds to itself |
| `LeadScoring.BranchFactor` | app.py:277 | every weight is between 0.8 and 1.3, and an industry missing from the table weighs 1.0 |
| `LeadScoring.HighValueBranches` | app.py:20-36 | the weight reaches 1.2 exactly for Zahnarzt, Arzt, Anwalt and Steuerberater |
| `LeadScoring.ResponseFactor` | app.py:220-231 | f1 is one of 0, 10, 20, 28, 35; it is 0 iff the percentage is 0 and 35 iff it exceeds 75 |
| `LeadScoring.RatingBase` | app.py:233-247 | the unhalved f2 is one of 0, 8, 12, 15, 20, 25; a falsy rating gives 12, and a truthy one gives 0 iff it is at least 4.5 |
| `LeadScoring.RatingFactor` | app.py:233-250 | f2 is one of 0, 4, 6, 7, 8, 10, 12, 15, 20, 25; from ten reviews it is the unhalved value, below ten it is the floor of half of it |
| `LeadScoring.VolumeFactor` | app.py:252-263 | f3 is one of 0, 5, 10, 15, 20; it is 0 iff there are fewer than 5 reviews and 20 iff there are at least 100 |
| `LeadScoring.RecencyFactor` | app.py:265-274 | f4 is one of 0, 4, 7, 10; it is 0 iff the last negative review is more than 90 days old (so 999 gives 0) and 10 iff it is at most 7 days old |
| `LeadScoring.WeightedScore` | app.py:276-278 | the final score is the integer nearest raw x weight, ties to even; weight 1.0 leaves raw unchanged |
| `LeadScoring.CalculateLeadScore` | app.py:214-290 | the breakdown holds f1..f4, their sum as raw (at most 90), the industry weight and the final score, which is raw x weight rounded; an unknown industry gives final == raw |
| `LeadScoring.WeightedScoreMonotone` | app.py:276-278 | with a positive weight, a larger raw score never gives a smaller final score |
| `LeadScoring.WeightedScoreBounds` | app.py:276-278 | raw at most 90 and weight at most 1.3 give a final score in 0..117 |
| `LeadScoring.LeadScoreBounds` | app.py:214-290 | every final score lies in 0..117 |
| `LeadScoring.ResponseFactorMonotone` | app.py:220-231 | f1 is non-decreasing in a non-negative unanswered percentage |
| `LeadScoring.RatingFactorAntitone` | app.py:233-250 | f2 is non-increasing in a truthy rating |
| `LeadScoring.VolumeFactorMonotone` | app.py:252-263 | f3 is non-decreasing in the review count |
| `LeadScoring.RecencyFactorAntitone` | app.py:265-274 | f4 is non-increasing in the days since the last negative review |
| `LeadScoring.LeadScoreMonotoneInUnansweredPct` | app.py:214-290 | the final score is non-decreasing in a non-negative unanswered percentage |
| `LeadScoring.LeadScoreAntitoneInRating` | app.py:214-290 | the final score is non-increasing in a truthy rating |
| `LeadScoring.LeadScoreMonotoneInReviewCount` | app.py:214-290 | the final score is non-decreasing in the review count, despite the halving of f2 below ten reviews |
| `LeadScoring.LeadScoreAntitoneInLastNegativeDays` | app.py:214-290 | the final score is non-increasing in the days since the last negative review |
| `Classification.FlagIf` | app.py:298-308 | one conditional append: the flag is present iff its condition holds, and nothing else is added |
| `Classification.GetPainFlags` | app.py:293-310 | 🚨 iff the rating is truthy and below 4.0, ⏰ iff more than 50 % unanswered, 💰 iff weight at least 1.2, 📊 iff at least 50 reviews; listed in that order, without duplicates, at most four |
| `Classification.HighValueFlagBranches` | app.py:454-459 | with the scored industry's weight passed in, 💰 marks exactly Zahnarzt, Arzt, Anwalt and Steuerberater |
| `Classification.GetScoreCategory` | app.py:313-321 | Hot iff score >= 70, Warm iff 50..69, Cold iff 30..49, Low iff below 30 |
| `Classification.CategoryMonotone` | app.py:313-321 | a higher score never falls in a lower band |
| `Classification.CategoryBoundaries` | app.py:313-321 | 70 is Hot, 69 and 50 are Warm, 49 and 30 are Cold, 29 is Low |
| `Classification.DentistExample` | app.py:214-321 | rating 3.2, 45 reviews, 80 %, 5 days, Zahnarzt give 35+20+15+10 = 80, weighted to 104, Hot, with flags 🚨 ⏰ 💰 |
| `Classification.SnackBarExample` | app.py:214-321 | rating 4.8, 2 reviews, 100 %, 999 days, Imbiss give 35, weighted to 28, Low, with flag ⏰ |
| `Classification.MissingRatingExample` | app.py:233-250 | a null or zero rating with three reviews gives f2 = 6 |

The hot-lead filter `score >= 70` used by the report summary and the
hot-lead export (app.py:495, app.py:554) selects exactly the scores that
`GetScoreCategory` puts in the Hot band.

## Left out

- The Streamlit page: configuration, styling, sidebar, progress display, metrics, table highlighting and download buttons (app.py:10-14, 38-87, 326-572). They are presentation only.
- The provider clients `search_businesses_outscraper` and `get_reviews_outscraper` (app.py:90-158) and the throttle `time.sleep` (app.py:442). They are network I/O.
- The wall clock and date parsing (`datetime.now`, `datetime.fromisoformat`, app.py:180, 191-196). The caller supplies each review's age in days, and `None` stands for a missing, non-string or unparseable date, including the fallback from `review_datetime_utc` to `review_date`.
- The pandas work on the result table (app.py:481-563): sorting by score, averages, flag counts and CSV export. These are library calls.
- Field values of other types: the model takes response fields as strings, review ratings as integers and business ratings as reals. A rating of another type, such as a string, would make Python raise an exception. That case is not modelled.
- `ReviewAnalysis.AnalyzeReviews`: the percentage is computed as an exact real; the binary floating-point rounding of `unanswered / total * 100` is not modelled.
- `LeadScoring.WeightedScore`: the industry weights are exact reals such as 1.3. Where binary floating point would land `raw * weight` just beside a .5 tie, Python may round differently from the exact value; that artefact is not modelled.
