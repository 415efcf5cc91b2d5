# Health assessment risk scorer, in Dafny

This project models `calculateRiskScore` in the med-secure-mind health
assessment form (`src/components/HealthAssessment.tsx`). It is a rule-based
scorer. It turns one submission of the intake form into an assessment with
four parts:

- a risk score from 0 to 100;
- an urgency: low, medium, high or emergency;
- at most four canned recommendations;
- a summary sentence.

The score adds points for:

- the age, as read by `parseInt`;
- the severity and the duration fields;
- symptom keywords found in the lower-cased symptom text (emergency keywords
  first, high-risk keywords only when no emergency keyword matched);
- a medical history that is not blank after trimming.

The urgency and the closing pair of recommendations come from the same
thresholds: 20, 40 and 60.

Layout:

- `wrappers.dfy`: `Option`.
- `text.dfy` (module `Text`): the JavaScript string operations the scorer uses.
  These are `toLowerCase`, `includes`, `Array.prototype.some` over a keyword
  list, `trim`, and the decimal rendering of a number in a template literal.
  Each comes with lemmas that state what it computes.
- `risk.dfy` (module `RiskScore`), which holds three parts:
  - the data model: `Intake`, `Assessment`, `Urgency` and `Advice`;
  - the specification `Assess`: `Examine` reads the intake into `Findings`, and
    `Decide` turns the findings into the result;
  - the method `CalculateRiskScore`, which follows the source statement by
    statement. It mutates a score and a recommendation list, and is proved
    equal to `Assess`.
- `properties.dfy` (module `RiskProperties`): what the scorer promises, proved
  about `Assess`.

Each recommendation is an `Advice` value, and `RiskScore.AdviceText` gives the
exact sentence the source pushes for it.

The scorer has one rule table: thresholds 20, 40 and 60, and at most 4
recommendations. An emergency keyword alone gives 40 points, which is high
urgency, not emergency: `RiskProperties.ChestPainAloneIsHigh` shows this, and
`RiskProperties.EmergencyKeywordEffects` proves high or emergency in general.

## Model

| member | source | states |
|---|---|---|
| RiskScore.CalculateRiskScore | src/components/HealthAssessment.tsx:43-112 | The step-by-step scorer returns exactly the specification's assessment. Its score lies in 0..100, and it returns between 2 and 4 recommendations. |
| RiskScore.AddBaseFactors | src/components/HealthAssessment.tsx:47-61 | The three if-chains for age, severity and duration add exactly the table points: age >65 +20, >45 +10, <18 +15 (NaN adds nothing); severe/moderate/mild +30/+20/+10; chronic/weeks/days +15/+10/+5. |
| RiskScore.Decide | src/components/HealthAssessment.tsx:82-111 | The reported score is the raw score clamped to 100, so it lies in 0..100. The urgency is the bucket of the reported score. The list holds 2 to 4 entries and is every pushed recommendation in push order, so the slice to 4 never drops one. The summary is built from the reported urgency and score. |
| RiskScore.Take | src/components/HealthAssessment.tsx:109 | `slice(0, n)` yields a prefix of length `min(|s|, n)`. |
| RiskScore.Assess | src/components/HealthAssessment.tsx:43-112 | The specification of the scorer. The reported score is the raw score clamped to 100, so it lies in 0..100. The urgency is the bucket of the reported score, and the list is every recommendation pushed, in push order. |
| RiskScore.AgePoints | src/components/HealthAssessment.tsx:48-51 | A NaN age, or an age from 18 to 45, adds nothing. The full 20 points come exactly when the age is above 65. |
| RiskScore.ParseSeverity | src/components/HealthAssessment.tsx:54-56 | The severity is unknown exactly when the field is none of "severe", "moderate" and "mild". |
| RiskScore.SeverityPoints | src/components/HealthAssessment.tsx:54-56 | The severity adds a multiple of 10, at most 30, and adds nothing only when the severity is unknown. |
| RiskScore.ParseDuration | src/components/HealthAssessment.tsx:59-61 | The duration is unknown exactly when the field is none of "chronic", "weeks", "days" and "hours". |
| RiskScore.DurationPoints | src/components/HealthAssessment.tsx:59-61 | The duration adds a multiple of 5, at most 15, and adds nothing only for hours or an unknown duration. |
| RiskScore.BasePoints | src/components/HealthAssessment.tsx:47-61 | Age, severity and duration together add at most 65 points. |
| RiskScore.KeywordPoints | src/components/HealthAssessment.tsx:68-74 | The keyword bonus is 40 exactly when an emergency keyword matched, 25 exactly when only a high-risk keyword matched, and 0 exactly when none matched. |
| RiskScore.KeywordAdvice | src/components/HealthAssessment.tsx:68-74 | At most one keyword recommendation is pushed, and one is pushed exactly when a keyword bonus is added. It is emergency care exactly when an emergency keyword matched. With only a high-risk match it is the urgent-consultation advice. |
| RiskScore.HasHistory | src/components/HealthAssessment.tsx:77 | The history test `trim().length > 0`. `Text.TrimNonEmptyIff` and `RiskProperties.HistoryEffects` show it holds exactly when the history has a non-whitespace character. |
| RiskScore.HistoryPoints | src/components/HealthAssessment.tsx:77-78 | The history adds 5 exactly when it counts, and nothing otherwise. |
| RiskScore.HistoryAdvice | src/components/HealthAssessment.tsx:77-79 | The history recommendation is pushed exactly when the history bonus is added, and it is the disclose-history advice. |
| RiskScore.ScoreAdvice | src/components/HealthAssessment.tsx:82-95 | The band pushes exactly two recommendations. Each urgency bucket of the same score goes with exactly one pair, in both directions. |
| RiskScore.AllAdvice | src/components/HealthAssessment.tsx:63-95 | Every pushed recommendation in push order: keyword advice, then history advice, then the band's pair. `RiskProperties.KeywordRules` and `RiskProperties.HistoryRules` state what it contains. |
| RiskScore.AdviceText | src/components/HealthAssessment.tsx:68-95 | The exact sentence the scorer pushes for each recommendation. |
| RiskScore.EmergencyHit | src/components/HealthAssessment.tsx:64-68 | The emergency test: some emergency keyword is included in the lower-cased symptom text. `RiskProperties.EmergencyKeywordEffects` and `RiskProperties.EmergencyCareFirstIff` state its effects. |
| RiskScore.HighRiskHit | src/components/HealthAssessment.tsx:64-71 | The high-risk test: some high-risk keyword is included in the lower-cased symptom text. `RiskProperties.KeywordBonusesExclusive` states that it counts only without an emergency match. |
| RiskScore.Score | src/components/HealthAssessment.tsx:44-80 | The value of `score` after the history factor, from the findings: at least the base points and at most 45 above them. |
| RiskScore.RawScore | src/components/HealthAssessment.tsx:44-80 | The value of `score` after the history factor, for an intake: never above 110. |
| RiskScore.Min | src/components/HealthAssessment.tsx:104-107 | `Math.min`: at most both arguments, and equal to one of them. |
| RiskScore.UrgencyName | src/components/HealthAssessment.tsx:98-104 | The urgency strings as the result and the summary carry them. `RiskProperties.ReadUrgencyOfName` shows that each reads back as its own urgency. |
| RiskScore.UrgencyOf | src/components/HealthAssessment.tsx:97-102 | The urgency's rank counts the thresholds 20, 40 and 60 that the score reaches. |
| RiskScore.SummaryText | src/components/HealthAssessment.tsx:104 | The summary sentence, with the urgency's name and the score in decimal. `RiskProperties.SummaryRoundTrip` shows that both read back from it. |
| Text.ToLower | src/components/HealthAssessment.tsx:64 | Lower-casing keeps the length. `Text.ToLowerSpec` states what it does to each character. |
| Text.Includes | src/components/HealthAssessment.tsx:68-71 | `String.prototype.includes`, scanning the start positions left to right. `Text.IncludesIffOccurs` shows it is substring search. |
| Text.IncludesAny | src/components/HealthAssessment.tsx:68-71 | `some` over a keyword list: some keyword is included in the text. |
| Text.Trim | src/components/HealthAssessment.tsx:77 | `String.prototype.trim`: drops leading and trailing ECMAScript whitespace. `Text.TrimStartSpec` and `Text.TrimEndSpec` state exactly what each end keeps. |
| Text.ToLowerSpec | src/components/HealthAssessment.tsx:64 | Lower-casing keeps the length and leaves no ASCII capital. It maps each capital to its own small letter and leaves every other character unchanged. |
| Text.ToLowerIdempotent | src/components/HealthAssessment.tsx:64 | Lower-casing twice is the same as lower-casing once. |
| Text.IncludesIffOccurs | src/components/HealthAssessment.tsx:68-71 | `includes` holds exactly when the keyword occurs as a contiguous substring at some index. |
| Text.NotIncludedWhenLonger | src/components/HealthAssessment.tsx:68-71 | A keyword longer than the text is never included. |
| Text.NotIncludedWithoutFirst | src/components/HealthAssessment.tsx:68-71 | A keyword whose first character is absent from the text is never included. |
| Text.TrimStartSpec | src/components/HealthAssessment.tsx:77 | Trimming the front keeps a suffix that does not start with whitespace, and every dropped character is ECMAScript whitespace. |
| Text.TrimEndSpec | src/components/HealthAssessment.tsx:77 | Trimming the end keeps a prefix that does not end with whitespace, and every dropped character is ECMAScript whitespace. |
| Text.TrimNonEmptyIff | src/components/HealthAssessment.tsx:77 | `s.trim().length > 0` holds exactly when `s` has a character that is not whitespace or a line terminator. |
| Text.NatToDecimal | src/components/HealthAssessment.tsx:104 | The rendered score is a non-empty string of digits with no leading zero unless the score is 0, and a single digit below 10, so 0 renders as "0". |
| Text.DecimalRoundTrip | src/components/HealthAssessment.tsx:104 | Reading the rendered numeral back gives the number. |
| Text.DigitPrefixOfNumeral | src/components/HealthAssessment.tsx:104 | A numeral followed by a non-digit is exactly the digit prefix of the text. |
| RiskProperties.UnreadInputsAddNothing | src/components/HealthAssessment.tsx:48-61 | A NaN age, or a severity or duration string outside the known values, adds no points. |
| RiskProperties.SevereChestPainIsClamped | src/components/HealthAssessment.tsx:49-107 | Age 70, severe, chronic and "Chest pain" give a raw score of 105, plus 5 with a history. It is reported as 100 with emergency urgency, so the clamp is reachable. |
| RiskProperties.ChestPainIsEmergency | src/components/HealthAssessment.tsx:64-68 | Lower-cased, "Chest pain" contains an emergency keyword. |
| RiskProperties.ChestPainAloneIsHigh | src/components/HealthAssessment.tsx:64-102 | With no other factor, "Chest pain" scores 40. That is high urgency, with recommendations [emergency care, within 24 hours, avoid strenuous activity]. |
| RiskProperties.SevereChestPainWithHistory | src/components/HealthAssessment.tsx:77-107 | The same intake with history "asthma" has a raw score of 110, still reported as 100. |
| RiskProperties.RunnyNoseIsLow | src/components/HealthAssessment.tsx:48-102 | Age 25, mild, hours, "runny nose" and no history score 10. That is low urgency, and the recommendations are exactly monitor and remedies. |
| RiskProperties.NoKeywordInRunnyNose | src/components/HealthAssessment.tsx:65-71 | "runny nose" contains no emergency and no high-risk keyword. |
| RiskProperties.UrgencyMonotone | src/components/HealthAssessment.tsx:98-102 | The urgency is a non-decreasing step function of the score. |
| RiskProperties.BandAgreesWithUrgency | src/components/HealthAssessment.tsx:83-102 | Each urgency goes with exactly one closing pair of recommendations, in both directions. The band and the bucket use the same thresholds. |
| RiskProperties.EmergencyKeywordEffects | src/components/HealthAssessment.tsx:68-102 | An emergency keyword adds exactly 40 points and puts emergency care first. The urgency is then high or emergency. |
| RiskProperties.EmergencyCareFirstIff | src/components/HealthAssessment.tsx:68-70 | The first recommendation is emergency care if and only if an emergency keyword matched. |
| RiskProperties.KeywordBonusesExclusive | src/components/HealthAssessment.tsx:68-74 | The +25 and the consultation advice come exactly when no emergency keyword but some high-risk keyword matched. Emergency care is listed exactly when an emergency keyword matched, and never together with the consultation advice. |
| RiskProperties.KeywordRules | src/components/HealthAssessment.tsx:68-74 | The keyword rules, stated on the findings: the bonus, the first entry, and when each keyword recommendation appears. |
| RiskProperties.SymptomCaseIgnored | src/components/HealthAssessment.tsx:64 | Lower-casing the symptom text first does not change the assessment. |
| RiskProperties.HistoryEffects | src/components/HealthAssessment.tsx:77-80 | A history counts exactly when it has a non-whitespace character. It then adds exactly 5 points over a blank history. The history advice survives the cut to 4 exactly when the history counts. |
| RiskProperties.HistoryRules | src/components/HealthAssessment.tsx:77-80 | The history rule, stated on the findings: +5 and the advice exactly when the history counts. |
| RiskProperties.AdviceTextInjective | src/components/HealthAssessment.tsx:68-95 | Distinct recommendations have distinct sentences, so every fact about the lists of `Advice` values holds of the pushed strings. |
| RiskProperties.NameAndGenderIgnored | src/components/HealthAssessment.tsx:43-112 | The name and gender fields do not affect the assessment. |
| RiskProperties.ReadUrgencyOfName | src/components/HealthAssessment.tsx:104 | The urgency's name followed by the middle text of the summary reads back as that urgency. |
| RiskProperties.ReadScoreOfNumeral | src/components/HealthAssessment.tsx:104 | The score's numeral followed by the closing text reads back as that score. |
| RiskProperties.SummaryRoundTrip | src/components/HealthAssessment.tsx:104 | Every summary sentence reads back as the urgency and the score it was built from. |
| RiskProperties.SummaryReportsResult | src/components/HealthAssessment.tsx:104-110 | The summary of an assessment reports that assessment's urgency and its clamped score. |

## Left out

- The React component around the scorer is not modelled: the form, its state (`useState`), `handleSubmit` with its simulated delay, the reset, and the JSX rendering. These are UI and timing, not scoring.
- `getUrgencyColor` and `getUrgencyIcon` are not modelled. They only map an urgency to presentation classes and icons.
- `src/components/Header.tsx` and `src/pages/Index.tsx` are not part of this model. They are layout only.
- `parseInt` itself is not modelled. The intake carries its result as `Option<int>`, where `None` stands for NaN. Every comparison with NaN is false, which `RiskScore.AgeAbove` and `RiskScore.AgeBelow` reproduce.
- Text.ToLower: lower-cases only ASCII capitals. JavaScript's `toLowerCase` applies the full Unicode case mapping. For the keyword search this matters only for characters that lower-case to ASCII letters. Those are KELVIN SIGN (to `k`) and LATIN CAPITAL LETTER I WITH DOT ABOVE (to `i` followed by a combining dot). No keyword contains `k`, no keyword has an `i` followed by a combining dot, and no keyword ends in `i`, so the keyword results agree. This argument is not proved in the model.
- Strings are sequences of code points, not UTF-16 code units. The only length the scorer uses is the test `trim().length > 0`, which does not depend on that difference.
- The recommendations are the `Advice` datatype rather than strings. `RiskScore.AdviceText` gives the sentence for each one. `RiskProperties.AdviceTextInjective` proves that distinct recommendations have distinct sentences, so the facts about the `Advice` lists, including the if-and-only-if ones, carry over to the string lists the scorer builds.
- JavaScript numbers are doubles. Every score is a small sum of small integers, so the model uses unbounded integers, and no rounding can occur.
