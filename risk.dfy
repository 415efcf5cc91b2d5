/**
 * The rule-based risk scorer of the health assessment form (`calculateRiskScore`):
 * an additive point system over age, severity, duration, symptom keywords and
 * medical history, an urgency bucket chosen by score thresholds, canned
 * recommendations and a summary sentence.
 *
 * `Assess` is the specification, written as tables and bands; the method
 * `CalculateRiskScore` follows the source step by step and is proved to agree with it.
 */
module RiskScore {
  import opened Wrappers
  import opened Text

  // ---------------------------------------------------------------------------
  // Data model
  // ---------------------------------------------------------------------------

  /**
   * One submission of the form. Every field is the form's raw string except
   * `age`, which is what `parseInt` made of the age field: `None` stands for NaN.
   */
  datatype Intake = Intake(
    name: string,
    age: Option<int>,
    gender: string,
    symptoms: string,
    duration: string,
    severity: string,
    medicalHistory: string)

  datatype Urgency = Low | Medium | High | Emergency

  /**
   * The canned recommendations. A result lists them by name; `AdviceText`
   * gives the sentence the user sees.
   */
  datatype Advice =
    | EmergencyCare | UrgentConsultation | DiscloseHistory
    | Monitor | Remedies | Appointment | Track
    | WithinADay | Restrain | ImmediateAttention | NoDriving

  datatype Assessment = Assessment(
    riskScore: int,
    urgency: Urgency,
    recommendations: seq<Advice>,
    summary: string)

  /** The severity field as the scorer reads it; any other string is `UnknownSeverity`. */
  datatype Severity = Severe | Moderate | Mild | UnknownSeverity

  /** The duration field as the scorer reads it; any other string is `UnknownDuration`. */
  datatype Duration = Chronic | Weeks | Days | Hours | UnknownDuration

  const EmergencyKeywords: seq<string> :=
    ["chest pain", "difficulty breathing", "severe headache", "loss of consciousness"]
  const HighRiskKeywords: seq<string> :=
    ["fever", "vomiting", "severe pain", "bleeding"]

  function AdviceText(a: Advice): string {
    match a
    case EmergencyCare => "Seek immediate emergency care"
    case UrgentConsultation => "Consider urgent medical consultation"
    case DiscloseHistory => "Inform healthcare provider of your medical history"
    case Monitor => "Monitor symptoms and rest"
    case Remedies => "Consider over-the-counter remedies if appropriate"
    case Appointment => "Schedule appointment with primary care physician"
    case Track => "Keep track of symptom progression"
    case WithinADay => "Seek medical attention within 24 hours"
    case Restrain => "Avoid strenuous activity"
    case ImmediateAttention => "Seek immediate medical attention"
    case NoDriving => "Do not drive yourself to medical facility"
  }

  /** The most recommendations a result carries. */
  const MaxRecommendations := 4

  const SummaryLead := "Based on your assessment, you have a "
  const SummaryMiddle := " priority health concern with a risk score of "
  const SummaryTail := "." + SummaryRemark
  const SummaryRemark :=
    " This analysis considers your age, symptom severity, duration, and reported symptoms."

  // ---------------------------------------------------------------------------
  // Point tables
  // ---------------------------------------------------------------------------

  /** `age > bound` in JavaScript: false when the age is NaN. */
  predicate AgeAbove(age: Option<int>, bound: int) {
    age.Some? && age.value > bound
  }

  /** `age < bound` in JavaScript: false when the age is NaN. */
  predicate AgeBelow(age: Option<int>, bound: int) {
    age.Some? && age.value < bound
  }

  /** Nothing for a NaN age or an adult of 18 to 45; the most, 20, exactly above 65. */
  function AgePoints(age: Option<int>): (p: nat)
    ensures p == 0 <==> age.None? || 18 <= age.value <= 45
    ensures p == 20 <==> AgeAbove(age, 65)
  {
    if AgeAbove(age, 65) then 20
    else if AgeAbove(age, 45) then 10
    else if AgeBelow(age, 18) then 15
    else 0
  }

  function ParseSeverity(s: string): (v: Severity)
    ensures v == UnknownSeverity <==> s !in {"severe", "moderate", "mild"}
  {
    if s == "severe" then Severe
    else if s == "moderate" then Moderate
    else if s == "mild" then Mild
    else UnknownSeverity
  }

  /** Multiples of 10 up to 30; nothing only for a severity the scorer does not know. */
  function SeverityPoints(v: Severity): (p: nat)
    ensures p <= 30 && p % 10 == 0
    ensures p == 0 <==> v == UnknownSeverity
  {
    match v
    case Severe => 30
    case Moderate => 20
    case Mild => 10
    case UnknownSeverity => 0
  }

  function ParseDuration(s: string): (v: Duration)
    ensures v == UnknownDuration <==> s !in {"chronic", "weeks", "days", "hours"}
  {
    if s == "chronic" then Chronic
    else if s == "weeks" then Weeks
    else if s == "days" then Days
    else if s == "hours" then Hours
    else UnknownDuration
  }

  /** Multiples of 5 up to 15; nothing for hours or a duration the scorer does not know. */
  function DurationPoints(v: Duration): (p: nat)
    ensures p <= 15 && p % 5 == 0
    ensures p == 0 <==> v == Hours || v == UnknownDuration
  {
    match v
    case Chronic => 15
    case Weeks => 10
    case Days => 5
    case Hours => 0
    case UnknownDuration => 0
  }

  /** Some emergency keyword occurs in the lower-cased symptom text. */
  predicate EmergencyHit(d: Intake) {
    IncludesAny(ToLower(d.symptoms), EmergencyKeywords)
  }

  /** Some high-risk keyword occurs in the lower-cased symptom text. */
  predicate HighRiskHit(d: Intake) {
    IncludesAny(ToLower(d.symptoms), HighRiskKeywords)
  }

  /** The medical history is non-empty after trimming. */
  predicate HasHistory(d: Intake) {
    |Trim(d.medicalHistory)| > 0
  }

  /**
   * What the scorer reads off an intake: the points for age, severity and
   * duration, and which of the keyword and history rules fire. Everything
   * the scorer decides depends on the intake only through these.
   */
  datatype Findings = Findings(basePoints: nat, emergency: bool, highRisk: bool, history: bool)

  function Examine(d: Intake): Findings {
    Findings(BasePoints(d), EmergencyHit(d), HighRiskHit(d), HasHistory(d))
  }

  /** The points for age, severity and duration. */
  function BasePoints(d: Intake): (p: nat)
    ensures p <= 65
  {
    AgePoints(d.age) + SeverityPoints(ParseSeverity(d.severity)) + DurationPoints(ParseDuration(d.duration))
  }

  /** The high-risk bonus is only considered when no emergency keyword matched. */
  function KeywordPoints(f: Findings): (p: nat)
    ensures p == 40 <==> f.emergency
    ensures p == 25 <==> !f.emergency && f.highRisk
    ensures p == 0 <==> !f.emergency && !f.highRisk
  {
    if f.emergency then 40 else if f.highRisk then 25 else 0
  }

  function HistoryPoints(f: Findings): (p: nat)
    ensures p == 5 <==> f.history
    ensures p == 0 <==> !f.history
  {
    if f.history then 5 else 0
  }

  /** The score before the clamp: the sum of the five contributions. */
  function Score(f: Findings): (s: nat)
    ensures f.basePoints <= s <= f.basePoints + 45
  {
    f.basePoints + KeywordPoints(f) + HistoryPoints(f)
  }

  /** The score before the clamp never exceeds 110: 65 base points, 40 for a keyword, 5 for a history. */
  function RawScore(d: Intake): (s: nat)
    ensures s <= 110
  {
    Score(Examine(d))
  }

  // ---------------------------------------------------------------------------
  // Recommendations, urgency, summary
  // ---------------------------------------------------------------------------

  /** At most one keyword recommendation, given exactly when a keyword bonus is. */
  function KeywordAdvice(f: Findings): (r: seq<Advice>)
    ensures |r| <= 1
    ensures r == [] <==> KeywordPoints(f) == 0
    ensures EmergencyCare in r <==> f.emergency
    ensures !f.emergency && f.highRisk ==> r == [UrgentConsultation]
  {
    if f.emergency then [EmergencyCare]
    else if f.highRisk then [UrgentConsultation]
    else []
  }

  /** The history recommendation, given exactly when the history bonus is. */
  function HistoryAdvice(f: Findings): (r: seq<Advice>)
    ensures r == [] <==> HistoryPoints(f) == 0
    ensures r != [] ==> r == [DiscloseHistory]
  {
    if f.history then [DiscloseHistory] else []
  }

  /** The two recommendations chosen by the band the score falls in: one pair per urgency bucket. */
  function ScoreAdvice(score: int): (r: seq<Advice>)
    ensures |r| == 2
    ensures UrgencyOf(score) == Low <==> r == [Monitor, Remedies]
    ensures UrgencyOf(score) == Medium <==> r == [Appointment, Track]
    ensures UrgencyOf(score) == High <==> r == [WithinADay, Restrain]
    ensures UrgencyOf(score) == Emergency <==> r == [ImmediateAttention, NoDriving]
  {
    if score < 20 then [Monitor, Remedies]
    else if score < 40 then [Appointment, Track]
    else if score < 60 then [WithinADay, Restrain]
    else [ImmediateAttention, NoDriving]
  }

  /** Every recommendation pushed, in push order, before the list is cut to `MaxRecommendations`. */
  function AllAdvice(f: Findings): seq<Advice> {
    KeywordAdvice(f) + HistoryAdvice(f) + ScoreAdvice(Score(f))
  }

  /** The rank of the urgency counts the thresholds 20, 40 and 60 that the score reaches. */
  function UrgencyOf(score: int): (u: Urgency)
    ensures Rank(u) == (if score >= 20 then 1 else 0) + (if score >= 40 then 1 else 0) + (if score >= 60 then 1 else 0)
  {
    if score < 20 then Low
    else if score < 40 then Medium
    else if score < 60 then High
    else Emergency
  }

  /** The position of an urgency in the order low < medium < high < emergency. */
  function Rank(u: Urgency): nat {
    match u
    case Low => 0
    case Medium => 1
    case High => 2
    case Emergency => 3
  }

  /** The string the urgency has in the result and in the summary. */
  function UrgencyName(u: Urgency): string {
    match u
    case Low => "low"
    case Medium => "medium"
    case High => "high"
    case Emergency => "emergency"
  }

  /** `Math.min(x, y)`. */
  function Min(x: int, y: int): (m: int)
    ensures m <= x && m <= y
    ensures m == x || m == y
  {
    if x < y then x else y
  }

  /** `s.slice(0, n)`: the first `n` elements, or all of `s` when it is shorter. */
  function Take<T>(s: seq<T>, n: nat): (r: seq<T>)
    ensures |r| == Min(|s|, n)
    ensures r <= s
  {
    if |s| <= n then s else s[..n]
  }

  function SummaryText(u: Urgency, score: nat): string {
    SummaryLead + UrgencyName(u) + SummaryMiddle + NatToDecimal(score) + SummaryTail
  }

  /**
   * What the scorer decides from its findings. The score is clamped to 100,
   * the urgency agrees with the reported score, and cutting the list to four
   * entries never loses a recommendation.
   */
  function Decide(f: Findings): (a: Assessment)
    ensures 0 <= a.riskScore <= 100
    ensures a.riskScore == Min(Score(f), 100)
    ensures a.urgency == UrgencyOf(a.riskScore)
    ensures 2 <= |a.recommendations| <= MaxRecommendations
    ensures a.recommendations == AllAdvice(f)
    ensures a.summary == SummaryText(a.urgency, a.riskScore)
  {
    var score := Score(f);
    var urgency := UrgencyOf(score);
    var clamped := Min(score, 100);
    Assessment(clamped, urgency, Take(AllAdvice(f), MaxRecommendations), SummaryText(urgency, clamped))
  }

  /**
   * The specification of the scorer: the raw score clamped to 100, the bucket
   * of the reported score, and every recommendation pushed.
   */
  function Assess(d: Intake): (a: Assessment)
    ensures 0 <= a.riskScore <= 100
    ensures a.riskScore == Min(RawScore(d), 100)
    ensures a.urgency == UrgencyOf(a.riskScore)
    ensures a.recommendations == AllAdvice(Examine(d))
  {
    Decide(Examine(d))
  }

  // ---------------------------------------------------------------------------
  // The scorer, step by step
  // ---------------------------------------------------------------------------

  /**
   * The age, severity and duration factors: three chains of comparisons, each
   * adding the points of the first case that applies.
   */
  method AddBaseFactors(data: Intake, score0: int) returns (score: int)
    ensures score == score0 + BasePoints(data)
  {
    score := score0;

    // Age factor
    var age := data.age;
    if AgeAbove(age, 65) {
      score := score + 20;
    } else if AgeAbove(age, 45) {
      score := score + 10;
    } else if AgeBelow(age, 18) {
      score := score + 15;
    }
    assert score == score0 + AgePoints(data.age);

    // Severity factor
    if data.severity == "severe" {
      score := score + 30;
    } else if data.severity == "moderate" {
      score := score + 20;
    } else if data.severity == "mild" {
      score := score + 10;
    }
    assert score == score0 + AgePoints(data.age) + SeverityPoints(ParseSeverity(data.severity));

    // Duration factor
    if data.duration == "chronic" {
      score := score + 15;
    } else if data.duration == "weeks" {
      score := score + 10;
    } else if data.duration == "days" {
      score := score + 5;
    }
  }

  method CalculateRiskScore(data: Intake) returns (result: Assessment)
    ensures result == Assess(data)
    ensures 0 <= result.riskScore <= 100
    ensures 2 <= |result.recommendations| <= MaxRecommendations
  {
    var score := 0;
    var recommendations: seq<Advice> := [];

    score := AddBaseFactors(data, score);
    ghost var findings := Examine(data);

    // Symptom keywords
    var symptoms := ToLower(data.symptoms);
    if IncludesAny(symptoms, EmergencyKeywords) {
      score := score + 40;
      recommendations := recommendations + [EmergencyCare];
    } else if IncludesAny(symptoms, HighRiskKeywords) {
      score := score + 25;
      recommendations := recommendations + [UrgentConsultation];
    }
    assert score == findings.basePoints + KeywordPoints(findings) && recommendations == KeywordAdvice(findings);

    // Medical history factor
    if |Trim(data.medicalHistory)| > 0 {
      score := score + 5;
      recommendations := recommendations + [DiscloseHistory];
    }
    assert score == Score(findings);
    assert recommendations == KeywordAdvice(findings) + HistoryAdvice(findings);

    // Recommendations by score band
    if score < 20 {
      recommendations := recommendations + [Monitor, Remedies];
    } else if score < 40 {
      recommendations := recommendations + [Appointment, Track];
    } else if score < 60 {
      recommendations := recommendations + [WithinADay, Restrain];
    } else {
      recommendations := recommendations + [ImmediateAttention, NoDriving];
    }
    assert recommendations == AllAdvice(findings);

    // Urgency level
    var urgency: Urgency;
    if score < 20 {
      urgency := Low;
    } else if score < 40 {
      urgency := Medium;
    } else if score < 60 {
      urgency := High;
    } else {
      urgency := Emergency;
    }
    assert urgency == UrgencyOf(score);

    var riskScore := Min(score, 100);
    var summary := SummaryText(urgency, riskScore);
    result := Assessment(riskScore, urgency, Take(recommendations, MaxRecommendations), summary);
  }

  // ---------------------------------------------------------------------------
  // Reading the summary back
  // ---------------------------------------------------------------------------

  /** The urgency whose name, followed by the middle text, starts `s`, trying them in rank order. */
  function ReadUrgency(s: string): Option<Urgency> {
    if UrgencyName(Low) + SummaryMiddle <= s then Some(Low)
    else if UrgencyName(Medium) + SummaryMiddle <= s then Some(Medium)
    else if UrgencyName(High) + SummaryMiddle <= s then Some(High)
    else if UrgencyName(Emergency) + SummaryMiddle <= s then Some(Emergency)
    else None
  }

  /** The numeral that `s` starts with, provided the fixed closing text follows it and nothing else. */
  function ReadScore(s: string): Option<nat> {
    var digits := DigitPrefix(s);
    if |digits| > 0 && s == digits + SummaryTail then Some(DecimalValue(digits)) else None
  }

  /** The urgency and the score a summary sentence reports, if it is one. */
  function ReadSummary(s: string): Option<(Urgency, nat)> {
    if !(SummaryLead <= s) then None
    else
      var rest := s[|SummaryLead|..];
      match ReadUrgency(rest)
      case None => None
      case Some(u) =>
        match ReadScore(rest[|UrgencyName(u) + SummaryMiddle|..])
        case None => None
        case Some(n) => Some((u, n))
  }

}
