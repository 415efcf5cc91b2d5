/** What the risk scorer promises, proved about its specification `Assess`. */
module RiskProperties {
  import opened Wrappers
  import opened Text
  import opened RiskScore

  // ---------------------------------------------------------------------------
  // Score
  // ---------------------------------------------------------------------------

  /** A NaN age and severity or duration strings the scorer does not know add no points. */
  lemma UnreadInputsAddNothing(d: Intake)
    ensures d.age.None? ==> AgePoints(d.age) == 0
    ensures d.severity !in ["severe", "moderate", "mild"] ==> SeverityPoints(ParseSeverity(d.severity)) == 0
    ensures d.duration !in ["chronic", "weeks", "days"] ==> DurationPoints(ParseDuration(d.duration)) == 0
  {
  }

  /**
   * The clamp is reachable: age 70, severe, chronic and "Chest pain" already
   * give 105 points (110 with a medical history), reported as 100 and emergency.
   */
  lemma SevereChestPainIsClamped(history: string)
    ensures var d := Intake("", Some(70), "", "Chest pain", "chronic", "severe", history);
            RawScore(d) == 105 + HistoryPoints(Examine(d)) > 100
            && Assess(d).riskScore == 100 && Assess(d).urgency == Emergency
  {
    var d := Intake("", Some(70), "", "Chest pain", "chronic", "severe", history);
    ChestPainIsEmergency();
    assert EmergencyHit(d);
    assert BasePoints(d) == 65;
  }

  /** "Chest pain", lower-cased, contains the first emergency keyword. */
  lemma ChestPainIsEmergency()
    ensures IncludesAny(ToLower("Chest pain"), EmergencyKeywords)
  {
    assert ToLower("Chest pain") == "chest pain";
    assert Includes("chest pain", EmergencyKeywords[0]);
  }

  /**
   * An emergency keyword alone does not make the urgency emergency: with no
   * other factor the score is 40, which is high.
   */
  lemma ChestPainAloneIsHigh()
    ensures var d := Intake("", None, "", "Chest pain", "", "", "");
            RawScore(d) == 40 && Assess(d).riskScore == 40 && Assess(d).urgency == High
            && Assess(d).recommendations == [EmergencyCare, WithinADay, Restrain]
  {
    var d := Intake("", None, "", "Chest pain", "", "", "");
    ChestPainIsEmergency();
    assert EmergencyHit(d);
    TrimNonEmptyIff(d.medicalHistory);
    assert !HasHistory(d);
  }

  /** With a history that has some non-blank character the raw score is 110. */
  lemma SevereChestPainWithHistory()
    ensures var d := Intake("", Some(70), "", "Chest pain", "chronic", "severe", "asthma");
            RawScore(d) == 110 && Assess(d).riskScore == 100
  {
    var d := Intake("", Some(70), "", "Chest pain", "chronic", "severe", "asthma");
    SevereChestPainIsClamped("asthma");
    TrimNonEmptyIff("asthma");
    assert !IsJsWhitespace("asthma"[0]);
    assert HasHistory(d);
  }

  /** Age 25, mild, for hours, "runny nose", no history: 10 points, low urgency, the low-band advice only. */
  lemma RunnyNoseIsLow()
    ensures var d := Intake("", Some(25), "", "runny nose", "hours", "mild", "");
            RawScore(d) == 10 && Assess(d).riskScore == 10 && Assess(d).urgency == Low
            && Assess(d).recommendations == [Monitor, Remedies]
  {
    var d := Intake("", Some(25), "", "runny nose", "hours", "mild", "");
    assert ToLower(d.symptoms) == "runny nose";
    NoKeywordInRunnyNose();
    assert !EmergencyHit(d) && !HighRiskHit(d);
  }

  /** No keyword of either list occurs in "runny nose". */
  lemma NoKeywordInRunnyNose()
    ensures !IncludesAny("runny nose", EmergencyKeywords) && !IncludesAny("runny nose", HighRiskKeywords)
  {
    var text := "runny nose";
    // The short keywords start with a letter the text lacks; the others are longer than it.
    forall k | k in EmergencyKeywords + HighRiskKeywords ensures !Includes(text, k) {
      if |k| > |text| {
        NotIncludedWhenLonger(text, k);
      } else {
        NotIncludedWithoutFirst(text, k);
      }
    }
  }

  // ---------------------------------------------------------------------------
  // Urgency
  // ---------------------------------------------------------------------------

  /** Urgency is a non-decreasing step function of the score. */
  lemma UrgencyMonotone(s1: int, s2: int)
    requires s1 <= s2
    ensures Rank(UrgencyOf(s1)) <= Rank(UrgencyOf(s2))
  {
  }

  /**
   * The band that chose the last two recommendations and the urgency bucket use
   * the same thresholds: each urgency goes with exactly one closing pair.
   */
  lemma BandAgreesWithUrgency(d: Intake)
    ensures var r := Assess(d).recommendations;
            |r| >= 2
            && (Assess(d).urgency == Low <==> r[|r| - 2..] == [Monitor, Remedies])
            && (Assess(d).urgency == Medium <==> r[|r| - 2..] == [Appointment, Track])
            && (Assess(d).urgency == High <==> r[|r| - 2..] == [WithinADay, Restrain])
            && (Assess(d).urgency == Emergency <==> r[|r| - 2..] == [ImmediateAttention, NoDriving])
  {
    var r := Assess(d).recommendations;
    assert r[|r| - 2..] == ScoreAdvice(RawScore(d));
  }

  // ---------------------------------------------------------------------------
  // Keywords
  // ---------------------------------------------------------------------------

  /**
   * An emergency keyword adds 40 points, puts "Seek immediate emergency care"
   * first and never leaves the urgency low or medium.
   */
  lemma EmergencyKeywordEffects(d: Intake)
    requires EmergencyHit(d)
    ensures RawScore(d) == AgePoints(d.age) + SeverityPoints(ParseSeverity(d.severity))
                           + DurationPoints(ParseDuration(d.duration)) + 40 + HistoryPoints(Examine(d))
    ensures Assess(d).recommendations[0] == EmergencyCare
    ensures Assess(d).urgency == High || Assess(d).urgency == Emergency
  {
  }

  /** The first recommendation is the emergency one exactly when an emergency keyword matched. */
  lemma EmergencyCareFirstIff(d: Intake)
    ensures Assess(d).recommendations[0] == EmergencyCare <==> EmergencyHit(d)
  {
    KeywordRules(Examine(d));
  }

  /**
   * The emergency and high-risk bonuses exclude each other: the +25 and the
   * consultation advice come only when no emergency keyword matched, and at
   * most one of the two keyword recommendations is given.
   */
  lemma KeywordBonusesExclusive(d: Intake)
    ensures KeywordPoints(Examine(d)) == 25 <==> !EmergencyHit(d) && HighRiskHit(d)
    ensures EmergencyCare in Assess(d).recommendations <==> EmergencyHit(d)
    ensures UrgentConsultation in Assess(d).recommendations <==> !EmergencyHit(d) && HighRiskHit(d)
    ensures !(EmergencyCare in Assess(d).recommendations && UrgentConsultation in Assess(d).recommendations)
  {
    KeywordRules(Examine(d));
  }

  /** The keyword rules, stated on the findings the scorer decides from. */
  lemma KeywordRules(f: Findings)
    ensures KeywordPoints(f) == 25 <==> !f.emergency && f.highRisk
    ensures AllAdvice(f)[0] == EmergencyCare <==> f.emergency
    ensures EmergencyCare in AllAdvice(f) <==> f.emergency
    ensures UrgentConsultation in AllAdvice(f) <==> !f.emergency && f.highRisk
  {
    var r := AllAdvice(f);
    var tail := HistoryAdvice(f) + ScoreAdvice(Score(f));
    assert r == KeywordAdvice(f) + tail;
    assert EmergencyCare !in tail && UrgentConsultation !in tail;
  }

  /** Upper- and lower-case symptom text score the same. */
  lemma SymptomCaseIgnored(d: Intake)
    ensures Assess(d.(symptoms := ToLower(d.symptoms))) == Assess(d)
  {
    ToLowerIdempotent(d.symptoms);
  }

  // ---------------------------------------------------------------------------
  // Medical history
  // ---------------------------------------------------------------------------

  /**
   * A history with some non-blank character adds exactly 5 points and always
   * leaves "Inform healthcare provider of your medical history" in the final
   * list; a blank one does neither.
   */
  lemma HistoryEffects(d: Intake)
    ensures HasHistory(d) <==> exists i :: 0 <= i < |d.medicalHistory| && !IsJsWhitespace(d.medicalHistory[i])
    ensures HasHistory(d) ==> RawScore(d) == RawScore(d.(medicalHistory := "")) + 5
    ensures DiscloseHistory in Assess(d).recommendations <==> HasHistory(d)
  {
    TrimNonEmptyIff(d.medicalHistory);
    var f := Examine(d);
    assert Examine(d.(medicalHistory := "")) == f.(history := false);
    HistoryRules(f);
  }

  /** The history rule, stated on the findings the scorer decides from. */
  lemma HistoryRules(f: Findings)
    ensures f.history ==> Score(f) == Score(f.(history := false)) + 5
    ensures DiscloseHistory in AllAdvice(f) <==> f.history
  {
    var r := AllAdvice(f);
    if f.history {
      assert r[|KeywordAdvice(f)|] == DiscloseHistory;
    } else {
      assert r == KeywordAdvice(f) + ScoreAdvice(Score(f));
    }
  }

  /**
   * Distinct recommendations have distinct sentences, so every fact about the
   * `Advice` lists holds of the lists of strings the scorer builds.
   */
  lemma AdviceTextInjective(a: Advice, b: Advice)
    ensures AdviceText(a) == AdviceText(b) ==> a == b
  {
    AdviceTextLength(a);
    AdviceTextLength(b);
  }

  /** The sentences have eleven different lengths. */
  lemma AdviceTextLength(a: Advice)
    ensures |AdviceText(a)| == match a
      case EmergencyCare => 29 case UrgentConsultation => 36 case DiscloseHistory => 50
      case Monitor => 25 case Remedies => 49 case Appointment => 48 case Track => 33
      case WithinADay => 38 case Restrain => 24 case ImmediateAttention => 32 case NoDriving => 41
  {
  }

  // ---------------------------------------------------------------------------
  // Other fields, summary
  // ---------------------------------------------------------------------------

  /** The name and gender fields play no part in the result. */
  lemma NameAndGenderIgnored(d: Intake, name: string, gender: string)
    ensures Assess(d.(name := name, gender := gender)) == Assess(d)
  {
    assert Examine(d.(name := name, gender := gender)) == Examine(d);
  }

  /** After the fixed opening, the urgency's name followed by the middle text reads back as that urgency. */
  lemma ReadUrgencyOfName(u: Urgency, tail: string)
    ensures ReadUrgency(UrgencyName(u) + SummaryMiddle + tail) == Some(u)
  {
    var rest := UrgencyName(u) + SummaryMiddle + tail;
    assert rest == UrgencyName(u) + (SummaryMiddle + tail);
    assert rest[0] == UrgencyName(u)[0];
    if u != Low {
      assert !(UrgencyName(Low) + SummaryMiddle <= rest) by { assert rest[0] != 'l'; }
    }
    if u == High || u == Emergency {
      assert !(UrgencyName(Medium) + SummaryMiddle <= rest) by { assert rest[0] != 'm'; }
    }
    if u == Emergency {
      assert !(UrgencyName(High) + SummaryMiddle <= rest) by { assert rest[0] != 'h'; }
    }
  }

  /** The numeral of a score followed by the closing text reads back as that score. */
  lemma ReadScoreOfNumeral(n: nat)
    ensures ReadScore(NatToDecimal(n) + SummaryTail) == Some(n)
  {
    assert SummaryTail[0] == '.';
    DigitPrefixOfNumeral(NatToDecimal(n), SummaryTail);
    DecimalRoundTrip(n);
  }

  /** A summary sentence reads back as the urgency and the score it was built from. */
  lemma SummaryRoundTrip(u: Urgency, n: nat)
    ensures ReadSummary(SummaryText(u, n)) == Some((u, n))
  {
    var name := UrgencyName(u);
    var digits := NatToDecimal(n);
    var s := SummaryText(u, n);
    var rest := name + SummaryMiddle + (digits + SummaryTail);
    assert s == SummaryLead + rest;
    assert s[|SummaryLead|..] == rest;
    ReadUrgencyOfName(u, digits + SummaryTail);
    assert rest[|name + SummaryMiddle|..] == digits + SummaryTail;
    ReadScoreOfNumeral(n);
  }

  /** The summary reports the urgency and the clamped score of the result. */
  lemma SummaryReportsResult(d: Intake)
    ensures ReadSummary(Assess(d).summary) == Some((Assess(d).urgency, Assess(d).riskScore))
  {
    SummaryRoundTrip(Assess(d).urgency, Assess(d).riskScore);
  }

}
