/**
 * The concrete scenarios of src/decision.test.ts, restated on the model of
 * src/decision.ts with the option-record constructor and raw label strings.
 */
module Scenarios {
  import opened Options
  import opened Categories
  import opened Priorities
  import opened Evaluator

  /** Options for the CISA path with the FIRST-only attributes left out. */
  function CisaOptions(e: Option<string>, a: Option<string>, t: Option<string>, m: Option<string>): DecisionOptions {
    DecisionOptions(exploitation := e, technicalImpact := t, methodology := Some(Cisa.Label()),
                    automatable := a, missionWellbeing := m, utility := None, safetyImpact := None)
  }

  /** Options for the FIRST path with the CISA-only attributes left out. */
  function FirstOptions(e: Option<string>, u: Option<string>, t: Option<string>, s: Option<string>): DecisionOptions {
    DecisionOptions(exploitation := e, technicalImpact := t, methodology := Some(First.Label()),
                    automatable := None, missionWellbeing := None, utility := u, safetyImpact := s)
  }

  /** Active, automatable, total, high: `Act` with priority immediate. */
  lemma CisaActScenario()
    ensures Evaluate(NewDecision(CisaOptions(Some(Active.Label()), Some(Yes.Label()), Some(Total.Label()),
                                             Some(MissionWellbeing.High.Label()))))
            == CisaDecided(OutcomeCisa(Priority.Immediate, Act))
  {
    CisaDecisionFromLabels(CisaOptions(Some(Active.Label()), Some(Yes.Label()), Some(Total.Label()), Some(MissionWellbeing.High.Label())), Active, Yes, Total, MissionWellbeing.High);
    CisaActScenarioOnRecord();
  }

  /** The decision record of `CisaActScenario` evaluates to that outcome. */
  lemma CisaActScenarioOnRecord()
    ensures Evaluate(Decision(Some(Active), Some(Yes), None, Some(Total), None, Some(MissionWellbeing.High), Some(Cisa))) == CisaDecided(OutcomeCisa(Priority.Immediate, Act))
  {
  }

  /** Proof of concept, not automatable, partial, high: `Track*` with priority medium. */
  lemma CisaTrackStarScenario()
    ensures Evaluate(NewDecision(CisaOptions(Some(Poc.Label()), Some(No.Label()), Some(Partial.Label()),
                                             Some(MissionWellbeing.High.Label()))))
            == CisaDecided(OutcomeCisa(Priority.Medium, TrackStar))
  {
    CisaDecisionFromLabels(CisaOptions(Some(Poc.Label()), Some(No.Label()), Some(Partial.Label()), Some(MissionWellbeing.High.Label())), Poc, No, Partial, MissionWellbeing.High);
    CisaTrackStarScenarioOnRecord();
  }

  /** The decision record of `CisaTrackStarScenario` evaluates to that outcome. */
  lemma CisaTrackStarScenarioOnRecord()
    ensures Evaluate(Decision(Some(Poc), Some(No), None, Some(Partial), None, Some(MissionWellbeing.High), Some(Cisa))) == CisaDecided(OutcomeCisa(Priority.Medium, TrackStar))
  {
  }

  /** No exploitation, not automatable, partial, low: no entry, so `Track` with priority low. */
  lemma CisaTrackScenario()
    ensures Evaluate(NewDecision(CisaOptions(Some(ExploitationNone.Label()), Some(No.Label()), Some(Partial.Label()),
                                             Some(MissionWellbeing.Low.Label()))))
            == CisaDecided(OutcomeCisa(Priority.Low, Track))
  {
    CisaDecisionFromLabels(CisaOptions(Some(ExploitationNone.Label()), Some(No.Label()), Some(Partial.Label()), Some(MissionWellbeing.Low.Label())), ExploitationNone, No, Partial, MissionWellbeing.Low);
    CisaTrackScenarioOnRecord();
  }

  /** The decision record of `CisaTrackScenario` evaluates to that outcome. */
  lemma CisaTrackScenarioOnRecord()
    ensures Evaluate(Decision(Some(ExploitationNone), Some(No), None, Some(Partial), None, Some(MissionWellbeing.Low), Some(Cisa))) == CisaDecided(OutcomeCisa(Priority.Low, Track))
  {
  }

  /** Missing exploitation, or missing automatable, under CISA raises that attribute's error. */
  lemma CisaMissingFieldScenarios()
    ensures Evaluate(NewDecision(CisaOptions(None, Some(Yes.Label()), Some(Total.Label()), Some(MissionWellbeing.High.Label()))))
            == Raised(InvalidExploitation)
    ensures Evaluate(NewDecision(CisaOptions(Some(Active.Label()), None, Some(Total.Label()), Some(MissionWellbeing.High.Label()))))
            == Raised(InvalidAutomatable)
  {
    CisaFromOptions(CisaOptions(None, Some(Yes.Label()), Some(Total.Label()), Some(MissionWellbeing.High.Label())));
    CisaFromOptions(CisaOptions(Some(Active.Label()), None, Some(Total.Label()), Some(MissionWellbeing.High.Label())));
  }

  /** Under CISA, FIRST-only strings are dropped and the CISA path still decides. */
  lemma CisaIgnoresFirstFields()
    ensures var d := NewDecision(DecisionOptions(
              exploitation := Some(Active.Label()), technicalImpact := Some(Total.Label()), methodology := Some(Cisa.Label()),
              automatable := Some(Yes.Label()), missionWellbeing := Some(MissionWellbeing.High.Label()),
              utility := Some(SuperEffective.Label()), safetyImpact := Some(Catastrophic.Label())));
            && d.utility == None && d.safetyImpact == None
            && d.automatable == Some(Yes) && d.missionWellbeing == Some(MissionWellbeing.High)
            && Evaluate(d).CisaDecided?
  {
    var o := DecisionOptions(
      exploitation := Some(Active.Label()), technicalImpact := Some(Total.Label()), methodology := Some(Cisa.Label()),
      automatable := Some(Yes.Label()), missionWellbeing := Some(MissionWellbeing.High.Label()),
      utility := Some(SuperEffective.Label()), safetyImpact := Some(Catastrophic.Label()));
    CisaOutcomeFromLabels(o, Active, Yes, Total, MissionWellbeing.High);
  }

  /** Under FIRST, CISA-only strings are dropped and the FIRST path still decides. */
  lemma FirstIgnoresCisaFields()
    ensures var d := NewDecision(DecisionOptions(
              exploitation := Some(Active.Label()), technicalImpact := Some(Total.Label()), methodology := Some(First.Label()),
              automatable := Some(Yes.Label()), missionWellbeing := Some(MissionWellbeing.High.Label()),
              utility := Some(SuperEffective.Label()), safetyImpact := Some(Catastrophic.Label())));
            && d.automatable == None && d.missionWellbeing == None
            && d.utility == Some(SuperEffective) && d.safetyImpact == Some(Catastrophic)
            && Evaluate(d).FirstDecided?
  {
    var o := DecisionOptions(
      exploitation := Some(Active.Label()), technicalImpact := Some(Total.Label()), methodology := Some(First.Label()),
      automatable := Some(Yes.Label()), missionWellbeing := Some(MissionWellbeing.High.Label()),
      utility := Some(SuperEffective.Label()), safetyImpact := Some(Catastrophic.Label()));
    FirstOutcomeFromLabels(o, Active, SuperEffective, Total, Catastrophic);
  }

  /** Active, super effective, total, catastrophic: immediate with priority immediate. */
  lemma FirstActiveSuperEffectiveTotalCatastrophic()
    ensures Evaluate(NewDecision(FirstOptions(Some(Active.Label()), Some(SuperEffective.Label()), Some(Total.Label()), Some(Catastrophic.Label()))))
            == FirstDecided(OutcomeFirst(Priority.Immediate, ActionFirst.Immediate))
  {
    FirstDecisionFromLabels(FirstOptions(Some(Active.Label()), Some(SuperEffective.Label()), Some(Total.Label()), Some(Catastrophic.Label())), Active, SuperEffective, Total, Catastrophic);
    FirstActiveSuperEffectiveTotalCatastrophicOnRecord();
  }

  /** The decision record of `FirstActiveSuperEffectiveTotalCatastrophic` evaluates to that outcome. */
  lemma FirstActiveSuperEffectiveTotalCatastrophicOnRecord()
    ensures Evaluate(Decision(Some(Active), None, Some(SuperEffective), Some(Total), Some(Catastrophic), None, Some(First))) == FirstDecided(OutcomeFirst(Priority.Immediate, ActionFirst.Immediate))
  {
  }

  /** Proof of concept, efficient, partial, major: out-of-band with priority medium. */
  lemma FirstPocEfficientPartialMajor()
    ensures Evaluate(NewDecision(FirstOptions(Some(Poc.Label()), Some(Efficient.Label()), Some(Partial.Label()), Some(Major.Label()))))
            == FirstDecided(OutcomeFirst(Priority.Medium, OutOfBand))
  {
    FirstDecisionFromLabels(FirstOptions(Some(Poc.Label()), Some(Efficient.Label()), Some(Partial.Label()), Some(Major.Label())), Poc, Efficient, Partial, Major);
    FirstPocEfficientPartialMajorOnRecord();
  }

  /** The decision record of `FirstPocEfficientPartialMajor` evaluates to that outcome. */
  lemma FirstPocEfficientPartialMajorOnRecord()
    ensures Evaluate(Decision(Some(Poc), None, Some(Efficient), Some(Partial), Some(Major), None, Some(First))) == FirstDecided(OutcomeFirst(Priority.Medium, OutOfBand))
  {
  }

  /** Proof of concept, efficient, partial, hazardous: immediate with priority immediate. */
  lemma FirstPocEfficientPartialHazardous()
    ensures Evaluate(NewDecision(FirstOptions(Some(Poc.Label()), Some(Efficient.Label()), Some(Partial.Label()), Some(Hazardous.Label()))))
            == FirstDecided(OutcomeFirst(Priority.Immediate, ActionFirst.Immediate))
  {
    FirstDecisionFromLabels(FirstOptions(Some(Poc.Label()), Some(Efficient.Label()), Some(Partial.Label()), Some(Hazardous.Label())), Poc, Efficient, Partial, Hazardous);
    FirstPocEfficientPartialHazardousOnRecord();
  }

  /** The decision record of `FirstPocEfficientPartialHazardous` evaluates to that outcome. */
  lemma FirstPocEfficientPartialHazardousOnRecord()
    ensures Evaluate(Decision(Some(Poc), None, Some(Efficient), Some(Partial), Some(Hazardous), None, Some(First))) == FirstDecided(OutcomeFirst(Priority.Immediate, ActionFirst.Immediate))
  {
  }

  /** No exploitation, laborious, partial, no safety impact: scheduled with priority low. */
  lemma FirstNoneLaboriousPartialNone()
    ensures Evaluate(NewDecision(FirstOptions(Some(ExploitationNone.Label()), Some(Laborious.Label()), Some(Partial.Label()), Some(SafetyNone.Label()))))
            == FirstDecided(OutcomeFirst(Priority.Low, Scheduled))
  {
    FirstDecisionFromLabels(FirstOptions(Some(ExploitationNone.Label()), Some(Laborious.Label()), Some(Partial.Label()), Some(SafetyNone.Label())), ExploitationNone, Laborious, Partial, SafetyNone);
    FirstNoneLaboriousPartialNoneOnRecord();
  }

  /** The decision record of `FirstNoneLaboriousPartialNone` evaluates to that outcome. */
  lemma FirstNoneLaboriousPartialNoneOnRecord()
    ensures Evaluate(Decision(Some(ExploitationNone), None, Some(Laborious), Some(Partial), Some(SafetyNone), None, Some(First))) == FirstDecided(OutcomeFirst(Priority.Low, Scheduled))
  {
  }

  /** No exploitation, laborious, partial, minor: scheduled with priority low. */
  lemma FirstNoneLaboriousPartialMinor()
    ensures Evaluate(NewDecision(FirstOptions(Some(ExploitationNone.Label()), Some(Laborious.Label()), Some(Partial.Label()), Some(Minor.Label()))))
            == FirstDecided(OutcomeFirst(Priority.Low, Scheduled))
  {
    FirstDecisionFromLabels(FirstOptions(Some(ExploitationNone.Label()), Some(Laborious.Label()), Some(Partial.Label()), Some(Minor.Label())), ExploitationNone, Laborious, Partial, Minor);
    FirstNoneLaboriousPartialMinorOnRecord();
  }

  /** The decision record of `FirstNoneLaboriousPartialMinor` evaluates to that outcome. */
  lemma FirstNoneLaboriousPartialMinorOnRecord()
    ensures Evaluate(Decision(Some(ExploitationNone), None, Some(Laborious), Some(Partial), Some(Minor), None, Some(First))) == FirstDecided(OutcomeFirst(Priority.Low, Scheduled))
  {
  }

  /** Missing exploitation, or missing utility, under FIRST raises that attribute's error. */
  lemma FirstMissingFieldScenarios()
    ensures Evaluate(NewDecision(FirstOptions(None, Some(Efficient.Label()), Some(Total.Label()), Some(Catastrophic.Label()))))
            == Raised(InvalidExploitation)
    ensures Evaluate(NewDecision(FirstOptions(Some(Active.Label()), None, Some(Total.Label()), Some(Catastrophic.Label()))))
            == Raised(InvalidUtility)
  {
    FirstFromOptions(FirstOptions(None, Some(Efficient.Label()), Some(Total.Label()), Some(Catastrophic.Label())));
    FirstFromOptions(FirstOptions(Some(Active.Label()), None, Some(Total.Label()), Some(Catastrophic.Label())));
  }

  /**
   * An exploitation field overwritten after construction with a value that is
   * no member fails the membership check exactly as an absent one does.
   */
  lemma FirstInvalidExploitationScenario()
    ensures Evaluate(NewDecision(FirstOptions(Some(ExploitationNone.Label()), Some(Laborious.Label()), Some(Partial.Label()), Some(SafetyNone.Label())))
                       .(exploitation := None))
            == Raised(InvalidExploitation)
  {
    assert ToMethodology(Some(First.Label())) == Some(First);
  }

  /** A methodology string that is not a label leaves no outcome and raises nothing. */
  lemma UnknownMethodologyScenario()
    ensures Evaluate(NewDecision(CisaOptions(Some(Active.Label()), Some(Yes.Label()), Some(Total.Label()), Some(MissionWellbeing.High.Label()))
                                   .(methodology := Some("cisa")))) == NoOutcome
    ensures Evaluate(NewDecision(CisaOptions(Some(Active.Label()), Some(Yes.Label()), Some(Total.Label()), Some(MissionWellbeing.High.Label()))
                                   .(methodology := None))) == NoOutcome
  {
    NearMissesAreAbsent();
  }
}
