/**
 * The legacy revision of the evaluator, src/index.ts: CISA only, positional
 * constructor arguments, a methodology that defaults to CISA, presence-only
 * validation with its own messages and its own copy of the CISA matrix and
 * the priority map.
 *
 * The model shares the category types with the current revision (the two
 * files declare the same string values) and proves that the duplicated
 * matrix and priority map agree with the current ones, so both revisions
 * decide every complete CISA tuple alike.
 */
module LegacyEvaluator {
  import opened Options
  import opened Categories
  import opened Priorities
  import opened CisaTable
  import Evaluator

  /** The five positional constructor arguments, each a raw string or absent. */
  datatype LegacyArgs = LegacyArgs(
    exploitation: Option<string>,
    automatable: Option<string>,
    technicalImpact: Option<string>,
    missionWellbeing: Option<string>,
    methodology: Option<string>)

  /** The fields of a constructed legacy `Decision`; the methodology is always set. */
  datatype LegacyDecision = LegacyDecision(
    exploitation: Option<Exploitation>,
    automatable: Option<Automatable>,
    technicalImpact: Option<TechnicalImpact>,
    missionWellbeing: Option<MissionWellbeing>,
    methodology: Methodology)

  /** The four presence errors of `validateCisa`, with the source's message. */
  datatype LegacyError =
    | ExploitationNotProvided
    | AutomatableNotProvided
    | TechnicalImpactNotProvided
    | MissionWellbeingNotProvided
  {
    function Message(): string {
      match this
      case ExploitationNotProvided => "ExploitationLevel has not been provided"
      case AutomatableNotProvided => "Automatable has not been provided"
      case TechnicalImpactNotProvided => "TechnicalImpact has not been provided"
      case MissionWellbeingNotProvided => "MissionWellbeingImpact has not been provided"
    }
  }

  /** What a call of the legacy `evaluate` ends in. */
  datatype LegacyEvaluation =
    | LegacyNoOutcome
    | LegacyDecided(outcome: OutcomeCisa)
    | LegacyRaised(error: LegacyError)

  /**
   * The constructor. The `= Methodology.CISA` parameter default covers an
   * absent argument and `?? Methodology.CISA` an unknown string, so only the
   * exact label "FIRST" selects FIRST; the four attributes are normalised
   * whatever the methodology.
   */
  function NewLegacyDecision(args: LegacyArgs): (d: LegacyDecision)
    ensures d.methodology == First <==> args.methodology == Some(First.Label())
    ensures args.methodology.None? ==> d.methodology == Cisa
    ensures forall e: Exploitation :: d.exploitation == Some(e) <==> args.exploitation == Some(e.Label())
    ensures forall a: Automatable :: d.automatable == Some(a) <==> args.automatable == Some(a.Label())
    ensures forall t: TechnicalImpact :: d.technicalImpact == Some(t) <==> args.technicalImpact == Some(t.Label())
    ensures forall m: MissionWellbeing :: d.missionWellbeing == Some(m) <==> args.missionWellbeing == Some(m.Label())
  {
    var methodology := ToMethodology(Some(args.methodology.GetOr(Cisa.Label()))).GetOr(Cisa);
    LegacyDecision(
      exploitation := ToExploitation(args.exploitation),
      automatable := ToAutomatable(args.automatable),
      technicalImpact := ToTechnicalImpact(args.technicalImpact),
      missionWellbeing := ToMissionWellbeing(args.missionWellbeing),
      methodology := methodology)
  }

  /**
   * `validateCisa`: presence of exploitation, then automatable, then
   * technical impact, then mission and well-being; the first absent one is
   * the one error (`None` means every attribute is present).
   */
  function LegacyValidate(d: LegacyDecision): (r: Option<LegacyError>)
    ensures r.None? <==> && d.exploitation.Some? && d.automatable.Some?
                         && d.technicalImpact.Some? && d.missionWellbeing.Some?
    ensures r == Some(ExploitationNotProvided) <==> d.exploitation.None?
    ensures r == Some(AutomatableNotProvided) <==> d.exploitation.Some? && d.automatable.None?
    ensures r == Some(TechnicalImpactNotProvided) <==>
              d.exploitation.Some? && d.automatable.Some? && d.technicalImpact.None?
    ensures r == Some(MissionWellbeingNotProvided) <==>
              d.exploitation.Some? && d.automatable.Some? && d.technicalImpact.Some? && d.missionWellbeing.None?
  {
    if d.exploitation.None? then Some(ExploitationNotProvided)
    else if d.automatable.None? then Some(AutomatableNotProvided)
    else if d.technicalImpact.None? then Some(TechnicalImpactNotProvided)
    else if d.missionWellbeing.None? then Some(MissionWellbeingNotProvided)
    else None
  }

  /** The legacy `decisionMatrix`, entries in its own source order; every other tuple is undefined. */
  function LegacyCisaEntry(k: CisaKey): Option<ActionCisa> {
    match k
    case (ExploitationNone, Yes, Total, High) => Some(Attend)
    case (ExploitationNone, No, Total, High) => Some(TrackStar)
    case (Poc, Yes, Total, Medium) => Some(TrackStar)
    case (Poc, Yes, Total, High) => Some(Attend)
    case (Poc, Yes, Partial, High) => Some(Attend)
    case (Poc, No, Partial, High) => Some(TrackStar)
    case (Poc, No, Total, Medium) => Some(TrackStar)
    case (Poc, No, Total, High) => Some(Attend)
    case (Active, Yes, Partial, Low) => Some(Attend)
    case (Active, Yes, Partial, Medium) => Some(Attend)
    case (Active, Yes, Partial, High) => Some(Act)
    case (Active, Yes, Total, Low) => Some(Attend)
    case (Active, Yes, Total, Medium) => Some(Act)
    case (Active, Yes, Total, High) => Some(Act)
    case (Active, No, Partial, High) => Some(Attend)
    case (Active, No, Total, Medium) => Some(Attend)
    case (Active, No, Total, High) => Some(Act)
    case _ => None
  }

  /** The duplicated matrix is the current revision's matrix, tuple for tuple. */
  lemma LegacyTableAgrees(k: CisaKey)
    ensures LegacyCisaEntry(k) == CisaEntry(k)
  {
  }

  /**
   * The legacy lookup with its `Track` fallback: it resolves every tuple to
   * the same action as the current revision.
   */
  function LegacyLookup(k: CisaKey): (r: ActionCisa)
    ensures r == CisaLookup(k)
    ensures r == Track <==> LegacyCisaEntry(k).None?
  {
    LegacyTableAgrees(k);
    LegacyCisaEntry(k).GetOr(Track)
  }

  /** The legacy `priorityMap`, keyed by the CISA action labels, entries in source order. */
  const LegacyPriorityMap: map<string, Priority> := map[
    Track.Label() := Priority.Low,
    TrackStar.Label() := Priority.Medium,
    Attend.Label() := Priority.Medium,
    Act.Label() := Priority.Immediate
  ]

  /** `priorityMap[action]` of the legacy file: the same priority the shared map gives a CISA action. */
  function LegacyPriorityOf(a: ActionCisa): (p: Priority)
    ensures p == PriorityOf(CisaAction(a))
  {
    assert a.Track? || a.TrackStar? || a.Attend? || a.Act?;
    LegacyPriorityMap[a.Label()]
  }

  /**
   * `cisa()`: validate, then look the tuple up and pair the action with its
   * priority; the outcome is the current revision's outcome for that tuple.
   */
  function LegacyCisa(d: LegacyDecision): (r: LegacyEvaluation)
    ensures r.LegacyDecided? || r.LegacyRaised?
    ensures r.LegacyRaised? <==> LegacyValidate(d).Some?
    ensures r.LegacyRaised? ==> Some(r.error) == LegacyValidate(d)
    ensures r.LegacyDecided? ==>
              var action := CisaLookup((d.exploitation.value, d.automatable.value,
                                        d.technicalImpact.value, d.missionWellbeing.value));
              r.outcome == NewOutcomeCisa(action)
  {
    match LegacyValidate(d)
    case Some(err) => LegacyRaised(err)
    case None =>
      var action := LegacyLookup((d.exploitation.value, d.automatable.value,
                                  d.technicalImpact.value, d.missionWellbeing.value));
      LegacyDecided(OutcomeCisa(LegacyPriorityOf(action), action))
  }

  /** `evaluate()`: the CISA path under CISA, no outcome under FIRST. */
  function LegacyEvaluate(d: LegacyDecision): (r: LegacyEvaluation)
    ensures r.LegacyNoOutcome? <==> d.methodology == First
    ensures d.methodology == Cisa ==> r == LegacyCisa(d)
    ensures r.LegacyDecided? ==> r.outcome.priority != Priority.High
  {
    match d.methodology
    case Cisa => LegacyCisa(d)
    case First => LegacyNoOutcome
  }

  /**
   * The constructor calls `evaluate` only once all four attributes resolved,
   * and that call cannot throw: construction never raises, whatever the
   * arguments.
   */
  lemma ConstructionNeverRaises(args: LegacyArgs)
    ensures var d := NewLegacyDecision(args);
      (d.exploitation.Some? && d.automatable.Some? && d.technicalImpact.Some? && d.missionWellbeing.Some?) ==>
        !LegacyEvaluate(d).LegacyRaised?
  {
  }

  /**
   * With all four attributes given as labels and the methodology "CISA",
   * the legacy and the current revision produce the same outcome.
   */
  lemma RevisionsAgree(e: Exploitation, a: Automatable, t: TechnicalImpact, m: MissionWellbeing)
    ensures var legacy := LegacyEvaluate(NewLegacyDecision(LegacyArgs(
              Some(e.Label()), Some(a.Label()), Some(t.Label()), Some(m.Label()), Some(Cisa.Label()))));
            var current := Evaluator.Evaluate(Evaluator.NewDecision(Evaluator.DecisionOptions(
              exploitation := Some(e.Label()), technicalImpact := Some(t.Label()), methodology := Some(Cisa.Label()),
              automatable := Some(a.Label()), missionWellbeing := Some(m.Label()), utility := None, safetyImpact := None)));
            legacy.LegacyDecided? && current == Evaluator.CisaDecided(legacy.outcome)
  {
    var o := Evaluator.DecisionOptions(
      exploitation := Some(e.Label()), technicalImpact := Some(t.Label()), methodology := Some(Cisa.Label()),
      automatable := Some(a.Label()), missionWellbeing := Some(m.Label()), utility := None, safetyImpact := None);
    Evaluator.CisaOutcomeFromLabels(o, e, a, t, m);
    assert ToMethodology(Some(Cisa.Label())) == Some(Cisa);
  }

  /**
   * The revisions differ where the source differs: without a methodology the
   * legacy constructor defaults to CISA and decides, the current one leaves
   * no outcome.
   */
  lemma AbsentMethodologyDiffers(e: Exploitation, a: Automatable, t: TechnicalImpact, m: MissionWellbeing)
    ensures LegacyEvaluate(NewLegacyDecision(LegacyArgs(
              Some(e.Label()), Some(a.Label()), Some(t.Label()), Some(m.Label()), None))).LegacyDecided?
    ensures Evaluator.Evaluate(Evaluator.NewDecision(Evaluator.DecisionOptions(
              exploitation := Some(e.Label()), technicalImpact := Some(t.Label()), methodology := None,
              automatable := Some(a.Label()), missionWellbeing := Some(m.Label()), utility := None, safetyImpact := None)))
            == Evaluator.NoOutcome
  {
  }

  /**
   * The revisions also differ in validation order: with automatable and
   * technical impact both missing, the legacy file reports automatable and
   * the current one technical impact.
   */
  lemma ValidationOrderDiffers(e: Exploitation, m: MissionWellbeing)
    ensures LegacyEvaluate(NewLegacyDecision(LegacyArgs(
              Some(e.Label()), None, None, Some(m.Label()), Some(Cisa.Label()))))
            == LegacyRaised(AutomatableNotProvided)
    ensures Evaluator.Evaluate(Evaluator.NewDecision(Evaluator.DecisionOptions(
              exploitation := Some(e.Label()), technicalImpact := None, methodology := Some(Cisa.Label()),
              automatable := None, missionWellbeing := Some(m.Label()), utility := None, safetyImpact := None)))
            == Evaluator.Raised(Evaluator.InvalidTechnicalImpact)
  {
    assert ToMethodology(Some(Cisa.Label())) == Some(Cisa);
  }
}
