/**
 * The current revision of the evaluator, src/decision.ts: construction of a
 * `Decision` from raw options, fail-fast validation per methodology, and
 * `evaluate` dispatching to the CISA or FIRST path.
 *
 * The source's `Decision` is a class whose methods read its fields; none of
 * them writes a field after construction, so the model passes the record to
 * pure functions and a thrown `Error` becomes a `Raised` result.
 */
module Evaluator {
  import opened Options
  import opened Categories
  import opened Priorities
  import opened CisaTable
  import opened FirstTable

  /** `DecisionOptions`: every attribute as the raw string the caller passed, or absent. */
  datatype DecisionOptions = DecisionOptions(
    exploitation: Option<string>,
    technicalImpact: Option<string>,
    methodology: Option<string>,
    automatable: Option<string>,
    missionWellbeing: Option<string>,
    utility: Option<string>,
    safetyImpact: Option<string>)

  /** The fields of a constructed `Decision` (the never-assigned `outcome` is omitted). */
  datatype Decision = Decision(
    exploitation: Option<Exploitation>,
    automatable: Option<Automatable>,
    utility: Option<Utility>,
    technicalImpact: Option<TechnicalImpact>,
    safetyImpact: Option<SafetyImpact>,
    missionWellbeing: Option<MissionWellbeing>,
    methodology: Option<Methodology>)

  /** The six validation errors, one per attribute, with the source's message. */
  datatype ErrorKind =
    | InvalidExploitation
    | InvalidTechnicalImpact
    | InvalidAutomatable
    | InvalidMissionWellbeing
    | InvalidUtility
    | InvalidSafetyImpact
  {
    function Message(): string {
      match this
      case InvalidExploitation => "Exploitation must be a valid Exploitation enum value"
      case InvalidTechnicalImpact => "TechnicalImpact must be a valid TechnicalImpact enum value"
      case InvalidAutomatable => "Automatable must be a valid Automatable enum value"
      case InvalidMissionWellbeing => "MissionWellbeingImpact must be a valid MissionWellbeingImpact enum value"
      case InvalidUtility => "Utility must be a valid Utility enum value"
      case InvalidSafetyImpact => "SafetyImpact must be a valid SafetyImpact enum value"
    }
  }

  /** A validation step either passes or throws one error. */
  datatype Check = Pass | Fail(error: ErrorKind)

  /** What a call of `evaluate` ends in: no outcome, an outcome of either kind, or a thrown error. */
  datatype Evaluation =
    | NoOutcome
    | CisaDecided(cisa: OutcomeCisa)
    | FirstDecided(first: OutcomeFirst)
    | Raised(error: ErrorKind)

  /** The cross-contamination guard: only the resolved methodology's own attributes are populated. */
  predicate FieldsMatchMethodology(d: Decision) {
    && (d.methodology != Some(Cisa) ==> d.automatable.None? && d.missionWellbeing.None?)
    && (d.methodology != Some(First) ==> d.utility.None? && d.safetyImpact.None?)
  }

  /**
   * The constructor. The methodology is normalised with no default (the
   * field initialiser `= Methodology.CISA` is overwritten by the result of
   * `toEnum`), exploitation and technical impact always, and the
   * methodology-specific pair only under its own methodology. It never fails.
   */
  function NewDecision(o: DecisionOptions): (d: Decision)
    ensures FieldsMatchMethodology(d)
    ensures forall m: Methodology :: d.methodology == Some(m) <==> o.methodology == Some(m.Label())
    ensures forall e: Exploitation :: d.exploitation == Some(e) <==> o.exploitation == Some(e.Label())
    ensures forall t: TechnicalImpact :: d.technicalImpact == Some(t) <==> o.technicalImpact == Some(t.Label())
    ensures d.methodology == Some(Cisa) ==>
              && (forall a: Automatable :: d.automatable == Some(a) <==> o.automatable == Some(a.Label()))
              && (forall m: MissionWellbeing :: d.missionWellbeing == Some(m) <==> o.missionWellbeing == Some(m.Label()))
    ensures d.methodology == Some(First) ==>
              && (forall u: Utility :: d.utility == Some(u) <==> o.utility == Some(u.Label()))
              && (forall s: SafetyImpact :: d.safetyImpact == Some(s) <==> o.safetyImpact == Some(s.Label()))
  {
    var methodology := ToMethodology(o.methodology);
    var isCisa := methodology == Some(Cisa);
    var isFirst := methodology == Some(First);
    Decision(
      exploitation := ToExploitation(o.exploitation),
      automatable := if isCisa then ToAutomatable(o.automatable) else None,
      utility := if isFirst then ToUtility(o.utility) else None,
      technicalImpact := ToTechnicalImpact(o.technicalImpact),
      safetyImpact := if isFirst then ToSafetyImpact(o.safetyImpact) else None,
      missionWellbeing := if isCisa then ToMissionWellbeing(o.missionWellbeing) else None,
      methodology := methodology)
  }

  /** `validateCommon`: exploitation first, then technical impact. */
  function ValidateCommon(d: Decision): (r: Check)
    ensures r == Pass <==> d.exploitation.Some? && d.technicalImpact.Some?
    ensures r == Fail(InvalidExploitation) <==> d.exploitation.None?
    ensures r == Fail(InvalidTechnicalImpact) <==> d.exploitation.Some? && d.technicalImpact.None?
  {
    if d.exploitation.None? then Fail(InvalidExploitation)
    else if d.technicalImpact.None? then Fail(InvalidTechnicalImpact)
    else Pass
  }

  /**
   * `validateCisa`: the common checks, then automatable, then mission and
   * well-being; the first missing attribute in that order is the one error.
   */
  function ValidateCisa(d: Decision): (r: Check)
    ensures r == Pass <==> && d.exploitation.Some? && d.technicalImpact.Some?
                           && d.automatable.Some? && d.missionWellbeing.Some?
    ensures r == Fail(InvalidExploitation) <==> d.exploitation.None?
    ensures r == Fail(InvalidTechnicalImpact) <==> d.exploitation.Some? && d.technicalImpact.None?
    ensures r == Fail(InvalidAutomatable) <==>
              d.exploitation.Some? && d.technicalImpact.Some? && d.automatable.None?
    ensures r == Fail(InvalidMissionWellbeing) <==>
              d.exploitation.Some? && d.technicalImpact.Some? && d.automatable.Some? && d.missionWellbeing.None?
  {
    match ValidateCommon(d)
    case Fail(k) => Fail(k)
    case Pass =>
      if d.automatable.None? then Fail(InvalidAutomatable)
      else if d.missionWellbeing.None? then Fail(InvalidMissionWellbeing)
      else Pass
  }

  /**
   * `validateFirst`: the common checks (so technical impact comes before
   * utility), then utility, then safety impact.
   */
  function ValidateFirst(d: Decision): (r: Check)
    ensures r == Pass <==> && d.exploitation.Some? && d.technicalImpact.Some?
                           && d.utility.Some? && d.safetyImpact.Some?
    ensures r == Fail(InvalidExploitation) <==> d.exploitation.None?
    ensures r == Fail(InvalidTechnicalImpact) <==> d.exploitation.Some? && d.technicalImpact.None?
    ensures r == Fail(InvalidUtility) <==>
              d.exploitation.Some? && d.technicalImpact.Some? && d.utility.None?
    ensures r == Fail(InvalidSafetyImpact) <==>
              d.exploitation.Some? && d.technicalImpact.Some? && d.utility.Some? && d.safetyImpact.None?
  {
    match ValidateCommon(d)
    case Fail(k) => Fail(k)
    case Pass =>
      if d.utility.None? then Fail(InvalidUtility)
      else if d.safetyImpact.None? then Fail(InvalidSafetyImpact)
      else Pass
  }

  /**
   * `cisa()`: validate, then look the four attributes up in the CISA matrix
   * (falling back to `Track`) and pair the action with its priority.
   */
  function EvaluateCisa(d: Decision): (r: Evaluation)
    ensures r.CisaDecided? || r.Raised?
    ensures r.Raised? <==> ValidateCisa(d).Fail?
    ensures r.Raised? ==> r.error == ValidateCisa(d).error
    ensures r.CisaDecided? ==>
              && r.cisa.action == CisaLookup((d.exploitation.value, d.automatable.value,
                                             d.technicalImpact.value, d.missionWellbeing.value))
              && r.cisa.priority == PriorityOf(CisaAction(r.cisa.action))
  {
    match ValidateCisa(d)
    case Fail(k) => Raised(k)
    case Pass =>
      var key := (d.exploitation.value, d.automatable.value, d.technicalImpact.value, d.missionWellbeing.value);
      CisaDecided(NewOutcomeCisa(CisaLookup(key)))
  }

  /**
   * `first()`: validate, then look the four attributes up in the FIRST
   * matrix (falling back to `scheduled`) and pair the action with its priority.
   */
  function EvaluateFirst(d: Decision): (r: Evaluation)
    ensures r.FirstDecided? || r.Raised?
    ensures r.Raised? <==> ValidateFirst(d).Fail?
    ensures r.Raised? ==> r.error == ValidateFirst(d).error
    ensures r.FirstDecided? ==>
              && FirstEntry((d.exploitation.value, d.utility.value,
                             d.technicalImpact.value, d.safetyImpact.value)) == Some(r.first.action)
              && r.first.priority == PriorityOf(FirstAction(r.first.action))
  {
    match ValidateFirst(d)
    case Fail(k) => Raised(k)
    case Pass =>
      var key := (d.exploitation.value, d.utility.value, d.technicalImpact.value, d.safetyImpact.value);
      FirstDecided(NewOutcomeFirst(FirstLookup(key)))
  }

  /**
   * `evaluate()`: the CISA path under CISA, the FIRST path under FIRST, and
   * no outcome (and no error) when the methodology did not resolve.
   */
  function Evaluate(d: Decision): (r: Evaluation)
    ensures r.NoOutcome? <==> d.methodology.None?
    ensures r.CisaDecided? ==> d.methodology == Some(Cisa)
    ensures r.FirstDecided? ==> d.methodology == Some(First)
    ensures d.methodology == Some(Cisa) ==> r == EvaluateCisa(d)
    ensures d.methodology == Some(First) ==> r == EvaluateFirst(d)
    ensures r.CisaDecided? ==> r.cisa.priority != Priority.High
    ensures r.FirstDecided? ==> r.first.priority != Priority.High
  {
    match d.methodology
    case Some(Cisa) => EvaluateCisa(d)
    case Some(First) => EvaluateFirst(d)
    case None => NoOutcome
  }

  /**
   * Construction reads only the attributes of the resolved methodology: two
   * option records that agree on those build the same `Decision`, and so
   * evaluate alike, whatever the other methodology's attributes say.
   */
  lemma OtherMethodologyIgnored(o1: DecisionOptions, o2: DecisionOptions)
    requires o1.methodology == o2.methodology
    requires o1.exploitation == o2.exploitation && o1.technicalImpact == o2.technicalImpact
    requires ToMethodology(o1.methodology) == Some(Cisa) ==>
               o1.automatable == o2.automatable && o1.missionWellbeing == o2.missionWellbeing
    requires ToMethodology(o1.methodology) == Some(First) ==>
               o1.utility == o2.utility && o1.safetyImpact == o2.safetyImpact
    ensures NewDecision(o1) == NewDecision(o2)
    ensures Evaluate(NewDecision(o1)) == Evaluate(NewDecision(o2))
  {
  }

  /** A methodology string that is no label (or no string at all) yields no outcome and no error. */
  lemma UnresolvedMethodologyGivesNoOutcome(o: DecisionOptions)
    requires o.methodology != Some(Cisa.Label()) && o.methodology != Some(First.Label())
    ensures NewDecision(o).methodology.None?
    ensures NewDecision(o).automatable.None? && NewDecision(o).missionWellbeing.None?
    ensures NewDecision(o).utility.None? && NewDecision(o).safetyImpact.None?
    ensures Evaluate(NewDecision(o)) == NoOutcome
  {
  }

  /**
   * End to end under "CISA": the first attribute, in the order exploitation,
   * technical impact, automatable, mission and well-being, whose string is
   * not a label decides the one error (the outcome for four labels is
   * `CisaOutcomeFromLabels`).
   */
  lemma CisaFromOptions(o: DecisionOptions)
    requires o.methodology == Some(Cisa.Label())
    ensures var r := Evaluate(NewDecision(o));
      && (ToExploitation(o.exploitation).None? ==> r == Raised(InvalidExploitation))
      && (ToExploitation(o.exploitation).Some? && ToTechnicalImpact(o.technicalImpact).None? ==>
            r == Raised(InvalidTechnicalImpact))
      && ((ToExploitation(o.exploitation).Some? && ToTechnicalImpact(o.technicalImpact).Some?
           && ToAutomatable(o.automatable).None?) ==> r == Raised(InvalidAutomatable))
      && ((ToExploitation(o.exploitation).Some? && ToTechnicalImpact(o.technicalImpact).Some?
           && ToAutomatable(o.automatable).Some? && ToMissionWellbeing(o.missionWellbeing).None?) ==>
            r == Raised(InvalidMissionWellbeing))
  {
    assert ToMethodology(o.methodology) == Some(Cisa);
  }

  /** End to end under "CISA" with all four labels valid: the matrix action and its priority. */
  lemma CisaOutcomeFromLabels(o: DecisionOptions, e: Exploitation, a: Automatable, t: TechnicalImpact, m: MissionWellbeing)
    requires o.methodology == Some(Cisa.Label())
    requires o.exploitation == Some(e.Label()) && o.automatable == Some(a.Label())
    requires o.technicalImpact == Some(t.Label()) && o.missionWellbeing == Some(m.Label())
    ensures Evaluate(NewDecision(o)) ==
              CisaDecided(OutcomeCisa(PriorityOf(CisaAction(CisaLookup((e, a, t, m)))), CisaLookup((e, a, t, m))))
  {
    assert ToMethodology(o.methodology) == Some(Cisa);
    assert ToExploitation(o.exploitation) == Some(e);
    assert ToAutomatable(o.automatable) == Some(a);
    assert ToTechnicalImpact(o.technicalImpact) == Some(t);
    assert ToMissionWellbeing(o.missionWellbeing) == Some(m);
  }

  /**
   * Construction from four valid CISA labels under "CISA": exactly the four
   * members, with the FIRST-only fields left absent whatever was passed.
   */
  lemma CisaDecisionFromLabels(o: DecisionOptions, e: Exploitation, a: Automatable, t: TechnicalImpact, m: MissionWellbeing)
    requires o.methodology == Some(Cisa.Label())
    requires o.exploitation == Some(e.Label()) && o.automatable == Some(a.Label())
    requires o.technicalImpact == Some(t.Label()) && o.missionWellbeing == Some(m.Label())
    ensures NewDecision(o) == Decision(exploitation := Some(e), automatable := Some(a), utility := None,
                                       technicalImpact := Some(t), safetyImpact := None,
                                       missionWellbeing := Some(m), methodology := Some(Cisa))
  {
    assert ToMethodology(o.methodology) == Some(Cisa);
    assert ToExploitation(o.exploitation) == Some(e);
    assert ToAutomatable(o.automatable) == Some(a);
    assert ToTechnicalImpact(o.technicalImpact) == Some(t);
    assert ToMissionWellbeing(o.missionWellbeing) == Some(m);
  }

  /**
   * End to end under "FIRST": the first attribute, in the order exploitation,
   * technical impact, utility, safety impact, whose string is not a label
   * decides the one error.
   */
  lemma FirstFromOptions(o: DecisionOptions)
    requires o.methodology == Some(First.Label())
    ensures var r := Evaluate(NewDecision(o));
      && (ToExploitation(o.exploitation).None? ==> r == Raised(InvalidExploitation))
      && (ToExploitation(o.exploitation).Some? && ToTechnicalImpact(o.technicalImpact).None? ==>
            r == Raised(InvalidTechnicalImpact))
      && ((ToExploitation(o.exploitation).Some? && ToTechnicalImpact(o.technicalImpact).Some?
           && ToUtility(o.utility).None?) ==> r == Raised(InvalidUtility))
      && ((ToExploitation(o.exploitation).Some? && ToTechnicalImpact(o.technicalImpact).Some?
           && ToUtility(o.utility).Some? && ToSafetyImpact(o.safetyImpact).None?) ==>
            r == Raised(InvalidSafetyImpact))
  {
    assert ToMethodology(o.methodology) == Some(First);
  }

  /**
   * End to end under "FIRST" with all four labels valid: the matrix entry
   * itself (the `scheduled` fallback never fires) and its priority.
   */
  lemma FirstOutcomeFromLabels(o: DecisionOptions, e: Exploitation, u: Utility, t: TechnicalImpact, s: SafetyImpact)
    requires o.methodology == Some(First.Label())
    requires o.exploitation == Some(e.Label()) && o.utility == Some(u.Label())
    requires o.technicalImpact == Some(t.Label()) && o.safetyImpact == Some(s.Label())
    ensures Evaluate(NewDecision(o)).FirstDecided?
    ensures FirstEntry((e, u, t, s)) == Some(Evaluate(NewDecision(o)).first.action)
    ensures Evaluate(NewDecision(o)).first.priority == PriorityOf(FirstAction(Evaluate(NewDecision(o)).first.action))
  {
    assert ToMethodology(o.methodology) == Some(First);
    assert ToExploitation(o.exploitation) == Some(e);
    assert ToUtility(o.utility) == Some(u);
    assert ToTechnicalImpact(o.technicalImpact) == Some(t);
    assert ToSafetyImpact(o.safetyImpact) == Some(s);
  }

  /**
   * Construction from four valid FIRST labels under "FIRST": exactly the
   * four members, with the CISA-only fields left absent whatever was passed.
   */
  lemma FirstDecisionFromLabels(o: DecisionOptions, e: Exploitation, u: Utility, t: TechnicalImpact, s: SafetyImpact)
    requires o.methodology == Some(First.Label())
    requires o.exploitation == Some(e.Label()) && o.utility == Some(u.Label())
    requires o.technicalImpact == Some(t.Label()) && o.safetyImpact == Some(s.Label())
    ensures NewDecision(o) == Decision(exploitation := Some(e), automatable := None, utility := Some(u),
                                       technicalImpact := Some(t), safetyImpact := Some(s),
                                       missionWellbeing := None, methodology := Some(First))
  {
    assert ToMethodology(o.methodology) == Some(First);
    assert ToExploitation(o.exploitation) == Some(e);
    assert ToUtility(o.utility) == Some(u);
    assert ToTechnicalImpact(o.technicalImpact) == Some(t);
    assert ToSafetyImpact(o.safetyImpact) == Some(s);
  }
}
