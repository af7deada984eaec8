/**
 * The FIRST decision matrix of `first()` in src/decision.ts and its
 * `scheduled` fallback.
 *
 * The source types this matrix as a total `Record` at every level, so all
 * 3 x 3 x 2 x 5 = 90 tuples carry an entry and the `?? ActionFIRST.SCHEDULED`
 * default can never fire. The model keeps the optional reading of the chain
 * and proves the density instead of assuming it.
 */
module FirstTable {
  import opened Options
  import opened Categories

  type FirstKey = (Exploitation, Utility, TechnicalImpact, SafetyImpact)

  /** The entries, in source order (the source lists `poc` before `none`). */
  function FirstEntry(k: FirstKey): Option<ActionFirst> {
    match k
    case (Poc, Laborious, Partial, SafetyNone) => Some(Scheduled)
    case (Poc, Laborious, Partial, Minor) => Some(Scheduled)
    case (Poc, Laborious, Partial, Major) => Some(OutOfBand)
    case (Poc, Laborious, Partial, Hazardous) => Some(OutOfBand)
    case (Poc, Laborious, Partial, Catastrophic) => Some(OutOfBand)
    case (Poc, Laborious, Total, SafetyNone) => Some(Scheduled)
    case (Poc, Laborious, Total, Minor) => Some(Scheduled)
    case (Poc, Laborious, Total, Major) => Some(OutOfBand)
    case (Poc, Laborious, Total, Hazardous) => Some(OutOfBand)
    case (Poc, Laborious, Total, Catastrophic) => Some(ActionFirst.Immediate)
    case (Poc, Efficient, Partial, SafetyNone) => Some(Scheduled)
    case (Poc, Efficient, Partial, Minor) => Some(Scheduled)
    case (Poc, Efficient, Partial, Major) => Some(OutOfBand)
    case (Poc, Efficient, Partial, Hazardous) => Some(ActionFirst.Immediate)
    case (Poc, Efficient, Partial, Catastrophic) => Some(ActionFirst.Immediate)
    case (Poc, Efficient, Total, SafetyNone) => Some(Scheduled)
    case (Poc, Efficient, Total, Minor) => Some(Scheduled)
    case (Poc, Efficient, Total, Major) => Some(OutOfBand)
    case (Poc, Efficient, Total, Hazardous) => Some(ActionFirst.Immediate)
    case (Poc, Efficient, Total, Catastrophic) => Some(ActionFirst.Immediate)
    case (Poc, SuperEffective, Partial, SafetyNone) => Some(Scheduled)
    case (Poc, SuperEffective, Partial, Minor) => Some(Scheduled)
    case (Poc, SuperEffective, Partial, Major) => Some(OutOfBand)
    case (Poc, SuperEffective, Partial, Hazardous) => Some(ActionFirst.Immediate)
    case (Poc, SuperEffective, Partial, Catastrophic) => Some(ActionFirst.Immediate)
    case (Poc, SuperEffective, Total, SafetyNone) => Some(Scheduled)
    case (Poc, SuperEffective, Total, Minor) => Some(Scheduled)
    case (Poc, SuperEffective, Total, Major) => Some(OutOfBand)
    case (Poc, SuperEffective, Total, Hazardous) => Some(OutOfBand)
    case (Poc, SuperEffective, Total, Catastrophic) => Some(ActionFirst.Immediate)
    case (ExploitationNone, Laborious, Partial, SafetyNone) => Some(Scheduled)
    case (ExploitationNone, Laborious, Partial, Minor) => Some(Scheduled)
    case (ExploitationNone, Laborious, Partial, Major) => Some(Scheduled)
    case (ExploitationNone, Laborious, Partial, Hazardous) => Some(Scheduled)
    case (ExploitationNone, Laborious, Partial, Catastrophic) => Some(OutOfBand)
    case (ExploitationNone, Laborious, Total, SafetyNone) => Some(Scheduled)
    case (ExploitationNone, Laborious, Total, Minor) => Some(Scheduled)
    case (ExploitationNone, Laborious, Total, Major) => Some(Scheduled)
    case (ExploitationNone, Laborious, Total, Hazardous) => Some(OutOfBand)
    case (ExploitationNone, Laborious, Total, Catastrophic) => Some(OutOfBand)
    case (ExploitationNone, Efficient, Partial, SafetyNone) => Some(Scheduled)
    case (ExploitationNone, Efficient, Partial, Minor) => Some(Scheduled)
    case (ExploitationNone, Efficient, Partial, Major) => Some(Scheduled)
    case (ExploitationNone, Efficient, Partial, Hazardous) => Some(OutOfBand)
    case (ExploitationNone, Efficient, Partial, Catastrophic) => Some(OutOfBand)
    case (ExploitationNone, Efficient, Total, SafetyNone) => Some(Scheduled)
    case (ExploitationNone, Efficient, Total, Minor) => Some(Scheduled)
    case (ExploitationNone, Efficient, Total, Major) => Some(OutOfBand)
    case (ExploitationNone, Efficient, Total, Hazardous) => Some(OutOfBand)
    case (ExploitationNone, Efficient, Total, Catastrophic) => Some(ActionFirst.Immediate)
    case (ExploitationNone, SuperEffective, Partial, SafetyNone) => Some(Scheduled)
    case (ExploitationNone, SuperEffective, Partial, Minor) => Some(Scheduled)
    case (ExploitationNone, SuperEffective, Partial, Major) => Some(OutOfBand)
    case (ExploitationNone, SuperEffective, Partial, Hazardous) => Some(OutOfBand)
    case (ExploitationNone, SuperEffective, Partial, Catastrophic) => Some(ActionFirst.Immediate)
    case (ExploitationNone, SuperEffective, Total, SafetyNone) => Some(Scheduled)
    case (ExploitationNone, SuperEffective, Total, Minor) => Some(OutOfBand)
    case (ExploitationNone, SuperEffective, Total, Major) => Some(OutOfBand)
    case (ExploitationNone, SuperEffective, Total, Hazardous) => Some(ActionFirst.Immediate)
    case (ExploitationNone, SuperEffective, Total, Catastrophic) => Some(ActionFirst.Immediate)
    case (Active, Laborious, Partial, SafetyNone) => Some(OutOfBand)
    case (Active, Laborious, Partial, Minor) => Some(OutOfBand)
    case (Active, Laborious, Partial, Major) => Some(ActionFirst.Immediate)
    case (Active, Laborious, Partial, Hazardous) => Some(ActionFirst.Immediate)
    case (Active, Laborious, Partial, Catastrophic) => Some(ActionFirst.Immediate)
    case (Active, Laborious, Total, SafetyNone) => Some(OutOfBand)
    case (Active, Laborious, Total, Minor) => Some(ActionFirst.Immediate)
    case (Active, Laborious, Total, Major) => Some(ActionFirst.Immediate)
    case (Active, Laborious, Total, Hazardous) => Some(ActionFirst.Immediate)
    case (Active, Laborious, Total, Catastrophic) => Some(ActionFirst.Immediate)
    case (Active, Efficient, Partial, SafetyNone) => Some(OutOfBand)
    case (Active, Efficient, Partial, Minor) => Some(ActionFirst.Immediate)
    case (Active, Efficient, Partial, Major) => Some(ActionFirst.Immediate)
    case (Active, Efficient, Partial, Hazardous) => Some(ActionFirst.Immediate)
    case (Active, Efficient, Partial, Catastrophic) => Some(ActionFirst.Immediate)
    case (Active, Efficient, Total, SafetyNone) => Some(ActionFirst.Immediate)
    case (Active, Efficient, Total, Minor) => Some(ActionFirst.Immediate)
    case (Active, Efficient, Total, Major) => Some(ActionFirst.Immediate)
    case (Active, Efficient, Total, Hazardous) => Some(ActionFirst.Immediate)
    case (Active, Efficient, Total, Catastrophic) => Some(ActionFirst.Immediate)
    case (Active, SuperEffective, Partial, SafetyNone) => Some(ActionFirst.Immediate)
    case (Active, SuperEffective, Partial, Minor) => Some(ActionFirst.Immediate)
    case (Active, SuperEffective, Partial, Major) => Some(ActionFirst.Immediate)
    case (Active, SuperEffective, Partial, Hazardous) => Some(ActionFirst.Immediate)
    case (Active, SuperEffective, Partial, Catastrophic) => Some(ActionFirst.Immediate)
    case (Active, SuperEffective, Total, SafetyNone) => Some(ActionFirst.Immediate)
    case (Active, SuperEffective, Total, Minor) => Some(ActionFirst.Immediate)
    case (Active, SuperEffective, Total, Major) => Some(ActionFirst.Immediate)
    case (Active, SuperEffective, Total, Hazardous) => Some(ActionFirst.Immediate)
    case (Active, SuperEffective, Total, Catastrophic) => Some(ActionFirst.Immediate)
  }

  /** Every tuple has an entry: the matrix is dense. */
  lemma FirstMatrixDense(k: FirstKey)
    ensures FirstEntry(k).Some?
  {
  }

  /**
   * `decisionMatrix[e]?.[u]?.[t]?.[s] ?? ActionFIRST.SCHEDULED`. Besides the
   * entry itself: active exploitation and catastrophic safety impact never
   * yield `scheduled`, and without active exploitation a safety impact of
   * `none` always does.
   */
  function FirstLookup(k: FirstKey): (r: ActionFirst)
    ensures FirstEntry(k) == Some(r)
    ensures k.0 == Active ==> r != Scheduled
    ensures k.3 == Catastrophic ==> r != Scheduled
    ensures k.0 != Active && k.3 == SafetyNone ==> r == Scheduled
  {
    FirstMatrixDense(k);
    FirstEntry(k).GetOr(Scheduled)
  }

  /** Within each row, raising the safety impact never lowers the action. */
  lemma MonotoneInSafetyImpact(e: Exploitation, u: Utility, t: TechnicalImpact, s1: SafetyImpact, s2: SafetyImpact)
    requires s1.Rank() <= s2.Rank()
    ensures FirstLookup((e, u, t, s1)).Rank() <= FirstLookup((e, u, t, s2)).Rank()
  {
  }

  /** Raising utility can lower the action: efficient gives immediate where super effective gives out-of-band. */
  lemma NotMonotoneInUtility()
    ensures FirstLookup((Poc, Efficient, Total, Hazardous)) == ActionFirst.Immediate
    ensures FirstLookup((Poc, SuperEffective, Total, Hazardous)) == OutOfBand
  {
  }

  /** Raising technical impact can lower the action. */
  lemma NotMonotoneInTechnicalImpact()
    ensures FirstLookup((Poc, SuperEffective, Partial, Hazardous)) == ActionFirst.Immediate
    ensures FirstLookup((Poc, SuperEffective, Total, Hazardous)) == OutOfBand
  {
  }

  /** Raising exploitation from none to poc can lower the action. */
  lemma NotMonotoneInExploitation()
    ensures FirstLookup((ExploitationNone, SuperEffective, Total, Minor)) == OutOfBand
    ensures FirstLookup((Poc, SuperEffective, Total, Minor)) == Scheduled
  {
  }
}
