/**
 * The CISA decision matrix of `cisa()` in src/decision.ts and its `Track`
 * fallback.
 *
 * The source nests four records keyed by Exploitation, Automatable,
 * TechnicalImpact and MissionWellbeingImpact, the inner two `Partial`. The
 * model reads the optional chain `m[e]?.[a]?.[t]?.[w]` as one function of the
 * 4-tuple that is `None` exactly where some level of the chain is undefined.
 */
module CisaTable {
  import opened Options
  import opened Categories

  type CisaKey = (Exploitation, Automatable, TechnicalImpact, MissionWellbeing)

  /** The explicit entries, in source order; every other tuple is undefined. */
  function CisaEntry(k: CisaKey): Option<ActionCisa> {
    match k
    case (ExploitationNone, Yes, Total, High) => Some(Attend)
    case (ExploitationNone, No, Total, High) => Some(TrackStar)
    case (Poc, Yes, Total, Medium) => Some(TrackStar)
    case (Poc, Yes, Total, High) => Some(Attend)
    case (Poc, Yes, Partial, High) => Some(Attend)
    case (Poc, No, Partial, High) => Some(TrackStar)
    case (Poc, No, Total, Medium) => Some(TrackStar)
    case (Poc, No, Total, High) => Some(Attend)
    case (Active, Yes, Partial, Low) => Some(Attend)
    case (Active, Yes, Partial, Medium) => Some(Attend)
    case (Active, Yes, Partial, High) => Some(Act)
    case (Active, Yes, Total, Low) => Some(Attend)
    case (Active, Yes, Total, Medium) => Some(Act)
    case (Active, Yes, Total, High) => Some(Act)
    case (Active, No, Partial, High) => Some(Attend)
    case (Active, No, Total, Medium) => Some(Attend)
    case (Active, No, Total, High) => Some(Act)
    case _ => None
  }

  /** The matrix never names `Track` explicitly: `Track` only ever comes from the fallback. */
  lemma NoExplicitTrack(k: CisaKey)
    ensures CisaEntry(k) != Some(Track)
  {
  }

  /**
   * `decisionMatrix[e]?.[a]?.[t]?.[w] ?? ActionCISA.TRACK`: the explicit entry
   * if there is one, otherwise `Track`; `Track` comes back exactly for the
   * tuples without an entry, and `Act` only under active exploitation.
   */
  function CisaLookup(k: CisaKey): (r: ActionCisa)
    ensures CisaEntry(k).Some? ==> r == CisaEntry(k).value
    ensures r == Track <==> CisaEntry(k).None?
    ensures r == Act ==> k.0 == Active
  {
    NoExplicitTrack(k);
    CisaEntry(k).GetOr(Track)
  }

  /** Number of tuples resolving to `Track` once Exploitation, Automatable and TechnicalImpact are fixed. */
  function TrackCountFor(e: Exploitation, a: Automatable, t: TechnicalImpact): nat {
    (if CisaLookup((e, a, t, MissionWellbeing.Low)) == Track then 1 else 0)
    + (if CisaLookup((e, a, t, MissionWellbeing.Medium)) == Track then 1 else 0)
    + (if CisaLookup((e, a, t, MissionWellbeing.High)) == Track then 1 else 0)
  }

  /** Number of tuples resolving to `Track` once Exploitation is fixed. */
  function TrackCountForExploitation(e: Exploitation): nat {
    TrackCountFor(e, Yes, Partial) + TrackCountFor(e, Yes, Total)
    + TrackCountFor(e, No, Partial) + TrackCountFor(e, No, Total)
  }

  /** Number of the 36 attribute tuples that resolve to `Track`. */
  function TrackCount(): nat {
    TrackCountForExploitation(ExploitationNone) + TrackCountForExploitation(Poc) + TrackCountForExploitation(Active)
  }

  /** Exactly 19 of the 36 tuples have no entry and therefore resolve to `Track`. */
  lemma FallbackCount()
    ensures TrackCount() == 19
  {
    assert TrackCountForExploitation(ExploitationNone) == 10 by {
      assert TrackCountFor(ExploitationNone, Yes, Partial) == 3;
      assert TrackCountFor(ExploitationNone, Yes, Total) == 2;
      assert TrackCountFor(ExploitationNone, No, Partial) == 3;
      assert TrackCountFor(ExploitationNone, No, Total) == 2;
    }
    assert TrackCountForExploitation(Poc) == 6 by {
      assert TrackCountFor(Poc, Yes, Partial) == 2;
      assert TrackCountFor(Poc, Yes, Total) == 1;
      assert TrackCountFor(Poc, No, Partial) == 2;
      assert TrackCountFor(Poc, No, Total) == 1;
    }
    assert TrackCountForExploitation(Active) == 3 by {
      assert TrackCountFor(Active, Yes, Partial) == 0;
      assert TrackCountFor(Active, Yes, Total) == 0;
      assert TrackCountFor(Active, No, Partial) == 2;
      assert TrackCountFor(Active, No, Total) == 1;
    }
  }

  /** Raising exploitation alone never lowers the action. */
  lemma MonotoneInExploitation(e1: Exploitation, e2: Exploitation, a: Automatable, t: TechnicalImpact, m: MissionWellbeing)
    requires e1.Rank() <= e2.Rank()
    ensures CisaLookup((e1, a, t, m)).Rank() <= CisaLookup((e2, a, t, m)).Rank()
  {
  }

  /** Raising automatability alone never lowers the action. */
  lemma MonotoneInAutomatable(e: Exploitation, a1: Automatable, a2: Automatable, t: TechnicalImpact, m: MissionWellbeing)
    requires a1.Rank() <= a2.Rank()
    ensures CisaLookup((e, a1, t, m)).Rank() <= CisaLookup((e, a2, t, m)).Rank()
  {
  }

  /** Raising technical impact alone never lowers the action. */
  lemma MonotoneInTechnicalImpact(e: Exploitation, a: Automatable, t1: TechnicalImpact, t2: TechnicalImpact, m: MissionWellbeing)
    requires t1.Rank() <= t2.Rank()
    ensures CisaLookup((e, a, t1, m)).Rank() <= CisaLookup((e, a, t2, m)).Rank()
  {
  }

  /** Raising mission and well-being impact alone never lowers the action. */
  lemma MonotoneInMissionWellbeing(e: Exploitation, a: Automatable, t: TechnicalImpact, m1: MissionWellbeing, m2: MissionWellbeing)
    requires m1.Rank() <= m2.Rank()
    ensures CisaLookup((e, a, t, m1)).Rank() <= CisaLookup((e, a, t, m2)).Rank()
  {
  }

  /** The CISA matrix with its fallback is monotone in all four attributes at once. */
  lemma CisaMonotone(k1: CisaKey, k2: CisaKey)
    requires k1.0.Rank() <= k2.0.Rank() && k1.1.Rank() <= k2.1.Rank()
    requires k1.2.Rank() <= k2.2.Rank() && k1.3.Rank() <= k2.3.Rank()
    ensures CisaLookup(k1).Rank() <= CisaLookup(k2).Rank()
  {
    MonotoneInExploitation(k1.0, k2.0, k1.1, k1.2, k1.3);
    MonotoneInAutomatable(k2.0, k1.1, k2.1, k1.2, k1.3);
    MonotoneInTechnicalImpact(k2.0, k2.1, k1.2, k2.2, k1.3);
    MonotoneInMissionWellbeing(k2.0, k2.1, k2.2, k1.3, k2.3);
  }
}
