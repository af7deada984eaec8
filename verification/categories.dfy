/**
 * The closed categorical domains of the evaluator and the exact-label
 * normalisation rule (`toEnum`) that turns a raw string into a member.
 *
 * Every TypeScript string enum becomes a datatype whose `Label` is the
 * member's string value (its wire representation), `All...` lists the
 * members in declaration order (the order `Object.entries` walks them),
 * and `Rank` gives the severity order used by the monotonicity lemmas.
 */
module Categories {
  import opened Options

  datatype Exploitation = ExploitationNone | Poc | Active {
    function Label(): string {
      match this
      case ExploitationNone => "none"
      case Poc => "poc"
      case Active => "active"
    }
    function Rank(): nat {
      match this
      case ExploitationNone => 0
      case Poc => 1
      case Active => 2
    }
  }

  datatype Automatable = Yes | No {
    function Label(): string {
      match this
      case Yes => "yes"
      case No => "no"
    }
    function Rank(): nat {
      match this
      case No => 0
      case Yes => 1
    }
  }

  datatype TechnicalImpact = Partial | Total {
    function Label(): string {
      match this
      case Partial => "partial"
      case Total => "total"
    }
    function Rank(): nat {
      match this
      case Partial => 0
      case Total => 1
    }
  }

  datatype MissionWellbeing = Low | Medium | High {
    function Label(): string {
      match this
      case Low => "low"
      case Medium => "medium"
      case High => "high"
    }
    function Rank(): nat {
      match this
      case Low => 0
      case Medium => 1
      case High => 2
    }
  }

  datatype Priority = Low | Medium | High | Immediate {
    function Label(): string {
      match this
      case Low => "low"
      case Medium => "medium"
      case High => "high"
      case Immediate => "immediate"
    }
    function Rank(): nat {
      match this
      case Low => 0
      case Medium => 1
      case High => 2
      case Immediate => 3
    }
  }

  datatype Utility = Laborious | Efficient | SuperEffective {
    /** The source spells the third label with a space, not an underscore. */
    function Label(): string {
      match this
      case Laborious => "laborious"
      case Efficient => "efficient"
      case SuperEffective => "super effective"
    }
    function Rank(): nat {
      match this
      case Laborious => 0
      case Efficient => 1
      case SuperEffective => 2
    }
  }

  datatype SafetyImpact = SafetyNone | Minor | Major | Hazardous | Catastrophic {
    function Label(): string {
      match this
      case SafetyNone => "none"
      case Minor => "minor"
      case Major => "major"
      case Hazardous => "hazardous"
      case Catastrophic => "catastrophic"
    }
    function Rank(): nat {
      match this
      case SafetyNone => 0
      case Minor => 1
      case Major => 2
      case Hazardous => 3
      case Catastrophic => 4
    }
  }

  datatype ActionFirst = Scheduled | OutOfBand | Immediate {
    function Label(): string {
      match this
      case Scheduled => "scheduled"
      case OutOfBand => "out-of-band"
      case Immediate => "immediate"
    }
    function Rank(): nat {
      match this
      case Scheduled => 0
      case OutOfBand => 1
      case Immediate => 2
    }
  }

  datatype ActionCisa = Track | TrackStar | Attend | Act {
    function Label(): string {
      match this
      case Track => "Track"
      case TrackStar => "Track*"
      case Attend => "Attend"
      case Act => "Act"
    }
    function Rank(): nat {
      match this
      case Track => 0
      case TrackStar => 1
      case Attend => 2
      case Act => 3
    }
  }

  datatype Methodology = First | Cisa {
    function Label(): string {
      match this
      case First => "FIRST"
      case Cisa => "CISA"
    }
  }

  const AllExploitation: seq<Exploitation> := [ExploitationNone, Poc, Active]
  const AllAutomatable: seq<Automatable> := [Yes, No]
  const AllTechnicalImpact: seq<TechnicalImpact> := [Partial, Total]
  const AllMissionWellbeing: seq<MissionWellbeing> := [MissionWellbeing.Low, MissionWellbeing.Medium, MissionWellbeing.High]
  const AllUtility: seq<Utility> := [Laborious, Efficient, SuperEffective]
  const AllSafetyImpact: seq<SafetyImpact> := [SafetyNone, Minor, Major, Hazardous, Catastrophic]
  const AllMethodology: seq<Methodology> := [First, Cisa]

  /**
   * `Object.entries(enumObj).find(([_, val]) => val === s)`: the first member,
   * in declaration order, whose label is exactly `s`.
   */
  function FindByLabel<T(==)>(members: seq<T>, labelOf: T -> string, s: string): (r: Option<T>)
    ensures r.Some? ==> r.value in members && labelOf(r.value) == s
    ensures r.None? <==> forall i :: 0 <= i < |members| ==> labelOf(members[i]) != s
    ensures r.Some? ==> exists i :: 0 <= i < |members| && members[i] == r.value
                                    && forall j :: 0 <= j < i ==> labelOf(members[j]) != s
  {
    if |members| == 0 then None
    else if labelOf(members[0]) == s then Some(members[0])
    else
      var r := FindByLabel(members[1..], labelOf, s);
      assert r.Some? ==> exists i :: 0 <= i < |members| && members[i] == r.value
                                     && forall j :: 0 <= j < i ==> labelOf(members[j]) != s by {
        if r.Some? {
          var i :| 0 <= i < |members[1..]| && members[1..][i] == r.value
                   && forall j :: 0 <= j < i ==> labelOf(members[1..][j]) != s;
          assert forall j :: 0 <= j < i + 1 ==> labelOf(members[j]) != s by {
            forall j | 0 <= j < i + 1 ensures labelOf(members[j]) != s {
              if j > 0 { assert members[j] == members[1..][j - 1]; }
            }
          }
        }
      }
      r
  }

  /**
   * The source's `toEnum` on string input: absent stays absent, a string
   * becomes the member whose label equals it exactly, anything else absent.
   */
  function ToEnum<T(==)>(members: seq<T>, labelOf: T -> string, value: Option<string>): (r: Option<T>)
    ensures value.None? ==> r.None?
    ensures r.Some? ==> value.Some? && r.value in members && labelOf(r.value) == value.value
    ensures value.Some? && r.None? ==> forall i :: 0 <= i < |members| ==> labelOf(members[i]) != value.value
  {
    match value
    case None => None
    case Some(s) => FindByLabel(members, labelOf, s)
  }

  /** Labels of distinct members differ. */
  ghost predicate LabelsDistinct<T>(members: seq<T>, labelOf: T -> string) {
    forall i, j :: 0 <= i < |members| && 0 <= j < |members| && labelOf(members[i]) == labelOf(members[j])
      ==> members[i] == members[j]
  }

  /** With distinct labels, `ToEnum` yields a member exactly when given that member's label. */
  lemma ToEnumExact<T>(members: seq<T>, labelOf: T -> string, v: Option<string>, x: T)
    requires x in members
    requires LabelsDistinct(members, labelOf)
    ensures ToEnum(members, labelOf, v) == Some(x) <==> v == Some(labelOf(x))
  {
    var r := ToEnum(members, labelOf, v);
    var k :| 0 <= k < |members| && members[k] == x;
    if v == Some(labelOf(x)) {
      assert r.Some?;
      var i :| 0 <= i < |members| && members[i] == r.value;
      assert r.value == x;
    }
  }

  /**
   * The normaliser contract for a whole enum: when `members` lists every value
   * and the labels are distinct, `ToEnum` yields exactly the member whose
   * label was given.
   */
  lemma ToEnumIff<T>(members: seq<T>, labelOf: T -> string, raw: Option<string>)
    requires forall x: T :: x in members
    requires LabelsDistinct(members, labelOf)
    ensures forall x: T :: ToEnum(members, labelOf, raw) == Some(x) <==> raw == Some(labelOf(x))
  {
    forall x: T ensures ToEnum(members, labelOf, raw) == Some(x) <==> raw == Some(labelOf(x)) {
      ToEnumExact(members, labelOf, raw, x);
    }
  }

  function ToExploitation(raw: Option<string>): (r: Option<Exploitation>)
    ensures forall e: Exploitation :: r == Some(e) <==> raw == Some(e.Label())
  {
    var labelOf := (e: Exploitation) => e.Label();
    assert forall e: Exploitation :: e in AllExploitation by {
      forall e: Exploitation ensures e in AllExploitation { assert e.ExploitationNone? || e.Poc? || e.Active?; }
    }
    ToEnumIff(AllExploitation, labelOf, raw);
    ToEnum(AllExploitation, labelOf, raw)
  }

  function ToAutomatable(raw: Option<string>): (r: Option<Automatable>)
    ensures forall a: Automatable :: r == Some(a) <==> raw == Some(a.Label())
  {
    var labelOf := (a: Automatable) => a.Label();
    assert forall a: Automatable :: a in AllAutomatable by {
      forall a: Automatable ensures a in AllAutomatable { assert a.Yes? || a.No?; }
    }
    ToEnumIff(AllAutomatable, labelOf, raw);
    ToEnum(AllAutomatable, labelOf, raw)
  }

  function ToTechnicalImpact(raw: Option<string>): (r: Option<TechnicalImpact>)
    ensures forall t: TechnicalImpact :: r == Some(t) <==> raw == Some(t.Label())
  {
    var labelOf := (t: TechnicalImpact) => t.Label();
    assert forall t: TechnicalImpact :: t in AllTechnicalImpact by {
      forall t: TechnicalImpact ensures t in AllTechnicalImpact { assert t.Partial? || t.Total?; }
    }
    ToEnumIff(AllTechnicalImpact, labelOf, raw);
    ToEnum(AllTechnicalImpact, labelOf, raw)
  }

  function ToMissionWellbeing(raw: Option<string>): (r: Option<MissionWellbeing>)
    ensures forall m: MissionWellbeing :: r == Some(m) <==> raw == Some(m.Label())
  {
    var labelOf := (m: MissionWellbeing) => m.Label();
    assert forall m: MissionWellbeing :: m in AllMissionWellbeing by {
      forall m: MissionWellbeing ensures m in AllMissionWellbeing { assert m.Low? || m.Medium? || m.High?; }
    }
    ToEnumIff(AllMissionWellbeing, labelOf, raw);
    ToEnum(AllMissionWellbeing, labelOf, raw)
  }

  function ToUtility(raw: Option<string>): (r: Option<Utility>)
    ensures forall u: Utility :: r == Some(u) <==> raw == Some(u.Label())
  {
    var labelOf := (u: Utility) => u.Label();
    assert forall u: Utility :: u in AllUtility by {
      forall u: Utility ensures u in AllUtility { assert u.Laborious? || u.Efficient? || u.SuperEffective?; }
    }
    ToEnumIff(AllUtility, labelOf, raw);
    ToEnum(AllUtility, labelOf, raw)
  }

  function ToSafetyImpact(raw: Option<string>): (r: Option<SafetyImpact>)
    ensures forall s: SafetyImpact :: r == Some(s) <==> raw == Some(s.Label())
  {
    var labelOf := (s: SafetyImpact) => s.Label();
    assert forall s: SafetyImpact :: s in AllSafetyImpact by {
      forall s: SafetyImpact ensures s in AllSafetyImpact { assert s.SafetyNone? || s.Minor? || s.Major? || s.Hazardous? || s.Catastrophic?; }
    }
    ToEnumIff(AllSafetyImpact, labelOf, raw);
    ToEnum(AllSafetyImpact, labelOf, raw)
  }

  function ToMethodology(raw: Option<string>): (r: Option<Methodology>)
    ensures forall m: Methodology :: r == Some(m) <==> raw == Some(m.Label())
  {
    var labelOf := (m: Methodology) => m.Label();
    assert forall m: Methodology :: m in AllMethodology by {
      forall m: Methodology ensures m in AllMethodology { assert m.First? || m.Cisa?; }
    }
    ToEnumIff(AllMethodology, labelOf, raw);
    ToEnum(AllMethodology, labelOf, raw)
  }

  /** Normalising a member's own label gives the member back, for every domain. */
  lemma LabelRoundTrip(e: Exploitation, a: Automatable, t: TechnicalImpact, m: MissionWellbeing,
                       u: Utility, s: SafetyImpact, me: Methodology)
    ensures ToExploitation(Some(e.Label())) == Some(e)
    ensures ToAutomatable(Some(a.Label())) == Some(a)
    ensures ToTechnicalImpact(Some(t.Label())) == Some(t)
    ensures ToMissionWellbeing(Some(m.Label())) == Some(m)
    ensures ToUtility(Some(u.Label())) == Some(u)
    ensures ToSafetyImpact(Some(s.Label())) == Some(s)
    ensures ToMethodology(Some(me.Label())) == Some(me)
  {
  }

  /** Matching is exact and case-sensitive: near-miss spellings are absent. */
  lemma NearMissesAreAbsent()
    ensures ToExploitation(Some("Active")) == None
    ensures ToExploitation(Some("ACTIVE")) == None
    ensures ToUtility(Some("super_effective")) == None
    ensures ToMethodology(Some("cisa")) == None
  {
    assert "Active"[0] != "active"[0];
    assert "ACTIVE"[0] != "active"[0];
    assert "super_effective"[5] != "super effective"[5];
    assert "cisa"[0] != "CISA"[0];
  }
}
