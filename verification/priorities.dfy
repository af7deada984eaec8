/**
 * The shared action-to-priority map of the current revision and the two
 * outcome records built from it.
 *
 * The source keys `priorityMap` by the actions' string values, so a CISA
 * action and a FIRST action with the same label would share one entry; the
 * model keeps the string keys so that the absence of such a clash is a
 * stated fact rather than an accident of the encoding.
 */
module Priorities {
  import opened Categories

  /** The key type `ActionCISA | ActionFIRST` of the shared map. */
  datatype Action = CisaAction(cisa: ActionCisa) | FirstAction(first: ActionFirst) {
    function Label(): string {
      match this
      case CisaAction(a) => a.Label()
      case FirstAction(a) => a.Label()
    }

    /** Severity within the action's own methodology (0 is the lowest). */
    function Rank(): nat {
      match this
      case CisaAction(a) => a.Rank()
      case FirstAction(a) => a.Rank()
    }

    /** The rank of the most severe action of the same methodology. */
    function TopRank(): nat {
      match this
      case CisaAction(_) => Act.Rank()
      case FirstAction(_) => ActionFirst.Immediate.Rank()
    }
  }

  /** The object literal `priorityMap`, entries in source order. */
  const PriorityMap: map<string, Priority> := map[
    CisaAction(Track).Label() := Priority.Low,
    CisaAction(TrackStar).Label() := Priority.Medium,
    CisaAction(Attend).Label() := Priority.Medium,
    CisaAction(Act).Label() := Priority.Immediate,
    FirstAction(Scheduled).Label() := Priority.Low,
    FirstAction(OutOfBand).Label() := Priority.Medium,
    FirstAction(ActionFirst.Immediate).Label() := Priority.Immediate
  ]

  /**
   * `priorityMap[action]`. Every action has an entry; the lowest action of
   * either methodology is `low`, the highest `immediate`, everything in
   * between `medium`, and `high` is never produced.
   */
  function PriorityOf(a: Action): (p: Priority)
    ensures p != Priority.High
    ensures p == Priority.Low <==> a.Rank() == 0
    ensures p == Priority.Immediate <==> a.Rank() == a.TopRank()
    ensures p == Priority.Medium <==> 0 < a.Rank() < a.TopRank()
  {
    EveryActionHasEntry(a);
    PriorityMap[a.Label()]
  }

  /** The map has an entry for every action of either methodology. */
  lemma EveryActionHasEntry(a: Action)
    ensures a.Label() in PriorityMap
  {
    match a {
      case CisaAction(c) => assert c.Track? || c.TrackStar? || c.Attend? || c.Act?;
      case FirstAction(f) => assert f.Scheduled? || f.OutOfBand? || f.Immediate?;
    }
  }

  /** The seven action labels are pairwise distinct, so no map entry shadows another. */
  lemma ActionLabelsDistinct(a: Action, b: Action)
    ensures a.Label() == b.Label() <==> a == b
  {
    if a.Label() == b.Label() {
      match a {
        case CisaAction(x) =>
          match b {
            case CisaAction(y) =>
              assert x.Label()[0] == y.Label()[0];
              assert |x.Label()| == |y.Label()|;
            case FirstAction(y) =>
          }
        case FirstAction(x) =>
          match b {
            case CisaAction(y) =>
            case FirstAction(y) =>
              assert x.Label()[0] == y.Label()[0];
          }
      }
    }
  }

  /** Within one methodology, a more severe action never gets a lower priority. */
  lemma PriorityMonotone(a: Action, b: Action)
    requires a.CisaAction? == b.CisaAction?
    requires a.Rank() <= b.Rank()
    ensures PriorityOf(a).Rank() <= PriorityOf(b).Rank()
  {
  }

  datatype OutcomeCisa = OutcomeCisa(priority: Priority, action: ActionCisa)

  datatype OutcomeFirst = OutcomeFirst(priority: Priority, action: ActionFirst)

  /** `new OutcomeCISA(action)`: the action together with its mapped priority. */
  function NewOutcomeCisa(action: ActionCisa): (o: OutcomeCisa)
    ensures o.action == action
    ensures o.priority == PriorityOf(CisaAction(action))
  {
    OutcomeCisa(PriorityMap[CisaAction(action).Label()], action)
  }

  /** `new OutcomeFIRST(action)`: the action together with its mapped priority. */
  function NewOutcomeFirst(action: ActionFirst): (o: OutcomeFirst)
    ensures o.action == action
    ensures o.priority == PriorityOf(FirstAction(action))
  {
    OutcomeFirst(PriorityMap[FirstAction(action).Label()], action)
  }
}
