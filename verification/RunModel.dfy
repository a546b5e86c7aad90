/** The run state machine shared by every component of the coordinator. */
module RunModel {

  datatype RunState =
    | Queued
    | Staging
    | Running
    | Committing
    | Succeeded
    | Failed
    | Lost
    | Aborted
    | Unavailable
    | Aggregating

  predicate IsTerminal(s: RunState) {
    s.Succeeded? || s.Failed? || s.Lost? || s.Aborted? || s.Unavailable?
  }

  /** The edges the transition table lists, self-loops of live states included. */
  predicate CanTransition(from: RunState, to: RunState) {
    if from == to then
      !from.Succeeded? && !from.Failed? && !from.Lost? && !from.Aborted? && !from.Unavailable?
    else
      match from
      case Queued => to.Staging? || to.Aborted? || to.Unavailable?
      case Staging => to.Running? || to.Lost? || to.Aborted? || to.Unavailable?
      case Running => to.Committing? || to.Failed? || to.Lost? || to.Aborted? || to.Unavailable?
      case Committing => to.Succeeded? || to.Failed? || to.Lost? || to.Aborted? || to.Unavailable?
      case Lost => to.Aborted?
      case _ => false
  }

  /** How far a run has come; every terminal state ranks last. */
  function Rank(s: RunState): nat {
    match s
    case Queued => 0
    case Aggregating => 0
    case Staging => 1
    case Running => 2
    case Committing => 3
    case _ => 4
  }

  /** The states a worker reports from the outcome of its command. */
  predicate Reported(s: RunState) {
    s.Succeeded? || s.Failed? || s.Unavailable?
  }

  /** The table by rank: a live run stays, advances one rank, or ends; it can be aborted or found unavailable at any
    * time, lost once it has begun, failed once it runs, and succeed only from its commit. The one edge out of a
    * terminal state leads from lost to aborted. */
  lemma TransitionTable(from: RunState, to: RunState)
    ensures IsTerminal(from) <==> !CanTransition(from, from)
    ensures IsTerminal(from) ==> (CanTransition(from, to) <==> from.Lost? && to.Aborted?)
    ensures from.Aggregating? || to.Aggregating? ==> (CanTransition(from, to) <==> from == to)
    ensures !IsTerminal(from) && !from.Aggregating? && !IsTerminal(to) && !to.Aggregating? ==>
      (CanTransition(from, to) <==> Rank(from) <= Rank(to) <= Rank(from) + 1)
    ensures !IsTerminal(from) && !from.Aggregating? ==>
      && CanTransition(from, Aborted) && CanTransition(from, Unavailable)
      && (CanTransition(from, Lost) <==> Rank(from) >= 1)
      && (CanTransition(from, Failed) <==> Rank(from) >= 2)
      && (CanTransition(from, Succeeded) <==> Rank(from) >= 3)
  {
  }
}
