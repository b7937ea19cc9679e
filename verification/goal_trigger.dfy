/**
 The goal trigger volume: it forwards a collider's enter and exit events to the
 puzzle manager, but only for colliders tagged "Box".
 */
module Trigger {
  import opened Manager

  /** The tag that marks a box collider. */
  const BoxTag: string := "Box"

  class GoalTrigger {
    const puzzleManager: PuzzleManager

    constructor (puzzleManager: PuzzleManager)
      ensures this.puzzleManager == puzzleManager
    {
      this.puzzleManager := puzzleManager;
    }

    method OnTriggerEnter(colliderTag: string, other: BoxId)
      requires puzzleManager.Valid()
      modifies puzzleManager
      ensures puzzleManager.Valid()
      ensures colliderTag == BoxTag ==>
        && puzzleManager.Current() == Enter(puzzleManager.totalBoxesNeeded, old(puzzleManager.Current()), other).0
        && puzzleManager.Calls() == old(puzzleManager.Calls()).Plus(
             Enter(puzzleManager.totalBoxesNeeded, old(puzzleManager.Current()), other).1)
      ensures colliderTag != BoxTag ==> unchanged(puzzleManager)
    {
      if colliderTag == BoxTag {
        puzzleManager.BoxEnteredGoal(other);
      }
    }

    method OnTriggerExit(colliderTag: string, other: BoxId)
      requires puzzleManager.Valid()
      modifies puzzleManager
      ensures puzzleManager.Valid()
      ensures colliderTag == BoxTag ==>
        && puzzleManager.Current() == Exit(old(puzzleManager.Current()), other)
        && puzzleManager.Calls() == old(puzzleManager.Calls())
      ensures colliderTag != BoxTag ==> unchanged(puzzleManager)
    {
      if colliderTag == BoxTag {
        puzzleManager.BoxExitedGoal(other);
      }
    }
  }
}
