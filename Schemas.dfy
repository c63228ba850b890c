/** The records the two engines exchange. They are built fresh per request and never
    changed afterwards, so they are values. */
module Schemas {

  datatype Option<+T> = None | Some(value: T)

  /** A submitted task. The demo flag and demo type are passed to the review engine
      separately, as parameters of `ReviewTask`. */
  datatype Task = Task(taskTitle: string, taskDescription: string, submittedBy: string)

  /** The review engine's assessment. */
  datatype ReviewOutput = ReviewOutput(
    score: int,
    readinessPercent: int,
    gaps: seq<string>,
    improvementHints: seq<string>,
    reviewerSummary: string)

  /** The three `difficulty_level` values a recommendation can carry. */
  datatype Difficulty = Easy | Medium | Hard {
    /** The literal the service sends for this level. */
    function Name(): string {
      match this
      case Easy => "easy"
      case Medium => "medium"
      case Hard => "hard"
    }

    /** Position in the order easy < medium < hard. */
    function Rank(): nat {
      match this
      case Easy => 0
      case Medium => 1
      case Hard => 2
    }
  }

  /** The next-task engine's recommendation. */
  datatype NextTask = NextTask(
    nextTaskTitle: string,
    nextTaskDescription: string,
    difficultyLevel: Difficulty,
    rationale: string)
}
