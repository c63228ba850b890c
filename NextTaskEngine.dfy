/** The next-task engine: a three-band ladder on the review score, each band answering
    with a fixed recommendation. */
module NextTaskEngine {
  import opened Schemas

  const RefinementTask := NextTask(
    "Task Refinement Phase",
    "Deepen description with specific requirements and success criteria.",
    Easy,
    "Low score requires building foundational clarity.")

  const ArchitectureTask := NextTask(
    "Technical Architecture Design",
    "Draft a high-level architecture diagram and component interaction map.",
    Medium,
    "Foundation is adequate. Moving to implementation planning.")

  const ProductionTask := NextTask(
    "Production Implementation",
    "Execute implementation with comprehensive unit and integration tests.",
    Hard,
    "High readiness justifies proceeding to production.")

  /** The fixed recommendation for each difficulty level. */
  function TierTask(level: Difficulty): (t: NextTask)
    ensures t.difficultyLevel == level
  {
    match level
    case Easy => RefinementTask
    case Medium => ArchitectureTask
    case Hard => ProductionTask
  }

  /** The recommendation for a review: below 50 easy, below 85 medium, otherwise hard. Every
      integer score lands in exactly one band, and the answer is that band's fixed record. */
  function GenerateNextTask(review: ReviewOutput): (t: NextTask)
    ensures t == TierTask(t.difficultyLevel)
    ensures t.difficultyLevel == Easy <==> review.score < 50
    ensures t.difficultyLevel == Medium <==> 50 <= review.score < 85
    ensures t.difficultyLevel == Hard <==> 85 <= review.score
  {
    if review.score < 50 then RefinementTask
    else if review.score < 85 then ArchitectureTask
    else ProductionTask
  }

  /** The band edges: 49 is easy, 50 and 84 are medium, 85 is hard. */
  lemma TierBoundaries(review: ReviewOutput)
    ensures review.score == 49 ==> GenerateNextTask(review).nextTaskTitle == "Task Refinement Phase"
    ensures review.score == 50 ==> GenerateNextTask(review).nextTaskTitle == "Technical Architecture Design"
    ensures review.score == 84 ==> GenerateNextTask(review).difficultyLevel.Name() == "medium"
    ensures review.score == 85 ==> GenerateNextTask(review).nextTaskTitle == "Production Implementation"
  {
  }

  /** Out-of-range scores fall into the lowest or the highest band. */
  lemma OutOfRangeScores(review: ReviewOutput)
    ensures review.score < 0 ==> GenerateNextTask(review) == RefinementTask
    ensures review.score > 100 ==> GenerateNextTask(review) == ProductionTask
  {
  }

  /** Only the score matters: gaps, hints, readiness and summary are ignored. */
  lemma DependsOnlyOnScore(review1: ReviewOutput, review2: ReviewOutput)
    requires review1.score == review2.score
    ensures GenerateNextTask(review1) == GenerateNextTask(review2)
  {
  }

  /** A higher score never gets an easier next task. */
  lemma DifficultyMonotone(review1: ReviewOutput, review2: ReviewOutput)
    requires review1.score <= review2.score
    ensures GenerateNextTask(review1).difficultyLevel.Rank() <= GenerateNextTask(review2).difficultyLevel.Rank()
  {
  }

  /** The three recommendations are distinct, so the title alone tells the band. */
  lemma TiersDistinct(level1: Difficulty, level2: Difficulty)
    requires TierTask(level1).nextTaskTitle == TierTask(level2).nextTaskTitle
    ensures level1 == level2
  {
  }
}
