/** The two engines composed: review a task, then recommend the next one from the review. */
module Pipeline {
  import opened Text
  import opened Schemas
  import opened ReviewEngine
  import opened NextTaskEngine

  /** On the rule path the summary says "Production ready." exactly when the next task is
      the hard one: both decisions use the threshold 85. */
  lemma ProductionReadyIffHard(task: Task, isDemo: bool, demoType: Option<string>)
    requires !IsCannedRequest(isDemo, demoType)
    ensures var review := Review(task, isDemo, demoType);
            EndsWith(review.reviewerSummary, ProductionReady)
            <==> GenerateNextTask(review).difficultyLevel == Hard
  {
    var review := RuleReview(task);
    RuleScoreBounds(task);
  }

  /** On the rule path the summary's verdict and the next task's band agree in all three
      bands: "Minor refinement required." with medium, and "Major overhaul required." with
      easy only when the score is below 50. */
  lemma VerdictMatchesTier(task: Task)
    ensures var review := RuleReview(task);
            && (EndsWith(review.reviewerSummary, MinorRefinement) ==> GenerateNextTask(review).difficultyLevel == Medium)
            && (GenerateNextTask(review).difficultyLevel == Easy ==> EndsWith(review.reviewerSummary, MajorOverhaul))
  {
    var review := RuleReview(task);
    RuleScoreBounds(task);
  }

  /** The canned "good" assessment leads to the hard task although its summary does not
      say "Production ready.": the agreement above holds on the rule path only. */
  lemma CannedGoodBreaksAgreement(task: Task)
    ensures var review := Review(task, true, Some("good"));
            && GenerateNextTask(review).difficultyLevel == Hard
            && !EndsWith(review.reviewerSummary, ProductionReady)
  {
    var review := Review(task, true, Some("good"));
    var s := review.reviewerSummary;
    assert s[|s| - |ProductionReady|] != ProductionReady[0];
  }
}
