/** The review engine: a fixed table of canned demo assessments, and the rule path that
    scores a task's title and description, clamps the score, derives readiness and writes
    the summary. `Review` is the specification; `ReviewTask` is the engine's step-by-step
    procedure, proved to agree with it. */
module ReviewEngine {
  import opened Text
  import opened Schemas
  import opened ReviewRules

  /** The locked demo scenarios, looked up by demo type. */
  const DemoScenarios: map<string, ReviewOutput> := map[
    "good" := ReviewOutput(
      95, 90,
      [],
      ["Maintain current documentation standards."],
      "EXCELLENT: Highly detailed task with clear technical constraints and success criteria."),
    "partial" := ReviewOutput(
      65, 60,
      ["Missing success criteria", "Vague technical stack"],
      ["Explicitly list the technologies involved.", "Define what 'done' looks like."],
      "ADEQUATE: The task is understood but lacks the depth required for immediate implementation."),
    "poor" := ReviewOutput(
      30, 25,
      ["Extremely brief description", "No context provided", "Missing objective"],
      ["Restart the requirement gathering phase.", "Provide at least 3 paragraphs of context."],
      "INSUFFICIENT: Task is too under-specified to be actionable by any engineering team.")
  ]

  /** A request that the canned table answers. */
  predicate IsCannedRequest(isDemo: bool, demoType: Option<string>)
    ensures IsCannedRequest(isDemo, demoType)
            <==> isDemo && demoType.Some? && demoType.value in {"good", "partial", "poor"}
  {
    isDemo && demoType.Some? && demoType.value in DemoScenarios
  }

  /** Readiness lags the score by a factor of 0.85 (truncated) below 90 and equals it from
      90 up. */
  function Readiness(score: nat): (r: nat)
    ensures score < 90 ==> 100 * r <= 85 * score < 100 * (r + 1)
    ensures score >= 90 ==> r == score
    ensures r <= score
  {
    if score < 90 then (score * 85) / 100 else score
  }

  const ProductionReady := "Production ready."
  const MinorRefinement := "Minor refinement required."
  const MajorOverhaul := "Major overhaul required."

  /** The opening of the summary: a fixed text, the score in decimal digits, and ")". */
  function SummaryHead(score: nat): (h: string)
    ensures |h| >= 30
    ensures IsPrefix("Analysis complete (Score: ", h) && EndsWith(h, "). ")
    ensures forall i :: 26 <= i < |h| - 3 ==> IsDigit(h[i])
    ensures DecimalValue(h[26..|h| - 3]) == score
    ensures h[26] != '0' || score == 0
  {
    var h := "Analysis complete (Score: " + NatToDecimal(score) + "). ";
    assert h[26..|h| - 3] == NatToDecimal(score);
    assert h[26] == NatToDecimal(score)[0];
    DecimalRoundTrip(score);
    h
  }

  /** The verdict closing the summary, by the bands s >= 85, 60 <= s < 85 and s < 60. */
  function SummaryVerdict(score: nat): (v: string)
    ensures v == ProductionReady <==> score >= 85
    ensures v == MinorRefinement <==> 60 <= score < 85
    ensures v == MajorOverhaul <==> score < 60
  {
    if score >= 85 then ProductionReady
    else if score >= 60 then MinorRefinement
    else MajorOverhaul
  }

  /** The reviewer summary. It ends in exactly one of the three verdicts, the one of the
      score's band. */
  function Summary(score: nat): (s: string)
    ensures EndsWith(s, ProductionReady) <==> score >= 85
    ensures EndsWith(s, MinorRefinement) <==> 60 <= score < 85
    ensures EndsWith(s, MajorOverhaul) <==> score < 60
  {
    VerdictSuffixes(SummaryHead(score), score);
    SummaryHead(score) + SummaryVerdict(score)
  }

  /** The rule path: the four rules, the clamp at 100, readiness and summary. */
  function RuleReview(task: Task): (r: ReviewOutput)
    ensures 5 <= r.score <= 100 && r.score % 5 == 0
    ensures Paired(r.gaps, r.improvementHints)
    ensures r.readinessPercent <= r.score
    ensures EndsWith(r.reviewerSummary, ProductionReady) <==> r.score >= 85
  {
    var o := RuleOutcome(task.taskTitle, task.taskDescription);
    var score: nat := Min(100, o.points);
    ReviewOutput(score, Readiness(score), o.gaps, o.hints, Summary(score))
  }

  /** What the engine returns for a task, the demo flag and the demo type. */
  function Review(task: Task, isDemo: bool, demoType: Option<string>): (r: ReviewOutput)
    ensures 5 <= r.score <= 100 && r.score % 5 == 0
    ensures r.readinessPercent <= r.score
    ensures !IsCannedRequest(isDemo, demoType) ==> Paired(r.gaps, r.improvementHints)
  {
    if IsCannedRequest(isDemo, demoType) then DemoScenarios[demoType.value] else RuleReview(task)
  }

  /** Rule 1 applied to the running score and lists. */
  method ApplyTitleRule(title: string, score: int, gaps: seq<string>, hints: seq<string>)
    returns (score': int, gaps': seq<string>, hints': seq<string>)
    ensures Outcome(score', gaps', hints') == Then(Outcome(score, gaps, hints), TitleRule(title))
  {
    score', gaps', hints' := score, gaps, hints;
    var titleLength := |title|;
    if titleLength > 40 {
      score' := score' + 15;
    } else if titleLength > 20 {
      score' := score' + 10;
    } else {
      score' := score' + 5;
      gaps' := gaps' + [BriefTitleGap];
      hints' := hints' + [BriefTitleHint];
    }
  }

  /** Rule 2 applied to the running score and lists. */
  method ApplyDescriptionRule(description: string, score: int, gaps: seq<string>, hints: seq<string>)
    returns (score': int, gaps': seq<string>, hints': seq<string>)
    ensures Outcome(score', gaps', hints') == Then(Outcome(score, gaps, hints), DescriptionRule(description))
  {
    score', gaps', hints' := score, gaps, hints;
    var descriptionLength := |description|;
    if descriptionLength > 500 {
      score' := score' + 30;
    } else if descriptionLength > 200 {
      score' := score' + 20;
    } else if descriptionLength > 50 {
      score' := score' + 10;
    } else {
      gaps' := gaps' + [ThinDescriptionGap];
      hints' := hints' + [ThinDescriptionHint];
    }
  }

  /** Rule 3 applied to the running score and lists: the markers are checked in order
      against the lower-cased description. */
  method ApplyMarkerRule(description: string, score: int, gaps: seq<string>, hints: seq<string>)
    returns (score': int, gaps': seq<string>, hints': seq<string>)
    ensures Outcome(score', gaps', hints') == Then(Outcome(score, gaps, hints), MarkerRule(description))
  {
    score', gaps', hints' := score, gaps, hints;
    ghost var start := Outcome(score, gaps, hints);
    ghost var lower := ToLower(description);
    for i := 0 to |Markers|
      invariant Outcome(score', gaps', hints') == Then(start, MarkerScan(lower, Markers[..i]))
    {
      var marker := Markers[i];
      ghost var before := Outcome(score', gaps', hints');
      if Contains(ToLower(description), marker) {
        score' := score' + 10;
      } else {
        gaps' := gaps' + [MarkerGap(marker)];
        hints' := hints' + [MarkerHint(marker)];
      }
      assert Outcome(score', gaps', hints') == Then(before, MarkerCheck(lower, marker));
      MarkerScanStep(lower, Markers, i);
      ThenAssociative(start, MarkerScan(lower, Markers[..i]), MarkerCheck(lower, marker));
    }
    assert Markers[..|Markers|] == Markers;
  }

  /** Rule 4 applied to the running score and lists. */
  method ApplyKeywordRule(description: string, score: int, gaps: seq<string>, hints: seq<string>)
    returns (score': int, gaps': seq<string>, hints': seq<string>)
    ensures Outcome(score', gaps', hints') == Then(Outcome(score, gaps, hints), KeywordRule(description))
  {
    score', gaps', hints' := score, gaps, hints;
    var found := FoundKeywords(ToLower(description), TechKeywords);
    score' := score' + Min(25, |found| * 5);
    if |found| < 2 {
      gaps' := gaps' + [LowSpecificityGap];
      hints' := hints' + [LowSpecificityHint];
    }
    assert Outcome(score', gaps', hints') == Then(Outcome(score, gaps, hints), KeywordOutcome(|found|));
  }

  /** Running the four rules from an empty score and empty lists gives `RuleOutcome`. */
  lemma RuleOutcomeFromEmpty(title: string, description: string)
    ensures Then(Then(Then(Then(NoFindings, TitleRule(title)), DescriptionRule(description)),
                      MarkerRule(description)), KeywordRule(description))
            == RuleOutcome(title, description)
  {
    var t := TitleRule(title);
    assert Then(NoFindings, t) == t;
  }

  /** The engine's procedure: look up a canned assessment, or accumulate the score and the
      gap and hint lists rule by rule. */
  method ReviewTask(task: Task, isDemo: bool, demoType: Option<string>) returns (r: ReviewOutput)
    ensures r == Review(task, isDemo, demoType)
  {
    if isDemo && demoType.Some? && demoType.value in DemoScenarios {
      return DemoScenarios[demoType.value];
    }

    var gaps: seq<string> := [];
    var hints: seq<string> := [];
    var score := 0;
    score, gaps, hints := ApplyTitleRule(task.taskTitle, score, gaps, hints);
    score, gaps, hints := ApplyDescriptionRule(task.taskDescription, score, gaps, hints);
    score, gaps, hints := ApplyMarkerRule(task.taskDescription, score, gaps, hints);
    score, gaps, hints := ApplyKeywordRule(task.taskDescription, score, gaps, hints);
    RuleOutcomeFromEmpty(task.taskTitle, task.taskDescription);

    var finalScore: nat := Min(100, score);
    var readiness := if finalScore < 90 then (finalScore * 85) / 100 else finalScore;

    var summary := "Analysis complete (Score: " + NatToDecimal(finalScore) + "). ";
    if finalScore >= 85 {
      summary := summary + "Production ready.";
    } else if finalScore >= 60 {
      summary := summary + "Minor refinement required.";
    } else {
      summary := summary + "Major overhaul required.";
    }

    r := ReviewOutput(finalScore, readiness, gaps, hints, summary);
  }

  // ---------------------------------------------------------------------------
  // The demo short-circuit

  /** A canned request gets its table entry verbatim, whatever the title and description. */
  lemma DemoOverride(task: Task, name: string)
    requires name in DemoScenarios
    ensures Review(task, true, Some(name)) == DemoScenarios[name]
  {
  }

  /** The "good" scenario in full: score 95, readiness 90, no gaps, one hint. */
  lemma DemoGood(task: Task)
    ensures var r := Review(task, true, Some("good"));
            && r.score == 95 && r.readinessPercent == 90 && r.gaps == []
            && r.improvementHints == ["Maintain current documentation standards."]
  {
  }

  /** Without the demo flag, with no demo type, or with a demo type the table does not know,
      the rules decide. */
  lemma RulePathOtherwise(task: Task, isDemo: bool, demoType: Option<string>)
    requires !isDemo || demoType == None || (demoType.Some? && demoType.value !in {"good", "partial", "poor"})
    ensures Review(task, isDemo, demoType) == RuleReview(task)
  {
  }

  /** The table answers exactly three demo types, with these scores, readiness values and
      numbers of findings. */
  lemma DemoScenariosTable()
    ensures DemoScenarios.Keys == {"good", "partial", "poor"}
    ensures var e := DemoScenarios["good"];
            e.score == 95 && e.readinessPercent == 90 && |e.gaps| == 0 && |e.improvementHints| == 1
    ensures var e := DemoScenarios["partial"];
            e.score == 65 && e.readinessPercent == 60 && |e.gaps| == 2 && |e.improvementHints| == 2
    ensures var e := DemoScenarios["poor"];
            e.score == 30 && e.readinessPercent == 25 && |e.gaps| == 3 && |e.improvementHints| == 2
  {
  }

  /** The canned entries are not bound by the rubric: "poor" lists three gaps beside two
      hints, and the readiness of "good" and "partial" is not the readiness formula. */
  lemma DemoScenariosOffRubric()
    ensures |DemoScenarios["poor"].gaps| == 3 && |DemoScenarios["poor"].improvementHints| == 2
    ensures DemoScenarios["good"].readinessPercent != Readiness(DemoScenarios["good"].score)
    ensures DemoScenarios["partial"].readinessPercent != Readiness(DemoScenarios["partial"].score)
  {
  }

  // ---------------------------------------------------------------------------
  // The rule path

  /** The rule-path score lies between 5 and 100, is a multiple of 5, and is the plain sum
      of the four rules: the clamp at 100 never takes effect. */
  lemma RuleScoreBounds(task: Task)
    ensures 5 <= RuleReview(task).score <= 100
    ensures RuleReview(task).score % 5 == 0
    ensures RuleReview(task).score == RuleOutcome(task.taskTitle, task.taskDescription).points
  {
  }

  /** Gaps come in rule order: title, description, markers, keywords. */
  lemma RuleFindingsInOrder(task: Task)
    ensures RuleReview(task).gaps ==
            TitleRule(task.taskTitle).gaps + DescriptionRule(task.taskDescription).gaps
            + MarkerRule(task.taskDescription).gaps + KeywordRule(task.taskDescription).gaps
  {
  }

  lemma ReadinessExamples()
    ensures Readiness(84) == 71 && Readiness(85) == 72 && Readiness(89) == 75
    ensures Readiness(90) == 90 && Readiness(100) == 100
  {
  }

  /** A summary that is not a suffix of the final verdict text cannot end the summary. */
  lemma NotEndsWithVerdict(head: string, verdict: string, x: string)
    requires |x| <= |verdict| && verdict[|verdict| - |x|..] != x
    ensures !EndsWith(head + verdict, x)
  {
    EndsWithConcat(head, verdict, x);
  }

  /** Whatever precedes it, a verdict makes the text end in that verdict and in neither
      of the other two. */
  lemma VerdictSuffixes(head: string, score: nat)
    ensures EndsWith(head + SummaryVerdict(score), ProductionReady) <==> score >= 85
    ensures EndsWith(head + SummaryVerdict(score), MinorRefinement) <==> 60 <= score < 85
    ensures EndsWith(head + SummaryVerdict(score), MajorOverhaul) <==> score < 60
  {
    assert MinorRefinement[9..] != ProductionReady by { assert MinorRefinement[9] != ProductionReady[0]; }
    assert MajorOverhaul[7..] != ProductionReady by { assert MajorOverhaul[7] != ProductionReady[0]; }
    assert MinorRefinement[2..] != MajorOverhaul by { assert MinorRefinement[2] != MajorOverhaul[0]; }
    EndsWithConcat(head, SummaryVerdict(score), SummaryVerdict(score));
    if score >= 85 {
      NotEndsWithVerdict(head, ProductionReady, MajorOverhaul[7..]);
      NotEndsWithVerdict(head, ProductionReady, MinorRefinement[9..]);
    } else if score >= 60 {
      NotEndsWithVerdict(head, MinorRefinement, ProductionReady);
      NotEndsWithVerdict(head, MinorRefinement, MajorOverhaul);
    } else {
      NotEndsWithVerdict(head, MajorOverhaul, ProductionReady);
      NotEndsWithVerdict(head, MajorOverhaul, MinorRefinement[2..]);
    }
  }

  /** The summary opens with the score in decimal, and that number reads back as the score. */
  lemma SummaryStatesScore(score: nat)
    ensures IsPrefix("Analysis complete (Score: " + NatToDecimal(score), Summary(score))
    ensures DecimalValue(NatToDecimal(score)) == score
  {
    DecimalRoundTrip(score);
    var p := "Analysis complete (Score: " + NatToDecimal(score);
    assert Summary(score) == p + ("). " + SummaryVerdict(score));
    assert Summary(score)[..|p|] == p;
  }

  /** The rule path never looks at who submitted the task, and reads the description
      case-insensitively. */
  lemma RuleReviewInputs(task1: Task, task2: Task)
    requires task1.taskTitle == task2.taskTitle
    requires ToLower(task1.taskDescription) == ToLower(task2.taskDescription)
    ensures RuleReview(task1) == RuleReview(task2)
  {
    RuleOutcomeCaseInsensitive(task1.taskTitle, task1.taskDescription, task2.taskDescription);
  }

  /** Appending text to the description never lowers the rule-path score. */
  lemma AppendNeverLowersReview(task: Task, extra: string)
    ensures RuleReview(task).score
            <= RuleReview(Task(task.taskTitle, task.taskDescription + extra, task.submittedBy)).score
  {
    AppendNeverLowersScore(task.taskTitle, task.taskDescription, extra);
  }
}
