# Task-review decision pipeline

This project models the two deterministic engines of the task-review service.

- **Review engine** (`ReviewEngine.review_task`). It turns a task's title and description into an assessment: a score, a readiness percentage, an ordered list of gaps, a parallel list of improvement hints, and a reviewer summary.
  - A demo request whose demo type is `good`, `partial` or `poor` gets a canned assessment from a locked table.
  - Every other request is scored by four rules, in a fixed order: title depth, description detail, structural markers (`requirement`, `objective`, `constraint`), and technical keywords. The score is then clamped at 100. Readiness and the summary are derived from the clamped score.
- **Next-task engine** (`NextTaskEngine.generate_next_task`). It maps the review score to one of three fixed recommendations: easy below 50, medium below 85, hard otherwise.

## Modules

- `Text.dfy`, module `Text`: ASCII lower-casing (`str.lower()`), the substring test (`x in s`), decimal rendering of the score (the f-string in the summary), and suffix tests.
- `Schemas.dfy`, module `Schemas`: the records `Task`, `ReviewOutput` and `NextTask`, the `Difficulty` levels, and `Option` for the demo type, which may be absent.
- `ReviewRules.dfy`, module `ReviewRules`: each rule as a value `Outcome(points, gaps, hints)`, and `RuleOutcome`, which runs the four rules in the engine's order. Lemmas state each rule's bands and the facts that hold across rules.
- `ReviewEngine.dfy`, module `ReviewEngine`:
  - the demo table `DemoScenarios`;
  - the specification `Review` (canned entry or `RuleReview`);
  - the engine's step-by-step procedure, `ReviewTask`, proved equal to `Review`. It keeps a running score and gap and hint lists, and each rule appends to them through its own step method. The marker rule loops over the marker list.
- `NextTaskEngine.dfy`, module `NextTaskEngine`: `GenerateNextTask` and its properties.
- `Pipeline.dfy`, module `Pipeline`: the two engines composed.

## Model

| member | source | states |
|---|---|---|
| Text.ToLower | app/services/review_engine.py:69 | lower-casing keeps the length and folds each character on its own |
| Text.ToLowerIdempotent | app/services/review_engine.py:69 | lower-casing twice is lower-casing once |
| Text.ToLowerAppend | app/services/review_engine.py:69 | lower-casing distributes over concatenation |
| Text.Contains | app/services/review_engine.py:69 | a needle that is found is no longer than the text; the empty needle and any prefix of the text are always found |
| Text.ContainsIffOccurs | app/services/review_engine.py:69 | the `in` test holds exactly when the needle occurs at some position of the text |
| Text.ContainsAppend | app/services/review_engine.py:69 | text appended after a string never hides an occurrence already in it |
| Text.NatToDecimal | app/services/review_engine.py:87 | the rendered score is a non-empty run of decimal digits with no leading zero |
| Text.DecimalRoundTrip | app/services/review_engine.py:87 | reading the rendered digits back gives the score: the rendering loses nothing |
| Text.NatToDecimalInjective | app/services/review_engine.py:87 | different scores render differently |
| ReviewRules.TitleRule | app/services/review_engine.py:50-56 | the title rule adds at most 15 points, a multiple of 5, and pairs each gap with its hint |
| ReviewRules.TitleRuleBands | app/services/review_engine.py:50-56 | 15 points for a title over 40 characters, 10 for 21-40, 5 otherwise. The "Brief title" gap appears exactly when the title has at most 20 characters |
| ReviewRules.DescriptionRule | app/services/review_engine.py:59-65 | the description rule adds at most 30 points, a multiple of 5, with paired findings |
| ReviewRules.DescriptionRuleBands | app/services/review_engine.py:59-65 | 30 points exactly over 500 characters, 20 exactly for 201-500, 10 exactly for 51-200, and 0 exactly at 50 or fewer |
| ReviewRules.DescriptionRuleMonotone | app/services/review_engine.py:59-65 | a longer description never earns fewer description points. The "Minimal description" gap appears exactly when the description has at most 50 characters |
| ReviewRules.MarkerCheck | app/services/review_engine.py:69-73 | one marker gives no gap exactly when the lower-cased description contains it; its points plus ten for its gap are always ten, and the gap is paired with its hint |
| ReviewRules.MarkerScan | app/services/review_engine.py:68-73 | over any marker list, the points plus ten for each gap equal ten times the number of markers. Gaps and hints stay paired |
| ReviewRules.MarkerRule | app/services/review_engine.py:68-73 | the marker rule adds at most 30 points, with paired findings |
| ReviewRules.MarkerPointsAndGaps | app/services/review_engine.py:68-73 | marker points plus 10 x the number of marker gaps is always 30 |
| ReviewRules.MarkerScanGaps | app/services/review_engine.py:68-73 | the marker gaps are exactly the gap texts of the absent markers |
| ReviewRules.MarkerGapIffAbsent | app/services/review_engine.py:68-73 | the "Missing logical marker" gap for a marker appears exactly when the lower-cased description lacks that marker |
| ReviewRules.MarkerGap | app/services/review_engine.py:72 | the gap text is the marker plus 26 fixed characters, and the marker reads back from between the prefix and the closing quote |
| ReviewRules.MarkerHint | app/services/review_engine.py:73 | the hint opens with "Define task ", ends with "s.", and the marker reads back from between the two |
| ReviewRules.MarkerScanGapsDistinct | app/services/review_engine.py:68-73 | scanning a marker list without repeats never reports the same gap twice |
| ReviewRules.MarkerRuleGapsDistinct | app/services/review_engine.py:68-73 | the marker rule never reports the same gap twice |
| ReviewRules.MarkerGapInjective | app/services/review_engine.py:72 | different markers give different gap texts |
| ReviewRules.FoundKeywords | app/services/review_engine.py:77 | no more words are found than the vocabulary holds |
| ReviewRules.FoundKeywordsMembers | app/services/review_engine.py:77 | a word is found exactly when it is in the vocabulary and occurs in the lower-cased description |
| ReviewRules.FoundKeywordsNoRepeats | app/services/review_engine.py:77 | filtering a vocabulary without repeats finds each word at most once |
| ReviewRules.TechKeywordsCountedOnce | app/services/review_engine.py:76-78 | each vocabulary word present in the description is counted once, so the count is the number of distinct vocabulary words present |
| ReviewRules.KeywordPoints | app/services/review_engine.py:78 | the keyword contribution lies between 0 and 25 and is a multiple of 5 |
| ReviewRules.KeywordOutcome | app/services/review_engine.py:78-82 | for a count of found words: 25 points exactly from five words on, 5 x count below five, and the "Low technical specificity" gap exactly below two |
| ReviewRules.KeywordRule | app/services/review_engine.py:76-82 | the keyword rule adds at most 25 points, a multiple of 5, with paired findings. With its gap it scores at most 5, without it at least 10 (the bands by word count are in KeywordRuleBands) |
| ReviewRules.KeywordRuleBands | app/services/review_engine.py:76-82 | the keyword rule gives 5 x count below five words and 25 from five on. It adds the "Low technical specificity" gap exactly when fewer than two words are found |
| ReviewRules.FoundAllKeywords | app/services/review_engine.py:77 | when every vocabulary word occurs, all of them are found, in vocabulary order |
| ReviewRules.KeywordCap | app/services/review_engine.py:76-82 | a description naming all eight words earns 25 keyword points, not 40, and no keyword gap |
| ReviewRules.ThenWellFormed | app/services/review_engine.py:45-82 | running one rule after another keeps non-negative points in steps of five and paired findings |
| ReviewRules.ThenAssociative | app/services/review_engine.py:45-82 | accumulating findings does not depend on how the rule steps are grouped |
| ReviewRules.RuleOutcome | app/services/review_engine.py:45-82 | the four rules together give between 5 and 100 points, a multiple of 5, with each hint beside its gap |
| ReviewRules.MarkerScanMonotone | app/services/review_engine.py:68-73 | the marker rule cannot lose points when every marker it found is still found |
| ReviewRules.FoundKeywordsMonotone | app/services/review_engine.py:76-78 | the keyword rule cannot find fewer words when every word it found is still found |
| ReviewRules.LowerAppendKeepsWords | app/services/review_engine.py:69 | a word found in a description is still found after text is appended |
| ReviewRules.MarkerRuleAppend | app/services/review_engine.py:68-73 | appending text never lowers the marker points |
| ReviewRules.KeywordRuleAppend | app/services/review_engine.py:76-78 | appending text never lowers the keyword points |
| ReviewRules.AppendNeverLowersScore | app/services/review_engine.py:50-78 | appending text to the description never lowers the rule total |
| ReviewRules.RuleOutcomeCaseInsensitive | app/services/review_engine.py:59-82 | descriptions that agree once lower-cased get the same points and findings |
| ReviewEngine.IsCannedRequest | app/services/review_engine.py:42 | the table answers a request exactly when the demo flag is set and the demo type is "good", "partial" or "poor" |
| ReviewEngine.Readiness | app/services/review_engine.py:85 | readiness is floor(0.85 x score) below 90 and the score itself from 90 up. It never exceeds the score |
| ReviewEngine.SummaryHead | app/services/review_engine.py:87 | the summary opens with "Analysis complete (Score: ", then decimal digits that read back as the score and have no leading zero, then "). " |
| ReviewEngine.SummaryVerdict | app/services/review_engine.py:88-90 | the verdict is "Production ready." exactly from 85, "Minor refinement required." exactly for 60-84, and "Major overhaul required." exactly below 60 |
| ReviewEngine.Summary | app/services/review_engine.py:87-90 | the summary ends in "Production ready." exactly when the score is at least 85. It ends in "Minor refinement required." exactly for 60-84, and in "Major overhaul required." exactly below 60 |
| ReviewEngine.RuleReview | app/services/review_engine.py:45-98 | the rule-path assessment has a score from 5 to 100 in steps of 5, readiness at most the score, each hint beside its gap, and a summary saying "Production ready." exactly from 85 |
| ReviewEngine.Review | app/services/review_engine.py:42-98 | every assessment, canned or computed, has a score from 5 to 100 in steps of 5 and readiness at most the score. A computed one pairs each hint with its gap |
| ReviewEngine.ApplyTitleRule | app/services/review_engine.py:49-56 | the title step adds the title rule's points to the running score and appends its gap and hint |
| ReviewEngine.ApplyDescriptionRule | app/services/review_engine.py:58-65 | the description step adds the description rule's points and findings |
| ReviewEngine.ApplyMarkerRule | app/services/review_engine.py:67-73 | the marker loop, checking the markers in order, adds exactly the marker rule's points and findings |
| ReviewEngine.ApplyKeywordRule | app/services/review_engine.py:75-82 | the keyword step adds exactly the keyword rule's points and findings |
| ReviewEngine.RuleOutcomeFromEmpty | app/services/review_engine.py:45-82 | the four steps, run from score 0 and empty lists, give the rules' combined outcome |
| ReviewEngine.ReviewTask | app/services/review_engine.py:37-98 | the procedure returns exactly the specified assessment: the canned entry for a known demo request, the rule-path review otherwise |
| ReviewEngine.DemoOverride | app/services/review_engine.py:42-43 | a demo request with a known demo type gets its canned entry verbatim, whatever the title and description |
| ReviewEngine.DemoGood | app/services/review_engine.py:14-19 | the "good" request gives score 95, readiness 90, no gaps and the single hint "Maintain current documentation standards." |
| ReviewEngine.RulePathOtherwise | app/services/review_engine.py:42 | without the demo flag, with no demo type, or with an unknown one, the rules decide |
| ReviewEngine.DemoScenariosTable | app/services/review_engine.py:13-35 | the table has exactly the keys "good", "partial" and "poor", with scores 95, 65 and 30, readiness 90, 60 and 25, and 0, 2 and 3 gaps beside 1, 2 and 2 hints |
| ReviewEngine.DemoScenariosOffRubric | app/services/review_engine.py:14-34 | the canned entries are outside the rubric: "poor" has three gaps and two hints, and the readiness of "good" and "partial" does not follow the formula |
| ReviewEngine.RuleScoreBounds | app/services/review_engine.py:84 | the rule-path score lies between 5 and 100, is a multiple of 5, and equals the unclamped rule total |
| ReviewEngine.RuleFindingsInOrder | app/services/review_engine.py:45-82 | the gaps come in rule order: title, description, markers, keywords |
| ReviewEngine.ReadinessExamples | app/services/review_engine.py:85 | 84 gives 71, 85 gives 72, 89 gives 75, and 90 and 100 give themselves |
| ReviewEngine.NotEndsWithVerdict | app/services/review_engine.py:87-90 | text no longer than the verdict that differs from the verdict's tail of the same length cannot end the summary |
| ReviewEngine.VerdictSuffixes | app/services/review_engine.py:87-90 | whatever text precedes it, a verdict makes the text end in that verdict and in neither of the other two |
| ReviewEngine.SummaryStatesScore | app/services/review_engine.py:87 | the summary opens with "Analysis complete (Score: " and the score's digits, which read back as the score |
| ReviewEngine.RuleReviewInputs | app/services/review_engine.py:45-98 | the rule path ignores the submitter and reads the description case-insensitively |
| ReviewEngine.AppendNeverLowersReview | app/services/review_engine.py:59-84 | appending text to the description never lowers the reviewed score |
| NextTaskEngine.TierTask | app/services/next_task_engine.py:14-34 | each difficulty level has its fixed recommendation, carrying that level |
| NextTaskEngine.GenerateNextTask | app/services/next_task_engine.py:10-34 | every integer score falls in exactly one band: easy below 50, medium for 50-84, hard from 85. The answer is that band's fixed record |
| NextTaskEngine.TierBoundaries | app/services/next_task_engine.py:14-34 | 49 gives "Task Refinement Phase", 50 gives "Technical Architecture Design", 84 gives medium, and 85 gives "Production Implementation" |
| NextTaskEngine.OutOfRangeScores | app/services/next_task_engine.py:14-34 | negative scores get the easy task and scores above 100 the hard one |
| NextTaskEngine.DependsOnlyOnScore | app/services/next_task_engine.py:14-21 | two reviews with the same score get the same recommendation |
| NextTaskEngine.DifficultyMonotone | app/services/next_task_engine.py:14-34 | a higher score never gets an easier level, in the order easy < medium < hard |
| NextTaskEngine.TiersDistinct | app/services/next_task_engine.py:15-30 | the three recommendations have distinct titles |
| Pipeline.ProductionReadyIffHard | app/services/review_engine.py:88 | on the rule path, the summary ends in "Production ready." exactly when the next task is the hard one. Both use the threshold 85; see also next_task_engine.py lines 21 and 28 |
| Pipeline.VerdictMatchesTier | app/services/review_engine.py:87-90 | on the rule path, "Minor refinement required." comes only with the medium task, and the easy task only with "Major overhaul required." |
| Pipeline.CannedGoodBreaksAgreement | app/services/review_engine.py:14-19 | the canned "good" assessment leads to the hard task, but its summary does not end in "Production ready." |

## Notes on the model

- `is_demo` and `demo_type` are parameters of `ReviewTask`, as in the engine's signature. `Task` therefore carries only the title, the description and the submitter. `demo_type` is an `Option<string>`, because the engine's default is `None`.
- `int(final_score * 0.85)` is modelled as `(score * 85) / 100`. The rule-path score is a multiple of 5 between 5 and 100, and readiness uses the product only below 90. The contract of `Readiness` states the floor characterisation without division.
- The score is a non-negative integer on the rule path, so it is rendered by `NatToDecimal`.
- Each rule's step is its own method (`ApplyTitleRule` ... `ApplyKeywordRule`). Each step takes the running score and lists and returns them extended. In the source the four steps are inline in one function; the order and the arithmetic are the same.
- The canned assessments are values. The source returns the same stored objects on every call, and nothing in the engine mutates them.

## Left out

- Text.ToLower: folds ASCII letters only. Python's `str.lower()` also folds non-ASCII letters, and exactly two of them fold to ASCII letters (the Kelvin sign becomes `k`, and `İ` becomes `i` plus a combining dot). No marker or keyword contains `k`, and "api" is the only one that ends in `i`. So the only difference is the keyword "api" written with `İ` (for example "APİ"): the source finds it and the model does not. The model then counts one word fewer, scores 5 keyword points less unless the source found six or more words, and adds the "Low technical specificity." gap when the source found exactly two. Every match the model finds, the source finds too.
- Floating point: readiness uses integer arithmetic instead of `final_score * 0.85` in double precision. The two agree on every score the rule path can produce.
- Validation and construction of the `Task`, `ReviewOutput` and `NextTask` records by the schema library are not modelled. The source's schema definitions are not available to this model, so `Schemas.dfy` gives the records as plain datatypes with the fields the engines read and write.
- Difficulty levels are an enumeration, not the strings `"easy"`, `"medium"` and `"hard"`; `Difficulty.Name` gives the string.
- The module-level logger of the review engine is not modelled, because the engine never writes to it.
- The HTTP router that forwards reviews to the next-task engine, the application setup with its exception handlers and health endpoint, and the front end with its non-empty-input check are not modelled. They are plumbing around the engines.
