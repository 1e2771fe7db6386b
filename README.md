# InterviewBot backend rules, modelled in Dafny

InterviewBot runs mock job interviews:
- it generates questions per category;
- it scores each answer, using an LLM or a keyword fallback;
- it keeps a session's progress and completion results;
- it shows a dashboard of past sessions.

This project models the rules the Python backend applies around those steps and proves properties of them:

- **`AiService`** (`app/services/ai_service.py`) covers:
  - the gibberish classifier;
  - the keyword fallback evaluator and its derived subscores;
  - how an LLM reply, or its failure, becomes an evaluation;
  - the round-robin fallback question generator;
  - the worst/best category selection;
  - the fixed fallback recommendations.
- **`Interviews`** (`app/routers/interviews.py`) covers:
  - `submit_answer`: answer text selection, the nonsense override and the stored row;
  - progress, completion, the next question, the per-category means and the score-band feedback;
  - `complete_interview_session`: category scores by question id, per-category insights, overall remarks, the never-empty lists and recommendations;
  - `create_share_link`: token reuse and URL building.
- **`InterviewWorkflow`** (`app/workflows/interview_workflow.py`) is a class `InterviewState` whose fields are the workflow's state dictionary. Its methods are:
  - the resumption from stored rows;
  - `submit_answer`, with its running category average;
  - the index step of `_evaluate_answer`;
  - `_check_completion` and `_should_continue_interview`;
  - `_calculate_final_scores`, including the `TypeError` a `None` score raises.
- **`Dashboard`** (`app/routers/dashboard.py`) covers:
  - the statistics: average score, total-time text, category averages with colours, improvement areas and recent sessions;
  - the category breakdown, sorted by a stable descending sort.
- **`Schemas`** (`app/schemas.py`) covers:
  - the four `model_dump` overrides that rename snake_case keys to camelCase;
  - the UUID-field validator;
  - the length constraints and the `total_questions` default.
- **`Wrappers`, `Text` and `Stats`** are shared helpers: Option/Result, strip/lower/contains/decimal text, and sum/mean/min/max.

How the model represents the backend:
- Database queries are inputs: sequences of rows in query order.
- LLM calls are parameters. `None`, or a `Raised` reply, stands for "the call raised".
- Scores are exact `real`s. Properties are stated before `round(x, 1)`.
- String values drawn from a fixed set are enumerations: the workflow's `state["stage"]` names that the modelled steps write (`Stage`), the breakdown trend "improving"/"stable" (`Trend`) and the operand type in the score-sum `TypeError` (`OperandType`). The stored error is the datatype `StateError`; `ErrorText` renders it as the source's message.
- The dashboard's dictionaries, whose first-seen order shows in its responses, are kept as ordered sequences. The other dictionaries are Dafny `map`s. Loops over such maps pick keys in an arbitrary order, and their contracts hold for every order. Where the source's order does show in a result (the per-category insights of `complete_interview_session`, the category lines of `_calculate_final_scores`), "## Left out" says so.

How the handlers report errors:
- `submit_answer` raises its "Session not found" and "Question not found" 404s inside its own `try`. Its `except Exception` turns them into 400 errors with the detail `Failed to submit answer: 404: …`. `Interviews.SubmitAnswer` returns those 400s.
- `complete_interview_session` re-raises `HTTPException`, so its 404 stays a 404.

## Model

| member | source | states |
|---|---|---|
| AiService.CountIn | app/services/ai_service.py:290-291 | the count of characters from a class never exceeds the text length |
| AiService.IsNonsensical | app/services/ai_service.py:283-311 | gibberish iff: there are no letters; or more than 5 letters with 10·vowels < letters or 5·vowels > 4·letters; or fewer than 4 distinct non-space characters in a text longer than 8; or longer than 15 with no space |
| AiService.RatioBelowTenth | app/services/ai_service.py:298-300 | the quotient test `vowels/letters < 0.1` is the integer test 10·v < t |
| AiService.RatioAboveFourFifths | app/services/ai_service.py:298-300 | the quotient test `vowels/letters > 0.8` is the integer test 5·v > 4·t |
| AiService.NonsenseIgnoresOrder | app/services/ai_service.py:283-311 | two texts with the same characters, in any order, are classified alike |
| AiService.NoLettersIsNonsense | app/services/ai_service.py:290-295 | a text without any of the listed vowels or consonants is gibberish |
| AiService.FallbackScore | app/services/ai_service.py:239-267 | the score is one of 1, 2, 3, 8 |
| AiService.FallbackDecision | app/services/ai_service.py:239-267 | below 10 characters after strip/lower: 1 with "too short"; gibberish: 1 with "off topic"; 8 iff a binary-search question gets "o(log n)"/"logarithmic"; 2 iff it instead gets "o(n)"/"linear"; 3 otherwise |
| AiService.FallbackEvaluation | app/services/ai_service.py:239-281 | the evaluation carries the decision-tree score and feedback, the fixed corrected-answer and missing-points texts, relevance = score, depth = max(score−2,1), and clarity = confidence = structure = max(score−1,1) |
| AiService.Normalized | app/services/ai_service.py:241 | the normalized text is no longer than the answer, holds no upper-case ASCII letter, and neither starts nor ends with whitespace |
| AiService.FallbackDetails | app/services/ai_service.py:274-280 | relevance is the score, depth max(score−2, 1), and clarity, confidence and structure max(score−1, 1) |
| AiService.FallbackSubscoresBounded | app/services/ai_service.py:274-280 | every fallback subscore is present and lies between 1 and the score |
| AiService.FallbackHighScoreNeedsKeyword | app/services/ai_service.py:253-267 | a fallback score above 3 needs a binary-search question and a logarithmic, non-gibberish answer |
| AiService.EvaluateAnswer | app/services/ai_service.py:208-237 | a raised call, or a null score, feedback or details object, gives exactly the fallback evaluation; otherwise the score is the reply's or 5.0 when the key is missing, the feedback the reply's or the fixed default, corrected answer and missing points the reply's or "", and the details the reply's or all-missing |
| AiService.BankListsNonEmpty | app/services/ai_service.py:113-135 | every bank category holds exactly five questions |
| AiService.FallbackQuestions | app/services/ai_service.py:137-149 | no categories and a positive count raises (modulo by zero); a count ≤ 0 gives []; otherwise the result is the question of each slot 0..n−1, with unknown categories skipped |
| AiService.FallbackSlotsFromBank | app/services/ai_service.py:137-149 | at most one question per slot; each comes from its own category's bank list, with difficulty "medium" |
| AiService.FallbackRoundRobin | app/services/ai_service.py:138-142 | when every category has a bank list, slot i is category `categories[i % n]` with that list's question `i % 5` |
| AiService.DefaultFallbackCount | app/routers/interviews.py:60-65 | the router's five categories over ten slots yield only six fallback questions |
| AiService.DefaultFallbackRepeats | app/services/ai_service.py:138-142 | as written, the default request asks the same technical question in slots 0 and 5 |
| AiService.VariedSlotsDistinct | app/services/ai_service.py:138-142 | under the corrected index `(i / n) % 5`, two slots of one category less than five rounds apart ask different questions |
| AiService.WorstCategory | app/services/ai_service.py:363 | ("N/A", 0) for no categories; otherwise an item with the least score, the first such in dictionary order |
| AiService.BestCategory | app/services/ai_service.py:364 | ("N/A", 0) for no categories; otherwise an item with the greatest score, the first such in dictionary order |
| AiService.FallbackRecommendations | app/services/ai_service.py:383-389 | four distinct fixed recommendations |
| AiService.GenerateRecommendations | app/services/ai_service.py:362-381 | a raised call or a missing key gives the fallback list; null passes on as None; a given list is returned |
| Interviews.Lookup | app/routers/interviews.py:172-174 | the returned row is in the table with that id; None iff no row has the id |
| Interviews.QuestionsOf | app/routers/interviews.py:248 | exactly the session's questions |
| Interviews.AnswersOf | app/routers/interviews.py:249 | exactly the session's answers |
| Interviews.AnswersOfInsert | app/routers/interviews.py:293 | once the commit makes the new row visible, the session's answers are the earlier ones followed by exactly that row |
| Interviews.AnswerText | app/routers/interviews.py:188 | the first non-empty of subjective answer and transcript, else ""; "" iff both are missing or empty |
| Interviews.RouterEvaluation | app/routers/interviews.py:177-226 | a non-empty answer that is gibberish after strip/lower is overridden to 1.0 with the override texts; otherwise a failed evaluator gives 1.0 and the failure texts, and a successful one is copied unchanged |
| Interviews.StoredScoreWithoutModel | app/routers/interviews.py:192-223 | with the LLM unavailable, the stored score is one of 1, 2, 3, 8 |
| Interviews.GibberishScoresOne | app/routers/interviews.py:213-223 | a gibberish answer is stored with 1.0 whatever the evaluator replied, or if it failed |
| Interviews.NextQuestion | app/routers/interviews.py:298-311 | the question with the smallest number above the current one; None iff there is none |
| Interviews.ScoredScores | app/routers/interviews.py:262 | exactly the scores of the scored answers |
| Interviews.ScoresIn | app/routers/interviews.py:266-274 | at most one collected score per answer |
| Interviews.NoEmptyCategory | app/routers/interviews.py:270 | the empty category never collects scores (`q.category` falsy) |
| Interviews.ScoresInBounded | app/routers/interviews.py:266-274 | collected scores stay within any bounds the answers' scores stay in |
| Interviews.CollectSubmissionScores | app/routers/interviews.py:266-274 | a category is collected iff some scored answer counts toward it, with exactly its scores in answer order |
| Interviews.MeansOf | app/routers/interviews.py:276-278 | the same categories, each mapped to the mean of its scores |
| Interviews.SubmissionCategoryScores | app/routers/interviews.py:266-278 | a category is a key iff it collected a score, and its value is the mean of its scores |
| Interviews.CompletionScoresBounded | app/routers/interviews.py:262-278 | the overall and category means stay within the answers' score bounds |
| Interviews.TierOf | app/routers/interviews.py:285-287 | exactly one of the bands ≥8, [6,8), [4,6), <4 applies |
| Interviews.TierMonotone | app/routers/interviews.py:285-287 | a higher overall score never lands in a lower band |
| Interviews.TierFeedback | app/routers/interviews.py:285-287 | each band's strengths, weaknesses and recommendations are non-empty |
| Interviews.StoredAnswer | app/routers/interviews.py:228-243 | the new row carries the session, the question, both answer texts, and the evaluation's score, feedback, details, corrected answer and missing points |
| Interviews.SessionProgress | app/routers/interviews.py:247-311 | progress is the number of visible answers; completed iff it reaches the question count; when completed, the updates hold the mean of the visible scores, their category means and the band feedback; when not, the next question is the first numbered above the progress |
| Interviews.SubmitAnswer | app/routers/interviews.py:153-326 | as written, with `autoflush=False`: a missing session or question gives a 400 wrapping the 404; otherwise the stored row takes the evaluation, and progress, completion, the next question and the final scores are computed from the answers stored before this one (the new row is not yet visible to the count or to `.all()`) |
| Interviews.LastAnswerLeavesSessionOpen | app/routers/interviews.py:245-252 | as written, answering the only question of a one-question session reports progress 0, not completed, and offers the same question again |
| Interviews.SubmitAnswerFlushed | app/routers/interviews.py:245-293 | with the new row counted: progress is the earlier answer count + 1, completed iff that reaches the question count, and the final scores include the new answer |
| Interviews.CategoryById | app/routers/interviews.py:421 | the map's ids are exactly the question ids |
| Interviews.CategoryByIdLatest | app/routers/interviews.py:421 | for a repeated id the later row wins: an id maps to the category of its last question |
| Interviews.CategoryAnswerScores | app/routers/interviews.py:424-426 | empty iff no answer's question maps to the category; at most one score per answer |
| Interviews.CompletionCategoryScores | app/routers/interviews.py:420-427 | a category is scored iff some question has it and some answer maps to it |
| Interviews.LevelOf | app/routers/interviews.py:434-442 | a strength iff score ≥ 6; "excellent" iff ≥ 8; "needs improvement" iff ≤ 4 |
| Interviews.CategoryInsights | app/routers/interviews.py:430-442 | each category yields exactly one insight, with the right level: the strength list covers exactly the categories scoring ≥ 6 and the weakness list those < 6, each category once |
| Interviews.OverallStrengths | app/routers/interviews.py:445-452 | overall remarks add strengths iff the overall mean ≥ 6 |
| Interviews.OverallWeaknesses | app/routers/interviews.py:445-452 | overall remarks add weaknesses iff the overall mean < 6 |
| Interviews.OrIfEmpty | app/routers/interviews.py:454-458 | the list is never empty; a non-empty list is kept and an empty one becomes the single placeholder |
| Interviews.ListAssembly | app/routers/interviews.py:430-458 | after the extra remarks and the placeholder, a category is mentioned iff it is on that side, and every extra remark is kept |
| Interviews.AssembledOutcome | app/routers/interviews.py:420-458 | the assembled result holds the overall mean, the category scores, the per-side lists built as category insights + overall remarks or the placeholder, and the recommendations |
| Interviews.CompleteSession | app/routers/interviews.py:387-545 | no session: 404; no answers: the fixed placeholder result; otherwise strengths are exactly `category insights ≥ 6 + overall strengths`, or "Shows willingness to engage with questions" when that is empty, and weaknesses likewise with "Minor areas for refinement"; a category is mentioned in strengths iff its score ≥ 6 and in weaknesses iff < 6; recommendations come from the LLM, or the router's fallback when the reply is null |
| Interviews.NormalizeBase | app/routers/interviews.py:825-827 | the base always starts with "http"; a base that does so is kept, any other gets "https://" in front |
| Interviews.NormalizeBaseIdempotent | app/routers/interviews.py:826-827 | normalizing twice equals normalizing once |
| Interviews.CreateShareLink | app/routers/interviews.py:794-834 | no session: 404; not completed: 400; otherwise the stored token is reused when non-empty, else the fresh token is stored; the URL is base + "/share/" + token |
| Interviews.CreateShareLinkAsWritten | app/routers/interviews.py:815-818 | a completed session without a token and a fresh token longer than the 32-character column ends in a 500; every other request behaves as `CreateShareLink` |
| Interviews.UuidTokenNeverStored | app/routers/interviews.py:815-818 | as written, a 36-character UUID text never gets stored, so such a session never gets a link |
| Interviews.ShareLinkStable | app/routers/interviews.py:813-821 | asking twice gives the same link and the same row |
| Interviews.ShareUrlShape | app/routers/interviews.py:828 | the URL starts with "http" and ends with the token |
| InterviewWorkflow.LoadAnswer | app/workflows/interview_workflow.py:416-426 | a loaded answer has the question id, the router's answer text, the stored type and time spent, the stored score or null, the stored feedback, and the stored details or none |
| InterviewWorkflow.Scored | app/workflows/interview_workflow.py:485-519 | a success stores the evaluator's score, feedback and details; a failure stores 5.0, the fixed feedback and no details; text and type are kept |
| InterviewWorkflow.CategoryScoresAt | app/workflows/interview_workflow.py:498-501 | at most one score per answer |
| InterviewWorkflow.CategoryScoresAtAppend | app/workflows/interview_workflow.py:497-502 | appending an answer extends only the list of its own position's category, and only when it has a question and a score |
| InterviewWorkflow.CategoryScoresAtBounded | app/workflows/interview_workflow.py:497-502 | every listed score stays within the answers' score bounds |
| InterviewWorkflow.CategoryMeanBounded | app/workflows/interview_workflow.py:500-502 | the running category average stays within the answers' score bounds |
| InterviewWorkflow.FirstIndexOf | app/workflows/interview_workflow.py:206 | `answers.index(ans)`: the index of the first entry equal to the answer |
| InterviewWorkflow.EvaluationStep | app/workflows/interview_workflow.py:171-218 | only the answer at the index changes, to the evaluated or the 5.0 default entry; category scores stay as they were, or the evaluated entry is kept and only its category gains a value |
| InterviewWorkflow.DistinctRunningEntries | app/workflows/interview_workflow.py:205-206 | with pairwise different, all-scored answers, the list the comprehension builds is exactly that category's scores, without a None |
| InterviewWorkflow.RunningAverageIsCategoryMean | app/workflows/interview_workflow.py:191-207 | with pairwise different answers, all scored before the index, a successful evaluation stores its result and sets its category to the mean of that category's scores so far |
| InterviewWorkflow.RunningAverageForDistinctQuestions | app/workflows/interview_workflow.py:191-207 | when the answers up to the index answer pairwise different questions, a successful evaluation stores its result and sets its category to the mean of that category's scores so far |
| InterviewWorkflow.NullScoreForcesDefault | app/workflows/interview_workflow.py:205-218 | an earlier same-category answer with a None score makes `sum` raise, and the `except` then overwrites the fresh evaluation with 5.0, leaving category scores unchanged |
| InterviewWorkflow.AllScores | app/workflows/interview_workflow.py:245 | one score per answer: its score, or 0 for a missing key |
| InterviewWorkflow.SumTypeError | app/workflows/interview_workflow.py:245-246 | the left operand is a float only when some earlier score exists |
| InterviewWorkflow.SumTypeErrorFloat | app/workflows/interview_workflow.py:245-246 | the `sum` fails on 'float' + 'NoneType' exactly when some score precedes the first None with only missing scores before it, and on 'int' + 'NoneType' otherwise |
| InterviewWorkflow.ErrorText | app/workflows/interview_workflow.py:285-287 | the stored error text starts with "Failed to calculate scores: " and carries the exception text after it |
| InterviewWorkflow.ClarityScores | app/workflows/interview_workflow.py:262-265 | at most one clarity value per answer |
| InterviewWorkflow.DepthScores | app/workflows/interview_workflow.py:262-267 | at most one depth value per answer |
| InterviewWorkflow.DetailStrengths | app/workflows/interview_workflow.py:269-270 | at most one extra strength line |
| InterviewWorkflow.DetailWeaknesses | app/workflows/interview_workflow.py:269-275 | at most two extra weakness lines |
| InterviewWorkflow.DetailRemarks | app/workflows/interview_workflow.py:269-275 | the clarity strength appears iff there are clarity values with mean ≥ 8; the clarity weakness appears iff the clarity mean ≤ 5; the depth weakness appears iff the depth mean ≤ 5 |
| InterviewWorkflow.FinalLinesAppend | app/workflows/interview_workflow.py:249-278 | the category lines followed by the detail lines make the final lists |
| InterviewWorkflow.VerdictsDisjoint | app/workflows/interview_workflow.py:252-256 | a category's strength line is present iff its score ≥ 8, and its weakness line iff ≤ 5 |
| InterviewWorkflow.LineInjective | app/workflows/interview_workflow.py:254-256 | lines built from different category names differ |
| InterviewWorkflow.OneLinePerCategory | app/workflows/interview_workflow.py:252-256 | a category at or above 8 has exactly one strength line, one at or below 5 exactly one weakness line, and any other category none |
| InterviewWorkflow.CollectDetails | app/workflows/interview_workflow.py:259-267 | the loop gathers exactly the truthy clarity and depth values, in order |
| InterviewWorkflow.DetailLines | app/workflows/interview_workflow.py:269-275 | the detail lines are exactly those the means call for |
| InterviewWorkflow.CategoryVerdicts | app/workflows/interview_workflow.py:252-256 | the category loop yields exactly the strength and weakness lines its thresholds call for, each once, in any key order |
| InterviewWorkflow.AppendKeepsConsistent | app/workflows/interview_workflow.py:497-502 | appending an answer past the last question, or for a category without a score, keeps every category score the mean of its scores |
| InterviewWorkflow.AppendRescoresConsistent | app/workflows/interview_workflow.py:497-502 | appending a scored answer and recomputing its category's mean keeps every category score the mean of its scores |
| InterviewWorkflow.RecordAnswer | app/workflows/interview_workflow.py:485-502 | the answer is appended, scored when it has a question; the evaluation is reported iff there was a question; only the answered category's score changes, to the mean of its scores after a success; consistent category scores stay consistent |
| InterviewWorkflow.FinalScores | app/workflows/interview_workflow.py:245-278 | with no None score: overall is the mean of the scores (0 when there are none, missing counts as 0); strengths and weaknesses are the category lines, one per qualifying category, followed by the detail lines |
| InterviewWorkflow.InterviewState.Resume | app/workflows/interview_workflow.py:408-456 | the reloaded state holds the questions, one loaded entry per stored answer, the index at the stored count, no category scores, and the `Interviewing` stage |
| InterviewWorkflow.InterviewState.SubmitAnswer | app/workflows/interview_workflow.py:461-568 | the answer is appended, and scored when it has a question; the index is the answer count; completed iff the index reaches the question count; the next question is the one at the index; only the submitted category's score changes, to the mean of its scores after a success; consistency of all category scores is kept after a success, past the last question, or for a new category |
| InterviewWorkflow.InterviewState.EvaluateAnswer | app/workflows/interview_workflow.py:168-221 | when both a question and an answer exist at the index, answers and category scores become `EvaluationStep` of the old ones, including the running average and the 5.0 overwrite when it raises; otherwise they stay; the index always advances by one and nothing else changes |
| InterviewWorkflow.InterviewState.ShouldContinueInterview | app/workflows/interview_workflow.py:235-237 | "complete" iff the index reached the question count, "continue" otherwise |
| InterviewWorkflow.InterviewState.CheckCompletion | app/workflows/interview_workflow.py:223-233 | the stage becomes `CalculatingScores` exactly when the continuation test answers "complete"; nothing else changes |
| InterviewWorkflow.InterviewState.CalculateFinalScores | app/workflows/interview_workflow.py:239-289 | a None score records the sum's TypeError and changes nothing else; otherwise overall = mean of the scores (missing = 0, none = 0), and the lists are the category lines, one per qualifying category, followed by the detail lines |
| Dashboard.CompletedOf | app/routers/dashboard.py:22-27 | exactly the completed sessions |
| Dashboard.TruthyScores | app/routers/dashboard.py:33 | only non-zero overall scores of the sessions are averaged |
| Dashboard.AverageScore | app/routers/dashboard.py:33-34 | 0 when no session has a truthy score |
| Dashboard.AverageScoreBounded | app/routers/dashboard.py:33-34 | the average stays within the sessions' score bounds |
| Dashboard.Hours | app/routers/dashboard.py:41-42 | `int(m / 60)` truncates toward zero |
| Dashboard.TotalMinutes | app/routers/dashboard.py:37-39 | no recorded time gives 0 (SQL `SUM` of nothing is NULL, then `or 0`); non-negative times give a non-negative total |
| Dashboard.TotalTime | app/routers/dashboard.py:41-42 | for non-negative minutes the text is "H" + "h " + "M" + "m" with H = minutes div 60 and M = minutes mod 60 |
| Dashboard.TotalTimeRoundTrip | app/routers/dashboard.py:37-42 | for non-negative minutes, "Hh Mm" parses back to hours and minutes with M < 60 and 60·H + M = total |
| Dashboard.NegativeTotalTime | app/routers/dashboard.py:41-42 | −1 minute is shown as "0h 59m" (truncating hours, floor remainder) |
| Dashboard.FirstSeen | app/routers/dashboard.py:45-51 | the dictionary's keys, in insertion order, are distinct |
| Dashboard.FirstSeenMembers | app/routers/dashboard.py:45-51 | a category is a key exactly when some entry has it |
| Dashboard.ScoresFor | app/routers/dashboard.py:45-51 | a category's list is non-empty iff it is a key |
| Dashboard.EntriesStep | app/routers/dashboard.py:48-51 | one more item extends the key order and that category's list only |
| Dashboard.CollectCategoryScores | app/routers/dashboard.py:45-51 | the nested loops build the first-seen keys, each category's scores in order, and in the breakdown's variant (140-153) a session counter equal to the list length |
| Dashboard.CollectItems | app/routers/dashboard.py:48-51 | the inner loop adds one session's items |
| Dashboard.AddItem | app/routers/dashboard.py:49-51 | one `setdefault`-and-append keeps the dictionary in step with the items |
| Dashboard.CollectStep | app/routers/dashboard.py:49-51 | one `setdefault`-and-append keeps the dictionary in step with the items |
| Dashboard.AverageAt | app/routers/dashboard.py:56-62 | entry i has category i's label, the mean of its scores, and colour i mod 5 |
| Dashboard.CategoryAverages | app/routers/dashboard.py:53-62 | one entry per category in first-seen order, as described by AverageAt |
| Dashboard.ColorsCycle | app/routers/dashboard.py:54-61 | five consecutive categories never share a colour |
| Dashboard.ImprovementAreas | app/routers/dashboard.py:65 | zero iff every category averages at least 7 |
| Dashboard.CategoryAverageBetween | app/routers/dashboard.py:57 | a category's average lies between its worst and best score |
| Dashboard.RecentSessions | app/routers/dashboard.py:68-84 | at most five rows, one per session in query order, each with company, role and mode copied, the truthy score or 0, and the first three recommendations (all of them when there are at most three, none when null) |
| Dashboard.Recent | app/routers/dashboard.py:76-84 | the recommendations are the whole stored list when it has at most three entries, exactly its first three otherwise, and empty when null; company, role and mode are copied and the score is the truthy score or 0 |
| Dashboard.BreakdownOf | app/routers/dashboard.py:157-166 | worst ≤ average ≤ best, being the min, mean and max; `Improving` iff more than one score and the last beats the first |
| Dashboard.BreakdownRows | app/routers/dashboard.py:156-166 | one row per category in first-seen order |
| Dashboard.InsertPermutes | app/routers/dashboard.py:169 | inserting keeps every row |
| Dashboard.InsertSorted | app/routers/dashboard.py:169 | inserting into a non-increasing list keeps it non-increasing |
| Dashboard.InsertStable | app/routers/dashboard.py:169 | the inserted row goes after the rows with its own average |
| Dashboard.Insert | app/routers/dashboard.py:169 | inserting adds exactly one row |
| Dashboard.SortByAverage | app/routers/dashboard.py:169 | the sort keeps the number of rows |
| Dashboard.SortByAverageSorted | app/routers/dashboard.py:169 | the breakdown is non-increasing by average |
| Dashboard.SortByAveragePermutes | app/routers/dashboard.py:169 | the breakdown is a permutation of the rows |
| Dashboard.SortByAverageStable | app/routers/dashboard.py:169 | rows with equal averages keep their first-seen order (a stable sort, also when reversed) |
| Dashboard.BuildRows | app/routers/dashboard.py:156-166 | one row per category in dictionary order, each computed from that category's scores and count |
| Dashboard.CollectedRows | app/routers/dashboard.py:145-166 | the rows built from the collected dictionaries are the rows of the specification, whatever loop built the dictionaries |
| Dashboard.CategoryBreakdown | app/routers/dashboard.py:126-171 | the response is the sorted list of per-category rows |
| Dashboard.BreakdownRowsSound | app/routers/dashboard.py:156-169 | the sorted breakdown is non-increasing, and every row has worst ≤ average ≤ best |
| Dashboard.GetDashboardStats | app/routers/dashboard.py:15-93 | the count of completed sessions, the average score, the total-time text, one average per category, improvement areas counted from those averages, and the recent sessions |
| Schemas.RenamedProperties | app/schemas.py:61-80 | under a well-formed table: every source key is gone; a target is present iff its source was, with its value; other keys keep their values; nothing else appears; the number of keys is kept |
| Schemas.RenameKey | app/schemas.py:64-65 | one guarded `data[to] = data.pop(from)` |
| Schemas.UserDump | app/schemas.py:61-80 | the eight guarded renames, in source order |
| Schemas.SessionDump | app/schemas.py:114-135 | the nine guarded renames, in source order |
| Schemas.QuestionDump | app/schemas.py:161-172 | the four guarded renames, in source order |
| Schemas.AnswerDump | app/schemas.py:222-249 | the twelve guarded renames, in source order |
| Schemas.UserRenamesWellFormed | app/schemas.py:64-79 | distinct sources, distinct targets, and no target that is a source |
| Schemas.SessionRenamesWellFormed | app/schemas.py:117-134 | distinct sources, distinct targets, and no target that is a source |
| Schemas.QuestionRenamesWellFormed | app/schemas.py:164-171 | distinct sources, distinct targets, and no target that is a source |
| Schemas.AnswerRenamesWellFormed | app/schemas.py:225-248 | distinct sources, distinct targets, and no target that is a source |
| Schemas.UserDumpKeys | app/schemas.py:27-80 | no target is a field; a full dump keeps the key count and drops every renamed snake_case key |
| Schemas.SessionDumpKeys | app/schemas.py:83-135 | no target is a field; a full dump keeps the key count and drops every renamed snake_case key |
| Schemas.QuestionDumpKeys | app/schemas.py:138-172 | no target is a field; a full dump keeps the key count and drops every renamed snake_case key |
| Schemas.AnswerDumpKeys | app/schemas.py:201-249 | no target is a field; a full dump keeps the key count and drops every renamed snake_case key |
| Schemas.ValidateUuidField | app/schemas.py:190-199 | None → None, a non-string passes through, a string parses or fails with "Invalid UUID format: …", and a success is never a string |
| Schemas.ValidateUuidFieldIdempotent | app/schemas.py:190-199 | validating a validated value changes nothing |
| Schemas.SignupErrors | app/schemas.py:27-38 | no error iff username ≥ 3 and password ≥ 6 characters; each field is reported iff it is too short |
| Schemas.LoginErrors | app/schemas.py:40-42 | no error iff the password has ≥ 6 characters |
| Schemas.PasswordRuleShared | app/schemas.py:38-42 | with a valid username, signup and login accept the same passwords |
| Schemas.NewSessionCreate | app/schemas.py:88-92 | `total_questions` is the given value, or 10 when absent |

## Findings

| source | as written | input that shows it | evidently intended | confidence | as-written member | corrected member |
|---|---|---|---|---|---|---|
| app/routers/interviews.py:245-252 | the count of answers and the `.all()` that feeds the final scores run before the new row is flushed (`autoflush=False`, app/database.py:8), so they miss the answer being submitted | a one-question session answered once: progress 0, not completed, the same question is offered again; a session is completed only by an extra answer after the last question | the count includes the new answer, so the last answer completes the session and its score enters the final results | medium, not executed | Interviews.LastAnswerLeavesSessionOpen | Interviews.SubmitAnswerFlushed |
| app/routers/interviews.py:815-818 | the new share token is `str(uuid.uuid4())`, 36 characters, written into `share_token = Column(String(32))` (app/models.py:58) of a PostgreSQL database | any completed session without a token: the UPDATE fails and the request ends in a 500 | a token that fits the column (a 32-character hex UUID, or a wider column), so a link is created and then reused | medium, not executed | Interviews.UuidTokenNeverStored | Interviews.ShareLinkStable |
| app/services/ai_service.py:138-142 | slot i takes question `i % len(q_list)`; with five categories a category's slots share one residue modulo 5, so each category always gets the same question | the router's default request (five categories, ten questions) when the LLM fails: slots 0 and 5 both ask the first technical question | a category's k-th slot takes its k-th question, `q_list[(i // len(categories)) % len(q_list)]` | medium, not executed | AiService.DefaultFallbackRepeats | AiService.VariedSlotsDistinct |

The same default request yields only six questions for ten slots:
- "domain_knowledge" and "communication" have no bank list, so their slots are skipped (`AiService.DefaultFallbackCount`).
- The source may intend this: it skips unknown categories deliberately.

`AiService.FallbackQuestions` models the code as written. `Interviews.SubmitAnswer` follows the code as written; `Interviews.SubmitAnswerFlushed` is the corrected handler. `Interviews.CreateShareLink` is the corrected share-link handler, which assumes the token fits its column; `Interviews.CreateShareLinkAsWritten` adds the failing write.

## Left out

- LLM calls (prompts, `ainvoke`, the `asyncio.wait_for` timeout): foreign asynchronous calls. Their outcomes are parameters (`EvaluationReply`, `RecommendationReply`, `Option<AnswerEvaluation>`).
- Database work (queries, commits, rollbacks, cascades in all routers, `app/crud.py`, `app/models.py`): query results are input sequences.
  - `db.rollback()` and the write of the update dictionaries are not modelled. The update dictionaries are part of the results.
- The LangGraph graph wiring and its checkpointer: a library runtime.
- `InterviewWorkflow.InterviewState.SubmitAnswer` models the steps every call takes after the state is loaded: the append, the evaluation and the completion test. It applies to any state.
  - The reload, done when the state has no questions, is `InterviewState.Resume`. Its `"Session not found"` exception and its `db.close()` are not modelled.
  - The progress write and its swallowed exception are not modelled.
- The HTML report (`generate_html_report`), `strftime` dates, `datetime.utcnow` timestamps and UUID generation. The fresh share token is a parameter, and UUID parsing is the parameter `parse`.
- `round(x, 1)` everywhere, `str.title()` in the dashboard labels, and the float precision of `m / 60`. Properties are stated on exact reals, before rounding and title-casing.
- Dashboard.SortByAverage: sorts by the unrounded average. The source sorts by the rounded one, so rows whose averages only round equal may be ordered differently.
- Dashboard.ImprovementAreas: counts averages under 7 before rounding. The source compares the rounded value, so 6.95 … 6.99 count here but not there.
- Dashboard.RecentSessions: the `id` and `date` columns are left out (string conversion and `strftime`).
- Interviews.CompleteSession:
  - The outer fallback (`{"unknown": 0.0}`, lines 506-515) is not modelled: no modelled step of the calculation can raise.
  - The category insight loop's dictionary order is arbitrary here, so the order of the per-category insights is not stated, only which insights appear.
  - Category scores are compared with the thresholds before rounding. The source rounds them first (line 427), so a category averaging 5.95 … 5.99 is a weakness here but a strength there.
- InterviewWorkflow.InterviewState.CalculateFinalScores: `category_scores` is a `map`, so the order of the category lines in the strengths and weaknesses is not stated. The source emits them in the dictionary's insertion order, the order in which categories were first scored. The same holds for `InterviewWorkflow.FinalScores` and `InterviewWorkflow.CategoryVerdicts`, which state each qualifying category's line exactly once, in any order.
- InterviewWorkflow.InterviewState.EvaluateAnswer:
  - When the running average raises for a category that had no score yet, the source leaves `[]` in `category_scores` (app/workflows/interview_workflow.py:196-198). The model leaves that category without a value.
  - `answers.index(ans)` compares whole answer entries, question id and time spent included, as Python's dictionary equality does. An entry that `submit_answer` appends is a parameter with the same keys as a reloaded one; extra keys a caller might add are not modelled.
  - The property that the average is the category's mean is proved for pairwise different entries (`InterviewWorkflow.RunningAverageIsCategoryMean`), which holds whenever they answer different questions (`InterviewWorkflow.RunningAverageForDistinctQuestions`). Repeated identical entries are covered only by `InterviewWorkflow.EvaluationStep` itself.
- InterviewWorkflow.InterviewState.SubmitAnswer:
  - After a failed evaluation, the stored 5.0 is not folded into the category score until the category's next successful evaluation. The source does this.
  - ScoresConsistent is therefore promised only after a success, past the last question, or for a category without a score yet.
- NaN scores, `EmailStr` validation, `is_correct` and the enums' value checks: foreign validation or unused fields.
- The routes outside the modelled core: session creation, listing, results, deletion, report download, share-link removal, the alias routes and the performance trend.
- `AiService.Normalized` lower-cases ASCII letters only. Python's `lower()` also folds other scripts.
