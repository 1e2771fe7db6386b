/** The interview router (`app/routers/interviews.py`): scoring a submitted answer,
    progress and the next question, the completion aggregates of `submit_answer`, the
    insight lists of `complete_interview_session`, and share links. Database queries are
    modelled by the rows they return; the AI service by its results. */
module Interviews {
  import opened Wrappers
  import opened Text
  import opened Stats
  import opened AiService

  // ---------------------------------------------------------------------------------------
  // Rows

  datatype Question = Question(
    id: nat, sessionId: nat, number: int, category: string, text: string, difficulty: string)

  datatype Answer = Answer(
    questionId: nat, sessionId: nat, answerType: string,
    subjective: Option<string>, voice: Option<string>, audioUrl: Option<string>,
    timeSpent: Option<int>, score: Option<real>, feedback: Option<string>,
    details: Option<EvaluationDetails>, correctedAnswer: Option<string>,
    missingPoints: Option<string>)

  /** The body of `POST /sessions/{id}/answers` (`AnswerCreate`). */
  datatype Submission = Submission(
    questionId: nat, answerType: string, subjective: Option<string>,
    voice: Option<string>, audioUrl: Option<string>, timeSpent: Option<int>)

  /** An error response: its status code and detail text. */
  datatype HttpError = HttpError(status: int, detail: string)

  /** `db.query(Question).filter(Question.id == id).first()`: the first row with that id. */
  function Lookup(table: seq<Question>, id: nat): (r: Option<Question>)
    ensures r.Some? ==> r.value in table && r.value.id == id
    ensures r.None? <==> forall q :: q in table ==> q.id != id
  {
    if table == [] then None
    else if table[0].id == id then Some(table[0])
    else Lookup(table[1..], id)
  }

  /** The questions of one session, in table order. */
  function QuestionsOf(table: seq<Question>, sessionId: nat): (r: seq<Question>)
    ensures forall q :: q in r <==> q in table && q.sessionId == sessionId
  {
    if table == [] then []
    else
      var last := table[|table| - 1];
      QuestionsOf(table[..|table| - 1], sessionId) + (if last.sessionId == sessionId then [last] else [])
  }

  /** The answers of one session, in table order. */
  function AnswersOf(table: seq<Answer>, sessionId: nat): (r: seq<Answer>)
    ensures forall a :: a in r <==> a in table && a.sessionId == sessionId
  {
    if table == [] then []
    else
      var last := table[|table| - 1];
      AnswersOf(table[..|table| - 1], sessionId) + (if last.sessionId == sessionId then [last] else [])
  }

  /** Inserting an answer of the session adds exactly that answer to the session's rows. */
  lemma AnswersOfInsert(table: seq<Answer>, a: Answer)
    ensures AnswersOf(table + [a], a.sessionId) == AnswersOf(table, a.sessionId) + [a]
  {
    assert (table + [a])[..|table|] == table;
  }

  // ---------------------------------------------------------------------------------------
  // Scoring one submission

  /** `subjective_answer or voice_transcript or ""`: the first non-empty text. */
  function AnswerText(subjective: Option<string>, voice: Option<string>): (r: string)
    ensures subjective.Some? && subjective.value != "" ==> r == subjective.value
    ensures (subjective.None? || subjective.value == "") && voice.Some? ==> r == voice.value
    ensures r == "" <==> (subjective.None? || subjective.value == "") && (voice.None? || voice.value == "")
  {
    if subjective.Some? && subjective.value != "" then subjective.value
    else if voice.Some? && voice.value != "" then voice.value
    else ""
  }

  /** The evaluation the router stores with an answer; `details == None` is the empty `{}`. */
  datatype Evaluation = Evaluation(
    score: real, feedback: string, details: Option<EvaluationDetails>,
    correctedAnswer: Option<string>, missingPoints: Option<string>)

  const FailedFeedback := "Answer evaluation failed. Please provide a clear, relevant technical response."
  const FailedCorrectedAnswer := "Unable to provide corrected answer due to evaluation error."
  const FailedMissingPoints := "Unable to analyze missing points due to evaluation error."
  const OverrideCorrectedAnswer := "Please provide a clear, structured answer that directly addresses the question asked."
  const OverrideMissingPoints := "The answer provided does not contain relevant technical content."

  /** The router's evaluation of `text`, given what the AI service returned (`None` when the
      call raised): a failed call scores 1.0 with fixed texts, and a non-empty answer that
      is gibberish once stripped and lowercased is forced to 1.0 whatever the service said. */
  function RouterEvaluation(text: string, evaluated: Option<AnswerEvaluation>): (r: Evaluation)
    ensures text != "" && IsNonsensical(Normalized(text)) ==>
      r.score == 1.0 && r.feedback == OffTopicFeedback
      && r.correctedAnswer == Some(OverrideCorrectedAnswer) && r.missingPoints == Some(OverrideMissingPoints)
    ensures !(text != "" && IsNonsensical(Normalized(text))) && evaluated.None? ==>
      r == Evaluation(1.0, FailedFeedback, None, Some(FailedCorrectedAnswer), Some(FailedMissingPoints))
    ensures !(text != "" && IsNonsensical(Normalized(text))) && evaluated.Some? ==>
      r.score == evaluated.value.score && r.feedback == evaluated.value.feedback
      && r.correctedAnswer == evaluated.value.correctedAnswer
      && r.missingPoints == evaluated.value.missingPoints
    ensures r.details == (if evaluated.Some? then Some(evaluated.value.details) else None)
  {
    var base :=
      if evaluated.None? then
        Evaluation(1.0, FailedFeedback, None, Some(FailedCorrectedAnswer), Some(FailedMissingPoints))
      else
        var e := evaluated.value;
        Evaluation(e.score, e.feedback, Some(e.details), e.correctedAnswer, e.missingPoints);
    if text != "" && IsNonsensical(Normalized(text)) then
      base.(score := 1.0, feedback := OffTopicFeedback,
            correctedAnswer := Some(OverrideCorrectedAnswer), missingPoints := Some(OverrideMissingPoints))
    else base
  }

  /** When the evaluator's LLM fails, the score the router stores is still one of the
      heuristic fallback scores. */
  lemma StoredScoreWithoutModel(questionText: string, text: string)
    ensures RouterEvaluation(text, Some(EvaluateAnswer(questionText, text, Raised))).score in {1.0, 2.0, 3.0, 8.0}
  {
  }

  /** A gibberish answer is stored with score 1.0 whatever the evaluator replied. */
  lemma GibberishScoresOne(questionText: string, text: string, reply: EvaluationReply)
    requires text != "" && IsNonsensical(Normalized(text))
    ensures RouterEvaluation(text, Some(EvaluateAnswer(questionText, text, reply))).score == 1.0
    ensures RouterEvaluation(text, None).score == 1.0
  {
  }

  // ---------------------------------------------------------------------------------------
  // Progress and the next question

  /** The first question of the session numbered after `current`, lowest number first:
      `filter(question_number > current).order_by(question_number).first()`. */
  function NextQuestion(questions: seq<Question>, current: int): (r: Option<Question>)
    ensures r.Some? ==> (r.value in questions && r.value.number > current
      && forall q :: q in questions && q.number > current ==> r.value.number <= q.number)
    ensures r.None? <==> forall q :: q in questions ==> q.number <= current
  {
    if questions == [] then None
    else
      var rest := NextQuestion(questions[1..], current);
      var q := questions[0];
      if q.number > current && (rest.None? || q.number <= rest.value.number) then Some(q)
      else rest
  }

  /** The scores of the scored answers, in order: `[ans.score for ans in answers if ans.score is not None]`. */
  function ScoredScores(answers: seq<Answer>): (r: seq<real>)
    ensures |r| <= |answers|
    ensures forall x :: x in r <==> exists a :: a in answers && a.score == Some(x)
  {
    if answers == [] then []
    else
      var last := answers[|answers| - 1];
      var init := answers[..|answers| - 1];
      assert forall a :: a in answers <==> a in init || a == last;
      ScoredScores(init) + (if last.score.Some? then [last.score.value] else [])
  }

  /** An answer takes part in the mean of category `c`: it is scored and the question it
      answers (looked up by id in the whole table) has the non-empty category `c`. */
  predicate CountsToward(table: seq<Question>, a: Answer, c: string) {
    a.score.Some? && c != "" && Lookup(table, a.questionId).Some? && Lookup(table, a.questionId).value.category == c
  }

  /** The scores collected for category `c`, in answer order. */
  function ScoresIn(table: seq<Question>, answers: seq<Answer>, c: string): (r: seq<real>)
    ensures |r| <= |answers|
  {
    if answers == [] then []
    else
      var last := answers[|answers| - 1];
      ScoresIn(table, answers[..|answers| - 1], c) + (if CountsToward(table, last, c) then [last.score.value] else [])
  }

  /** No score is collected for the empty category. */
  lemma {:induction false} NoEmptyCategory(table: seq<Question>, answers: seq<Answer>)
    ensures ScoresIn(table, answers, "") == []
  {
    if answers != [] {
      NoEmptyCategory(table, answers[..|answers| - 1]);
    }
  }

  /** Every collected score is one of the answers' scores, so it stays in any range they stay in. */
  lemma {:induction false} ScoresInBounded(table: seq<Question>, answers: seq<Answer>, c: string, lo: real, hi: real)
    requires forall a :: a in answers && a.score.Some? ==> lo <= a.score.value <= hi
    ensures forall i :: 0 <= i < |ScoresIn(table, answers, c)| ==> lo <= ScoresIn(table, answers, c)[i] <= hi
  {
    if answers != [] {
      var init := answers[..|answers| - 1];
      assert forall a :: a in init ==> a in answers;
      ScoresInBounded(table, init, c, lo, hi);
    }
  }

  /** One more answer extends the list of its own question's category only. */
  lemma ScoresInStep(table: seq<Question>, answers: seq<Answer>, i: nat, c: string)
    requires i < |answers|
    ensures ScoresIn(table, answers[..i + 1], c)
      == ScoresIn(table, answers[..i], c) + (if CountsToward(table, answers[i], c) then [answers[i].score.value] else [])
  {
    assert answers[..i + 1][..i] == answers[..i];
  }

  /** `lists` holds, for each category, exactly the scores `answers` collect for it. */
  ghost predicate ListsMatch(table: seq<Question>, answers: seq<Answer>, lists: map<string, seq<real>>) {
    forall c :: (c in lists <==> ScoresIn(table, answers, c) != [])
      && (c in lists ==> lists[c] == ScoresIn(table, answers, c))
  }

  /** An answer that counts toward no category leaves the lists as they are. */
  lemma ListsMatchSkip(table: seq<Question>, answers: seq<Answer>, i: nat, lists: map<string, seq<real>>)
    requires i < |answers| && ListsMatch(table, answers[..i], lists)
    requires answers[i].score.None? || Lookup(table, answers[i].questionId).None? || Lookup(table, answers[i].questionId).value.category == ""
    ensures ListsMatch(table, answers[..i + 1], lists)
  {
    forall c ensures ScoresIn(table, answers[..i + 1], c) == ScoresIn(table, answers[..i], c) {
      ScoresInStep(table, answers, i, c);
    }
  }

  /** An answer that counts toward `cat` appends its score to that list only. */
  lemma ListsMatchAdd(table: seq<Question>, answers: seq<Answer>, i: nat, lists: map<string, seq<real>>, cat: string)
    requires i < |answers| && ListsMatch(table, answers[..i], lists)
    requires CountsToward(table, answers[i], cat)
    ensures ListsMatch(table, answers[..i + 1], lists[cat := (if cat in lists then lists[cat] else []) + [answers[i].score.value]])
  {
    var next := lists[cat := (if cat in lists then lists[cat] else []) + [answers[i].score.value]];
    forall c ensures (c in next <==> ScoresIn(table, answers[..i + 1], c) != [])
      && (c in next ==> next[c] == ScoresIn(table, answers[..i + 1], c))
    {
      ScoresInStep(table, answers, i, c);
      if c != cat {
        assert !CountsToward(table, answers[i], c);
      }
    }
  }

  /** The first loop of `submit_answer`'s scoring: each scored answer whose question has a
      category appends its score to that category's list. */
  method CollectSubmissionScores(table: seq<Question>, answers: seq<Answer>) returns (lists: map<string, seq<real>>)
    ensures forall c :: c in lists <==> ScoresIn(table, answers, c) != []
    ensures forall c :: c in lists ==> lists[c] == ScoresIn(table, answers, c)
  {
    lists := map[];
    var i := 0;
    while i < |answers|
      invariant 0 <= i <= |answers|
      invariant ListsMatch(table, answers[..i], lists)
    {
      var a := answers[i];
      var q := Lookup(table, a.questionId);
      if a.score.Some? && q.Some? && q.value.category != "" {
        var cat := q.value.category;
        ListsMatchAdd(table, answers, i, lists, cat);
        if cat !in lists {
          lists := lists[cat := []];
        }
        lists := lists[cat := lists[cat] + [a.score.value]];
      } else {
        ListsMatchSkip(table, answers, i, lists);
      }
      i := i + 1;
    }
    assert answers[..|answers|] == answers;
  }

  /** The second loop: every list is replaced by its mean. */
  method MeansOf(lists: map<string, seq<real>>) returns (scores: map<string, real>)
    requires forall c :: c in lists ==> lists[c] != []
    ensures scores.Keys == lists.Keys
    ensures forall c :: c in scores ==> scores[c] == Mean(lists[c])
  {
    scores := map[];
    var rest := lists.Keys;
    while rest != {}
      invariant rest <= lists.Keys
      invariant scores.Keys == lists.Keys - rest
      invariant forall c :: c in scores ==> scores[c] == Mean(lists[c])
      decreases |rest|
    {
      var c :| c in rest;
      scores := scores[c := Mean(lists[c])];
      rest := rest - {c};
    }
  }

  /** The category scores of `submit_answer`: lists of scores per category built in a first
      loop, each then replaced by its mean. */
  method SubmissionCategoryScores(table: seq<Question>, answers: seq<Answer>) returns (scores: map<string, real>)
    ensures forall c :: c in scores <==> ScoresIn(table, answers, c) != []
    ensures forall c :: c in scores ==> scores[c] == Mean(ScoresIn(table, answers, c))
  {
    var lists := CollectSubmissionScores(table, answers);
    scores := MeansOf(lists);
  }

  /** Scores that stay in a range (the evaluator's 1 to 10, say) give an overall score and
      category scores in that range. */
  lemma CompletionScoresBounded(table: seq<Question>, answers: seq<Answer>, lo: real, hi: real)
    requires forall a :: a in answers && a.score.Some? ==> lo <= a.score.value <= hi
    requires ScoredScores(answers) != []
    ensures lo <= MeanOrZero(ScoredScores(answers)) <= hi
    ensures forall c :: ScoresIn(table, answers, c) != [] ==> lo <= Mean(ScoresIn(table, answers, c)) <= hi
  {
    var s := ScoredScores(answers);
    forall i | 0 <= i < |s| ensures lo <= s[i] <= hi {
      assert s[i] in s;
    }
    MeanBounds(s, lo, hi);
    forall c | ScoresIn(table, answers, c) != [] ensures lo <= Mean(ScoresIn(table, answers, c)) <= hi {
      ScoresInBounded(table, answers, c, lo, hi);
      MeanBounds(ScoresIn(table, answers, c), lo, hi);
    }
  }

  /** The band the overall score falls in; the thresholds are 8, 6 and 4. */
  datatype Tier = Excellent | Good | Fair | Poor {
    function Rank(): nat {
      match this
      case Poor => 0
      case Fair => 1
      case Good => 2
      case Excellent => 3
    }
  }

  /** Exactly one band applies to every score. */
  function TierOf(overall: real): (t: Tier)
    ensures t == Excellent <==> overall >= 8.0
    ensures t == Good <==> 6.0 <= overall < 8.0
    ensures t == Fair <==> 4.0 <= overall < 6.0
    ensures t == Poor <==> overall < 4.0
  {
    if overall >= 8.0 then Excellent
    else if overall >= 6.0 then Good
    else if overall >= 4.0 then Fair
    else Poor
  }

  /** A higher overall score never lands in a lower band. */
  lemma TierMonotone(a: real, b: real)
    requires a <= b
    ensures TierOf(a).Rank() <= TierOf(b).Rank()
  {
  }

  datatype Feedback = Feedback(strengths: seq<string>, weaknesses: seq<string>, recommendations: seq<string>)

  /** The fixed strengths, weaknesses and recommendations of each band; none is empty. */
  function TierFeedback(t: Tier): (r: Feedback)
    ensures r.strengths != [] && r.weaknesses != [] && r.recommendations != []
  {
    match t
    case Excellent => Feedback(["Strong technical knowledge", "Clear explanations"],
      ["Minor areas for refinement"], ["Continue practicing advanced topics"])
    case Good => Feedback(["Good understanding of basics"],
      ["Needs more depth in technical answers"], ["Practice explaining concepts more clearly"])
    case Fair => Feedback(["Shows some knowledge"],
      ["Lacks depth in technical explanations", "Poor preparation evident"],
      ["Focus on fundamentals", "Practice technical questions"])
    case Poor => Feedback(["Room for significant improvement"],
      ["Inadequate technical responses", "Poor interview preparation"],
      ["Study fundamental concepts thoroughly", "Focus on providing relevant technical answers"])
  }

  /** What `submit_answer` writes to the session once the last answer is in. */
  datatype SessionUpdate = SessionUpdate(
    status: string, overallScore: real, categoryScores: map<string, real>, feedback: Feedback)

  datatype SubmitResponse = SubmitResponse(
    evaluation: Evaluation, stored: Answer, nextQuestion: Option<Question>,
    current: nat, total: nat, completed: bool,
    currentScores: map<string, real>, update: Option<SessionUpdate>)

  /** The row `submit_answer` adds for a submission and its evaluation. */
  function StoredAnswer(sessionId: nat, submission: Submission, evaluation: Evaluation): (a: Answer)
    ensures a.sessionId == sessionId && a.questionId == submission.questionId
    ensures a.subjective == submission.subjective && a.voice == submission.voice
    ensures a.score == Some(evaluation.score) && a.feedback == Some(evaluation.feedback)
    ensures a.details == evaluation.details
    ensures a.correctedAnswer == evaluation.correctedAnswer && a.missingPoints == evaluation.missingPoints
  {
    Answer(
      submission.questionId, sessionId, submission.answerType, submission.subjective,
      submission.voice, submission.audioUrl, submission.timeSpent, Some(evaluation.score),
      Some(evaluation.feedback), evaluation.details, evaluation.correctedAnswer, evaluation.missingPoints)
  }

  /** The progress part of `submit_answer`'s response, computed from the answer rows `seen` by
      its queries: the count is the current position; the session completes once it reaches
      the question count, and then the overall mean, the category means and the band's
      feedback are written; otherwise the next question is numbered after the position. */
  ghost predicate ProgressFrom(res: SubmitResponse, questionTable: seq<Question>, sessionId: nat, seen: seq<Answer>) {
    var questions := QuestionsOf(questionTable, sessionId);
    && res.current == |seen|
    && res.total == |questions|
    && (res.completed <==> res.current >= res.total)
    && (res.completed ==> res.nextQuestion.None?)
    && (!res.completed ==> res.nextQuestion == NextQuestion(questions, res.current))
    && (res.update.Some? <==> res.completed)
    && (res.completed ==>
          (forall c :: c in res.currentScores <==> ScoresIn(questionTable, seen, c) != [])
          && (forall c :: c in res.currentScores ==> res.currentScores[c] == Mean(ScoresIn(questionTable, seen, c)))
          && res.update.value.status == "completed"
          && res.update.value.overallScore == MeanOrZero(ScoredScores(seen))
          && res.update.value.categoryScores == res.currentScores
          && res.update.value.feedback == TierFeedback(TierOf(res.update.value.overallScore)))
    && (!res.completed ==> res.currentScores == map[])
  }

  /** Progress, completion and the next question from the answer rows `seen`. */
  method SessionProgress(questionTable: seq<Question>, sessionId: nat, evaluation: Evaluation, stored: Answer, seen: seq<Answer>)
    returns (res: SubmitResponse)
    ensures res.evaluation == evaluation && res.stored == stored
    ensures ProgressFrom(res, questionTable, sessionId, seen)
  {
    var questions := QuestionsOf(questionTable, sessionId);
    var current := |seen|;
    var total := |questions|;
    var completed := current >= total;
    var currentScores: map<string, real> := map[];
    var update: Option<SessionUpdate> := None;
    if completed {
      var overall := MeanOrZero(ScoredScores(seen));
      currentScores := SubmissionCategoryScores(questionTable, seen);
      update := Some(SessionUpdate("completed", overall, currentScores, TierFeedback(TierOf(overall))));
    }
    var next := if completed then None else NextQuestion(questions, current);
    res := SubmitResponse(evaluation, stored, next, current, total, completed, currentScores, update);
  }

  /** `submit_answer` as written. A missing session or question raises a 404 inside the
      handler's `try`, whose `except Exception` turns it into a 400 carrying the 404's text.
      The session's database sessions do not autoflush, so the row added for this answer is
      not seen by the count and the completion query that follow it: progress and the
      completion aggregates are computed from the answers stored before this request. */
  method SubmitAnswer(
    sessionId: nat, sessionFound: bool, questionTable: seq<Question>, answerTable: seq<Answer>,
    submission: Submission, evaluated: Option<AnswerEvaluation>)
    returns (r: Result<SubmitResponse, HttpError>)
    ensures !sessionFound ==> r == Err(HttpError(400, "Failed to submit answer: 404: Session not found"))
    ensures sessionFound && Lookup(questionTable, submission.questionId).None? ==>
      r == Err(HttpError(400, "Failed to submit answer: 404: Question not found"))
    ensures sessionFound && Lookup(questionTable, submission.questionId).Some? ==> r.Ok?
    ensures r.Ok? ==>
      && r.value.evaluation == RouterEvaluation(AnswerText(submission.subjective, submission.voice), evaluated)
      && r.value.stored == StoredAnswer(sessionId, submission, r.value.evaluation)
      && r.value.current == |AnswersOf(answerTable, sessionId)|
      && ProgressFrom(r.value, questionTable, sessionId, AnswersOf(answerTable, sessionId))
  {
    if !sessionFound {
      return Err(HttpError(400, "Failed to submit answer: 404: Session not found"));
    }
    if Lookup(questionTable, submission.questionId).None? {
      return Err(HttpError(400, "Failed to submit answer: 404: Question not found"));
    }
    var evaluation := RouterEvaluation(AnswerText(submission.subjective, submission.voice), evaluated);
    var stored := StoredAnswer(sessionId, submission, evaluation);
    var res := SessionProgress(questionTable, sessionId, evaluation, stored, AnswersOf(answerTable, sessionId));
    return Ok(res);
  }

  /** As written, answering the only question of a fresh session leaves it open and offers
      that same question again: the new row is not counted. */
  lemma LastAnswerLeavesSessionOpen(q: Question, res: SubmitResponse)
    requires ProgressFrom(res, [q], q.sessionId, [])
    ensures !res.completed && res.current == 0
    ensures q.number > 0 ==> res.nextQuestion == Some(q)
  {
    assert QuestionsOf([q], q.sessionId) == [q];
  }

  /** `submit_answer` with the new row flushed before its queries, as its progress count
      evidently intends: the answer just stored counts, so answering the last question
      completes the session and the aggregates include that answer. */
  method SubmitAnswerFlushed(
    sessionId: nat, sessionFound: bool, questionTable: seq<Question>, answerTable: seq<Answer>,
    submission: Submission, evaluated: Option<AnswerEvaluation>)
    returns (r: Result<SubmitResponse, HttpError>)
    ensures !sessionFound ==> r == Err(HttpError(400, "Failed to submit answer: 404: Session not found"))
    ensures sessionFound && Lookup(questionTable, submission.questionId).None? ==>
      r == Err(HttpError(400, "Failed to submit answer: 404: Question not found"))
    ensures sessionFound && Lookup(questionTable, submission.questionId).Some? ==> r.Ok?
    ensures r.Ok? ==>
      && r.value.evaluation == RouterEvaluation(AnswerText(submission.subjective, submission.voice), evaluated)
      && r.value.stored == StoredAnswer(sessionId, submission, r.value.evaluation)
      && r.value.current == |AnswersOf(answerTable, sessionId)| + 1
      && (r.value.completed <==> |AnswersOf(answerTable, sessionId)| + 1 >= |QuestionsOf(questionTable, sessionId)|)
      && ProgressFrom(r.value, questionTable, sessionId, AnswersOf(answerTable, sessionId) + [r.value.stored])
  {
    if !sessionFound {
      return Err(HttpError(400, "Failed to submit answer: 404: Session not found"));
    }
    if Lookup(questionTable, submission.questionId).None? {
      return Err(HttpError(400, "Failed to submit answer: 404: Question not found"));
    }
    var evaluation := RouterEvaluation(AnswerText(submission.subjective, submission.voice), evaluated);
    var stored := StoredAnswer(sessionId, submission, evaluation);
    AnswersOfInsert(answerTable, stored);
    var res := SessionProgress(questionTable, sessionId, evaluation, stored, AnswersOf(answerTable + [stored], sessionId));
    return Ok(res);
  }

  // ---------------------------------------------------------------------------------------
  // Completing a session

  /** `{q.id: q.category for q in questions}`: a later question with the same id wins. */
  function CategoryById(questions: seq<Question>): (m: map<nat, string>)
    ensures forall id :: id in m <==> exists q :: q in questions && q.id == id
  {
    if questions == [] then map[]
    else
      var last := questions[|questions| - 1];
      var init := questions[..|questions| - 1];
      assert forall q :: q in questions <==> q in init || q == last;
      CategoryById(init)[last.id := last.category]
  }

  /** The map holds the category of the last question row with each id. */
  lemma {:induction false} CategoryByIdLatest(questions: seq<Question>, k: nat)
    requires k < |questions|
    requires forall j :: k < j < |questions| ==> questions[j].id != questions[k].id
    ensures questions[k].id in CategoryById(questions)
    ensures CategoryById(questions)[questions[k].id] == questions[k].category
  {
    var n := |questions| - 1;
    if k < n {
      var init := questions[..n];
      assert init[k] == questions[k];
      CategoryByIdLatest(init, k);
    }
  }

  /** `score or 0`: an unscored answer counts as zero. */
  function ScoreOrZero(a: Answer): real {
    if a.score.Some? then a.score.value else 0.0
  }

  /** The answers whose question maps to `category`, each counted by `ScoreOrZero`. */
  function CategoryAnswerScores(byId: map<nat, string>, answers: seq<Answer>, category: string): (r: seq<real>)
    ensures |r| <= |answers|
    ensures r == [] <==> forall a :: a in answers ==> a.questionId !in byId || byId[a.questionId] != category
  {
    if answers == [] then []
    else
      var a := answers[0];
      assert forall b :: b in answers <==> b == a || b in answers[1..];
      (if a.questionId in byId && byId[a.questionId] == category then [ScoreOrZero(a)] else [])
      + CategoryAnswerScores(byId, answers[1..], category)
  }

  /** `complete_interview_session`'s category scores (before rounding): for every category
      some answer maps to, the mean of its answers with unscored ones as zero. */
  function CompletionCategoryScores(questions: seq<Question>, answers: seq<Answer>): (m: map<string, real>)
    ensures forall c :: c in m <==> c in CategoryById(questions).Values && CategoryAnswerScores(CategoryById(questions), answers, c) != []
  {
    var byId := CategoryById(questions);
    map c | c in byId.Values && CategoryAnswerScores(byId, answers, c) != []
      :: Mean(CategoryAnswerScores(byId, answers, c))
  }

  /** How one category did: two kinds of strength, two kinds of weakness. */
  datatype Level = ExcellentLevel | GoodLevel | NeedsImprovement | RoomForGrowth {
    predicate IsStrength() { this == ExcellentLevel || this == GoodLevel }
  }

  /** An insight line: about one category, or a fixed remark. */
  datatype Insight = PerCategory(level: Level, category: string) | Remark(text: string) {
    /** The message the session stores. */
    function Text(): string {
      match this
      case PerCategory(ExcellentLevel, c) => "Excellent " + c + " knowledge"
      case PerCategory(GoodLevel, c) => "Good " + c + " understanding"
      case PerCategory(NeedsImprovement, c) => "Needs improvement in " + c
      case PerCategory(RoomForGrowth, c) => "Room for growth in " + c
      case Remark(t) => t
    }
  }

  /** The insight for a category: 8 and up excellent, 6 and up good, 4 and below needs
      improvement, room for growth in between. */
  function LevelOf(score: real): (l: Level)
    ensures l.IsStrength() <==> score >= 6.0
    ensures l == ExcellentLevel <==> score >= 8.0
    ensures l == NeedsImprovement <==> score <= 4.0
  {
    if score >= 8.0 then ExcellentLevel
    else if score >= 6.0 then GoodLevel
    else if score <= 4.0 then NeedsImprovement
    else RoomForGrowth
  }

  /** The insight list entries derived from the category scores: for a strength list
      (`strong`) or a weakness list. */
  predicate CategoryEntries(scores: map<string, real>, list: seq<Insight>, strong: bool) {
    forall i :: i in list && i.PerCategory? ==>
      i.category in scores && i.level == LevelOf(scores[i.category]) && i.level.IsStrength() == strong
  }

  /** `list` holds one insight per category on its side of 6 (the strengths when `strong`)
      and nothing else: no remark, no category twice. */
  predicate SideInsights(scores: map<string, real>, list: seq<Insight>, strong: bool) {
    && (forall i :: i in list ==> i.PerCategory?)
    && CategoryEntries(scores, list, strong)
    && (forall c :: c in scores && (scores[c] >= 6.0) == strong ==> PerCategory(LevelOf(scores[c]), c) in list)
    && (forall i, j :: 0 <= i < j < |list| && list[i].PerCategory? && list[j].PerCategory? ==>
          list[i].category != list[j].category)
  }

  /** The category loop of `complete_interview_session`: every category gives exactly one
      insight, into the strengths when its score is at least 6 and the weaknesses otherwise. */
  method CategoryInsights(scores: map<string, real>) returns (strengths: seq<Insight>, weaknesses: seq<Insight>)
    ensures forall c :: c in scores && scores[c] >= 6.0 ==> PerCategory(LevelOf(scores[c]), c) in strengths
    ensures forall c :: c in scores && scores[c] < 6.0 ==> PerCategory(LevelOf(scores[c]), c) in weaknesses
    ensures forall i :: i in strengths ==> i.PerCategory?
    ensures forall i :: i in weaknesses ==> i.PerCategory?
    ensures CategoryEntries(scores, strengths, true) && CategoryEntries(scores, weaknesses, false)
    ensures SideInsights(scores, strengths, true) && SideInsights(scores, weaknesses, false)
    ensures |strengths| + |weaknesses| == |scores|
  {
    strengths, weaknesses := [], [];
    var rest := scores.Keys;
    while rest != {}
      invariant rest <= scores.Keys
      invariant forall c :: c in scores.Keys - rest && scores[c] >= 6.0 ==> PerCategory(LevelOf(scores[c]), c) in strengths
      invariant forall c :: c in scores.Keys - rest && scores[c] < 6.0 ==> PerCategory(LevelOf(scores[c]), c) in weaknesses
      invariant forall i :: i in strengths ==> i.PerCategory? && i.category in scores.Keys - rest
      invariant forall i :: i in weaknesses ==> i.PerCategory? && i.category in scores.Keys - rest
      invariant CategoryEntries(scores, strengths, true) && CategoryEntries(scores, weaknesses, false)
      invariant forall i, j :: 0 <= i < j < |strengths| ==> strengths[i].category != strengths[j].category
      invariant forall i, j :: 0 <= i < j < |weaknesses| ==> weaknesses[i].category != weaknesses[j].category
      invariant |strengths| + |weaknesses| + |rest| == |scores|
      decreases |rest|
    {
      var c :| c in rest;
      var insight := PerCategory(LevelOf(scores[c]), c);
      if scores[c] >= 6.0 {
        strengths := strengths + [insight];
      } else {
        weaknesses := weaknesses + [insight];
      }
      rest := rest - {c};
    }
  }

  /** Remarks added for the overall score: two, one or none strengths and none or two weaknesses. */
  function OverallStrengths(overall: real): (r: seq<Insight>)
    ensures r != [] <==> overall >= 6.0
    ensures forall i :: i in r ==> i.Remark?
  {
    if overall >= 8.0 then [Remark("Strong technical communication"), Remark("Well-structured responses")]
    else if overall >= 6.0 then [Remark("Shows technical potential")]
    else []
  }

  function OverallWeaknesses(overall: real): (r: seq<Insight>)
    ensures r != [] <==> overall < 6.0
    ensures forall i :: i in r ==> i.Remark?
  {
    if overall >= 6.0 then []
    else if overall >= 4.0 then [Remark("Lacks detail in technical explanations"), Remark("Needs more preparation")]
    else [Remark("Insufficient technical depth"), Remark("Poor interview readiness")]
  }

  /** `if not lst: lst = [fallback]`. */
  function OrIfEmpty(list: seq<Insight>, fallback: string): (r: seq<Insight>)
    ensures r != []
    ensures list != [] ==> r == list
    ensures list == [] ==> r == [Remark(fallback)]
  {
    if list == [] then [Remark(fallback)] else list
  }

  /** The router's own four recommendations when the generator fails. */
  const RouterFallbackRecommendations := [
    "Focus on explaining technical concepts with specific examples",
    "Practice structuring answers with clear problem-solution approach",
    "Study the specific technologies mentioned in your target roles",
    "Improve confidence by practicing similar interview questions"]

  /** What `complete_interview_session` stores with the completed status. */
  datatype Completion = Completion(
    overallScore: real, categoryScores: map<string, real>,
    strengths: seq<Insight>, weaknesses: seq<Insight>, recommendations: seq<string>)

  const StrengthsFallback := "Shows willingness to engage with questions"
  const WeaknessesFallback := "Minor areas for refinement"

  const NoAnswersCompletion := Completion(0.0, map[], [Remark("No responses provided")],
    [Remark("Session incomplete")], ["Complete the interview to receive proper feedback"])

  /** `category` appears in a per-category insight of `list`. */
  predicate Mentions(list: seq<Insight>, category: string) {
    exists i :: i in list && i.PerCategory? && i.category == category
  }

  /** Adding the overall remarks and the fallback to a list built by `CategoryInsights`
      keeps its category entries and mentions exactly the categories on its side of 6. */
  lemma ListAssembly(scores: map<string, real>, list: seq<Insight>, extra: seq<Insight>, fallback: string, strong: bool)
    requires forall c :: c in scores && (scores[c] >= 6.0) == strong ==> PerCategory(LevelOf(scores[c]), c) in list
    requires CategoryEntries(scores, list, strong)
    requires forall i :: i in extra ==> i.Remark?
    ensures CategoryEntries(scores, OrIfEmpty(list + extra, fallback), strong)
    ensures forall c :: c in scores ==> (Mentions(OrIfEmpty(list + extra, fallback), c) <==> (scores[c] >= 6.0) == strong)
    ensures forall i :: i in extra ==> i in OrIfEmpty(list + extra, fallback)
  {
    var l := OrIfEmpty(list + extra, fallback);
    forall c | c in scores ensures Mentions(l, c) <==> (scores[c] >= 6.0) == strong {
      if (scores[c] >= 6.0) == strong {
        var i := PerCategory(LevelOf(scores[c]), c);
        assert i in list + extra;
      }
    }
  }

  /** What `complete_interview_session` stores for a session with answers: the overall mean
      counting unscored answers as zero; the category scores; each list made of one insight per
      category on its side of 6, then the overall remarks, or the placeholder when that is
      empty; and the recommendations of the generator, or the router's own when it fails. */
  ghost predicate CompletionOutcome(questions: seq<Question>, answers: seq<Answer>, reply: RecommendationReply, res: Completion)
    requires answers != []
  {
    && res.overallScore == Mean(seq(|answers|, k requires 0 <= k < |answers| => ScoreOrZero(answers[k])))
    && res.categoryScores == CompletionCategoryScores(questions, answers)
    && (forall c :: c in res.categoryScores ==> (Mentions(res.strengths, c) <==> res.categoryScores[c] >= 6.0))
    && (forall c :: c in res.categoryScores ==> (Mentions(res.weaknesses, c) <==> res.categoryScores[c] < 6.0))
    && CategoryEntries(res.categoryScores, res.strengths, true)
    && CategoryEntries(res.categoryScores, res.weaknesses, false)
    && res.strengths != [] && res.weaknesses != []
    && (forall i :: i in OverallStrengths(res.overallScore) ==> i in res.strengths)
    && (forall i :: i in OverallWeaknesses(res.overallScore) ==> i in res.weaknesses)
    && (exists cats :: SideInsights(res.categoryScores, cats, true)
          && res.strengths == OrIfEmpty(cats + OverallStrengths(res.overallScore), StrengthsFallback))
    && (exists cats :: SideInsights(res.categoryScores, cats, false)
          && res.weaknesses == OrIfEmpty(cats + OverallWeaknesses(res.overallScore), WeaknessesFallback))
    && res.recommendations == (match GenerateRecommendations(reply)
         case None => RouterFallbackRecommendations
         case Some(list) => list)
  }

  /** The lists `complete_interview_session` assembles from the category insights meet its
      outcome. */
  lemma AssembledOutcome(questions: seq<Question>, answers: seq<Answer>, reply: RecommendationReply,
                         byCategoryStrong: seq<Insight>, byCategoryWeak: seq<Insight>, res: Completion)
    requires answers != []
    requires res.overallScore == Mean(seq(|answers|, k requires 0 <= k < |answers| => ScoreOrZero(answers[k])))
    requires res.categoryScores == CompletionCategoryScores(questions, answers)
    requires SideInsights(res.categoryScores, byCategoryStrong, true) && SideInsights(res.categoryScores, byCategoryWeak, false)
    requires res.strengths == OrIfEmpty(byCategoryStrong + OverallStrengths(res.overallScore), StrengthsFallback)
    requires res.weaknesses == OrIfEmpty(byCategoryWeak + OverallWeaknesses(res.overallScore), WeaknessesFallback)
    requires res.recommendations == (match GenerateRecommendations(reply)
      case None => RouterFallbackRecommendations
      case Some(list) => list)
    ensures CompletionOutcome(questions, answers, reply, res)
  {
    ListAssembly(res.categoryScores, byCategoryStrong, OverallStrengths(res.overallScore), StrengthsFallback, true);
    ListAssembly(res.categoryScores, byCategoryWeak, OverallWeaknesses(res.overallScore), WeaknessesFallback, false);
  }

  /** `complete_interview_session`. A missing session is a 404 (re-raised as is). With no
      answers the placeholders are stored; otherwise the overall mean counts unscored answers
      as zero, every category lands in exactly one of the two lists, neither list is empty,
      and the recommendations come from the generator or, when it fails or returns `null`
      (on which `len` raises), from the router's own list. */
  method CompleteSession(
    sessionId: nat, sessionFound: bool, questionTable: seq<Question>, answerTable: seq<Answer>,
    reply: RecommendationReply)
    returns (r: Result<Completion, HttpError>)
    ensures !sessionFound ==> r == Err(HttpError(404, "Session not found"))
    ensures sessionFound ==> r.Ok?
    ensures sessionFound && AnswersOf(answerTable, sessionId) == [] ==> r == Ok(NoAnswersCompletion)
    ensures sessionFound && AnswersOf(answerTable, sessionId) != [] ==>
      CompletionOutcome(QuestionsOf(questionTable, sessionId), AnswersOf(answerTable, sessionId), reply, r.value)
  {
    if !sessionFound {
      return Err(HttpError(404, "Session not found"));
    }
    var answers := AnswersOf(answerTable, sessionId);
    if answers == [] {
      return Ok(NoAnswersCompletion);
    }
    var individual := seq(|answers|, k requires 0 <= k < |answers| => ScoreOrZero(answers[k]));
    var overall := Mean(individual);
    var scores := CompletionCategoryScores(QuestionsOf(questionTable, sessionId), answers);
    var byCategoryStrong, byCategoryWeak := CategoryInsights(scores);
    var recommendations := match GenerateRecommendations(reply)
      case None => RouterFallbackRecommendations
      case Some(list) => list;
    var res := Completion(overall, scores,
      OrIfEmpty(byCategoryStrong + OverallStrengths(overall), StrengthsFallback),
      OrIfEmpty(byCategoryWeak + OverallWeaknesses(overall), WeaknessesFallback), recommendations);
    AssembledOutcome(QuestionsOf(questionTable, sessionId), answers, reply, byCategoryStrong, byCategoryWeak, res);
    return Ok(res);
  }

  // ---------------------------------------------------------------------------------------
  // Share links

  datatype SessionRow = SessionRow(status: string, shareToken: Option<string>)

  datatype ShareLink = ShareLink(url: string, token: string)

  const DefaultBaseUrl := "http://localhost:5000"

  /** `base if base.startswith("http") else "https://" + base`. */
  function NormalizeBase(base: string): (r: string)
    ensures StartsWith(r, "http")
    ensures StartsWith(base, "http") ==> r == base
    ensures !StartsWith(base, "http") ==> r == "https://" + base
  {
    if StartsWith(base, "http") then base else "https://" + base
  }

  /** Normalizing a base twice changes nothing more. */
  lemma NormalizeBaseIdempotent(base: string)
    ensures NormalizeBase(NormalizeBase(base)) == NormalizeBase(base)
  {
  }

  /** A stored token is reused when it is non-empty. */
  predicate HasToken(row: SessionRow) {
    row.shareToken.Some? && row.shareToken.value != ""
  }

  /** `create_share_link`: the link and the session row afterwards. `baseEnv` is the
      environment's base URL, if set; `freshToken` is the UUID the handler would draw. */
  function CreateShareLink(session: Option<SessionRow>, baseEnv: Option<string>, freshToken: string): (r: Result<(ShareLink, SessionRow), HttpError>)
    ensures session.None? ==> r == Err(HttpError(404, "Session not found"))
    ensures session.Some? && session.value.status != "completed" ==> r == Err(HttpError(400, "Session not completed yet"))
    ensures session.Some? && session.value.status == "completed" ==>
      && r.Ok?
      && r.value.0.token == (if HasToken(session.value) then session.value.shareToken.value else freshToken)
      && r.value.1 == session.value.(shareToken := Some(r.value.0.token))
      && r.value.0.url == NormalizeBase(baseEnv.GetOr(DefaultBaseUrl)) + "/share/" + r.value.0.token
  {
    match session
    case None => Err(HttpError(404, "Session not found"))
    case Some(row) =>
      if row.status != "completed" then Err(HttpError(400, "Session not completed yet"))
      else
        var token := if HasToken(row) then row.shareToken.value else freshToken;
        var url := NormalizeBase(baseEnv.GetOr(DefaultBaseUrl)) + "/share/" + token;
        Ok((ShareLink(url, token), row.(shareToken := Some(token))))
  }

  /** The width of the `share_token` column (`String(32)`). */
  const ShareTokenWidth := 32

  /** The length of `str(uuid.uuid4())`: 32 hex digits and four hyphens. */
  const UuidTextLength := 36

  /** `create_share_link` as written, against PostgreSQL: a new token longer than the column
      makes the UPDATE fail; nothing in the handler catches that, so the request ends in a
      500 and no token is stored. */
  function CreateShareLinkAsWritten(session: Option<SessionRow>, baseEnv: Option<string>, freshToken: string): (r: Result<(ShareLink, SessionRow), HttpError>)
    ensures session.Some? && session.value.status == "completed" && !HasToken(session.value) && |freshToken| > ShareTokenWidth
      ==> r == Err(HttpError(500, "Internal Server Error"))
    ensures !(session.Some? && session.value.status == "completed" && !HasToken(session.value) && |freshToken| > ShareTokenWidth)
      ==> r == CreateShareLink(session, baseEnv, freshToken)
  {
    if session.Some? && session.value.status == "completed" && !HasToken(session.value) && |freshToken| > ShareTokenWidth
    then Err(HttpError(500, "Internal Server Error"))
    else CreateShareLink(session, baseEnv, freshToken)
  }

  /** As written, a completed session without a token never gets a link: every request
      draws a fresh UUID text, which does not fit the column. */
  lemma UuidTokenNeverStored(row: SessionRow, baseEnv: Option<string>, token: string)
    requires row.status == "completed" && !HasToken(row) && |token| == UuidTextLength
    ensures CreateShareLinkAsWritten(Some(row), baseEnv, token).Err?
    ensures CreateShareLinkAsWritten(Some(row), baseEnv, token).error.status == 500
  {
  }

  /** Asking again for a link to the same session returns the same token and URL, whatever
      token would have been drawn the second time. */
  lemma ShareLinkStable(row: SessionRow, baseEnv: Option<string>, first: string, second: string)
    requires row.status == "completed" && first != ""
    ensures
      var r1 := CreateShareLink(Some(row), baseEnv, first);
      var r2 := CreateShareLink(Some(r1.value.1), baseEnv, second);
      r2.Ok? && r2.value.0 == r1.value.0 && r2.value.1 == r1.value.1
  {
  }

  /** The URL is the normalized base, then "/share/", then the token. */
  lemma ShareUrlShape(row: SessionRow, baseEnv: Option<string>, token: string)
    requires row.status == "completed"
    ensures
      var link := CreateShareLink(Some(row), baseEnv, token).value.0;
      StartsWith(link.url, "http") && |link.url| >= |link.token| && link.url[|link.url| - |link.token|..] == link.token
  {
    var link := CreateShareLink(Some(row), baseEnv, token).value.0;
    var base := NormalizeBase(baseEnv.GetOr(DefaultBaseUrl));
    assert link.url == (base + "/share/") + link.token;
    assert link.url[..4] == base[..4];
  }
}
