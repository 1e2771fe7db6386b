/** The in-memory interview state machine (`app/workflows/interview_workflow.py`). The
    workflow keeps one mutable state per interview; here that state is an `InterviewState`
    object whose methods are the workflow's steps. The evaluator's result is a parameter
    (`None` when the call raised). */
module InterviewWorkflow {
  import opened Wrappers
  import opened Stats
  import opened AiService
  import Interviews

  /** The "score" key of an answer dictionary: missing, `None`, or a number. */
  datatype ScoreField = NoScore | NullScore | Score(value: real)

  /** One entry of `state["answers"]`, with every key a reloaded entry carries. Python compares
      such dictionaries key by key, so two entries are equal only when all of these agree.
      `questionId` stands for `str(question_id)`, which determines the id. */
  datatype StateAnswer = StateAnswer(
    questionId: nat, answerText: string, answerType: string, timeSpent: Option<int>,
    score: ScoreField, feedback: Option<string>, details: EvaluationDetails)

  /** What `submit_answer` reports as the evaluation of the new answer. */
  datatype StepEvaluation = StepEvaluation(score: real, feedback: string, details: EvaluationDetails)

  const FailedEvaluationFeedback := "Unable to evaluate answer due to technical issue."

  /** A stored answer row as the state loads it on resumption. */
  function LoadAnswer(a: Interviews.Answer): (r: StateAnswer)
    ensures r.answerText == Interviews.AnswerText(a.subjective, a.voice)
    ensures r.score == (if a.score.Some? then Score(a.score.value) else NullScore)
    ensures r.feedback == a.feedback && r.answerType == a.answerType
    ensures r.questionId == a.questionId && r.timeSpent == a.timeSpent
    ensures a.details.Some? ==> r.details == a.details.value
    ensures a.details.None? ==> r.details == NoDetails
  {
    StateAnswer(
      a.questionId, Interviews.AnswerText(a.subjective, a.voice), a.answerType, a.timeSpent,
      if a.score.Some? then Score(a.score.value) else NullScore,
      a.feedback, a.details.GetOr(NoDetails))
  }

  /** An answer after `.update(...)` with the evaluator's result, or with the fixed 5.0
      when the evaluator raised. */
  function Scored(a: StateAnswer, evaluated: Option<AnswerEvaluation>): (r: StateAnswer)
    ensures evaluated.None? ==>
      r.score == Score(5.0) && r.feedback == Some(FailedEvaluationFeedback) && r.details == NoDetails
    ensures evaluated.Some? ==>
      r.score == Score(evaluated.value.score) && r.feedback == Some(evaluated.value.feedback)
      && r.details == evaluated.value.details
    ensures r.answerText == a.answerText && r.answerType == a.answerType
    ensures r.questionId == a.questionId && r.timeSpent == a.timeSpent
  {
    match evaluated
    case None => a.(score := Score(5.0), feedback := Some(FailedEvaluationFeedback), details := NoDetails)
    case Some(e) => a.(score := Score(e.score), feedback := Some(e.feedback), details := e.details)
  }

  /** The scores the running average of category `c` takes: answers at positions that have
      a question, whose question is in `c`, and that carry a score. */
  function CategoryScoresAt(questions: seq<Interviews.Question>, answers: seq<StateAnswer>, c: string): (r: seq<real>)
    ensures |r| <= |answers|
  {
    if answers == [] then []
    else
      var k := |answers| - 1;
      var counted := k < |questions| && questions[k].category == c && answers[k].score.Score?;
      CategoryScoresAt(questions, answers[..k], c) + (if counted then [answers[k].score.value] else [])
  }

  /** Appending an answer adds its score to the list of its own position's category only. */
  lemma CategoryScoresAtAppend(questions: seq<Interviews.Question>, answers: seq<StateAnswer>, a: StateAnswer, c: string)
    ensures CategoryScoresAt(questions, answers + [a], c) == CategoryScoresAt(questions, answers, c)
      + (if |answers| < |questions| && questions[|answers|].category == c && a.score.Score? then [a.score.value] else [])
  {
    assert (answers + [a])[..|answers|] == answers;
  }

  /** Every score in a category's list is at most the largest and at least the smallest
      score the answers carry. */
  lemma {:induction false} CategoryScoresAtBounded(questions: seq<Interviews.Question>, answers: seq<StateAnswer>, c: string, lo: real, hi: real)
    requires forall k :: 0 <= k < |answers| && answers[k].score.Score? ==> lo <= answers[k].score.value <= hi
    ensures forall i :: 0 <= i < |CategoryScoresAt(questions, answers, c)| ==> lo <= CategoryScoresAt(questions, answers, c)[i] <= hi
  {
    if answers != [] {
      CategoryScoresAtBounded(questions, answers[..|answers| - 1], c, lo, hi);
    }
  }

  /** `state["answers"].index(ans)`: the first position holding an entry equal to `x`. */
  function FirstIndexOf(s: seq<StateAnswer>, x: StateAnswer): (i: nat)
    requires x in s
    ensures i < |s| && s[i] == x
    ensures forall j :: 0 <= j < i ==> s[j] != x
  {
    if s[0] == x then 0 else 1 + FirstIndexOf(s[1..], x)
  }

  /** The score fields `_evaluate_answer`'s running average of category `c` takes from the
      first `n` answers: those whose first equal entry (`answers.index(ans)`) sits at a
      question of `c`. */
  function RunningEntries(questions: seq<Interviews.Question>, answers: seq<StateAnswer>, n: nat, c: string): (r: seq<ScoreField>)
    requires n <= |answers| && n <= |questions|
    ensures |r| <= n
  {
    if n == 0 then []
    else
      var i := FirstIndexOf(answers, answers[n - 1]);
      RunningEntries(questions, answers, n - 1, c) + (if questions[i].category == c then [answers[n - 1].score] else [])
  }

  /** `ans.get("score", 0)` for a score field that is not `None`. */
  function FieldValue(f: ScoreField): real {
    if f.Score? then f.value else 0.0
  }

  function FieldValues(entries: seq<ScoreField>): (r: seq<real>)
    ensures |r| == |entries|
  {
    if entries == [] then [] else FieldValues(entries[..|entries| - 1]) + [FieldValue(entries[|entries| - 1])]
  }

  /** `sum(existing_scores) / len(existing_scores)`, or `None` when it raises: a `None` score
      makes `sum` raise a `TypeError`, an empty list makes the division raise. */
  function RunningAverage(entries: seq<ScoreField>): Option<real> {
    if entries == [] || NullScore in entries then None else Some(Mean(FieldValues(entries)))
  }

  /** `_evaluate_answer` on the state's values, for an index with both a question and an
      answer: the answer gets the evaluator's result and its category the running average;
      when the evaluator raised or the average raises, the `except` gives the answer the fixed
      5.0 instead and no category score changes. */
  function EvaluationStep(questions: seq<Interviews.Question>, answers: seq<StateAnswer>, scores: map<string, real>,
                          k: nat, evaluated: Option<AnswerEvaluation>): (r: (seq<StateAnswer>, map<string, real>))
    requires k < |questions| && k < |answers|
    ensures |r.0| == |answers| && forall j :: 0 <= j < |answers| && j != k ==> r.0[j] == answers[j]
    ensures r.0[k] == Scored(answers[k], evaluated) || r.0[k] == Scored(answers[k], None)
    ensures r.1 == scores || (r.0[k] == Scored(answers[k], evaluated) && r.1.Keys == scores.Keys + {questions[k].category})
    ensures forall c :: c in scores && c != questions[k].category ==> r.1[c] == scores[c]
  {
    var c := questions[k].category;
    var updated := answers[k := Scored(answers[k], evaluated)];
    if evaluated.None? then (answers[k := Scored(answers[k], None)], scores)
    else
      match RunningAverage(RunningEntries(questions, updated, k + 1, c))
      case None => (answers[k := Scored(answers[k], None)], scores)
      case Some(average) => (updated, scores[c := average])
  }

  /** The first `n` answers are pairwise different. */
  predicate DistinctUpTo(answers: seq<StateAnswer>, n: nat)
    requires n <= |answers|
  {
    forall i, j :: 0 <= i < j < n ==> answers[i] != answers[j]
  }

  /** Among pairwise different answers the last one is its own first occurrence. */
  lemma FirstOccurrence(answers: seq<StateAnswer>, n: nat)
    requires 0 < n <= |answers| && DistinctUpTo(answers, n)
    ensures FirstIndexOf(answers, answers[n - 1]) == n - 1
    ensures DistinctUpTo(answers, n - 1)
  {
  }

  lemma FieldValuesSnoc(entries: seq<ScoreField>, f: ScoreField)
    ensures FieldValues(entries + [f]) == FieldValues(entries) + [FieldValue(f)]
  {
    assert (entries + [f])[..|entries|] == entries;
  }

  /** The scores `CategoryScoresAt` lists for the first `n` answers, one answer at a time. */
  lemma CategoryScoresAtPrefix(questions: seq<Interviews.Question>, answers: seq<StateAnswer>, n: nat, c: string)
    requires 0 < n <= |answers|
    ensures CategoryScoresAt(questions, answers[..n], c) == CategoryScoresAt(questions, answers[..n - 1], c)
      + (if n - 1 < |questions| && questions[n - 1].category == c && answers[n - 1].score.Score? then [answers[n - 1].score.value] else [])
  {
    assert answers[..n][..n - 1] == answers[..n - 1];
  }

  /** Among pairwise different scored entries the running average collects exactly the
      scores `CategoryScoresAt` lists. */
  lemma {:induction false} DistinctRunningEntries(questions: seq<Interviews.Question>, answers: seq<StateAnswer>, n: nat, c: string)
    requires n <= |answers| && n <= |questions|
    requires DistinctUpTo(answers, n)
    requires forall j :: 0 <= j < n ==> answers[j].score.Score?
    ensures NullScore !in RunningEntries(questions, answers, n, c)
    ensures FieldValues(RunningEntries(questions, answers, n, c)) == CategoryScoresAt(questions, answers[..n], c)
  {
    if n > 0 {
      FirstOccurrence(answers, n);
      DistinctRunningEntries(questions, answers, n - 1, c);
      CategoryScoresAtPrefix(questions, answers, n, c);
      var prev := RunningEntries(questions, answers, n - 1, c);
      if questions[n - 1].category == c {
        assert RunningEntries(questions, answers, n, c) == prev + [answers[n - 1].score];
        FieldValuesSnoc(prev, answers[n - 1].score);
      } else {
        assert RunningEntries(questions, answers, n, c) == prev;
      }
    }
  }

  /** The running average over pairwise different scored answers, the last of which is in
      category `c`, is the mean of the scores `CategoryScoresAt` lists for `c`. */
  lemma DistinctRunningAverage(questions: seq<Interviews.Question>, u: seq<StateAnswer>, k: nat, c: string)
    requires k < |questions| && k < |u| && questions[k].category == c
    requires DistinctUpTo(u, k + 1)
    requires forall j :: 0 <= j <= k ==> u[j].score.Score?
    ensures CategoryScoresAt(questions, u[..k + 1], c) != []
    ensures RunningAverage(RunningEntries(questions, u, k + 1, c)) == Some(Mean(CategoryScoresAt(questions, u[..k + 1], c)))
  {
    DistinctRunningEntries(questions, u, k + 1, c);
    FirstOccurrence(u, k + 1);
    assert RunningEntries(questions, u, k + 1, c) == RunningEntries(questions, u, k, c) + [u[k].score];
  }

  /** When the answers up to the index are pairwise different and scored, a successful
      evaluation sets the category to the mean `submit_answer` keeps for it: the mean of the
      category's scores up to and including the new one. */
  lemma RunningAverageIsCategoryMean(questions: seq<Interviews.Question>, answers: seq<StateAnswer>, scores: map<string, real>,
                                     k: nat, evaluated: Option<AnswerEvaluation>)
    requires k < |questions| && k < |answers| && evaluated.Some?
    requires DistinctUpTo(answers[k := Scored(answers[k], evaluated)], k + 1)
    requires forall j :: 0 <= j < k ==> answers[j].score.Score?
    ensures var u := answers[k := Scored(answers[k], evaluated)];
      var c := questions[k].category;
      && CategoryScoresAt(questions, u[..k + 1], c) != []
      && EvaluationStep(questions, answers, scores, k, evaluated) == (u, scores[c := Mean(CategoryScoresAt(questions, u[..k + 1], c))])
  {
    var u := answers[k := Scored(answers[k], evaluated)];
    forall j | 0 <= j <= k ensures u[j].score.Score? {
      if j < k {
        assert u[j] == answers[j];
      }
    }
    DistinctRunningAverage(questions, u, k, questions[k].category);
  }

  /** Answers to different questions are different entries, so when the answers up to the
      index answer pairwise different questions, `answers.index` finds each at its own position
      and a successful evaluation sets its category to the mean of that category's scores. */
  lemma RunningAverageForDistinctQuestions(questions: seq<Interviews.Question>, answers: seq<StateAnswer>, scores: map<string, real>,
                                           k: nat, evaluated: Option<AnswerEvaluation>)
    requires k < |questions| && k < |answers| && evaluated.Some?
    requires forall i, j :: 0 <= i < j <= k ==> answers[i].questionId != answers[j].questionId
    requires forall j :: 0 <= j < k ==> answers[j].score.Score?
    ensures var u := answers[k := Scored(answers[k], evaluated)];
      var c := questions[k].category;
      && CategoryScoresAt(questions, u[..k + 1], c) != []
      && EvaluationStep(questions, answers, scores, k, evaluated) == (u, scores[c := Mean(CategoryScoresAt(questions, u[..k + 1], c))])
  {
    var u := answers[k := Scored(answers[k], evaluated)];
    forall i, j | 0 <= i < j < k + 1 ensures u[i] != u[j] {
      assert u[i].questionId == answers[i].questionId;
      assert u[j].questionId == answers[j].questionId;
    }
    RunningAverageIsCategoryMean(questions, answers, scores, k, evaluated);
  }

  /** A `None` score earlier in the index's category, at its own first occurrence, makes the
      running average raise: the new answer is stored with the fixed 5.0 whatever the evaluator
      said, and no category score changes. */
  lemma NullScoreForcesDefault(questions: seq<Interviews.Question>, answers: seq<StateAnswer>, scores: map<string, real>,
                               k: nat, evaluated: Option<AnswerEvaluation>, j: nat)
    requires k < |questions| && k < |answers| && j < k
    requires answers[j].score.NullScore? && questions[j].category == questions[k].category
    requires forall i :: 0 <= i < j ==> answers[i] != answers[j]
    ensures EvaluationStep(questions, answers, scores, k, evaluated) == (answers[k := Scored(answers[k], None)], scores)
  {
    if evaluated.Some? {
      var u := answers[k := Scored(answers[k], evaluated)];
      NullEntryKept(questions, u, k + 1, questions[k].category, j);
    }
  }

  /** A `None` score at its own first occurrence, in category `c`, is among the entries. */
  lemma {:induction false} NullEntryKept(questions: seq<Interviews.Question>, answers: seq<StateAnswer>, n: nat, c: string, j: nat)
    requires n <= |answers| && n <= |questions| && j < n
    requires answers[j].score.NullScore? && questions[j].category == c
    requires forall i :: 0 <= i < j ==> answers[i] != answers[j]
    ensures NullScore in RunningEntries(questions, answers, n, c)
  {
    if j < n - 1 {
      NullEntryKept(questions, answers, n - 1, c, j);
    } else {
      assert FirstIndexOf(answers, answers[j]) == j;
    }
  }

  /** `ans.get("score", 0)` for the overall mean; a `None` score makes `sum` raise. */
  function ScoreOrZero(a: StateAnswer): real
    requires !a.score.NullScore?
  {
    if a.score.Score? then a.score.value else 0.0
  }

  predicate HasNullScore(answers: seq<StateAnswer>) {
    exists k :: 0 <= k < |answers| && answers[k].score.NullScore?
  }

  /** `[ans.get("score", 0) for ans in answers]` when no score is `None`. */
  function AllScores(answers: seq<StateAnswer>): (r: seq<real>)
    requires !HasNullScore(answers)
    ensures |r| == |answers|
    ensures forall k :: 0 <= k < |answers| ==> r[k] == ScoreOrZero(answers[k])
  {
    if answers == [] then []
    else
      assert forall k :: 0 <= k < |answers| - 1 ==> answers[1..][k] == answers[k + 1];
      [ScoreOrZero(answers[0])] + AllScores(answers[1..])
  }

  /** The type of the running total when `sum` meets the first `None` score. */
  datatype OperandType = IntOperand | FloatOperand

  /** The `TypeError` that `sum` raises at the first `None` score: the running total is
      still the int 0 when every earlier entry was missing, a float otherwise. */
  function SumTypeError(answers: seq<StateAnswer>): (r: OperandType)
    ensures r == FloatOperand ==> exists k :: 0 <= k < |answers| && answers[k].score.Score?
  {
    if answers == [] || answers[0].score.NullScore? then IntOperand
    else if answers[0].score.Score? then FloatOperand
    else SumTypeError(answers[1..])
  }

  /** The total is a float exactly when some score comes before the first `None`, every
      entry before that score being missing. */
  lemma {:induction false} SumTypeErrorFloat(answers: seq<StateAnswer>)
    ensures SumTypeError(answers) == FloatOperand <==>
      exists k :: 0 <= k < |answers| && answers[k].score.Score? && forall j :: 0 <= j < k ==> answers[j].score.NoScore?
  {
    if answers != [] && answers[0].score.NoScore? {
      var rest := answers[1..];
      SumTypeErrorFloat(rest);
      if SumTypeError(answers) == FloatOperand {
        var k :| 0 <= k < |rest| && rest[k].score.Score? && forall j :: 0 <= j < k ==> rest[j].score.NoScore?;
        assert answers[k + 1].score.Score?;
        forall j | 0 <= j < k + 1 ensures answers[j].score.NoScore? {
          if j > 0 { assert answers[j] == rest[j - 1]; }
        }
      } else {
        forall k | 0 <= k < |answers| && answers[k].score.Score?
          ensures !(forall j :: 0 <= j < k ==> answers[j].score.NoScore?)
        {
          if forall j :: 0 <= j < k ==> answers[j].score.NoScore? {
            assert k > 0 && rest[k - 1].score.Score?;
            forall j | 0 <= j < k - 1 ensures rest[j].score.NoScore? {
              assert rest[j] == answers[j + 1];
            }
          }
        }
      }
    } else if answers != [] && answers[0].score.Score? {
      assert answers[0].score.Score?;
    }
  }

  /** What the workflow stores under `state["error"]`. */
  datatype StateError = ScoreSumFailed(left: OperandType)

  function TypeName(t: OperandType): string {
    match t
    case IntOperand => "int"
    case FloatOperand => "float"
  }

  /** The stored error's text, `f"Failed to calculate scores: {str(e)}"`. */
  function ErrorText(e: StateError): (r: string)
    ensures |r| > |ScoreErrorPrefix| && r[..|ScoreErrorPrefix|] == ScoreErrorPrefix
  {
    ScoreErrorPrefix + "unsupported operand type(s) for +: '" + TypeName(e.left) + "' and 'NoneType'"
  }

  const ScoreErrorPrefix := "Failed to calculate scores: "

  /** `if eval_details.get(key)`: the value is present and non-zero. */
  predicate Truthy(x: Option<real>) {
    x.Some? && x.value != 0.0
  }

  /** The truthy clarity values, in answer order. */
  function ClarityScores(answers: seq<StateAnswer>): (r: seq<real>)
    ensures |r| <= |answers|
  {
    if answers == [] then []
    else
      var a := answers[|answers| - 1];
      ClarityScores(answers[..|answers| - 1]) + (if Truthy(a.details.clarity) then [a.details.clarity.value] else [])
  }

  /** The truthy depth values, in answer order. */
  function DepthScores(answers: seq<StateAnswer>): (r: seq<real>)
    ensures |r| <= |answers|
  {
    if answers == [] then []
    else
      var a := answers[|answers| - 1];
      DepthScores(answers[..|answers| - 1]) + (if Truthy(a.details.depth) then [a.details.depth.value] else [])
  }

  /** The strength added for clear answers: a clarity mean of at least 8. */
  function DetailStrengths(answers: seq<StateAnswer>): (r: seq<string>)
    ensures |r| <= 1
  {
    var clarity := ClarityScores(answers);
    if clarity != [] && Mean(clarity) >= 8.0 then ["Clear and well-structured communication"] else []
  }

  /** The weaknesses added for unclear answers (a clarity mean of at most 5, and only when
      no strength was added for clarity) and for shallow ones (a depth mean of at most 5). */
  function DetailWeaknesses(answers: seq<StateAnswer>): (r: seq<string>)
    ensures |r| <= 2
  {
    var clarity := ClarityScores(answers);
    var depth := DepthScores(answers);
    (if clarity != [] && Mean(clarity) < 8.0 && Mean(clarity) <= 5.0 then ["Communication clarity needs improvement"] else [])
    + (if depth != [] && Mean(depth) <= 5.0 then ["Answers lack technical depth"] else [])
  }

  /** When the detail lines appear: the clarity strength for a clarity mean of at least 8,
      the clarity weakness for one of at most 5, the depth weakness for a depth mean of at
      most 5; nothing is said about answers without such values. */
  lemma DetailRemarks(answers: seq<StateAnswer>)
    ensures DetailStrengths(answers) != [] <==> ClarityScores(answers) != [] && Mean(ClarityScores(answers)) >= 8.0
    ensures "Communication clarity needs improvement" in DetailWeaknesses(answers) <==>
      ClarityScores(answers) != [] && Mean(ClarityScores(answers)) <= 5.0
    ensures "Answers lack technical depth" in DetailWeaknesses(answers) <==>
      DepthScores(answers) != [] && Mean(DepthScores(answers)) <= 5.0
  {
  }

  function StrongLine(c: string): string { "Strong performance in " + c + " questions" }
  function WeakLine(c: string): string { "Needs improvement in " + c + " concepts" }

  /** `lines` holds exactly the category lines on one side, each once: a strength for a score
      of at least 8, a weakness for a score of at most 5. */
  ghost predicate VerdictLines(scores: map<string, real>, lines: seq<string>, strong: bool) {
    (forall x :: x in lines <==>
      (exists c :: c in scores && (if strong then scores[c] >= 8.0 && x == StrongLine(c) else scores[c] <= 5.0 && x == WeakLine(c))))
    && NoRepeats(lines)
  }

  /** No line occurs twice. */
  predicate NoRepeats(lines: seq<string>) {
    forall i, j :: 0 <= i < j < |lines| ==> lines[i] != lines[j]
  }

  /** Each qualifying category contributes exactly one line, and no other category any. */
  lemma OneLinePerCategory(scores: map<string, real>, lines: seq<string>, strong: bool, c: string)
    requires VerdictLines(scores, lines, strong) && c in scores
    ensures var line := if strong then StrongLine(c) else WeakLine(c);
      var qualifies := if strong then scores[c] >= 8.0 else scores[c] <= 5.0;
      && (qualifies ==> exists i :: 0 <= i < |lines| && lines[i] == line && forall j :: 0 <= j < |lines| && j != i ==> lines[j] != line)
      && (!qualifies ==> line !in lines)
  {
    var line := if strong then StrongLine(c) else WeakLine(c);
    if line in lines {
      var d :| d in scores && (if strong then scores[d] >= 8.0 && line == StrongLine(d) else scores[d] <= 5.0 && line == WeakLine(d));
      if strong {
        LineInjective("Strong performance in ", " questions", c, d);
      } else {
        LineInjective("Needs improvement in ", " concepts", c, d);
      }
      var i :| 0 <= i < |lines| && lines[i] == line;
      assert forall j :: 0 <= j < |lines| && j != i ==> lines[j] != line;
    }
  }

  /** `lines` is the category lines on one side followed by `extra`. */
  ghost predicate FinalLines(scores: map<string, real>, lines: seq<string>, extra: seq<string>, strong: bool) {
    |lines| >= |extra| && lines[|lines| - |extra|..] == extra
    && VerdictLines(scores, lines[..|lines| - |extra|], strong)
  }

  lemma FinalLinesAppend(scores: map<string, real>, lines: seq<string>, extra: seq<string>, strong: bool)
    requires VerdictLines(scores, lines, strong)
    ensures FinalLines(scores, lines + extra, extra, strong)
  {
    assert (lines + extra)[..|lines|] == lines;
    assert (lines + extra)[|lines|..] == extra;
  }

  /** A category between 5 and 8 gives no line; none gives both. */
  lemma VerdictsDisjoint(scores: map<string, real>, s: seq<string>, w: seq<string>, c: string)
    requires VerdictLines(scores, s, true) && VerdictLines(scores, w, false)
    requires c in scores
    ensures StrongLine(c) in s <==> scores[c] >= 8.0
    ensures WeakLine(c) in w <==> scores[c] <= 5.0
  {
    if StrongLine(c) in s {
      var d :| d in scores && scores[d] >= 8.0 && StrongLine(c) == StrongLine(d);
      LineInjective("Strong performance in ", " questions", c, d);
    }
    if WeakLine(c) in w {
      var d :| d in scores && scores[d] <= 5.0 && WeakLine(c) == WeakLine(d);
      LineInjective("Needs improvement in ", " concepts", c, d);
    }
  }

  /** The same prefix and suffix around two names give equal strings only for equal names. */
  lemma LineInjective(p: string, q: string, c: string, d: string)
    requires p + c + q == p + d + q
    ensures c == d
  {
    var s := p + c + q;
    assert |c| == |d|;
    assert c == s[|p|..|p| + |c|];
    assert d == (p + d + q)[|p|..|p| + |d|];
  }

  /** Every category score is the mean of that category's scores. */
  predicate ConsistentScores(questions: seq<Interviews.Question>, answers: seq<StateAnswer>, scores: map<string, real>) {
    forall c :: c in scores ==>
      CategoryScoresAt(questions, answers, c) != [] && scores[c] == Mean(CategoryScoresAt(questions, answers, c))
  }

  /** Appending an answer leaves a consistent score alone when its position's category has
      no score (or there is no question at its position). */
  lemma AppendKeepsConsistent(questions: seq<Interviews.Question>, answers: seq<StateAnswer>, scores: map<string, real>, a: StateAnswer)
    requires ConsistentScores(questions, answers, scores)
    requires |answers| >= |questions| || questions[|answers|].category !in scores
    ensures ConsistentScores(questions, answers + [a], scores)
  {
    forall c | c in scores
      ensures CategoryScoresAt(questions, answers + [a], c) == CategoryScoresAt(questions, answers, c)
    {
      CategoryScoresAtAppend(questions, answers, a, c);
    }
  }

  /** Appending a scored answer and recomputing its position's category keeps the category
      scores consistent. */
  lemma AppendRescoresConsistent(questions: seq<Interviews.Question>, answers: seq<StateAnswer>, scores: map<string, real>, a: StateAnswer)
    requires ConsistentScores(questions, answers, scores)
    requires |answers| < |questions| && a.score.Score?
    ensures var c := questions[|answers|].category;
      ConsistentScores(questions, answers + [a], scores[c := Mean(CategoryScoresAt(questions, answers + [a], c))])
  {
    var c := questions[|answers|].category;
    var after := answers + [a];
    var updated := scores[c := Mean(CategoryScoresAt(questions, after, c))];
    forall d | d in updated
      ensures CategoryScoresAt(questions, after, d) != [] && updated[d] == Mean(CategoryScoresAt(questions, after, d))
    {
      CategoryScoresAtAppend(questions, answers, a, d);
      if d != c {
        assert CategoryScoresAt(questions, after, d) == CategoryScoresAt(questions, answers, d);
      }
    }
  }

  /** The value part of `submit_answer`: the answer is appended (scored when it has a
      question) and the category of a successfully scored answer gets the mean of its scores. */
  method RecordAnswer(questions: seq<Interviews.Question>, answers: seq<StateAnswer>, scores: map<string, real>,
                      answer: StateAnswer, evaluated: Option<AnswerEvaluation>)
    returns (after: seq<StateAnswer>, updated: map<string, real>, evaluation: Option<StepEvaluation>)
    ensures var p := |answers|;
      after == answers + [if p < |questions| then Scored(answer, evaluated) else answer]
    ensures evaluation.None? <==> |answers| >= |questions|
    ensures evaluation.Some? ==>
      var a := after[|after| - 1];
      a.score == Score(evaluation.value.score) && a.feedback == Some(evaluation.value.feedback)
      && a.details == evaluation.value.details
    ensures var p := |answers|;
      updated == (if p < |questions| && evaluated.Some?
        then scores[questions[p].category := Mean(CategoryScoresAt(questions, after, questions[p].category))]
        else scores)
    ensures var p := |answers|;
      ConsistentScores(questions, answers, scores)
      && (evaluated.Some? || p >= |questions| || questions[p].category !in scores)
      ==> ConsistentScores(questions, after, updated)
  {
    var p := |answers|;
    evaluation := None;
    updated := scores;
    if p < |questions| {
      var scored := Scored(answer, evaluated);
      after := answers + [scored];
      evaluation := Some(StepEvaluation(scored.score.value, scored.feedback.value, scored.details));
      if evaluated.Some? {
        var c := questions[p].category;
        updated := scores[c := Mean(CategoryScoresAt(questions, after, c))];
        if ConsistentScores(questions, answers, scores) {
          AppendRescoresConsistent(questions, answers, scores, scored);
        }
      } else if ConsistentScores(questions, answers, scores) && questions[p].category !in scores {
        AppendKeepsConsistent(questions, answers, scores, scored);
      }
    } else {
      after := answers + [answer];
      if ConsistentScores(questions, answers, scores) {
        AppendKeepsConsistent(questions, answers, scores, answer);
      }
    }
  }

  /** `state["stage"]`: the stage names the modelled steps write. */
  datatype Stage = Interviewing | Completed | CalculatingScores | GeneratingRecommendations

  /** The mutable workflow state of one interview. */
  class InterviewState {
    var questions: seq<Interviews.Question>
    var answers: seq<StateAnswer>
    var currentQuestionIndex: nat
    var categoryScores: map<string, real>
    var overallScore: real
    var strengths: seq<string>
    var weaknesses: seq<string>
    var stage: Stage
    var error: Option<StateError>

    /** The interview is over: every question has been reached. */
    predicate AllQuestionsReached()
      reads this
    {
      currentQuestionIndex >= |questions|
    }

    /** The index points just past the last answer. */
    predicate Synced()
      reads this
    {
      currentQuestionIndex == |answers|
    }

    /** Every category score is the mean of that category's scores. */
    predicate ScoresConsistent()
      reads this
    {
      ConsistentScores(questions, answers, categoryScores)
    }

    /** State (re)loaded from the database: the session's questions by number, its stored
        answers by creation time, and the index resumed at the number of stored answers. */
    constructor Resume(questions: seq<Interviews.Question>, stored: seq<Interviews.Answer>)
      ensures this.questions == questions
      ensures |answers| == |stored| && forall k :: 0 <= k < |stored| ==> answers[k] == LoadAnswer(stored[k])
      ensures currentQuestionIndex == |stored| && Synced()
      ensures categoryScores == map[] && ScoresConsistent()
      ensures overallScore == 0.0 && strengths == [] && weaknesses == []
      ensures stage == Interviewing && error == None
    {
      var loaded: seq<StateAnswer> := [];
      var i := 0;
      while i < |stored|
        invariant 0 <= i <= |stored|
        invariant |loaded| == i && forall k :: 0 <= k < i ==> loaded[k] == LoadAnswer(stored[k])
      {
        loaded := loaded + [LoadAnswer(stored[i])];
        i := i + 1;
      }
      this.questions := questions;
      answers := loaded;
      currentQuestionIndex := |stored|;
      categoryScores := map[];
      overallScore := 0.0;
      strengths := [];
      weaknesses := [];
      stage := Interviewing;
      error := None;
    }

    /** `submit_answer` on a loaded state: the answer is appended and, when it has a
        question, scored; the index then points past it, and the category of a successfully
        scored answer gets the mean of its scores. */
    method SubmitAnswer(answer: StateAnswer, evaluated: Option<AnswerEvaluation>)
      returns (evaluation: Option<StepEvaluation>, next: Option<Interviews.Question>, completed: bool)
      modifies this
      ensures questions == old(questions)
      ensures var p := |old(answers)|;
        answers == old(answers) + [if p < |questions| then Scored(answer, evaluated) else answer]
      ensures currentQuestionIndex == |old(answers)| + 1 && Synced()
      ensures completed <==> AllQuestionsReached()
      ensures completed ==> stage == Completed
      ensures !completed ==> stage == old(stage)
      ensures next.None? <==> completed
      ensures next.Some? ==> currentQuestionIndex < |questions| && next.value == questions[currentQuestionIndex]
      ensures evaluation.None? <==> |old(answers)| >= |questions|
      ensures evaluation.Some? ==>
        var a := answers[|answers| - 1];
        a.score == Score(evaluation.value.score) && a.feedback == Some(evaluation.value.feedback)
        && a.details == evaluation.value.details
      ensures var p := |old(answers)|;
        categoryScores == (if p < |questions| && evaluated.Some?
          then old(categoryScores)[questions[p].category := Mean(CategoryScoresAt(questions, answers, questions[p].category))]
          else old(categoryScores))
      ensures var p := |old(answers)|;
        old(ScoresConsistent()) && (evaluated.Some? || p >= |questions| || questions[p].category !in old(categoryScores))
        ==> ScoresConsistent()
      ensures overallScore == old(overallScore) && strengths == old(strengths) && weaknesses == old(weaknesses)
      ensures error == old(error)
    {
      answers, categoryScores, evaluation := RecordAnswer(questions, answers, categoryScores, answer, evaluated);
      currentQuestionIndex := |answers|;
      completed := currentQuestionIndex >= |questions|;
      if completed {
        stage := Completed;
      }
      next := if currentQuestionIndex < |questions| then Some(questions[currentQuestionIndex]) else None;
    }

    /** `_evaluate_answer`: when there is both a question and an answer at the index, the
        answer is scored and its category gets the running average (see `EvaluationStep`);
        the index always moves on by one. */
    method EvaluateAnswer(evaluated: Option<AnswerEvaluation>)
      modifies this
      ensures currentQuestionIndex == old(currentQuestionIndex) + 1
      ensures var k := old(currentQuestionIndex);
        k < |questions| && k < |old(answers)| ==>
          (answers, categoryScores) == EvaluationStep(questions, old(answers), old(categoryScores), k, evaluated)
      ensures var k := old(currentQuestionIndex);
        !(k < |questions| && k < |old(answers)|) ==> answers == old(answers) && categoryScores == old(categoryScores)
      ensures questions == old(questions) && stage == old(stage)
      ensures overallScore == old(overallScore) && strengths == old(strengths) && weaknesses == old(weaknesses)
      ensures error == old(error)
    {
      var k := currentQuestionIndex;
      if k < |questions| && k < |answers| {
        answers, categoryScores := EvaluationStep(questions, answers, categoryScores, k, evaluated).0,
          EvaluationStep(questions, answers, categoryScores, k, evaluated).1;
      }
      currentQuestionIndex := currentQuestionIndex + 1;
    }

    /** `_should_continue_interview`: "complete" exactly when the interview is over. */
    function ShouldContinueInterview(): (r: string)
      reads this
      ensures r == "complete" <==> AllQuestionsReached()
      ensures r == "continue" <==> !AllQuestionsReached()
    {
      if currentQuestionIndex >= |questions| then "complete" else "continue"
    }

    /** `_check_completion`: moves to score calculation exactly when the continuation test
        answers "complete"; nothing else changes. */
    method CheckCompletion()
      modifies this
      ensures old(ShouldContinueInterview()) == "complete" ==> stage == CalculatingScores
      ensures old(ShouldContinueInterview()) == "continue" ==> stage == old(stage)
      ensures questions == old(questions) && answers == old(answers)
      ensures currentQuestionIndex == old(currentQuestionIndex) && categoryScores == old(categoryScores)
      ensures overallScore == old(overallScore) && strengths == old(strengths) && weaknesses == old(weaknesses)
      ensures error == old(error)
    {
      if currentQuestionIndex >= |questions| {
        stage := CalculatingScores;
      }
    }

    /** `_calculate_final_scores`. A `None` score makes `sum` raise, so only the error is
        set. Otherwise the overall score is the mean over all answers (a missing score
        counting 0, no answers giving 0), and the strengths and weaknesses are the
        category lines followed by the lines about clarity and depth. */
    method CalculateFinalScores()
      modifies this
      ensures questions == old(questions) && answers == old(answers)
      ensures currentQuestionIndex == old(currentQuestionIndex) && categoryScores == old(categoryScores)
      ensures HasNullScore(answers) ==>
        error == Some(ScoreSumFailed(SumTypeError(answers)))
        && overallScore == old(overallScore) && strengths == old(strengths)
        && weaknesses == old(weaknesses) && stage == old(stage)
      ensures !HasNullScore(answers) ==>
        && FinalOutcome(answers, categoryScores, overallScore, strengths, weaknesses)
        && stage == GeneratingRecommendations && error == old(error)
    {
      if HasNullScore(answers) {
        error := Some(ScoreSumFailed(SumTypeError(answers)));
        return;
      }
      overallScore, strengths, weaknesses := FinalScores(answers, categoryScores);
      stage := GeneratingRecommendations;
    }
  }

  /** The outcome of `_calculate_final_scores` when no score is `None`: the overall mean (a
      missing score counting 0, no answers giving 0), then on each side the category lines
      followed by the lines about clarity and depth. */
  ghost predicate FinalOutcome(answers: seq<StateAnswer>, scores: map<string, real>,
                               overall: real, strengths: seq<string>, weaknesses: seq<string>)
    requires !HasNullScore(answers)
  {
    && overall == MeanOrZero(AllScores(answers))
    && FinalLines(scores, strengths, DetailStrengths(answers), true)
    && FinalLines(scores, weaknesses, DetailWeaknesses(answers), false)
  }

  /** The computation of `_calculate_final_scores` when no score is `None`: the overall mean,
      then the category lines followed by the lines about clarity and depth. */
  method FinalScores(answers: seq<StateAnswer>, scores: map<string, real>)
    returns (overall: real, strengths: seq<string>, weaknesses: seq<string>)
    requires !HasNullScore(answers)
    ensures FinalOutcome(answers, scores, overall, strengths, weaknesses)
  {
    var s, w := CategoryVerdicts(scores);
    var extraStrengths, extraWeaknesses := DetailLines(answers);
    FinalLinesAppend(scores, s, extraStrengths, true);
    FinalLinesAppend(scores, w, extraWeaknesses, false);
    overall := MeanOrZero(AllScores(answers));
    strengths := s + extraStrengths;
    weaknesses := w + extraWeaknesses;
  }

  /** The loop of `_calculate_final_scores` that gathers the truthy clarity and depth values. */
  method CollectDetails(answers: seq<StateAnswer>) returns (clarity: seq<real>, depth: seq<real>)
    ensures clarity == ClarityScores(answers) && depth == DepthScores(answers)
  {
    clarity, depth := [], [];
    var i := 0;
    while i < |answers|
      invariant 0 <= i <= |answers|
      invariant clarity == ClarityScores(answers[..i]) && depth == DepthScores(answers[..i])
    {
      assert answers[..i + 1][..i] == answers[..i];
      var details := answers[i].details;
      if Truthy(details.clarity) {
        clarity := clarity + [details.clarity.value];
      }
      if Truthy(details.depth) {
        depth := depth + [details.depth.value];
      }
      i := i + 1;
    }
    assert answers[..i] == answers;
  }

  /** The lines `_calculate_final_scores` adds after the category lines, from the means of
      the gathered clarity and depth values. */
  method DetailLines(answers: seq<StateAnswer>) returns (strengths: seq<string>, weaknesses: seq<string>)
    ensures strengths == DetailStrengths(answers) && weaknesses == DetailWeaknesses(answers)
  {
    var clarity, depth := CollectDetails(answers);
    strengths, weaknesses := [], [];
    if clarity != [] && Mean(clarity) >= 8.0 {
      strengths := strengths + ["Clear and well-structured communication"];
    } else if clarity != [] && Mean(clarity) <= 5.0 {
      weaknesses := weaknesses + ["Communication clarity needs improvement"];
    }
    if depth != [] && Mean(depth) <= 5.0 {
      weaknesses := weaknesses + ["Answers lack technical depth"];
    }
  }

  /** The category loop of `_calculate_final_scores` (in any key order). */
  method CategoryVerdicts(scores: map<string, real>) returns (s: seq<string>, w: seq<string>)
    ensures VerdictLines(scores, s, true) && VerdictLines(scores, w, false)
  {
    s, w := [], [];
    var rest := scores.Keys;
    while rest != {}
      invariant rest <= scores.Keys
      invariant forall x :: x in s <==> exists c :: c in scores.Keys - rest && scores[c] >= 8.0 && x == StrongLine(c)
      invariant forall x :: x in w <==> exists c :: c in scores.Keys - rest && scores[c] <= 5.0 && x == WeakLine(c)
      invariant NoRepeats(s) && NoRepeats(w)
      decreases |rest|
    {
      var c :| c in rest;
      if scores[c] >= 8.0 {
        if StrongLine(c) in s {
          var d :| d in scores.Keys - rest && scores[d] >= 8.0 && StrongLine(c) == StrongLine(d);
          LineInjective("Strong performance in ", " questions", c, d);
        }
        s := s + [StrongLine(c)];
      } else if scores[c] <= 5.0 {
        if WeakLine(c) in w {
          var d :| d in scores.Keys - rest && scores[d] <= 5.0 && WeakLine(c) == WeakLine(d);
          LineInjective("Needs improvement in ", " concepts", c, d);
        }
        w := w + [WeakLine(c)];
      }
      rest := rest - {c};
    }
  }

  /** A category score set by `SubmitAnswer` lies between the smallest and the largest
      score among the answers. */
  lemma CategoryMeanBounded(questions: seq<Interviews.Question>, answers: seq<StateAnswer>, c: string, lo: real, hi: real)
    requires forall k :: 0 <= k < |answers| && answers[k].score.Score? ==> lo <= answers[k].score.value <= hi
    requires CategoryScoresAt(questions, answers, c) != []
    ensures lo <= Mean(CategoryScoresAt(questions, answers, c)) <= hi
  {
    CategoryScoresAtBounded(questions, answers, c, lo, hi);
    MeanBounds(CategoryScoresAt(questions, answers, c), lo, hi);
  }
}
