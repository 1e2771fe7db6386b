/** The deterministic rules of the AI service that surround its LLM calls: the gibberish
    classifier, the keyword-based fallback evaluator, the fallback question bank with its
    round-robin selection, and the recommendation fallbacks. The LLM replies themselves are
    inputs (`EvaluationReply`, `RecommendationReply`). */
module AiService {
  import opened Wrappers
  import opened Text
  import opened Stats

  // ---------------------------------------------------------------------------------------
  // Records shared with the routers

  datatype EvaluationDetails = EvaluationDetails(
    clarity: Option<real>, depth: Option<real>, confidence: Option<real>,
    relevance: Option<real>, structure: Option<real>)

  const NoDetails := EvaluationDetails(None, None, None, None, None)

  datatype AnswerEvaluation = AnswerEvaluation(
    score: real, feedback: string, correctedAnswer: Option<string>,
    missingPoints: Option<string>, details: EvaluationDetails)

  datatype GeneratedQuestion = GeneratedQuestion(category: string, questionText: string, difficulty: string)

  /** A key of the JSON object the LLM returned: missing, explicitly `null`, or holding a value. */
  datatype Field<T> = Absent | Null | Given(value: T)

  // ---------------------------------------------------------------------------------------
  // Gibberish classifier

  const Vowels := "aeiou"
  const Consonants := "bcdfghjklmnpqrstvwxyz"

  /** `sum(1 for char in s if char in chars)` */
  function CountIn(s: string, chars: string): (n: nat)
    ensures n <= |s|
  {
    if s == [] then 0 else (if s[0] in chars then 1 else 0) + CountIn(s[1..], chars)
  }

  /** `set(s.replace(' ', ''))`: the distinct characters of `s` other than the space. */
  function DistinctNonSpace(s: string): set<char> {
    set c | c in s && c != ' '
  }

  function VowelCount(t: string): nat { CountIn(t, Vowels) }
  function LetterCount(t: string): nat { CountIn(t, Vowels) + CountIn(t, Consonants) }

  /** `_is_nonsensical_answer`: the four gibberish rules, tried in order; the vowel ratio is
      computed as a quotient, as the source does, and the contract states it by integer
      cross-multiplication. */
  function IsNonsensical(t: string): (r: bool)
    ensures r <==>
      || LetterCount(t) == 0
      || (LetterCount(t) > 5 && (10 * VowelCount(t) < LetterCount(t) || 5 * VowelCount(t) > 4 * LetterCount(t)))
      || (|DistinctNonSpace(t)| < 4 && |t| > 8)
      || (|t| > 15 && ' ' !in t)
  {
    var vowels := CountIn(t, Vowels);
    var consonants := CountIn(t, Consonants);
    var total := vowels + consonants;
    if total == 0 then true
    else if total > 5 && (RatioBelowTenth(vowels, total); RatioAboveFourFifths(vowels, total);
                          var ratio := (vowels as real) / (total as real); ratio < 0.1 || ratio > 0.8) then true
    else if |DistinctNonSpace(t)| < 4 && |t| > 8 then true
    else if |t| > 15 && ' ' !in t then true
    else false
  }

  lemma RatioBelowTenth(v: nat, t: nat)
    requires t > 0
    ensures ((v as real) / (t as real) < 0.1) <==> 10 * v < t
  {
    var q := (v as real) / (t as real);
    ScaleStrict(q, 0.1, t as real);
  }

  lemma RatioAboveFourFifths(v: nat, t: nat)
    requires t > 0
    ensures ((v as real) / (t as real) > 0.8) <==> 5 * v > 4 * t
  {
    var q := (v as real) / (t as real);
    ScaleStrict(0.8, q, t as real);
  }

  lemma {:induction false} CountInAppend(a: string, b: string, chars: string)
    ensures CountIn(a + b, chars) == CountIn(a, chars) + CountIn(b, chars)
  {
    if a == [] {
      assert a + b == b;
    } else {
      assert (a + b)[1..] == a[1..] + b;
      CountInAppend(a[1..], b, chars);
    }
  }

  /** Counting characters of a class ignores their order. */
  lemma {:induction false} CountInPermutation(s: string, t: string, chars: string)
    requires multiset(s) == multiset(t)
    ensures CountIn(s, chars) == CountIn(t, chars)
  {
    if s == [] {
      assert |t| == |multiset(t)| == 0;
    } else {
      var x := s[0];
      assert x in multiset(t);
      var k :| 0 <= k < |t| && t[k] == x;
      var rest := t[..k] + t[k + 1..];
      MultisetRemove(s, t, k);
      CountInPermutation(s[1..], rest, chars);
      CountInRemove(t, k, chars);
    }
  }

  /** Taking the first element off `s` and the same element off `t` keeps their multisets equal. */
  lemma MultisetRemove(s: string, t: string, k: nat)
    requires s != [] && k < |t| && t[k] == s[0] && multiset(s) == multiset(t)
    ensures multiset(s[1..]) == multiset(t[..k] + t[k + 1..])
  {
    assert s == [s[0]] + s[1..];
    assert t == t[..k] + [t[k]] + t[k + 1..];
    assert multiset(s[1..]) == multiset(s) - multiset{s[0]};
    assert multiset(t[..k] + t[k + 1..]) == multiset(t) - multiset{t[k]};
  }

  /** Removing position `k` lowers the count by one exactly when that character is counted. */
  lemma CountInRemove(t: string, k: nat, chars: string)
    requires k < |t|
    ensures CountIn(t, chars) == CountIn(t[..k] + t[k + 1..], chars) + (if t[k] in chars then 1 else 0)
  {
    assert t == t[..k] + ([t[k]] + t[k + 1..]);
    CountInAppend(t[..k], [t[k]] + t[k + 1..], chars);
    CountInAppend([t[k]], t[k + 1..], chars);
    CountInAppend(t[..k], t[k + 1..], chars);
  }

  /** The classifier looks only at which characters occur and how often, never at their
      order: any rearrangement of an answer is classified alike. */
  lemma NonsenseIgnoresOrder(s: string, t: string)
    requires multiset(s) == multiset(t)
    ensures IsNonsensical(s) == IsNonsensical(t)
  {
    CountInPermutation(s, t, Vowels);
    CountInPermutation(s, t, Consonants);
    assert |s| == |multiset(s)| == |t|;
    assert forall c :: c in s <==> c in t by {
      forall c ensures c in s <==> c in t {
        assert c in s <==> c in multiset(s);
        assert c in t <==> c in multiset(t);
      }
    }
    assert DistinctNonSpace(s) == DistinctNonSpace(t);
  }

  /** A text without any ASCII letter, such as digits or punctuation only, is gibberish. */
  lemma NoLettersIsNonsense(t: string)
    requires forall i :: 0 <= i < |t| ==> t[i] !in Vowels && t[i] !in Consonants
    ensures IsNonsensical(t)
  {
    NoneCounted(t, Vowels);
    NoneCounted(t, Consonants);
  }

  lemma {:induction false} NoneCounted(t: string, chars: string)
    requires forall i :: 0 <= i < |t| ==> t[i] !in chars
    ensures CountIn(t, chars) == 0
  {
    if t != [] {
      NoneCounted(t[1..], chars);
    }
  }

  // ---------------------------------------------------------------------------------------
  // Fallback evaluation

  const TooShortFeedback := "Your answer is too short. Please provide a more detailed explanation."
  const OffTopicFeedback := "Your answer doesn't appear to address the question. Please provide a relevant technical response."
  const LogarithmicFeedback := "Correct! Binary search has O(log n) time complexity because it divides the search space in half."
  const LinearFeedback := "Incorrect! Binary search has O(log n) time complexity, not O(n)."
  const VagueBinarySearchFeedback := "Your answer mentions binary search but lacks technical details about time complexity."
  const GenericFeedback := "Your answer provides some information but lacks technical depth and clarity."
  const FallbackCorrectedAnswer := "Unable to provide corrected answer in fallback mode. Please try again later."
  const FallbackMissingPoints := "Unable to analyze missing points in fallback mode. Please try again later."

  function MaxReal(a: real, b: real): real { if a >= b then a else b }

  /** Lower-casing turns no character into whitespace. */
  lemma LowerKeepsNonSpace(c: char)
    requires !IsSpace(c)
    ensures !IsSpace(LowerChar(c))
  {
    if 'A' <= c <= 'Z' {
      assert 'a' <= LowerChar(c) <= 'z';
    }
  }

  /** Lower-casing a stripped text leaves it stripped and without upper-case letters. */
  lemma LowerStripped(t: string)
    requires t != [] ==> !IsSpace(t[0]) && !IsSpace(t[|t| - 1])
    ensures forall i :: 0 <= i < |t| ==> !('A' <= Lower(t)[i] <= 'Z')
    ensures t != [] ==> !IsSpace(Lower(t)[0]) && !IsSpace(Lower(t)[|t| - 1])
  {
    if t != [] {
      LowerKeepsNonSpace(t[0]);
      LowerKeepsNonSpace(t[|t| - 1]);
    }
  }

  /** The answer text the fallback rules look at: `answer_text.strip().lower()`. */
  function Normalized(answerText: string): (r: string)
    ensures |r| <= |answerText|
    ensures forall i :: 0 <= i < |r| ==> !('A' <= r[i] <= 'Z')
    ensures r != [] ==> !IsSpace(r[0]) && !IsSpace(r[|r| - 1])
  {
    var t := Strip(answerText);
    LowerStripped(t);
    Lower(t)
  }

  predicate AsksBinarySearch(questionText: string) { Contains(Lower(questionText), "binary search") }
  predicate SaysLogarithmic(a: string) { Contains(a, "o(log n)") || Contains(a, "logarithmic") }
  predicate SaysLinear(a: string) { Contains(a, "o(n)") || Contains(a, "linear") }
  /** Neither too short nor gibberish: the keyword rules apply. */
  predicate Substantive(a: string) { |a| >= 10 && !IsNonsensical(a) }

  /** `_get_fallback_evaluation`: the score and feedback of the keyword decision tree. */
  function FallbackScore(questionText: string, answerText: string): (r: (real, string))
    ensures r.0 in {1.0, 2.0, 3.0, 8.0}
  {
    var a := Normalized(answerText);
    if |a| < 10 then (1.0, TooShortFeedback)
    else if IsNonsensical(a) then (1.0, OffTopicFeedback)
    else if AsksBinarySearch(questionText) then
      if SaysLogarithmic(a) then (8.0, LogarithmicFeedback)
      else if SaysLinear(a) then (2.0, LinearFeedback)
      else (3.0, VagueBinarySearchFeedback)
    else (3.0, GenericFeedback)
  }

  /** Which branch of the decision tree gives which score: the length check comes before
      the gibberish check, and only a substantive answer reaches the keyword rules. */
  lemma FallbackDecision(questionText: string, answerText: string)
    ensures var r := FallbackScore(questionText, answerText);
      var a := Normalized(answerText);
      && (|a| < 10 ==> r == (1.0, TooShortFeedback))
      && (|a| >= 10 && IsNonsensical(a) ==> r == (1.0, OffTopicFeedback))
      && (r.0 == 1.0 <==> !Substantive(a))
      && (r.0 == 8.0 <==> Substantive(a) && AsksBinarySearch(questionText) && SaysLogarithmic(a))
      && (r.0 == 2.0 <==> Substantive(a) && AsksBinarySearch(questionText) && !SaysLogarithmic(a) && SaysLinear(a))
      && (r.0 == 3.0 <==> Substantive(a) && !(AsksBinarySearch(questionText) && (SaysLogarithmic(a) || SaysLinear(a))))
  {
  }

  /** The fallback detail subscores, derived from the overall score. */
  function FallbackDetails(score: real): (d: EvaluationDetails)
    ensures d.relevance == Some(score)
    ensures d.depth == Some(MaxReal(score - 2.0, 1.0))
    ensures d.clarity == d.confidence == d.structure == Some(MaxReal(score - 1.0, 1.0))
  {
    var lesser := MaxReal(score - 1.0, 1.0);
    EvaluationDetails(
      clarity := Some(lesser), depth := Some(MaxReal(score - 2.0, 1.0)),
      confidence := Some(lesser), relevance := Some(score), structure := Some(lesser))
  }

  /** The full fallback evaluation: the decision tree's score and feedback, fixed texts for
      the parts the fallback cannot produce, and subscores derived from the score. */
  function FallbackEvaluation(questionText: string, answerText: string): (r: AnswerEvaluation)
    ensures r.score in {1.0, 2.0, 3.0, 8.0}
    ensures (r.score, r.feedback) == FallbackScore(questionText, answerText)
    ensures r.correctedAnswer == Some(FallbackCorrectedAnswer) && r.missingPoints == Some(FallbackMissingPoints)
    ensures r.details == FallbackDetails(r.score)
  {
    var decided := FallbackScore(questionText, answerText);
    AnswerEvaluation(decided.0, decided.1, Some(FallbackCorrectedAnswer), Some(FallbackMissingPoints),
      FallbackDetails(decided.0))
  }

  predicate Within(x: Option<real>, lo: real, hi: real) { x.Some? && lo <= x.value <= hi }

  /** Every fallback subscore lies between 1 and the overall score, and none exceeds it. */
  lemma FallbackSubscoresBounded(questionText: string, answerText: string)
    ensures var e := FallbackEvaluation(questionText, answerText);
      && Within(e.details.clarity, 1.0, e.score) && Within(e.details.depth, 1.0, e.score)
      && Within(e.details.confidence, 1.0, e.score) && Within(e.details.relevance, 1.0, e.score)
      && Within(e.details.structure, 1.0, e.score)
  {
  }

  /** Only a substantive answer to a binary-search question can earn more than 3 points. */
  lemma FallbackHighScoreNeedsKeyword(questionText: string, answerText: string)
    requires FallbackEvaluation(questionText, answerText).score > 3.0
    ensures AsksBinarySearch(questionText)
    ensures SaysLogarithmic(Normalized(answerText)) && !IsNonsensical(Normalized(answerText))
  {
    FallbackDecision(questionText, answerText);
  }

  /** What the evaluator's LLM replied: it raised (including a timeout), or it returned a
      JSON object whose keys may be missing or `null`. */
  datatype EvaluationReply =
    | Raised
    | Reply(score: Field<real>, feedback: Field<string>, correctedAnswer: Field<string>,
            missingPoints: Field<string>, details: Field<EvaluationDetails>)

  const DefaultReplyFeedback := "Your answer shows understanding but could be improved."

  /** `result.get(key, default)` for a key whose `null` is acceptable to the schema. */
  function OptionalField(f: Field<string>, default: string): Option<string> {
    match f
    case Absent => Some(default)
    case Null => None
    case Given(v) => Some(v)
  }

  /** `AnswerEvaluationChain.evaluate_answer` around its LLM call: a raised call, a `null`
      score or feedback (rejected by the response schema) or a `null` details object (on
      which `.get` fails) all fall back to `FallbackEvaluation`; missing keys take defaults. */
  function EvaluateAnswer(questionText: string, answerText: string, reply: EvaluationReply): (r: AnswerEvaluation)
    ensures (reply.Raised? || reply.score.Null? || reply.feedback.Null? || reply.details.Null?)
      ==> r == FallbackEvaluation(questionText, answerText)
    ensures reply.Reply? && !reply.score.Null? && !reply.feedback.Null? && !reply.details.Null? ==>
      && (reply.score.Given? ==> r.score == reply.score.value)
      && (reply.score.Absent? ==> r.score == 5.0)
      && (reply.feedback.Given? ==> r.feedback == reply.feedback.value)
      && (reply.feedback.Absent? ==> r.feedback == DefaultReplyFeedback)
      && r.correctedAnswer == OptionalField(reply.correctedAnswer, "")
      && r.missingPoints == OptionalField(reply.missingPoints, "")
      && (reply.details.Given? ==> r.details == reply.details.value)
      && (reply.details.Absent? ==> r.details == NoDetails)
  {
    if reply.Raised? || reply.score.Null? || reply.feedback.Null? || reply.details.Null? then
      FallbackEvaluation(questionText, answerText)
    else
      AnswerEvaluation(
        score := if reply.score.Given? then reply.score.value else 5.0,
        feedback := if reply.feedback.Given? then reply.feedback.value else DefaultReplyFeedback,
        correctedAnswer := OptionalField(reply.correctedAnswer, ""),
        missingPoints := OptionalField(reply.missingPoints, ""),
        details := if reply.details.Given? then reply.details.value else NoDetails)
  }

  // ---------------------------------------------------------------------------------------
  // Fallback questions

  const TechnicalQuestions := [
    "Explain the time complexity of binary search and why it's efficient.",
    "Describe the main principles of Object-Oriented Programming and give examples of each.",
    "What is REST architecture and how would you implement a RESTful API?",
    "Explain the difference between PUT, POST, and PATCH HTTP methods.",
    "How do database indexes work and why are they important for query performance?"]
  const BehavioralQuestions := [
    "Describe a time when you had to work with a difficult team member. How did you handle it?",
    "Tell me about a challenging project you worked on. What made it challenging and how did you overcome it?",
    "How do you prioritize tasks when you have multiple deadlines?",
    "Describe a time when you had to learn a new technology quickly.",
    "Tell me about a mistake you made and how you handled it."]
  const SystemDesignQuestions := [
    "How would you design a URL shortening service like bit.ly?",
    "Design a chat application that can handle millions of users.",
    "How would you design a recommendation system for an e-commerce platform?",
    "Design a distributed cache system.",
    "How would you design a real-time collaborative document editor?"]

  /** The fallback question bank: only three categories have questions. */
  const FallbackBank: map<string, seq<string>> := map[
    "technical" := TechnicalQuestions,
    "behavioral" := BehavioralQuestions,
    "system_design" := SystemDesignQuestions]

  /** The category list the interview router sends with every generation request. */
  const DefaultCategories := ["technical", "behavioral", "system_design", "domain_knowledge", "communication"]

  lemma BankListsNonEmpty()
    ensures forall c :: c in FallbackBank ==> |FallbackBank[c]| == 5
  {
  }

  /** The question slot `i` produces, if its category has a bank list. */
  function SlotQuestion(categories: seq<string>, i: nat): Option<GeneratedQuestion>
    requires |categories| > 0
  {
    var category := categories[i % |categories|];
    if category in FallbackBank then
      var list := FallbackBank[category];
      assert |list| == 5 by { BankListsNonEmpty(); }
      Some(GeneratedQuestion(category, list[i % |list|], "medium"))
    else None
  }

  /** The questions slots `0 .. n-1` produce, in slot order. */
  function FallbackSlots(categories: seq<string>, n: nat): seq<GeneratedQuestion>
    requires |categories| > 0
  {
    if n == 0 then []
    else FallbackSlots(categories, n - 1) + (match SlotQuestion(categories, n - 1)
                                             case Some(q) => [q]
                                             case None => [])
  }

  /** The error `i % len(request.categories)` raises on an empty category list. */
  datatype GenerationError = ZeroDivision

  /** `_get_fallback_questions`: walks the slots `0 .. total_questions-1`, picking category
      `categories[i % n]` and question `list[i % len(list)]`; categories without a bank list
      are skipped. */
  method FallbackQuestions(categories: seq<string>, totalQuestions: int)
    returns (r: Result<seq<GeneratedQuestion>, GenerationError>)
    ensures r.Err? <==> categories == [] && totalQuestions > 0
    ensures r.Ok? && totalQuestions <= 0 ==> r.value == []
    ensures r.Ok? && totalQuestions > 0 ==> r.value == FallbackSlots(categories, totalQuestions)
  {
    var questions: seq<GeneratedQuestion> := [];
    var i := 0;
    while i < totalQuestions
      invariant 0 <= i <= if totalQuestions < 0 then 0 else totalQuestions
      invariant i > 0 ==> |categories| > 0
      invariant |categories| > 0 ==> questions == FallbackSlots(categories, i)
      invariant |categories| == 0 ==> questions == []
    {
      if |categories| == 0 {
        return Err(ZeroDivision);
      }
      var category := categories[i % |categories|];
      if category in FallbackBank {
        var list := FallbackBank[category];
        BankListsNonEmpty();
        questions := questions + [GeneratedQuestion(category, list[i % |list|], "medium")];
      }
      i := i + 1;
    }
    return Ok(questions);
  }

  /** There are never more fallback questions than slots, and each one is taken from the
      bank list of its own category. */
  lemma {:induction false} FallbackSlotsFromBank(categories: seq<string>, n: nat)
    requires |categories| > 0
    ensures |FallbackSlots(categories, n)| <= n
    ensures forall q :: q in FallbackSlots(categories, n) ==>
      q.category in categories && q.category in FallbackBank && q.questionText in FallbackBank[q.category]
      && q.difficulty == "medium"
  {
    if n > 0 {
      FallbackSlotsFromBank(categories, n - 1);
      BankListsNonEmpty();
    }
  }

  /** When every category has a bank list, slot `i` yields exactly question `i`: category
      `categories[i % n]` with text `list[i % 5]`. */
  lemma {:induction false} FallbackRoundRobin(categories: seq<string>, n: nat)
    requires |categories| > 0
    requires forall c :: c in categories ==> c in FallbackBank
    ensures |FallbackSlots(categories, n)| == n
    ensures forall i :: 0 <= i < n ==>
      FallbackSlots(categories, n)[i]
        == GeneratedQuestion(categories[i % |categories|], FallbackBank[categories[i % |categories|]][i % 5], "medium")
  {
    BankListsNonEmpty();
    if n > 0 {
      FallbackRoundRobin(categories, n - 1);
      var c := categories[(n - 1) % |categories|];
      assert c in FallbackBank;
      var q := GeneratedQuestion(c, FallbackBank[c][(n - 1) % 5], "medium");
      assert SlotQuestion(categories, n - 1) == Some(q);
      assert FallbackSlots(categories, n) == FallbackSlots(categories, n - 1) + [q];
    }
  }

  /** With the router's five categories and ten slots, only six questions come back: the
      slots of "domain_knowledge" and "communication" produce nothing. */
  lemma DefaultFallbackCount()
    ensures |FallbackSlots(DefaultCategories, 10)| == 6
  {
    var s := FallbackSlots(DefaultCategories, 10);
    assert FallbackSlots(DefaultCategories, 5) == FallbackSlots(DefaultCategories, 3);
    assert |FallbackSlots(DefaultCategories, 3)| == 3;
    assert FallbackSlots(DefaultCategories, 10) == FallbackSlots(DefaultCategories, 8);
  }

  /** As written, slot `i` takes question `i % 5` of its category; with five categories a
      category's slots are all congruent modulo 5, so each category repeats one question:
      the default request yields the same technical question in slots 0 and 5. */
  lemma DefaultFallbackRepeats()
    ensures FallbackSlots(DefaultCategories, 10)[0] == FallbackSlots(DefaultCategories, 10)[3]
  {
    DefaultFallbackCount();
    assert FallbackSlots(DefaultCategories, 10) == FallbackSlots(DefaultCategories, 8);
  }

  /** The evidently intended selection: a category's k-th slot takes the k-th question of its
      list (`(i / n) % len(list)`), so a category cycles through its whole list. */
  function VariedSlotQuestion(categories: seq<string>, i: nat): Option<GeneratedQuestion>
    requires |categories| > 0
  {
    var category := categories[i % |categories|];
    if category in FallbackBank then
      var list := FallbackBank[category];
      assert |list| == 5 by { BankListsNonEmpty(); }
      Some(GeneratedQuestion(category, list[(i / |categories|) % |list|], "medium"))
    else None
  }

  /** Under the corrected selection, two slots of the same category less than five rounds
      apart never ask the same question. */
  lemma VariedSlotsDistinct(categories: seq<string>, i: nat, j: nat)
    requires |categories| > 0 && i < j < i + 5 * |categories|
    requires i % |categories| == j % |categories|
    requires VariedSlotQuestion(categories, i).Some?
    ensures VariedSlotQuestion(categories, j).Some?
    ensures VariedSlotQuestion(categories, i).value.questionText != VariedSlotQuestion(categories, j).value.questionText
  {
    var n := |categories|;
    var category := categories[i % n];
    var list := FallbackBank[category];
    BankListsNonEmpty();
    DivSpread(i, j, n);
    assert (i / n) % 5 != (j / n) % 5;
    assert list == TechnicalQuestions || list == BehavioralQuestions || list == SystemDesignQuestions;
    assert forall a, b :: 0 <= a < b < 5 ==> list[a] != list[b];
  }

  /** Two numbers with the same remainder modulo `n`, less than `5n` apart, have quotients
      that differ by 1 to 4. */
  lemma DivSpread(i: nat, j: nat, n: nat)
    requires n > 0 && i < j < i + 5 * n && i % n == j % n
    ensures (i / n) % 5 != (j / n) % 5
  {
    var qi, qj, r := i / n, j / n, i % n;
    assert i == qi * n + r && j == qj * n + r;
    var d := qj - qi;
    assert d * n == j - i by {
      assert qj * n - qi * n == d * n;
    }
    ProductBounds(d, n);
    var a, b := qi / 5, qj / 5;
    assert qi == 5 * a + qi % 5 && qj == 5 * b + qj % 5;
  }

  /** A multiple `d * n` strictly between 0 and `5 * n` has a factor `d` strictly between 0 and 5. */
  lemma ProductBounds(d: int, n: nat)
    requires n > 0 && 0 < d * n < 5 * n
    ensures 0 < d < 5
  {
    assert d * n == 5 * n + (d - 5) * n;
    assert d <= 0 ==> (-d) * n >= 0;
    assert d >= 5 ==> (d - 5) * n >= 0;
  }

  // ---------------------------------------------------------------------------------------
  // Recommendations

  /** `min(category_scores.items(), key=score)`, or ("N/A", 0) for no categories; among equal
      scores, the first item in dictionary order wins. */
  function WorstCategory(items: seq<(string, real)>): (r: (string, real))
    ensures items == [] ==> r == ("N/A", 0.0)
    ensures items != [] ==> exists k :: (0 <= k < |items| && items[k] == r
      && (forall j :: 0 <= j < k ==> items[j].1 > r.1))
    ensures forall j :: 0 <= j < |items| ==> r.1 <= items[j].1
  {
    if items == [] then ("N/A", 0.0)
    else if |items| == 1 then items[0]
    else
      var rest := WorstCategory(items[1..]);
      if items[0].1 <= rest.1 then items[0] else rest
  }

  /** `max(category_scores.items(), key=score)`, or ("N/A", 0); ties go to the first item. */
  function BestCategory(items: seq<(string, real)>): (r: (string, real))
    ensures items == [] ==> r == ("N/A", 0.0)
    ensures items != [] ==> exists k :: (0 <= k < |items| && items[k] == r
      && (forall j :: 0 <= j < k ==> items[j].1 < r.1))
    ensures forall j :: 0 <= j < |items| ==> items[j].1 <= r.1
  {
    if items == [] then ("N/A", 0.0)
    else if |items| == 1 then items[0]
    else
      var rest := BestCategory(items[1..]);
      if items[0].1 >= rest.1 then items[0] else rest
  }

  const FallbackRecommendationList := [
    "Practice explaining technical concepts in simple terms",
    "Work on structuring your answers with clear beginning, middle, and end",
    "Prepare specific examples from your experience to illustrate your points",
    "Practice active listening and asking clarifying questions"]

  /** `_get_fallback_recommendations`: four fixed, distinct recommendations. */
  function FallbackRecommendations(): (r: seq<string>)
    ensures |r| == 4
    ensures forall i, j :: 0 <= i < j < |r| ==> r[i] != r[j]
  {
    FallbackRecommendationList
  }

  /** What the recommendation LLM replied: it raised, or returned an object whose
      "recommendations" key may be missing or `null`. */
  datatype RecommendationReply = RecommendationsRaised | RecommendationsReply(recommendations: Field<seq<string>>)

  /** `generate_recommendations`: `result.get("recommendations", fallback)`, or the fallback
      when the call raised. A `null` value is passed on as `None`. */
  function GenerateRecommendations(reply: RecommendationReply): (r: Option<seq<string>>)
    ensures reply.RecommendationsRaised? ==> r == Some(FallbackRecommendations())
    ensures reply.RecommendationsReply? ==> match reply.recommendations
      case Absent => r == Some(FallbackRecommendations())
      case Null => r == None
      case Given(list) => r == Some(list)
  {
    match reply
    case RecommendationsRaised => Some(FallbackRecommendations())
    case RecommendationsReply(Absent) => Some(FallbackRecommendations())
    case RecommendationsReply(Null) => None
    case RecommendationsReply(Given(list)) => Some(list)
  }
}
