/** The request and response schemas (`app/schemas.py`): the `model_dump` overrides that
    rename snake_case keys to camelCase, the UUID-field validator, and the field
    defaults and length constraints. */
module Schemas {
  import opened Wrappers

  // ---------------------------------------------------------------------------------------
  // Key renaming

  /** `data[to] = data.pop(from)`: the value moves from key `from` to key `to`. */
  function Move<V>(data: map<string, V>, from: string, to: string): map<string, V>
    requires from in data
  {
    (data - {from})[to := data[from]]
  }

  /** After the move the value sits under `to`, `from` is gone, and the other keys keep
      their values. */
  lemma MoveFacts<V>(data: map<string, V>, from: string, to: string)
    requires from in data
    ensures var r := Move(data, from, to);
      && to in r && r[to] == data[from]
      && (from != to ==> from !in r)
      && (forall k :: k in data && k != from && k != to ==> k in r && r[k] == data[k])
      && (forall k :: k in r ==> k == to || (k in data && k != from))
  {
  }

  /** One guarded rename, `if from in data: data[to] = data.pop(from)`. */
  function Step<V>(data: map<string, V>, rename: (string, string)): map<string, V> {
    if rename.0 in data then Move(data, rename.0, rename.1) else data
  }

  /** The renames of a table applied one after another, first to last. */
  function Renamed<V>(data: map<string, V>, renames: seq<(string, string)>): map<string, V>
    decreases |renames|
  {
    if renames == [] then data else Renamed(Step(data, renames[0]), renames[1..])
  }

  predicate IsSource(renames: seq<(string, string)>, k: string) {
    exists i :: 0 <= i < |renames| && renames[i].0 == k
  }

  predicate IsTarget(renames: seq<(string, string)>, k: string) {
    exists i :: 0 <= i < |renames| && renames[i].1 == k
  }

  /** A rename table whose sources are distinct, whose targets are distinct, and where
      no target is also a source. */
  predicate WellFormed(renames: seq<(string, string)>) {
    && (forall i, j :: 0 <= i < j < |renames| ==> renames[i].0 != renames[j].0)
    && (forall i, j :: 0 <= i < j < |renames| ==> renames[i].1 != renames[j].1)
    && (forall i, j :: 0 <= i < |renames| && 0 <= j < |renames| ==> renames[i].1 != renames[j].0)
  }

  /** None of the targets is already a key of `data`. */
  predicate TargetsFree<V>(data: map<string, V>, renames: seq<(string, string)>) {
    forall i :: 0 <= i < |renames| ==> renames[i].1 !in data
  }

  /** Replacing one key with a new one keeps the number of keys. */
  lemma MoveKeepsSize<V>(data: map<string, V>, from: string, to: string)
    requires from in data && to !in data
    ensures |Move(data, from, to)| == |data|
  {
    var r := Move(data, from, to);
    assert r.Keys == data.Keys - {from} + {to};
    assert |data.Keys - {from}| == |data.Keys| - 1;
  }

  /** What a dump does under a well-formed table whose targets are not keys yet: every
      source key is gone, a target is present exactly when its source was and carries its
      value, every other key keeps its value, nothing else appears, and the number of keys
      stays the same. */
  lemma {:induction false} RenamedProperties<V>(data: map<string, V>, renames: seq<(string, string)>)
    requires WellFormed(renames) && TargetsFree(data, renames)
    ensures var r := Renamed(data, renames);
      && (forall i :: 0 <= i < |renames| ==> renames[i].0 !in r)
      && (forall i :: 0 <= i < |renames| ==> (renames[i].1 in r <==> renames[i].0 in data))
      && (forall i :: 0 <= i < |renames| && renames[i].0 in data ==> r[renames[i].1] == data[renames[i].0])
      && (forall k :: k in data && !IsSource(renames, k) ==> k in r && r[k] == data[k])
      && (forall k :: k in r ==> IsTarget(renames, k) || (k in data && !IsSource(renames, k)))
      && |r| == |data|
    decreases |renames|
  {
    if renames != [] {
      var (from, to) := renames[0];
      var rest := renames[1..];
      var d := Step(data, renames[0]);
      if from in data {
        MoveFacts(data, from, to);
        MoveKeepsSize(data, from, to);
      }
      assert WellFormed(rest) by {
        forall i, j | 0 <= i < |rest| && 0 <= j < |rest| ensures rest[i].1 != rest[j].0 {
          assert rest[i] == renames[i + 1] && rest[j] == renames[j + 1];
        }
      }
      assert TargetsFree(d, rest) by {
        forall i | 0 <= i < |rest| ensures rest[i].1 !in d {
          assert rest[i] == renames[i + 1];
        }
      }
      RenamedProperties(d, rest);
      var r := Renamed(d, rest);
      assert r == Renamed(data, renames);
      forall i | 0 <= i < |renames|
        ensures renames[i].0 !in r
        ensures renames[i].1 in r <==> renames[i].0 in data
        ensures renames[i].0 in data ==> r[renames[i].1] == data[renames[i].0]
      {
        if i > 0 {
          assert renames[i] == rest[i - 1];
          assert renames[i].0 != from && renames[i].0 != to;
          assert !IsSource(rest, from) by {
            forall j | 0 <= j < |rest| ensures rest[j].0 != from {
              assert rest[j] == renames[j + 1];
            }
          }
        } else {
          assert !IsSource(rest, to) && !IsTarget(rest, to) && !IsSource(rest, from) by {
            forall j | 0 <= j < |rest| ensures rest[j].0 != to && rest[j].1 != to && rest[j].0 != from {
              assert rest[j] == renames[j + 1];
            }
          }
        }
      }
      forall k | k in data && !IsSource(renames, k) ensures k in r && r[k] == data[k] {
        assert k != from;
        assert k != to;
        assert !IsSource(rest, k) by {
          forall j | 0 <= j < |rest| ensures rest[j].0 != k {
            assert rest[j] == renames[j + 1];
          }
        }
      }
      forall k | k in r ensures IsTarget(renames, k) || (k in data && !IsSource(renames, k)) {
        if IsTarget(rest, k) {
          var j :| 0 <= j < |rest| && rest[j].1 == k;
          assert renames[j + 1].1 == k;
        } else if k == to {
          assert renames[0].1 == k;
        } else {
          assert k in data && k != from;
        }
      }
    }
  }

  /** The renames of `UserResponse.model_dump`. */
  const UserRenames: seq<(string, string)> := [
    ("experience_level", "experienceLevel"), ("target_companies", "targetCompanies"),
    ("target_roles", "targetRoles"), ("first_name", "firstName"), ("last_name", "lastName"),
    ("profile_image_url", "profileImageUrl"), ("created_at", "createdAt"),
    ("updated_at", "updatedAt")]

  /** The renames of `InterviewSessionResponse.model_dump`. */
  const SessionRenames: seq<(string, string)> := [
    ("user_id", "userId"), ("total_questions", "totalQuestions"),
    ("current_question", "currentQuestion"), ("overall_score", "overallScore"),
    ("category_scores", "categoryScores"), ("share_token", "shareToken"),
    ("completed_at", "completedAt"), ("created_at", "createdAt"), ("updated_at", "updatedAt")]

  /** The renames of `QuestionResponse.model_dump`. */
  const QuestionRenames: seq<(string, string)> := [
    ("question_text", "questionText"), ("session_id", "sessionId"),
    ("question_number", "questionNumber"), ("created_at", "createdAt")]

  /** The renames of `AnswerResponse.model_dump`. */
  const AnswerRenames: seq<(string, string)> := [
    ("question_id", "questionId"), ("session_id", "sessionId"), ("user_id", "userId"),
    ("answer_type", "answerType"), ("subjective_answer", "subjectiveAnswer"),
    ("voice_transcript", "voiceTranscript"), ("time_spent", "timeSpent"),
    ("is_correct", "isCorrect"), ("evaluation_details", "evaluationDetails"),
    ("corrected_answer", "correctedAnswer"), ("missing_points", "missingPoints"),
    ("created_at", "createdAt")]

  /** One statement of a dump: `if from in data: data[to] = data.pop(from)`. */
  method RenameKey<V>(data: map<string, V>, from: string, to: string) returns (d: map<string, V>)
    ensures d == Step(data, (from, to))
  {
    d := data;
    if from in d {
      var value := d[from];
      d := d - {from};
      d := d[to := value];
    }
  }

  /** Applying the table from position `i` on is one rename and then the rest. */
  lemma RenamedFrom<V>(data: map<string, V>, renames: seq<(string, string)>, i: nat)
    requires i <= |renames|
    ensures i == |renames| ==> Renamed(data, renames[i..]) == data
    ensures i < |renames| ==> Renamed(data, renames[i..]) == Renamed(Step(data, renames[i]), renames[i + 1..])
  {
    if i < |renames| {
      assert renames[i..][1..] == renames[i + 1..];
    }
  }

  /** `UserResponse.model_dump` on the dictionary pydantic produced: the source's guarded
      renames, one statement per key. */
  method UserDump<V>(data: map<string, V>) returns (d: map<string, V>)
    ensures d == Renamed(data, UserRenames)
  {
    d := data;
    ghost var before: map<string, V>;
    assert UserRenames[0..] == UserRenames;
    before := d;
    d := RenameKey(d, "experience_level", "experienceLevel");
    RenamedFrom(before, UserRenames, 0);
    before := d;
    d := RenameKey(d, "target_companies", "targetCompanies");
    RenamedFrom(before, UserRenames, 1);
    before := d;
    d := RenameKey(d, "target_roles", "targetRoles");
    RenamedFrom(before, UserRenames, 2);
    before := d;
    d := RenameKey(d, "first_name", "firstName");
    RenamedFrom(before, UserRenames, 3);
    before := d;
    d := RenameKey(d, "last_name", "lastName");
    RenamedFrom(before, UserRenames, 4);
    before := d;
    d := RenameKey(d, "profile_image_url", "profileImageUrl");
    RenamedFrom(before, UserRenames, 5);
    before := d;
    d := RenameKey(d, "created_at", "createdAt");
    RenamedFrom(before, UserRenames, 6);
    before := d;
    d := RenameKey(d, "updated_at", "updatedAt");
    RenamedFrom(before, UserRenames, 7);
    RenamedFrom(d, UserRenames, 8);
  }

  /** `InterviewSessionResponse.model_dump` on the dictionary pydantic produced: the source's guarded
      renames, one statement per key. */
  method SessionDump<V>(data: map<string, V>) returns (d: map<string, V>)
    ensures d == Renamed(data, SessionRenames)
  {
    d := data;
    ghost var before: map<string, V>;
    assert SessionRenames[0..] == SessionRenames;
    before := d;
    d := RenameKey(d, "user_id", "userId");
    RenamedFrom(before, SessionRenames, 0);
    before := d;
    d := RenameKey(d, "total_questions", "totalQuestions");
    RenamedFrom(before, SessionRenames, 1);
    before := d;
    d := RenameKey(d, "current_question", "currentQuestion");
    RenamedFrom(before, SessionRenames, 2);
    before := d;
    d := RenameKey(d, "overall_score", "overallScore");
    RenamedFrom(before, SessionRenames, 3);
    before := d;
    d := RenameKey(d, "category_scores", "categoryScores");
    RenamedFrom(before, SessionRenames, 4);
    before := d;
    d := RenameKey(d, "share_token", "shareToken");
    RenamedFrom(before, SessionRenames, 5);
    before := d;
    d := RenameKey(d, "completed_at", "completedAt");
    RenamedFrom(before, SessionRenames, 6);
    before := d;
    d := RenameKey(d, "created_at", "createdAt");
    RenamedFrom(before, SessionRenames, 7);
    before := d;
    d := RenameKey(d, "updated_at", "updatedAt");
    RenamedFrom(before, SessionRenames, 8);
    RenamedFrom(d, SessionRenames, 9);
  }

  /** `QuestionResponse.model_dump` on the dictionary pydantic produced: the source's guarded
      renames, one statement per key. */
  method QuestionDump<V>(data: map<string, V>) returns (d: map<string, V>)
    ensures d == Renamed(data, QuestionRenames)
  {
    d := data;
    ghost var before: map<string, V>;
    assert QuestionRenames[0..] == QuestionRenames;
    before := d;
    d := RenameKey(d, "question_text", "questionText");
    RenamedFrom(before, QuestionRenames, 0);
    before := d;
    d := RenameKey(d, "session_id", "sessionId");
    RenamedFrom(before, QuestionRenames, 1);
    before := d;
    d := RenameKey(d, "question_number", "questionNumber");
    RenamedFrom(before, QuestionRenames, 2);
    before := d;
    d := RenameKey(d, "created_at", "createdAt");
    RenamedFrom(before, QuestionRenames, 3);
    RenamedFrom(d, QuestionRenames, 4);
  }

  /** `AnswerResponse.model_dump` on the dictionary pydantic produced: the source's guarded
      renames, one statement per key. */
  method AnswerDump<V>(data: map<string, V>) returns (d: map<string, V>)
    ensures d == Renamed(data, AnswerRenames)
  {
    d := data;
    ghost var before: map<string, V>;
    assert AnswerRenames[0..] == AnswerRenames;
    before := d;
    d := RenameKey(d, "question_id", "questionId");
    RenamedFrom(before, AnswerRenames, 0);
    before := d;
    d := RenameKey(d, "session_id", "sessionId");
    RenamedFrom(before, AnswerRenames, 1);
    before := d;
    d := RenameKey(d, "user_id", "userId");
    RenamedFrom(before, AnswerRenames, 2);
    before := d;
    d := RenameKey(d, "answer_type", "answerType");
    RenamedFrom(before, AnswerRenames, 3);
    before := d;
    d := RenameKey(d, "subjective_answer", "subjectiveAnswer");
    RenamedFrom(before, AnswerRenames, 4);
    before := d;
    d := RenameKey(d, "voice_transcript", "voiceTranscript");
    RenamedFrom(before, AnswerRenames, 5);
    before := d;
    d := RenameKey(d, "time_spent", "timeSpent");
    RenamedFrom(before, AnswerRenames, 6);
    before := d;
    d := RenameKey(d, "is_correct", "isCorrect");
    RenamedFrom(before, AnswerRenames, 7);
    before := d;
    d := RenameKey(d, "evaluation_details", "evaluationDetails");
    RenamedFrom(before, AnswerRenames, 8);
    before := d;
    d := RenameKey(d, "corrected_answer", "correctedAnswer");
    RenamedFrom(before, AnswerRenames, 9);
    before := d;
    d := RenameKey(d, "missing_points", "missingPoints");
    RenamedFrom(before, AnswerRenames, 10);
    before := d;
    d := RenameKey(d, "created_at", "createdAt");
    RenamedFrom(before, AnswerRenames, 11);
    RenamedFrom(d, AnswerRenames, 12);
  }

  /** The fields of `UserResponse`: the keys of pydantic's own dump. */
  const UserFields: set<string> := {
    "username", "email", "first_name", "last_name", "profile_image_url", "experience_level",
    "target_companies", "target_roles", "id", "created_at", "updated_at"}

  /** The `UserResponse` table is well formed. */
  lemma UserRenamesWellFormed()
    ensures WellFormed(UserRenames)
  {
    UserSourcesDistinct();
    UserTargetsDistinct();
    UserTargetsNotSources();
  }

  lemma UserSourcesDistinct()
    ensures forall i, j :: 0 <= i < j < |UserRenames| ==> UserRenames[i].0 != UserRenames[j].0
  {
  }

  lemma UserTargetsDistinct()
    ensures forall i, j :: 0 <= i < j < |UserRenames| ==> UserRenames[i].1 != UserRenames[j].1
  {
  }

  lemma UserTargetsNotSources()
    ensures forall i, j :: 0 <= i < |UserRenames| && 0 <= j < |UserRenames| ==> UserRenames[i].1 != UserRenames[j].0
  {
  }

  /** No camelCase target is a field of `UserResponse`, so a full dump has as many keys as the
      model has fields, and no renamed snake_case key survives it. */
  lemma UserDumpKeys<V>(data: map<string, V>)
    requires data.Keys == UserFields
    ensures TargetsFree(data, UserRenames)
    ensures |Renamed(data, UserRenames)| == |UserFields|
    ensures forall i :: 0 <= i < |UserRenames| ==> UserRenames[i].0 !in Renamed(data, UserRenames)
  {
    assert TargetsFree(data, UserRenames) by {}
    UserRenamesWellFormed();
    RenamedProperties(data, UserRenames);
  }

  /** The fields of `InterviewSessionResponse`: the keys of pydantic's own dump. */
  const SessionFields: set<string> := {
    "mode", "company", "role", "id", "user_id", "total_questions", "status",
    "current_question", "overall_score", "category_scores", "strengths", "weaknesses",
    "recommendations", "share_token", "completed_at", "created_at", "updated_at"}

  /** The `InterviewSessionResponse` table is well formed. */
  lemma SessionRenamesWellFormed()
    ensures WellFormed(SessionRenames)
  {
    SessionSourcesDistinct();
    SessionTargetsDistinct();
    SessionTargetsNotSources();
  }

  lemma SessionSourcesDistinct()
    ensures forall i, j :: 0 <= i < j < |SessionRenames| ==> SessionRenames[i].0 != SessionRenames[j].0
  {
  }

  lemma SessionTargetsDistinct()
    ensures forall i, j :: 0 <= i < j < |SessionRenames| ==> SessionRenames[i].1 != SessionRenames[j].1
  {
  }

  lemma SessionTargetsNotSources()
    ensures forall i, j :: 0 <= i < |SessionRenames| && 0 <= j < |SessionRenames| ==> SessionRenames[i].1 != SessionRenames[j].0
  {
  }

  /** No camelCase target is a field of `InterviewSessionResponse`, so a full dump has as many keys as the
      model has fields, and no renamed snake_case key survives it. */
  lemma SessionDumpKeys<V>(data: map<string, V>)
    requires data.Keys == SessionFields
    ensures TargetsFree(data, SessionRenames)
    ensures |Renamed(data, SessionRenames)| == |SessionFields|
    ensures forall i :: 0 <= i < |SessionRenames| ==> SessionRenames[i].0 !in Renamed(data, SessionRenames)
  {
    assert TargetsFree(data, SessionRenames) by {}
    SessionRenamesWellFormed();
    RenamedProperties(data, SessionRenames);
  }

  /** The fields of `QuestionResponse`: the keys of pydantic's own dump. */
  const QuestionFields: set<string> := {
    "category", "question_text", "difficulty", "id", "session_id", "question_number",
    "options", "explanation", "created_at"}

  /** The `QuestionResponse` table is well formed. */
  lemma QuestionRenamesWellFormed()
    ensures WellFormed(QuestionRenames)
  {
    QuestionSourcesDistinct();
    QuestionTargetsDistinct();
    QuestionTargetsNotSources();
  }

  lemma QuestionSourcesDistinct()
    ensures forall i, j :: 0 <= i < j < |QuestionRenames| ==> QuestionRenames[i].0 != QuestionRenames[j].0
  {
  }

  lemma QuestionTargetsDistinct()
    ensures forall i, j :: 0 <= i < j < |QuestionRenames| ==> QuestionRenames[i].1 != QuestionRenames[j].1
  {
  }

  lemma QuestionTargetsNotSources()
    ensures forall i, j :: 0 <= i < |QuestionRenames| && 0 <= j < |QuestionRenames| ==> QuestionRenames[i].1 != QuestionRenames[j].0
  {
  }

  /** No camelCase target is a field of `QuestionResponse`, so a full dump has as many keys as the
      model has fields, and no renamed snake_case key survives it. */
  lemma QuestionDumpKeys<V>(data: map<string, V>)
    requires data.Keys == QuestionFields
    ensures TargetsFree(data, QuestionRenames)
    ensures |Renamed(data, QuestionRenames)| == |QuestionFields|
    ensures forall i :: 0 <= i < |QuestionRenames| ==> QuestionRenames[i].0 !in Renamed(data, QuestionRenames)
  {
    assert TargetsFree(data, QuestionRenames) by {}
    QuestionRenamesWellFormed();
    RenamedProperties(data, QuestionRenames);
  }

  /** The fields of `AnswerResponse`: the keys of pydantic's own dump. */
  const AnswerFields: set<string> := {
    "id", "question_id", "session_id", "user_id", "answer_type", "subjective_answer",
    "voice_transcript", "time_spent", "is_correct", "score", "feedback",
    "evaluation_details", "corrected_answer", "missing_points", "created_at"}

  /** The `AnswerResponse` table is well formed. */
  lemma AnswerRenamesWellFormed()
    ensures WellFormed(AnswerRenames)
  {
    AnswerSourcesDistinct();
    AnswerTargetsDistinct();
    AnswerTargetsNotSources();
  }

  lemma AnswerSourcesDistinct()
    ensures forall i, j :: 0 <= i < j < |AnswerRenames| ==> AnswerRenames[i].0 != AnswerRenames[j].0
  {
  }

  lemma AnswerTargetsDistinct()
    ensures forall i, j :: 0 <= i < j < |AnswerRenames| ==> AnswerRenames[i].1 != AnswerRenames[j].1
  {
  }

  lemma AnswerTargetsNotSources()
    ensures forall i, j :: 0 <= i < |AnswerRenames| && 0 <= j < |AnswerRenames| ==> AnswerRenames[i].1 != AnswerRenames[j].0
  {
  }

  /** No camelCase target is a field of `AnswerResponse`, so a full dump has as many keys as the
      model has fields, and no renamed snake_case key survives it. */
  lemma AnswerDumpKeys<V>(data: map<string, V>)
    requires data.Keys == AnswerFields
    ensures TargetsFree(data, AnswerRenames)
    ensures |Renamed(data, AnswerRenames)| == |AnswerFields|
    ensures forall i :: 0 <= i < |AnswerRenames| ==> AnswerRenames[i].0 !in Renamed(data, AnswerRenames)
  {
    assert TargetsFree(data, AnswerRenames) by {}
    AnswerRenamesWellFormed();
    RenamedProperties(data, AnswerRenames);
  }

  // ---------------------------------------------------------------------------------------
  // The UUID-field validator

  /** A raw `question_id`, `session_id` or `user_id` before validation: `None`, a string,
      or any other value (a `uuid.UUID` among them). */
  datatype RawField<U> = Null | Str(s: string) | Other(value: U)

  /** `validate_uuid_fields`: `None` stays `None`, a string is parsed by `parse` (standing
      for `uuid.UUID(v)`, `None` meaning it raised `ValueError`), anything else passes
      through unchanged. */
  function ValidateUuidField<U>(v: RawField<U>, parse: string -> Option<U>): (r: Result<RawField<U>, string>)
    ensures v.Null? ==> r == Ok(Null)
    ensures v.Other? ==> r == Ok(v)
    ensures v.Str? ==> (r.Err? <==> parse(v.s).None?)
    ensures v.Str? && parse(v.s).Some? ==> r == Ok(Other(parse(v.s).value))
    ensures r.Err? ==> v.Str? && r.error == "Invalid UUID format: " + v.s
    ensures r.Ok? ==> !r.value.Str?
  {
    match v
    case Null => Ok(Null)
    case Str(s) =>
      (match parse(s)
       case Some(u) => Ok(Other(u))
       case None => Err("Invalid UUID format: " + s))
    case Other(_) => Ok(v)
  }

  /** Validating a validated value changes nothing. */
  lemma ValidateUuidFieldIdempotent<U>(v: RawField<U>, parse: string -> Option<U>)
    requires ValidateUuidField(v, parse).Ok?
    ensures ValidateUuidField(ValidateUuidField(v, parse).value, parse) == ValidateUuidField(v, parse)
  {
  }

  // ---------------------------------------------------------------------------------------
  // Field constraints and defaults

  /** The fields pydantic reports as too short on `UserCreate` (signup):
      `username` needs at least 3 characters, `password` at least 6. */
  function SignupErrors(username: string, password: string): (r: seq<string>)
    ensures r == [] <==> |username| >= 3 && |password| >= 6
    ensures "username" in r <==> |username| < 3
    ensures "password" in r <==> |password| < 6
  {
    (if |username| < 3 then ["username"] else []) + (if |password| < 6 then ["password"] else [])
  }

  /** The fields pydantic reports as too short on `UserLogin`: `password` needs at least 6
      characters here too. */
  function LoginErrors(password: string): (r: seq<string>)
    ensures r == [] <==> |password| >= 6
    ensures r != [] ==> r == ["password"]
  {
    if |password| < 6 then ["password"] else []
  }

  /** A login password that passes also passes signup's password rule, and back. */
  lemma PasswordRuleShared(username: string, password: string)
    requires |username| >= 3
    ensures SignupErrors(username, password) == [] <==> LoginErrors(password) == []
  {
  }

  datatype InterviewSessionCreate = InterviewSessionCreate(
    mode: string, company: string, role: string, totalQuestions: int)

  /** `total_questions` when `InterviewSessionCreate` is built: the given value under
      either name, or 10 when neither `totalQuestions` nor `total_questions` is sent. */
  function NewSessionCreate(mode: string, company: string, role: string, totalQuestions: Option<int>)
    : (r: InterviewSessionCreate)
    ensures totalQuestions.None? ==> r.totalQuestions == 10
    ensures totalQuestions.Some? ==> r.totalQuestions == totalQuestions.value
    ensures r.mode == mode && r.company == company && r.role == role
  {
    InterviewSessionCreate(mode, company, role, totalQuestions.GetOr(10))
  }
}
