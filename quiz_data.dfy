/**
 * The checks backend/quiz_engine.py runs on a decoded LLM reply: `_validate_quiz`, the
 * structural check, and `_sanitize_quiz`, which rewrites the user-visible text fields.
 */
module QuizData {
  import opened Common
  import opened Sanitizer

  /** A decoded JSON value (`json.loads`); an object is a dict from keys to values. */
  datatype Json =
    | JNull
    | JBool(b: bool)
    | JInt(i: int)
    | JFloat(f: real)
    | JStr(s: string)
    | JArr(items: seq<Json>)
    | JObj(fields: map<string, Json>)

  /** `isinstance(v, int)`: a bool is an int too. */
  predicate IsInt(v: Json) {
    v.JInt? || v.JBool?
  }

  function IntValue(v: Json): int
    requires IsInt(v)
  {
    if v.JInt? then v.i else if v.b then 1 else 0
  }

  /** Values `len` accepts. */
  predicate Sized(v: Json) {
    v.JStr? || v.JArr? || v.JObj?
  }

  // ----- what a well-formed quiz is -----

  ghost predicate WellFormedQuestion(q: Json) {
    && q.JObj?
    && "id" in q.fields && "text" in q.fields && "options" in q.fields && "answer_index" in q.fields
    && q.fields["options"].JArr?
    && (|q.fields["options"].items| == 2 || |q.fields["options"].items| == 4)
    && IsInt(q.fields["answer_index"])
    && 0 <= IntValue(q.fields["answer_index"]) < |q.fields["options"].items|
  }

  ghost predicate WellFormedQuiz(data: Json) {
    && data.JObj?
    && "questions" in data.fields
    && data.fields["questions"].JArr?
    && |data.fields["questions"].items| > 0
    && forall i :: 0 <= i < |data.fields["questions"].items| ==> WellFormedQuestion(data.fields["questions"].items[i])
  }

  // ----- `_validate_quiz` -----

  /** The outcome of the check: it can also raise a TypeError on odd shapes. */
  datatype Verdict = Accepted | Rejected | Raises

  predicate IsPrefix(p: string, s: string) {
    |p| <= |s| && s[..|p|] == p
  }

  /** `p in s` for strings: a substring test. */
  predicate IsSubstring(p: string, s: string)
    decreases |s|
  {
    IsPrefix(p, s) || (s != [] && IsSubstring(p, s[1..]))
  }

  /** `k in q`: None where Python raises a TypeError. */
  function HasKey(q: Json, k: string): Option<bool> {
    match q
    case JObj(f) => Some(k in f)
    case JArr(items) => Some(JStr(k) in items)
    case JStr(s) => Some(IsSubstring(k, s))
    case _ => None
  }

  /** `all(k in q for k in ("id", "text", "options", "answer_index"))`, stopping at the first miss. */
  function HasRequiredKeys(q: Json): Option<bool> {
    match HasKey(q, "id")
    case None => None
    case Some(b) =>
      Some(b && HasKey(q, "text") == Some(true) && HasKey(q, "options") == Some(true)
           && HasKey(q, "answer_index") == Some(true))
  }

  /** One iteration of the loop over the questions. */
  function CheckQuestion(q: Json): (v: Verdict)
    ensures v == Accepted <==> WellFormedQuestion(q)
  {
    match HasRequiredKeys(q)
    case None => Raises
    case Some(false) => Rejected
    case Some(true) =>
      if !q.JObj? then Raises  // `q["options"]` on a list or a string
      else
        var options := q.fields["options"];
        if !options.JArr? || (|options.items| != 2 && |options.items| != 4) then
          if Sized(options) then Rejected else Raises  // the warning's `len(...)` raises
        else
          var answer := q.fields["answer_index"];
          if !IsInt(answer) || !(0 <= IntValue(answer) < |options.items|) then Rejected
          else Accepted
  }

  /** The verdict of the first question that is not accepted. */
  function FirstFailure(questions: seq<Json>): Verdict
    decreases |questions|
  {
    if questions == [] then Accepted
    else if CheckQuestion(questions[0]) != Accepted then CheckQuestion(questions[0])
    else FirstFailure(questions[1..])
  }

  /** `_validate_quiz` as a value. */
  function QuizVerdict(data: Json): Verdict {
    if !data.JObj? then Rejected
    else if "questions" !in data.fields || !data.fields["questions"].JArr? then Rejected
    else if |data.fields["questions"].items| == 0 then Rejected
    else FirstFailure(data.fields["questions"].items)
  }

  lemma {:induction false} FirstFailureAccepts(questions: seq<Json>)
    ensures FirstFailure(questions) == Accepted <==> forall i :: 0 <= i < |questions| ==> WellFormedQuestion(questions[i])
    decreases |questions|
  {
    if questions != [] {
      FirstFailureAccepts(questions[1..]);
      assert forall i :: 1 <= i < |questions| ==> questions[i] == questions[1..][i - 1];
    }
  }

  /** The validator accepts exactly the well-formed quizzes. */
  lemma QuizVerdictSpec(data: Json)
    ensures QuizVerdict(data) == Accepted <==> WellFormedQuiz(data)
  {
    if data.JObj? && "questions" in data.fields && data.fields["questions"].JArr? {
      FirstFailureAccepts(data.fields["questions"].items);
    }
  }

  /** A question that is a non-empty list of the four key names passes the key test, then raises. */
  lemma ListQuestionRaises()
    ensures CheckQuestion(JArr([JStr("id"), JStr("text"), JStr("options"), JStr("answer_index")])) == Raises
  {
  }

  /** `_validate_quiz`: checks the questions in order and stops at the first bad one. */
  method ValidateQuiz(data: Json) returns (v: Verdict)
    ensures v == QuizVerdict(data)
    ensures v == Accepted <==> WellFormedQuiz(data)
  {
    QuizVerdictSpec(data);
    if !data.JObj? {
      return Rejected;
    }
    if "questions" !in data.fields || !data.fields["questions"].JArr? {
      return Rejected;
    }
    var questions := data.fields["questions"].items;
    if |questions| == 0 {
      return Rejected;
    }
    var i := 0;
    while i < |questions|
      invariant 0 <= i <= |questions|
      invariant FirstFailure(questions) == FirstFailure(questions[i..])
    {
      assert questions[i..][1..] == questions[i + 1..];
      var check := CheckQuestion(questions[i]);
      if check != Accepted {
        return check;
      }
      i := i + 1;
    }
    return Accepted;
  }

  // ----- `_sanitize_quiz` -----

  const MaxQuizTitleLength: nat := 500
  const MaxQuestionTextLength: nat := 2000
  const MaxOptionLength: nat := 500
  const MaxImagePromptLength: nat := 2000

  /** `_sanitize_text(v)[:n]`; None where `re.sub` raises because `v` is not a string. */
  function CleanField(v: Json, n: nat): Option<Json> {
    if v.JStr? then Some(JStr(Truncate(SanitizeText(v.s), n))) else None
  }

  /** The limits and the cleanliness `_sanitize_quiz` establishes for a text field. */
  ghost predicate CleanText(s: string, n: nat) {
    |s| <= n && NoControls(s) && TagFree(s) && (s == [] || !IsSpace(s[0]))
  }

  /** `r` is the string `v` rewritten as `_sanitize_text(v)[:n]`. */
  predicate SanitizedField(v: Json, r: Json, n: nat) {
    v.JStr? && r == JStr(Truncate(SanitizeText(v.s), n))
  }

  /** `[_sanitize_text(opt)[:500] for opt in options]`; None when an option is not a string. */
  function CleanOptions(options: seq<Json>): Option<seq<Json>> {
    if forall i :: 0 <= i < |options| ==> options[i].JStr? then
      Some(seq(|options|, i requires 0 <= i < |options| && options[i].JStr? =>
        JStr(Truncate(SanitizeText(options[i].s), MaxOptionLength))))
    else None
  }

  /** `if key in d: d[key] = _sanitize_text(d[key])[:n]`. */
  function CleanKey(fields: map<string, Json>, key: string, n: nat): Option<map<string, Json>> {
    if key !in fields then Some(fields)
    else match CleanField(fields[key], n)
      case None => None
      case Some(v) => Some(fields[key := v])
  }

  /** `if "options" in q: q["options"] = [...]`, for a question whose options are a list. */
  function CleanOptionsKey(fields: map<string, Json>): Option<map<string, Json>>
    requires "options" in fields ==> fields["options"].JArr?
  {
    if "options" !in fields then Some(fields)
    else match CleanOptions(fields["options"].items)
      case None => None
      case Some(opts) => Some(fields["options" := JArr(opts)])
  }

  lemma CleanFieldSpec(v: Json, n: nat)
    ensures CleanField(v, n).Some? <==> v.JStr?
    ensures CleanField(v, n).Some? ==> SanitizedField(v, CleanField(v, n).value, n) && CleanText(CleanField(v, n).value.s, n)
  {
    if v.JStr? {
      TruncatedStaysClean(v.s, n);
    }
  }

  /** Cleaning the options fails exactly when one is not a string; otherwise each comes out clean. */
  lemma CleanOptionsSpec(options: seq<Json>)
    ensures CleanOptions(options).Some? <==> forall i :: 0 <= i < |options| ==> options[i].JStr?
    ensures CleanOptions(options).Some? ==> |CleanOptions(options).value| == |options|
    ensures CleanOptions(options).Some? ==> forall i :: 0 <= i < |options| ==>
      SanitizedField(options[i], CleanOptions(options).value[i], MaxOptionLength)
      && CleanText(CleanOptions(options).value[i].s, MaxOptionLength)
  {
    if CleanOptions(options).Some? {
      forall i | 0 <= i < |options|
        ensures CleanText(CleanOptions(options).value[i].s, MaxOptionLength)
      {
        TruncatedStaysClean(options[i].s, MaxOptionLength);
      }
    }
  }

  /**
   * Cleaning one field fails exactly when it is there and is not a string; otherwise only that
   * field changes, and it ends up clean.
   */
  lemma CleanKeySpec(fields: map<string, Json>, key: string, n: nat)
    ensures CleanKey(fields, key, n).Some? <==> (key in fields ==> fields[key].JStr?)
    ensures CleanKey(fields, key, n).Some? ==> CleanKey(fields, key, n).value.Keys == fields.Keys
    ensures CleanKey(fields, key, n).Some? ==> forall k :: k in fields && k != key ==> CleanKey(fields, key, n).value[k] == fields[k]
    ensures CleanKey(fields, key, n).Some? && key in fields ==>
      SanitizedField(fields[key], CleanKey(fields, key, n).value[key], n)
      && CleanText(CleanKey(fields, key, n).value[key].s, n)
  {
    if key in fields {
      CleanFieldSpec(fields[key], n);
    }
  }

  lemma CleanOptionsKeySpec(fields: map<string, Json>)
    requires "options" in fields ==> fields["options"].JArr?
    ensures CleanOptionsKey(fields).Some? <==>
      ("options" in fields ==> forall j :: 0 <= j < |fields["options"].items| ==> fields["options"].items[j].JStr?)
    ensures CleanOptionsKey(fields).Some? ==> CleanOptionsKey(fields).value.Keys == fields.Keys
    ensures CleanOptionsKey(fields).Some? ==> forall k :: k in fields && k != "options" ==> CleanOptionsKey(fields).value[k] == fields[k]
    ensures CleanOptionsKey(fields).Some? && "options" in fields ==>
      var opts := CleanOptionsKey(fields).value["options"];
      && opts.JArr?
      && |opts.items| == |fields["options"].items|
      && forall j :: 0 <= j < |opts.items| ==>
           SanitizedField(fields["options"].items[j], opts.items[j], MaxOptionLength)
           && CleanText(opts.items[j].s, MaxOptionLength)
  {
    if "options" in fields {
      CleanOptionsSpec(fields["options"].items);
    }
  }

  /** The body of the loop of `_sanitize_quiz` for one (validated) question. */
  function CleanQuestion(q: Json): Option<Json>
    requires WellFormedQuestion(q)
  {
    match CleanKey(q.fields, "text", MaxQuestionTextLength)
    case None => None
    case Some(f1) =>
      match CleanOptionsKey(f1)
      case None => None
      case Some(f2) =>
        match CleanKey(f2, "image_prompt", MaxImagePromptLength)
        case None => None
        case Some(f3) => Some(JObj(f3))
  }

  /** Every text field `_sanitize_quiz` touches holds a string. */
  ghost predicate TextFieldsAreStrings(data: Json)
    requires WellFormedQuiz(data)
  {
    && ("quiz_title" in data.fields ==> data.fields["quiz_title"].JStr?)
    && forall i :: 0 <= i < |data.fields["questions"].items| ==> QuestionTextIsString(data.fields["questions"].items[i])
  }

  ghost predicate QuestionTextIsString(q: Json)
    requires WellFormedQuestion(q)
  {
    && q.fields["text"].JStr?
    && (forall j :: 0 <= j < |q.fields["options"].items| ==> q.fields["options"].items[j].JStr?)
    && ("image_prompt" in q.fields ==> q.fields["image_prompt"].JStr?)
  }

  /**
   * `r` is question `q` after the loop body of `_sanitize_quiz`: the same keys, the fields
   * other than the three text fields unchanged, and each text field rewritten as
   * `_sanitize_text(v)[:limit]` of its old value, which leaves it clean.
   */
  ghost predicate SanitizedQuestion(q: Json, r: Json)
    requires WellFormedQuestion(q)
  {
    && r.JObj?
    && QuestionKeysKept(q, r)
    && QuestionTextSanitized(q, r)
    && QuestionOptionsSanitized(q, r)
    && QuestionPromptSanitized(q, r)
  }

  ghost predicate QuestionKeysKept(q: Json, r: Json)
    requires q.JObj? && r.JObj?
  {
    && r.fields.Keys == q.fields.Keys
    && forall k :: k in q.fields && k !in {"text", "options", "image_prompt"} ==> r.fields[k] == q.fields[k]
  }

  ghost predicate QuestionTextSanitized(q: Json, r: Json)
    requires WellFormedQuestion(q) && r.JObj?
  {
    && "text" in r.fields
    && SanitizedField(q.fields["text"], r.fields["text"], MaxQuestionTextLength)
    && CleanText(r.fields["text"].s, MaxQuestionTextLength)
  }

  ghost predicate QuestionOptionsSanitized(q: Json, r: Json)
    requires WellFormedQuestion(q) && r.JObj?
  {
    && "options" in r.fields
    && r.fields["options"].JArr?
    && |r.fields["options"].items| == |q.fields["options"].items|
    && forall j :: 0 <= j < |r.fields["options"].items| ==>
         SanitizedField(q.fields["options"].items[j], r.fields["options"].items[j], MaxOptionLength)
         && CleanText(r.fields["options"].items[j].s, MaxOptionLength)
  }

  ghost predicate QuestionPromptSanitized(q: Json, r: Json)
    requires WellFormedQuestion(q) && r.JObj?
  {
    "image_prompt" in r.fields ==>
      && "image_prompt" in q.fields
      && SanitizedField(q.fields["image_prompt"], r.fields["image_prompt"], MaxImagePromptLength)
      && CleanText(r.fields["image_prompt"].s, MaxImagePromptLength)
  }

  /**
   * One question: sanitising succeeds exactly when its text fields are strings, keeps every
   * key and every other field (`id`, `answer_index`, ...), and rewrites each text field as
   * the sanitised and cut form of its old value.
   */
  lemma CleanQuestionSpec(q: Json)
    requires WellFormedQuestion(q)
    ensures CleanQuestion(q).Some? <==> QuestionTextIsString(q)
    ensures CleanQuestion(q).Some? ==> SanitizedQuestion(q, CleanQuestion(q).value)
  {
    CleanQuestionSucceeds(q);
    if CleanQuestion(q).Some? {
      CleanQuestionSanitizes(q);
    }
  }

  lemma CleanQuestionSucceeds(q: Json)
    requires WellFormedQuestion(q)
    ensures CleanQuestion(q).Some? <==> QuestionTextIsString(q)
  {
    CleanKeySpec(q.fields, "text", MaxQuestionTextLength);
    var f1 := CleanKey(q.fields, "text", MaxQuestionTextLength);
    if f1.Some? {
      CleanOptionsKeySpec(f1.value);
      var f2 := CleanOptionsKey(f1.value);
      if f2.Some? {
        CleanKeySpec(f2.value, "image_prompt", MaxImagePromptLength);
      }
    }
  }

  lemma CleanQuestionSanitizes(q: Json)
    requires WellFormedQuestion(q) && CleanQuestion(q).Some?
    ensures SanitizedQuestion(q, CleanQuestion(q).value)
  {
    CleanKeySpec(q.fields, "text", MaxQuestionTextLength);
    var f1 := CleanKey(q.fields, "text", MaxQuestionTextLength).value;
    var f2 := CleanOptionsKey(f1).value;
    var f3 := CleanKey(f2, "image_prompt", MaxImagePromptLength).value;
    assert CleanQuestion(q) == Some(JObj(f3));
    QuestionStepsSanitize(q, f1, f2, f3);
  }

  /** The three rewrites of the loop body, in turn, give a sanitised question. */
  lemma QuestionStepsSanitize(q: Json, f1: map<string, Json>, f2: map<string, Json>, f3: map<string, Json>)
    requires WellFormedQuestion(q)
    requires CleanKey(q.fields, "text", MaxQuestionTextLength) == Some(f1)
    requires "options" in f1 && f1["options"] == q.fields["options"]
    requires CleanOptionsKey(f1) == Some(f2)
    requires CleanKey(f2, "image_prompt", MaxImagePromptLength) == Some(f3)
    ensures SanitizedQuestion(q, JObj(f3))
  {
    StepsKeepKeys(q, f1, f2, f3);
    StepsCleanText(q, f1, f2, f3);
    StepsCleanOptions(q, f1, f2, f3);
    StepsCleanPrompt(q, f1, f2, f3);
  }

  lemma StepsKeepKeys(q: Json, f1: map<string, Json>, f2: map<string, Json>, f3: map<string, Json>)
    requires WellFormedQuestion(q)
    requires CleanKey(q.fields, "text", MaxQuestionTextLength) == Some(f1)
    requires "options" in f1 && f1["options"] == q.fields["options"]
    requires CleanOptionsKey(f1) == Some(f2)
    requires CleanKey(f2, "image_prompt", MaxImagePromptLength) == Some(f3)
    ensures QuestionKeysKept(q, JObj(f3))
  {
    CleanKeySpec(q.fields, "text", MaxQuestionTextLength);
    CleanOptionsKeySpec(f1);
    CleanKeySpec(f2, "image_prompt", MaxImagePromptLength);
  }

  lemma StepsCleanText(q: Json, f1: map<string, Json>, f2: map<string, Json>, f3: map<string, Json>)
    requires WellFormedQuestion(q)
    requires CleanKey(q.fields, "text", MaxQuestionTextLength) == Some(f1)
    requires "options" in f1 && f1["options"] == q.fields["options"]
    requires CleanOptionsKey(f1) == Some(f2)
    requires CleanKey(f2, "image_prompt", MaxImagePromptLength) == Some(f3)
    ensures QuestionTextSanitized(q, JObj(f3))
  {
    CleanKeySpec(q.fields, "text", MaxQuestionTextLength);
    CleanOptionsKeySpec(f1);
    CleanKeySpec(f2, "image_prompt", MaxImagePromptLength);
    assert f3["text"] == f2["text"] == f1["text"];
  }

  lemma StepsCleanOptions(q: Json, f1: map<string, Json>, f2: map<string, Json>, f3: map<string, Json>)
    requires WellFormedQuestion(q)
    requires CleanKey(q.fields, "text", MaxQuestionTextLength) == Some(f1)
    requires "options" in f1 && f1["options"] == q.fields["options"]
    requires CleanOptionsKey(f1) == Some(f2)
    requires CleanKey(f2, "image_prompt", MaxImagePromptLength) == Some(f3)
    ensures QuestionOptionsSanitized(q, JObj(f3))
  {
    CleanOptionsKeySpec(f1);
    CleanKeySpec(f2, "image_prompt", MaxImagePromptLength);
    assert f3["options"] == f2["options"];
  }

  lemma StepsCleanPrompt(q: Json, f1: map<string, Json>, f2: map<string, Json>, f3: map<string, Json>)
    requires WellFormedQuestion(q)
    requires CleanKey(q.fields, "text", MaxQuestionTextLength) == Some(f1)
    requires "options" in f1 && f1["options"] == q.fields["options"]
    requires CleanOptionsKey(f1) == Some(f2)
    requires CleanKey(f2, "image_prompt", MaxImagePromptLength) == Some(f3)
    ensures QuestionPromptSanitized(q, JObj(f3))
  {
    CleanKeySpec(f2, "image_prompt", MaxImagePromptLength);
    if "image_prompt" in f3 {
      CleanKeySpec(q.fields, "text", MaxQuestionTextLength);
      CleanOptionsKeySpec(f1);
      assert f2["image_prompt"] == f1["image_prompt"] == q.fields["image_prompt"];
    }
  }

  /** Applies `f` to each element in turn; None as soon as one application gives None. */
  function MapAll(f: Json --> Option<Json>, xs: seq<Json>): Option<seq<Json>>
    requires forall i :: 0 <= i < |xs| ==> f.requires(xs[i])
    decreases |xs|
  {
    if xs == [] then Some([])
    else match f(xs[0])
      case None => None
      case Some(y) =>
        match MapAll(f, xs[1..])
        case None => None
        case Some(ys) => Some([y] + ys)
  }

  /** `MapAll` succeeds exactly when every application does, and then holds their results in order. */
  lemma {:induction false} MapAllSpec(f: Json --> Option<Json>, xs: seq<Json>)
    requires forall i :: 0 <= i < |xs| ==> f.requires(xs[i])
    ensures MapAll(f, xs).Some? <==> forall i :: 0 <= i < |xs| ==> f(xs[i]).Some?
    ensures MapAll(f, xs).Some? ==> |MapAll(f, xs).value| == |xs|
    ensures MapAll(f, xs).Some? ==> forall i :: 0 <= i < |xs| ==> MapAll(f, xs).value[i] == f(xs[i]).value
    decreases |xs|
  {
    if xs != [] {
      MapAllSpec(f, xs[1..]);
      if forall i :: 0 <= i < |xs| ==> f(xs[i]).Some? {
        assert forall i :: 0 <= i < |xs[1..]| ==> f(xs[1..][i]).Some? by {
          forall i | 0 <= i < |xs[1..]| ensures f(xs[1..][i]).Some? {
            assert xs[1..][i] == xs[i + 1];
          }
        }
        var rest := MapAll(f, xs[1..]).value;
        var r := MapAll(f, xs).value;
        assert r == [f(xs[0]).value] + rest;
        forall i | 0 <= i < |xs| ensures r[i] == f(xs[i]).value {
          if i > 0 {
            assert xs[i] == xs[1..][i - 1] && r[i] == rest[i - 1];
          }
        }
      } else {
        var k :| 0 <= k < |xs| && f(xs[k]).None?;
        if k > 0 {
          assert xs[1..][k - 1] == xs[k];
        }
      }
    }
  }

  /** `_sanitize_quiz` as a value: None where it would raise. */
  function SanitizedQuiz(data: Json): Option<Json>
    requires WellFormedQuiz(data)
  {
    match CleanKey(data.fields, "quiz_title", MaxQuizTitleLength)
    case None => None
    case Some(f) =>
      match MapAll(CleanQuestion, data.fields["questions"].items)
      case None => None
      case Some(qs) => Some(JObj(f["questions" := JArr(qs)]))
  }

  /**
   * Sanitising succeeds exactly when the text fields are strings; then the quiz is still
   * well formed (so the validated-then-sanitised order keeps a valid quiz valid), has the
   * same questions with the same keys, options counts and answers, and every text field is
   * clean and within its limit.
   */
  lemma SanitizedQuizSpec(data: Json)
    requires WellFormedQuiz(data)
    ensures SanitizedQuiz(data).Some? <==> TextFieldsAreStrings(data)
    ensures SanitizedQuiz(data).Some? ==>
      var r := SanitizedQuiz(data).value;
      var qs := data.fields["questions"].items;
      && WellFormedQuiz(r)
      && r.fields.Keys == data.fields.Keys
      && ("quiz_title" in r.fields ==>
            SanitizedField(data.fields["quiz_title"], r.fields["quiz_title"], MaxQuizTitleLength)
            && CleanText(r.fields["quiz_title"].s, MaxQuizTitleLength))
      && (forall k :: k in data.fields && k != "quiz_title" && k != "questions" ==> r.fields[k] == data.fields[k])
      && |r.fields["questions"].items| == |qs|
      && (forall i :: 0 <= i < |qs| ==> SanitizedQuestion(qs[i], r.fields["questions"].items[i]))
  {
    SanitizedQuizSucceeds(data);
    if SanitizedQuiz(data).Some? {
      SanitizedQuizFields(data);
      SanitizedQuizQuestions(data);
      SanitizedQuizWellFormed(data);
    }
  }

  lemma SanitizedQuizSucceeds(data: Json)
    requires WellFormedQuiz(data)
    ensures SanitizedQuiz(data).Some? <==> TextFieldsAreStrings(data)
  {
    var qs := data.fields["questions"].items;
    CleanKeySpec(data.fields, "quiz_title", MaxQuizTitleLength);
    CleanQuestionsSucceed(qs);
    assert SanitizedQuiz(data).Some? <==>
      CleanKey(data.fields, "quiz_title", MaxQuizTitleLength).Some? && MapAll(CleanQuestion, qs).Some?;
  }

  /** The title is rewritten, and every other top-level key but `questions` is kept. */
  lemma SanitizedQuizFields(data: Json)
    requires WellFormedQuiz(data) && SanitizedQuiz(data).Some?
    ensures
      var r := SanitizedQuiz(data).value;
      && r.JObj?
      && r.fields.Keys == data.fields.Keys
      && ("quiz_title" in r.fields ==>
            SanitizedField(data.fields["quiz_title"], r.fields["quiz_title"], MaxQuizTitleLength)
            && CleanText(r.fields["quiz_title"].s, MaxQuizTitleLength))
      && (forall k :: k in data.fields && k != "quiz_title" && k != "questions" ==> r.fields[k] == data.fields[k])
  {
    CleanKeySpec(data.fields, "quiz_title", MaxQuizTitleLength);
  }

  /** Each question is replaced by its sanitised form. */
  lemma SanitizedQuizQuestions(data: Json)
    requires WellFormedQuiz(data) && SanitizedQuiz(data).Some?
    ensures
      var r := SanitizedQuiz(data).value;
      var qs := data.fields["questions"].items;
      && r.JObj? && "questions" in r.fields && r.fields["questions"].JArr?
      && |r.fields["questions"].items| == |qs|
      && (forall i :: 0 <= i < |qs| ==> SanitizedQuestion(qs[i], r.fields["questions"].items[i]))
  {
    CleanQuestionsSpec(data.fields["questions"].items);
  }

  /** Sanitising keeps a well-formed quiz well formed. */
  lemma SanitizedQuizWellFormed(data: Json)
    requires WellFormedQuiz(data) && SanitizedQuiz(data).Some?
    ensures WellFormedQuiz(SanitizedQuiz(data).value)
  {
    var qs := data.fields["questions"].items;
    SanitizedQuizQuestions(data);
    var rs := SanitizedQuiz(data).value.fields["questions"].items;
    forall i | 0 <= i < |rs| ensures WellFormedQuestion(rs[i]) {
      SanitizedQuestionWellFormed(qs[i], rs[i]);
    }
  }

  lemma CleanQuestionsSucceed(qs: seq<Json>)
    requires forall i :: 0 <= i < |qs| ==> WellFormedQuestion(qs[i])
    ensures MapAll(CleanQuestion, qs).Some? <==> forall i :: 0 <= i < |qs| ==> QuestionTextIsString(qs[i])
  {
    MapAllSpec(CleanQuestion, qs);
    forall i | 0 <= i < |qs|
      ensures CleanQuestion(qs[i]).Some? <==> QuestionTextIsString(qs[i])
    {
      CleanQuestionSucceeds(qs[i]);
    }
  }

  /** Every question: the loop succeeds exactly when their text fields are strings. */
  lemma CleanQuestionsSpec(qs: seq<Json>)
    requires forall i :: 0 <= i < |qs| ==> WellFormedQuestion(qs[i])
    ensures MapAll(CleanQuestion, qs).Some? <==> forall i :: 0 <= i < |qs| ==> QuestionTextIsString(qs[i])
    ensures MapAll(CleanQuestion, qs).Some? ==>
      && |MapAll(CleanQuestion, qs).value| == |qs|
      && forall i :: 0 <= i < |qs| ==> SanitizedQuestion(qs[i], MapAll(CleanQuestion, qs).value[i])
  {
    MapAllSpec(CleanQuestion, qs);
    forall i | 0 <= i < |qs|
      ensures CleanQuestion(qs[i]).Some? <==> QuestionTextIsString(qs[i])
      ensures CleanQuestion(qs[i]).Some? ==> SanitizedQuestion(qs[i], CleanQuestion(qs[i]).value)
    {
      CleanQuestionSpec(qs[i]);
    }
  }

  /** A sanitised question is still well formed. */
  lemma SanitizedQuestionWellFormed(q: Json, r: Json)
    requires WellFormedQuestion(q) && SanitizedQuestion(q, r)
    ensures WellFormedQuestion(r)
  {
    assert r.fields["answer_index"] == q.fields["answer_index"];
  }

  /**
   * `_sanitize_quiz` on a validated quiz: rewrites the title, then each question in turn.
   * A field that is not a string raises, which is `None` here.
   */
  method SanitizeQuiz(data: Json) returns (r: Option<Json>)
    requires WellFormedQuiz(data)
    ensures r == SanitizedQuiz(data)
  {
    var fields := data.fields;
    if "quiz_title" in fields {
      var title := CleanField(fields["quiz_title"], MaxQuizTitleLength);
      if title.None? {
        return None;
      }
      fields := fields["quiz_title" := title.value];
    }
    var questions := SanitizeQuestions(data.fields["questions"].items);
    if questions.None? {
      return None;
    }
    r := Some(JObj(fields["questions" := JArr(questions.value)]));
  }

  /** The loop of `_sanitize_quiz`: rewrites each question in turn, stopping at one that raises. */
  method SanitizeQuestions(original: seq<Json>) returns (r: Option<seq<Json>>)
    requires forall i :: 0 <= i < |original| ==> WellFormedQuestion(original[i])
    ensures r == MapAll(CleanQuestion, original)
  {
    var done: seq<Json> := [];
    var i := 0;
    while i < |original|
      invariant i <= |original| && |done| == i
      invariant Cleaned(original, done)
    {
      var q := SanitizeQuestion(original[i]);
      if q.None? {
        MapAllSpec(CleanQuestion, original);
        return None;
      }
      CleanedExtend(original, done, q.value);
      done := done + [q.value];
      i := i + 1;
    }
    MapAllSpec(CleanQuestion, original);
    assert MapAll(CleanQuestion, original).value == done;
    return Some(done);
  }

  /** `done` holds the sanitised forms of the first `|done|` questions. */
  ghost predicate Cleaned(original: seq<Json>, done: seq<Json>)
    requires forall i :: 0 <= i < |original| ==> WellFormedQuestion(original[i])
  {
    |done| <= |original| && forall j :: 0 <= j < |done| ==> CleanQuestion(original[j]) == Some(done[j])
  }

  lemma CleanedExtend(original: seq<Json>, done: seq<Json>, q: Json)
    requires forall i :: 0 <= i < |original| ==> WellFormedQuestion(original[i])
    requires Cleaned(original, done) && |done| < |original| && CleanQuestion(original[|done|]) == Some(q)
    ensures Cleaned(original, done + [q])
  {
  }

  /** The body of the loop of `_sanitize_quiz`: rewrites `text`, `options`, `image_prompt` in turn. */
  method SanitizeQuestion(q: Json) returns (r: Option<Json>)
    requires WellFormedQuestion(q)
    ensures r == CleanQuestion(q)
  {
    var fields := q.fields;
    var text := CleanField(fields["text"], MaxQuestionTextLength);
    if text.None? {
      return None;
    }
    fields := fields["text" := text.value];
    var options := CleanOptions(fields["options"].items);
    if options.None? {
      return None;
    }
    fields := fields["options" := JArr(options.value)];
    if "image_prompt" in fields {
      var prompt := CleanField(fields["image_prompt"], MaxImagePromptLength);
      if prompt.None? {
        return None;
      }
      fields := fields["image_prompt" := prompt.value];
    }
    return Some(JObj(fields));
  }

  // ----- one provider attempt -----

  /**
   * What one provider attempt keeps of a decoded reply: the quiz when it validates and
   * sanitising does not raise, None otherwise (the attempt is then retried).
   */
  function AcceptReply(data: Json): Option<Json> {
    if QuizVerdict(data) != Accepted then None
    else (QuizVerdictSpec(data); SanitizedQuiz(data))
  }

  /**
   * A reply is kept exactly when it is a well-formed quiz whose text fields are strings, and
   * what is kept is still well formed, with a clean title.
   */
  lemma AcceptReplySpec(data: Json)
    ensures AcceptReply(data).Some? <==> WellFormedQuiz(data) && TextFieldsAreStrings(data)
    ensures AcceptReply(data).Some? ==> WellFormedQuiz(data) && AcceptReply(data) == SanitizedQuiz(data)
    ensures AcceptReply(data).Some? ==>
      var r := AcceptReply(data).value;
      && WellFormedQuiz(r)
      && ("quiz_title" in r.fields ==> r.fields["quiz_title"].JStr? && CleanText(r.fields["quiz_title"].s, MaxQuizTitleLength))
  {
    QuizVerdictSpec(data);
    if WellFormedQuiz(data) {
      SanitizedQuizSpec(data);
    }
  }
}
