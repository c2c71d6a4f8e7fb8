/** The domain record of a submitted answer sheet (`domain/entities/results.py`):
    the quiz id, the quiz itself and the letters the user chose.  Its two
    field validators run in field order; the one on `selected_options`
    sees the quiz only when the quiz validated. */
module DomainResults {
  import opened Common
  import opened QuizEntities

  datatype UserAnswer = UserAnswer(id: string, preview: Quiz, selectedOptions: seq<string>)

  /** The keyword arguments given to `UserAnswer(...)`; the preview is given
      as its list of questions. */
  datatype RawUserAnswer = RawUserAnswer(id: Option<string>, preview: Option<seq<Question>>, selectedOptions: Option<seq<string>>)

  /** What every accepted answer sheet satisfies. */
  ghost predicate Valid(u: UserAnswer)
  {
    && u.id != ""
    && ValidQuiz(u.preview)
    && |u.selectedOptions| == |u.preview.questions|
    && forall i :: 0 <= i < |u.selectedOptions| ==> IsOptionKey(u.selectedOptions[i])
  }

  /** `[opt for opt in v if opt not in valid_options]`. */
  function InvalidOptions(v: seq<string>): (r: seq<string>)
    ensures |r| <= |v|
    ensures forall x :: x in r <==> x in v && !IsOptionKey(x)
    ensures r == [] <==> forall i :: 0 <= i < |v| ==> IsOptionKey(v[i])
  {
    if v == [] then []
    else (if IsOptionKey(v[0]) then [] else [v[0]]) + InvalidOptions(v[1..])
  }

  /** The filter keeps the order of the list: it distributes over concatenation. */
  lemma {:induction false} InvalidOptionsAppend(a: seq<string>, b: seq<string>)
    ensures InvalidOptions(a + b) == InvalidOptions(a) + InvalidOptions(b)
  {
    if a == [] {
      assert a + b == b;
    } else {
      assert (a + b)[1..] == a[1..] + b;
      InvalidOptionsAppend(a[1..], b);
    }
  }

  /** `validate_id`: an empty id is refused. */
  function ValidateId(id: Option<string>): (r: Result<string, FieldError>)
    ensures r.Ok? <==> id.Some? && id.value != ""
    ensures r.Ok? ==> r.value == id.value
    ensures id == Some("") ==> r == Err(FieldError(["id"], EmptyId))
    ensures id.None? ==> r == Err(FieldError(["id"], Missing))
  {
    match id
    case None => Err(FieldError(["id"], Missing))
    case Some(v) => if v == "" then Err(FieldError(["id"], EmptyId)) else Ok(v)
  }

  /** Validation of `preview`. */
  function ValidatePreview(preview: Option<seq<Question>>): (r: Result<Quiz, FieldError>)
    ensures r.Ok? <==> preview.Some? && MinQuestions <= |preview.value| <= MaxQuestions
    ensures r.Ok? ==> ValidQuiz(r.value) && r.value.questions == preview.value
    ensures preview.None? ==> r == Err(FieldError(["preview"], Missing))
    ensures preview.Some? && |preview.value| < MinQuestions ==>
      r == Err(FieldError(["preview", "questions"], ListTooShort(MinQuestions)))
    ensures preview.Some? && |preview.value| > MaxQuestions ==>
      r == Err(FieldError(["preview", "questions"], ListTooLong(MaxQuestions)))
  {
    if preview.None? then Err(FieldError(["preview"], Missing))
    else CreateQuiz(["preview", "questions"], preview)
  }

  /** `validate_selected_options`: `preview` is what validation of the quiz
      produced. A validated quiz fixes the number of answers, checked first;
      every answer must then be one of A-D. */
  function ValidateSelectedOptions(v: seq<string>, preview: Result<Quiz, FieldError>): (r: Result<seq<string>, FieldError>)
    ensures r.Ok? <==> (preview.Ok? ==> |v| == |preview.value.questions|)
                       && forall i :: 0 <= i < |v| ==> IsOptionKey(v[i])
    ensures r.Ok? ==> r.value == v
    ensures preview.Ok? && |v| != |preview.value.questions| ==>
      r == Err(FieldError(["selected_options"], AnswerCountMismatch(|v|, |preview.value.questions|)))
    ensures (preview.Err? || |v| == |preview.value.questions|) && InvalidOptions(v) != [] ==>
      r == Err(FieldError(["selected_options"], InvalidAnswers(InvalidOptions(v))))
  {
    if preview.Ok? && |v| != |preview.value.questions| then
      Err(FieldError(["selected_options"], AnswerCountMismatch(|v|, |preview.value.questions|)))
    else
      var invalid := InvalidOptions(v);
      if invalid != [] then Err(FieldError(["selected_options"], InvalidAnswers(invalid)))
      else Ok(v)
  }

  /** `UserAnswer(**raw)`: the three fields in order, errors collected. */
  function Create(raw: RawUserAnswer): (r: Result<UserAnswer, seq<FieldError>>)
    ensures r.Ok? <==>
      && raw.id.Some? && raw.id.value != ""
      && raw.preview.Some? && MinQuestions <= |raw.preview.value| <= MaxQuestions
      && raw.selectedOptions.Some? && |raw.selectedOptions.value| == |raw.preview.value|
      && forall i :: 0 <= i < |raw.selectedOptions.value| ==> IsOptionKey(raw.selectedOptions.value[i])
    ensures r.Ok? ==> Valid(r.value)
    ensures r.Ok? ==> r.value == UserAnswer(raw.id.value, Quiz(raw.preview.value), raw.selectedOptions.value)
  {
    var i := ValidateId(raw.id);
    var p := ValidatePreview(raw.preview);
    var s := if raw.selectedOptions.None? then Err(FieldError(["selected_options"], Missing))
             else ValidateSelectedOptions(raw.selectedOptions.value, p);
    if i.Ok? && p.Ok? && s.Ok? then Ok(UserAnswer(i.value, p.value, s.value))
    else Err(ErrorsOf(i) + ErrorsOf(p) + ErrorsOf(s))
  }

  /** The count is checked before the letters: too few answers are reported
      as such even when some of them are not letters A-D. */
  lemma CountCheckedFirst(id: string, qs: seq<Question>, v: seq<string>)
    requires MinQuestions <= |qs| <= MaxQuestions
    requires |v| != |qs|
    ensures Create(RawUserAnswer(Some(id), Some(qs), Some(v))).Err?
    ensures FieldError(["selected_options"], AnswerCountMismatch(|v|, |qs|)) in Create(RawUserAnswer(Some(id), Some(qs), Some(v))).error
    ensures forall e :: e in Create(RawUserAnswer(Some(id), Some(qs), Some(v))).error && e.loc == ["selected_options"] ==>
      e.kind == AnswerCountMismatch(|v|, |qs|)
  {
  }

  /** Without a validated quiz, the count is not checked but every answer
      still has to be a letter A-D. */
  lemma MissingPreviewSkipsCount(id: string, v: seq<string>)
    requires id != ""
    ensures (forall i :: 0 <= i < |v| ==> IsOptionKey(v[i])) ==>
      Create(RawUserAnswer(Some(id), None, Some(v))) == Err([FieldError(["preview"], Missing)])
    ensures InvalidOptions(v) != [] ==>
      Create(RawUserAnswer(Some(id), None, Some(v)))
        == Err([FieldError(["preview"], Missing), FieldError(["selected_options"], InvalidAnswers(InvalidOptions(v)))])
  {
    var none: seq<FieldError> := [];
    var ep := FieldError(["preview"], Missing);
    var es := FieldError(["selected_options"], InvalidAnswers(InvalidOptions(v)));
    assert none + [ep] + none == [ep];
    assert none + [ep] + [es] == [ep, es];
  }

  /** An empty id is refused. */
  lemma EmptyIdRejected(qs: seq<Question>, v: seq<string>)
    ensures Create(RawUserAnswer(Some(""), Some(qs), Some(v))).Err?
    ensures FieldError(["id"], EmptyId) in Create(RawUserAnswer(Some(""), Some(qs), Some(v))).error
  {
  }

  /** Three answers for five questions are refused, and so is a letter
      outside A-D, such as "X" or "E", in a sheet of the right length. */
  lemma AnswerExamples(id: string, qs: seq<Question>, v: seq<string>)
    requires id != "" && |qs| == 5
    requires |v| == 5 && ("X" in v || "E" in v)
    ensures Create(RawUserAnswer(Some(id), Some(qs), Some(["A", "B", "C"]))).Err?
    ensures Create(RawUserAnswer(Some(id), Some(qs), Some(v))).Err?
  {
    assert !IsOptionKey("X") && !IsOptionKey("E");
  }
}
