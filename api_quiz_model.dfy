/** The API-layer records of `api/models/quiz.py`, declared as pydantic
    dataclasses.  Their `QuizRequest` has the same fields and bounds as the
    model of `RequestModel`, but checks the URL rule in `__post_init__`,
    which runs only once every field has validated.  Their `Options`,
    `Question` and `Quiz` have the shapes of the domain records, so the
    model reuses those datatypes; the API `Question` knows no aliases. */
module ApiQuizModel {
  import opened Common
  import opened QuizEnums
  import opened UrlParse
  import RequestModel
  import opened QuizEntities

  /** Field validation of the dataclass, followed by `__post_init__`. */
  function CreateRequest(raw: RequestModel.RawQuizRequest): (r: Result<RequestModel.QuizRequest, seq<FieldError>>)
    ensures r.Ok? <==> RequestModel.Admissible(raw)
    ensures r.Ok? ==> RequestModel.Valid(r.value) && r.value.content == raw.content.value
    ensures r.Err? ==> r.error != []
  {
    var t := ValidateQuizType(["type"], raw.quizType);
    var c := Required(["content"], raw.content);
    var d := ValidateDifficulty(["difficulty"], raw.difficulty);
    var q := RequestModel.ValidateQuestionCount(["questionCount"], ByAliasOrName(raw.questionCountAlias, raw.questionCountName));
    if t.Ok? && c.Ok? && d.Ok? && q.Ok? then
      var v := RequestModel.QuizRequest(t.value, c.value, d.value, q.value);
      if v.quizType == Url then
        match RequestModel.CheckUrl([], v.content)
        case Ok(_) => Ok(v)
        case Err(e) => Err([e])
      else Ok(v)
    else Err(ErrorsOf(t) + ErrorsOf(c) + ErrorsOf(d) + ErrorsOf(q))
  }

  /** The two request models accept the same inputs and build the same
      value from them; they differ only in which errors they report. */
  lemma RequestModelsAgree(raw: RequestModel.RawQuizRequest)
    ensures CreateRequest(raw).Ok? <==> RequestModel.Create(raw).Ok?
    ensures CreateRequest(raw).Ok? ==> CreateRequest(raw).value == RequestModel.Create(raw).value
  {
  }

  /** The post-init check runs last: with an invalid count as well as an
      invalid URL, the dataclass reports the count alone, while the
      pydantic model reports both. */
  lemma PostInitRunsAfterFields(content: string, d: Difficulty)
    requires UrlSplit(content).Ok? && !IsAcceptedUrl(content)
    ensures CreateRequest(RequestModel.RawQuizRequest(Some(Member(Url)), Some(content), Some(Member(d)), Some(2), None))
         == Err([FieldError(["questionCount"], GreaterThanEqual(3))])
    ensures RequestModel.Create(RequestModel.RawQuizRequest(Some(Member(Url)), Some(content), Some(Member(d)), Some(2), None))
         == Err([FieldError(["content"], ValueError(RequestModel.InvalidUrlMessage)), FieldError(["questionCount"], GreaterThanEqual(3))])
  {
    var none: seq<FieldError> := [];
    var eq, ec := FieldError(["questionCount"], GreaterThanEqual(3)), FieldError(["content"], ValueError(RequestModel.InvalidUrlMessage));
    assert none + none + none + [eq] == [eq];
    assert none + [ec] + none + [eq] == [ec, eq];
  }

  /** A URL request whose content breaks the rule fails in `__post_init__`,
      with the validator's message and no field location. */
  lemma PostInitRejectsBadUrl(content: string, d: Difficulty, n: int)
    requires RequestModel.MinQuestionCount <= n <= RequestModel.MaxQuestionCount
    requires UrlSplit(content).Ok? && !IsAcceptedUrl(content)
    ensures CreateRequest(RequestModel.RawQuizRequest(Some(Member(Url)), Some(content), Some(Member(d)), Some(n), None))
         == Err([FieldError([], ValueError(RequestModel.InvalidUrlMessage))])
  {
    assert RequestModel.ValidateQuestionCount(["questionCount"], ByAliasOrName(Some(n), None)) == Ok(n);
    assert RequestModel.CheckUrl([], content) == Err(FieldError([], ValueError(RequestModel.InvalidUrlMessage)));
  }

  /** The keyword arguments of the API `Question`: no aliases. */
  datatype RawApiQuestion = RawApiQuestion(
    content: Option<string>, options: Option<OptionsInput>, answer: Option<string>, explanation: Option<string>)

  /** Validation of the API `Question`; `answer` is any string. */
  function CreateApiQuestion(raw: RawApiQuestion): (r: Result<Question, seq<FieldError>>)
    ensures r.Ok? <==> raw.content.Some? && ValidateOptions(["options"], raw.options).Ok?
                       && raw.answer.Some? && raw.explanation.Some?
    ensures r.Ok? ==> r.value == Question(raw.content.value, ValidateOptions(["options"], raw.options).value,
                                          raw.answer.value, raw.explanation.value)
  {
    var content := Required(["content"], raw.content);
    var options := ValidateOptions(["options"], raw.options);
    var answer := Required(["answer"], raw.answer);
    var explanation := Required(["explanation"], raw.explanation);
    if content.Ok? && options.Ok? && answer.Ok? && explanation.Ok? then
      Ok(Question(content.value, options.value, answer.value, explanation.value))
    else
      Err(ErrorsOf(content) + (if options.Ok? then [] else options.error) + ErrorsOf(answer) + ErrorsOf(explanation))
  }

  /** The API `Question` does not check the answer against A-D: any text
      is stored as given, alongside the three other fields. */
  lemma ApiAnswerUnconstrained(content: string, o: QuizOption, answer: string, explanation: string)
    ensures CreateApiQuestion(RawApiQuestion(Some(content), Some(OptionsValue(o)), Some(answer), Some(explanation)))
         == Ok(Question(content, o, answer, explanation))
  {
  }

  /** The response of the quiz endpoint: an id and the quiz preview. */
  datatype QuizResponse = QuizResponse(id: string, preview: Quiz)

  /** `QuizResponse(id, preview)`: both are required, and the preview, given
      as its list of questions, must make a valid quiz. */
  function CreateResponse(id: Option<string>, preview: Option<seq<Question>>): (r: Result<QuizResponse, seq<FieldError>>)
    ensures r.Ok? <==> id.Some? && CreateQuiz(["preview", "questions"], preview).Ok?
    ensures r.Ok? ==> r.value.id == id.value && r.value.preview.questions == preview.value
                      && ValidQuiz(r.value.preview)
    ensures id.None? ==> r.Err? && FieldError(["id"], Missing) in r.error
    ensures preview.None? ==> r.Err? && FieldError(["preview"], Missing) in r.error
  {
    var i := Required(["id"], id);
    var p := if preview.None? then Err(FieldError(["preview"], Missing)) else CreateQuiz(["preview", "questions"], preview);
    if i.Ok? && p.Ok? then Ok(QuizResponse(i.value, p.value))
    else Err(ErrorsOf(i) + ErrorsOf(p))
  }
}
