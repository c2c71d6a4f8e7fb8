/** The request body of the quiz endpoint (`api/models/request.py`): a
    pydantic model whose fields are validated in declaration order, with
    one field validator on `content` that applies the URL rule when the
    already-validated `type` is `url`. */
module RequestModel {
  import opened Common
  import opened QuizEnums
  import opened UrlParse

  datatype QuizRequest = QuizRequest(quizType: QuizType, content: string, difficulty: Difficulty, questionCount: int)

  /** The keyword arguments a caller may pass. `question_count` may be given
      under its alias `questionCount` or under its own name. */
  datatype RawQuizRequest = RawQuizRequest(
    quizType: Option<ChoiceInput<QuizType>>,
    content: Option<string>,
    difficulty: Option<ChoiceInput<Difficulty>>,
    questionCountAlias: Option<int>,
    questionCountName: Option<int>)

  const MinQuestionCount: int := 3
  const MaxQuestionCount: int := 20

  const InvalidUrlMessage: string :=
    "When the 'type' field is set to 'url', the 'content' field must be in a valid URL format."

  /** What every accepted request satisfies. */
  ghost predicate Valid(r: QuizRequest)
  {
    && MinQuestionCount <= r.questionCount <= MaxQuestionCount
    && (r.quizType == Url ==> IsAcceptedUrl(r.content))
  }

  /** `Field(..., ge=3, le=20)`. */
  function ValidateQuestionCount(loc: seq<string>, n: Option<int>): (r: Result<int, FieldError>)
    ensures r.Ok? <==> n.Some? && MinQuestionCount <= n.value <= MaxQuestionCount
    ensures r.Ok? ==> r.value == n.value
    ensures n.Some? && n.value < MinQuestionCount ==> r == Err(FieldError(loc, GreaterThanEqual(MinQuestionCount)))
    ensures n.Some? && n.value > MaxQuestionCount ==> r == Err(FieldError(loc, LessThanEqual(MaxQuestionCount)))
  {
    match n
    case None => Err(FieldError(loc, Missing))
    case Some(v) =>
      if v < MinQuestionCount then Err(FieldError(loc, GreaterThanEqual(MinQuestionCount)))
      else if v > MaxQuestionCount then Err(FieldError(loc, LessThanEqual(MaxQuestionCount)))
      else Ok(v)
  }

  /** The URL rule: `urlparse(v)` must not fail, its scheme must be http or
      https and its netloc non-empty. A failure of `urlparse` itself is a
      ValueError with its own message. */
  function CheckUrl(loc: seq<string>, v: string): (r: Result<string, FieldError>)
    ensures r.Ok? <==> IsAcceptedUrl(v)
    ensures r.Ok? ==> r.value == v
    ensures r.Err? && UrlSplit(v).Ok? ==> r.error == FieldError(loc, ValueError(InvalidUrlMessage))
    ensures UrlSplit(v).Err? ==> r == Err(FieldError(loc, ValueError(UrlSplit(v).error)))
  {
    match UrlSplit(v)
    case Err(msg) => Err(FieldError(loc, ValueError(msg)))
    case Ok(p) =>
      if (p.scheme == "http" || p.scheme == "https") && p.netloc != "" then Ok(v)
      else Err(FieldError(loc, ValueError(InvalidUrlMessage)))
  }

  /** `validate_content_for_url`: `quizType` is what validation of `type`
      produced; when that failed, `info.data` holds no `type` and the
      content is returned without a check. */
  function ValidateContentForUrl(v: string, quizType: Result<QuizType, FieldError>): (r: Result<string, FieldError>)
    ensures quizType != Ok(Url) ==> r == Ok(v)
    ensures quizType == Ok(Url) ==> r == CheckUrl(["content"], v)
  {
    if quizType == Ok(Url) then CheckUrl(["content"], v) else Ok(v)
  }

  /** Whether `raw` describes an acceptable request. */
  ghost predicate Admissible(raw: RawQuizRequest)
  {
    && ValidateQuizType(["type"], raw.quizType).Ok?
    && raw.content.Some?
    && ValidateDifficulty(["difficulty"], raw.difficulty).Ok?
    && ByAliasOrName(raw.questionCountAlias, raw.questionCountName).Some?
    && MinQuestionCount <= ByAliasOrName(raw.questionCountAlias, raw.questionCountName).value <= MaxQuestionCount
    && (ValidateQuizType(["type"], raw.quizType).value == Url ==> IsAcceptedUrl(raw.content.value))
  }

  /** `QuizRequest(**raw)`: every field is validated, in declaration order,
      and all errors are reported together. */
  function Create(raw: RawQuizRequest): (r: Result<QuizRequest, seq<FieldError>>)
    ensures r.Ok? <==> Admissible(raw)
    ensures r.Ok? ==> Valid(r.value)
    ensures r.Ok? ==> && r.value.content == raw.content.value
                      && r.value.quizType == ValidateQuizType(["type"], raw.quizType).value
                      && r.value.difficulty == ValidateDifficulty(["difficulty"], raw.difficulty).value
                      && r.value.questionCount == ByAliasOrName(raw.questionCountAlias, raw.questionCountName).value
    ensures r.Err? ==> r.error != []
  {
    var t := ValidateQuizType(["type"], raw.quizType);
    var c := match raw.content
      case None => Err(FieldError(["content"], Missing))
      case Some(v) => ValidateContentForUrl(v, t);
    var d := ValidateDifficulty(["difficulty"], raw.difficulty);
    var q := ValidateQuestionCount(["questionCount"], ByAliasOrName(raw.questionCountAlias, raw.questionCountName));
    if t.Ok? && c.Ok? && d.Ok? && q.Ok? then Ok(QuizRequest(t.value, c.value, d.value, q.value))
    else Err(ErrorsOf(t) + ErrorsOf(c) + ErrorsOf(d) + ErrorsOf(q))
  }

  /** A request of type text is never checked against the URL rule: its
      content is accepted and returned whatever it is. */
  lemma TextContentNotInspected(content: string, d: Difficulty, n: int)
    requires MinQuestionCount <= n <= MaxQuestionCount
    ensures Create(RawQuizRequest(Some(Member(Text)), Some(content), Some(Member(d)), Some(n), None))
         == Ok(QuizRequest(Text, content, d, n))
  {
  }

  /** With type url, the request is accepted exactly when the content is an
      accepted URL, and the content is then stored unchanged. */
  lemma UrlContentRule(content: string, d: Difficulty, n: int)
    requires MinQuestionCount <= n <= MaxQuestionCount
    ensures Create(RawQuizRequest(Some(Member(Url)), Some(content), Some(Member(d)), Some(n), None)).Ok?
        <==> IsAcceptedUrl(content)
    ensures IsAcceptedUrl(content) ==>
      Create(RawQuizRequest(Some(Member(Url)), Some(content), Some(Member(d)), Some(n), None))
        == Ok(QuizRequest(Url, content, d, n))
    ensures UrlSplit(content).Ok? && !IsAcceptedUrl(content) ==>
      Create(RawQuizRequest(Some(Member(Url)), Some(content), Some(Member(d)), Some(n), None))
        == Err([FieldError(["content"], ValueError(InvalidUrlMessage))])
  {
    var none: seq<FieldError> := [];
    var e := FieldError(["content"], ValueError(InvalidUrlMessage));
    assert none + [e] + none + none == [e];
  }

  /** The alias `questionCount` and the name `question_count` set the same
      field; when both are given the alias wins. */
  lemma AliasAndNameAgree(t: ChoiceInput<QuizType>, content: string, d: ChoiceInput<Difficulty>, n: int, other: int)
    ensures Create(RawQuizRequest(Some(t), Some(content), Some(d), Some(n), None))
         == Create(RawQuizRequest(Some(t), Some(content), Some(d), None, Some(n)))
    ensures Create(RawQuizRequest(Some(t), Some(content), Some(d), Some(n), Some(other)))
         == Create(RawQuizRequest(Some(t), Some(content), Some(d), Some(n), None))
  {
  }

  /** A type that failed validation disables the validator of `content`: the
      only error is the type's, even for content that is no URL. */
  lemma InvalidTypeSkipsUrlCheck(s: string, content: string, d: Difficulty, n: int)
    requires ParseQuizType(s).None?
    requires MinQuestionCount <= n <= MaxQuestionCount
    ensures Create(RawQuizRequest(Some(Raw(s)), Some(content), Some(Member(d)), Some(n), None))
         == Err([FieldError(["type"], EnumMismatch(s))])
  {
    var none: seq<FieldError> := [];
    var e := FieldError(["type"], EnumMismatch(s));
    assert [e] + none + none + none == [e];
  }

  /** Question counts 2 and 25 are refused with the bound they violate. */
  lemma QuestionCountBounds(t: QuizType, content: string, d: Difficulty)
    requires t == Url ==> IsAcceptedUrl(content)
    ensures Create(RawQuizRequest(Some(Member(t)), Some(content), Some(Member(d)), Some(2), None))
         == Err([FieldError(["questionCount"], GreaterThanEqual(3))])
    ensures Create(RawQuizRequest(Some(Member(t)), Some(content), Some(Member(d)), Some(25), None))
         == Err([FieldError(["questionCount"], LessThanEqual(20))])
    ensures Create(RawQuizRequest(Some(Member(t)), Some(content), Some(Member(d)), Some(3), None)).Ok?
    ensures Create(RawQuizRequest(Some(Member(t)), Some(content), Some(Member(d)), Some(20), None)).Ok?
  {
    var none: seq<FieldError> := [];
    var e2, e25 := FieldError(["questionCount"], GreaterThanEqual(3)), FieldError(["questionCount"], LessThanEqual(20));
    assert none + none + none + [e2] == [e2];
    assert none + none + none + [e25] == [e25];
  }

  /** "expert" is no difficulty and "not_a_valid_type" no type. */
  lemma UnknownChoicesRejected(content: string, n: int)
    requires MinQuestionCount <= n <= MaxQuestionCount
    ensures Create(RawQuizRequest(Some(Member(Text)), Some(content), Some(Raw("expert")), Some(n), None)).Err?
    ensures Create(RawQuizRequest(Some(Raw("not_a_valid_type")), Some(content), Some(Member(Beginner)), Some(n), None)).Err?
  {
  }
}
