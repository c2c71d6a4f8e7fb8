/** The value objects of the domain (`domain/value_objects/quiz.py`): quiz
    content that is stripped and must not be empty, the quiz type and
    difficulty wrapped around their enums, and a question count of 3 to 20.
    Stripping is pydantic-core's `strip_whitespace`, which removes the
    characters with the Unicode White_Space property from both ends. */
module ValueObjects {
  import opened Common
  import opened QuizEnums
  import RequestModel

  /** The Unicode White_Space property. */
  predicate IsWhiteSpace(c: char)
  {
    || '\t' <= c <= '\r' || c == ' '
    || c == '\U{0085}' || c == '\U{00A0}' || c == '\U{1680}'
    || '\U{2000}' <= c <= '\U{200A}'
    || c == '\U{2028}' || c == '\U{2029}' || c == '\U{202F}' || c == '\U{205F}' || c == '\U{3000}'
  }

  predicate AllWhiteSpace(s: string)
  {
    forall i :: 0 <= i < |s| ==> IsWhiteSpace(s[i])
  }

  /** `s` neither starts nor ends with white space. */
  predicate IsTrimmed(s: string)
  {
    s == [] || (!IsWhiteSpace(s[0]) && !IsWhiteSpace(s[|s| - 1]))
  }

  function TrimStart(s: string): (r: string)
    ensures |r| <= |s| && r == s[|s| - |r|..]
    ensures AllWhiteSpace(s[..|s| - |r|])
    ensures r != [] ==> !IsWhiteSpace(r[0])
  {
    if s != [] && IsWhiteSpace(s[0]) then TrimStart(s[1..]) else s
  }

  function TrimEnd(s: string): (r: string)
    ensures |r| <= |s| && r == s[..|r|]
    ensures AllWhiteSpace(s[|r|..])
    ensures r != [] ==> !IsWhiteSpace(r[|r| - 1])
  {
    if s != [] && IsWhiteSpace(s[|s| - 1]) then
      var r := TrimEnd(s[..|s| - 1]);
      assert s[|r|..] == s[..|s| - 1][|r|..] + [s[|s| - 1]];
      r
    else s
  }

  /** Both ends stripped. */
  function Trim(s: string): string
  {
    TrimEnd(TrimStart(s))
  }

  /** The stripped text is the middle of `s`: what was removed on either
      side is white space, and the result starts and ends with something else. */
  lemma {:induction false} TrimShape(s: string)
    ensures var i := |s| - |TrimStart(s)|;
      var j := i + |Trim(s)|;
      && j <= |s| && Trim(s) == s[i..j]
      && AllWhiteSpace(s[..i]) && AllWhiteSpace(s[j..])
    ensures IsTrimmed(Trim(s))
  {
    TrimIsSlice(s);
    TrimTrailIsWhite(s);
    TrimIsTrimmed(s);
  }

  lemma {:induction false} TrimIsSlice(s: string)
    ensures var i := |s| - |TrimStart(s)|;
      i + |Trim(s)| <= |s| && Trim(s) == s[i..i + |Trim(s)|]
  {
    var u := TrimStart(s);
    SliceOfSuffix(s, |s| - |u|, |TrimEnd(u)|);
  }

  lemma {:induction false} TrimTrailIsWhite(s: string)
    ensures var j := |s| - |TrimStart(s)| + |Trim(s)|;
      j <= |s| && AllWhiteSpace(s[j..])
  {
    var u := TrimStart(s);
    SliceOfSuffix(s, |s| - |u|, |TrimEnd(u)|);
  }

  lemma {:induction false} TrimIsTrimmed(s: string)
    ensures IsTrimmed(Trim(s))
  {
    var u := TrimStart(s);
    var t := TrimEnd(u);
    if t != [] {
      assert t[0] == u[0];
    }
  }

  lemma SliceOfSuffix(s: string, i: nat, k: nat)
    requires i + k <= |s|
    ensures s[i..][..k] == s[i..i + k] && s[i..][k..] == s[i + k..]
  {
  }

  /** Text that already starts and ends with visible characters is kept. */
  lemma TrimmedUnchanged(s: string)
    requires IsTrimmed(s)
    ensures Trim(s) == s
  {
  }

  /** Stripping twice is stripping once. */
  lemma TrimIdempotent(s: string)
    ensures Trim(Trim(s)) == Trim(s)
  {
    TrimShape(s);
    TrimmedUnchanged(Trim(s));
  }

  /** Surrounding white space is removed and the middle kept exactly. */
  lemma TrimSurrounded(lead: string, middle: string, trail: string)
    requires AllWhiteSpace(lead) && AllWhiteSpace(trail) && IsTrimmed(middle) && middle != []
    ensures Trim(lead + middle + trail) == middle
  {
    var rest := middle + trail;
    assert rest[0] == middle[0];
    assert lead + middle + trail == lead + rest;
    calc {
      Trim(lead + middle + trail);
      TrimEnd(TrimStart(lead + rest));
      { StripLead(lead, rest); }
      TrimEnd(middle + trail);
      { StripTrail(middle, trail); }
      middle;
    }
  }

  lemma {:induction false} StripLead(lead: string, rest: string)
    requires AllWhiteSpace(lead)
    requires rest == [] || !IsWhiteSpace(rest[0])
    ensures TrimStart(lead + rest) == rest
  {
    if lead != [] {
      assert (lead + rest)[1..] == lead[1..] + rest;
      StripLead(lead[1..], rest);
    }
  }

  lemma {:induction false} StripTrail(body: string, trail: string)
    requires AllWhiteSpace(trail)
    requires body == [] || !IsWhiteSpace(body[|body| - 1])
    ensures TrimEnd(body + trail) == body
    decreases |trail|
  {
    if trail != [] {
      var last := |trail| - 1;
      assert (body + trail)[..|body + trail| - 1] == body + trail[..last];
      StripTrail(body, trail[..last]);
    } else {
      assert body + trail == body;
    }
  }

  /** A `QuizContent`: its value is stripped and not empty. */
  datatype QuizContent = QuizContent(value: string)

  /** `QuizContent(v)`: strip, then require at least one character. */
  function CreateQuizContent(v: string): (r: Result<QuizContent, FieldError>)
    ensures r.Ok? <==> !AllWhiteSpace(v)
    ensures r.Ok? ==> r.value.value == Trim(v) && r.value.value != [] && IsTrimmed(r.value.value)
    ensures r.Err? ==> r.error == FieldError(["value"], StringTooShort(1))
  {
    TrimShape(v);
    TrimEmptyIffBlank(v);
    var t := Trim(v);
    if |t| < 1 then Err(FieldError(["value"], StringTooShort(1)))
    else Ok(QuizContent(t))
  }

  /** Stripping leaves nothing exactly when the text is all white space. */
  lemma TrimEmptyIffBlank(v: string)
    ensures Trim(v) == [] <==> AllWhiteSpace(v)
  {
    var u := TrimStart(v);
    var t := TrimEnd(u);
    if t == [] {
      // TrimEnd removed all of u, so u is white space throughout, yet it
      // cannot start with white space: TrimStart removed everything.
      assert u[|t|..] == u;
      assert u == [];
      assert v[..|v| - |u|] == v;
    } else {
      TrimIsSlice(v);
      TrimIsTrimmed(v);
      assert v[|v| - |u|] == t[0];
    }
  }

  /** Content already stripped is stored as it is; content with white space
      around it loses exactly that white space. */
  lemma QuizContentKeepsMiddle(lead: string, middle: string, trail: string)
    requires AllWhiteSpace(lead) && AllWhiteSpace(trail) && IsTrimmed(middle) && middle != []
    ensures CreateQuizContent(lead + middle + trail) == Ok(QuizContent(middle))
    ensures CreateQuizContent(middle) == Ok(QuizContent(middle))
  {
    TrimSurrounded(lead, middle, trail);
    TrimmedUnchanged(middle);
  }

  /** Empty content, and content of white space only, is refused. */
  lemma BlankContentRejected(v: string)
    requires AllWhiteSpace(v)
    ensures CreateQuizContent(v) == Err(FieldError(["value"], StringTooShort(1)))
  {
  }

  datatype QuizTypeObject = QuizTypeObject(value: QuizType)

  /** `QuizType(value)`: a member of the enum, or one of its values. */
  function CreateQuizType(input: ChoiceInput<QuizType>): (r: Result<QuizTypeObject, FieldError>)
    ensures r.Ok? <==> input.Member? || input.text == "text" || input.text == "url"
    ensures r.Ok? && input.Raw? ==> QuizTypeValue(r.value.value) == input.text
    ensures input.Member? ==> r == Ok(QuizTypeObject(input.member))
  {
    match ValidateQuizType(["value"], Some(input))
    case Ok(t) => Ok(QuizTypeObject(t))
    case Err(e) => Err(e)
  }

  datatype DifficultyObject = DifficultyObject(value: Difficulty)

  /** `QuizDifficulty(value)`: a member of the enum, or one of its values. */
  function CreateQuizDifficulty(input: ChoiceInput<Difficulty>): (r: Result<DifficultyObject, FieldError>)
    ensures r.Ok? <==> input.Member? || input.text == "beginner" || input.text == "intermediate" || input.text == "advanced"
    ensures r.Ok? && input.Raw? ==> DifficultyValue(r.value.value) == input.text
    ensures input.Member? ==> r == Ok(DifficultyObject(input.member))
  {
    match ValidateDifficulty(["value"], Some(input))
    case Ok(d) => Ok(DifficultyObject(d))
    case Err(e) => Err(e)
  }

  datatype QuestionCount = QuestionCount(value: int)

  /** `QuestionCount(value)`: 3 to 20 inclusive. */
  function CreateQuestionCount(n: int): (r: Result<QuestionCount, FieldError>)
    ensures r.Ok? <==> 3 <= n <= 20
    ensures r.Ok? ==> r.value.value == n
  {
    match RequestModel.ValidateQuestionCount(["value"], Some(n))
    case Ok(v) => Ok(QuestionCount(v))
    case Err(e) => Err(e)
  }

  /** "expert" is no difficulty; the boundary counts 3 and 20 are accepted,
      2 and 21 refused. */
  lemma ValueObjectExamples()
    ensures CreateQuizDifficulty(Raw("expert")).Err?
    ensures CreateQuestionCount(3).Ok? && CreateQuestionCount(20).Ok?
    ensures CreateQuestionCount(2).Err? && CreateQuestionCount(21).Err?
  {
  }
}
