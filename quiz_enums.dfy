/** The closed enums of the system: the quiz type ("text" / "url") and the
    difficulty ("beginner" / "intermediate" / "advanced").  The source
    declares each of them in several files with identical members; the
    model declares each once. */
module QuizEnums {
  import opened Common

  datatype QuizType = Text | Url

  datatype Difficulty = Beginner | Intermediate | Advanced

  /** The enum member's `.value`. */
  function QuizTypeValue(t: QuizType): string
  {
    match t
    case Text => "text"
    case Url => "url"
  }

  function DifficultyValue(d: Difficulty): string
  {
    match d
    case Beginner => "beginner"
    case Intermediate => "intermediate"
    case Advanced => "advanced"
  }

  /** `QuizType(s)`: the member whose value is `s`, if there is one. */
  function ParseQuizType(s: string): (r: Option<QuizType>)
    ensures r.Some? <==> s == "text" || s == "url"
    ensures r.Some? ==> QuizTypeValue(r.value) == s
  {
    if s == "text" then Some(Text)
    else if s == "url" then Some(Url)
    else None
  }

  /** `Difficulty(s)`: the member whose value is `s`, if there is one. */
  function ParseDifficulty(s: string): (r: Option<Difficulty>)
    ensures r.Some? <==> s == "beginner" || s == "intermediate" || s == "advanced"
    ensures r.Some? ==> DifficultyValue(r.value) == s
  {
    if s == "beginner" then Some(Beginner)
    else if s == "intermediate" then Some(Intermediate)
    else if s == "advanced" then Some(Advanced)
    else None
  }

  /** Validation of an enum-typed field holding a QuizType: a member is
      taken as it is, a string must be one of the values. */
  function ValidateQuizType(loc: seq<string>, input: Option<ChoiceInput<QuizType>>): (r: Result<QuizType, FieldError>)
    ensures r.Ok? <==> input.Some? && (input.value.Raw? ==> ParseQuizType(input.value.text).Some?)
    ensures r.Ok? && input.value.Member? ==> r.value == input.value.member
    ensures r.Ok? && input.value.Raw? ==> QuizTypeValue(r.value) == input.value.text
    ensures input.None? ==> r == Err(FieldError(loc, Missing))
    ensures input.Some? && input.value.Raw? && ParseQuizType(input.value.text).None? ==>
      r == Err(FieldError(loc, EnumMismatch(input.value.text)))
  {
    match input
    case None => Err(FieldError(loc, Missing))
    case Some(Member(t)) => Ok(t)
    case Some(Raw(s)) =>
      match ParseQuizType(s)
      case Some(t) => Ok(t)
      case None => Err(FieldError(loc, EnumMismatch(s)))
  }

  /** Validation of an enum-typed field holding a Difficulty. */
  function ValidateDifficulty(loc: seq<string>, input: Option<ChoiceInput<Difficulty>>): (r: Result<Difficulty, FieldError>)
    ensures r.Ok? <==> input.Some? && (input.value.Raw? ==> ParseDifficulty(input.value.text).Some?)
    ensures r.Ok? && input.value.Member? ==> r.value == input.value.member
    ensures r.Ok? && input.value.Raw? ==> DifficultyValue(r.value) == input.value.text
    ensures input.None? ==> r == Err(FieldError(loc, Missing))
    ensures input.Some? && input.value.Raw? && ParseDifficulty(input.value.text).None? ==>
      r == Err(FieldError(loc, EnumMismatch(input.value.text)))
  {
    match input
    case None => Err(FieldError(loc, Missing))
    case Some(Member(d)) => Ok(d)
    case Some(Raw(s)) =>
      match ParseDifficulty(s)
      case Some(d) => Ok(d)
      case None => Err(FieldError(loc, EnumMismatch(s)))
  }

  /** Value and parse are inverse: every member is found again from its value. */
  lemma EnumValuesRoundTrip(t: QuizType, d: Difficulty)
    ensures ParseQuizType(QuizTypeValue(t)) == Some(t)
    ensures ParseDifficulty(DifficultyValue(d)) == Some(d)
  {
  }

  /** Passing a member or passing its value validates to the same member. */
  lemma MemberOrValueAgree(loc: seq<string>, t: QuizType, d: Difficulty)
    ensures ValidateQuizType(loc, Some(Member(t))) == ValidateQuizType(loc, Some(Raw(QuizTypeValue(t)))) == Ok(t)
    ensures ValidateDifficulty(loc, Some(Member(d))) == ValidateDifficulty(loc, Some(Raw(DifficultyValue(d)))) == Ok(d)
  {
  }
}
