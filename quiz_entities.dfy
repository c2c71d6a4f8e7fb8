/** The quiz records of the domain layer: the four answer options of a
    question, a question, and a quiz of 3 to 20 questions.  Every record is
    frozen in the source; a Dafny datatype value cannot be updated in place
    either, so each smart constructor below is the only way to obtain one
    and the `Valid` predicates state what it guarantees. */
module QuizEntities {
  import opened Common

  /** A `QuizOption`: the texts of the options A, B, C and D. */
  datatype QuizOption = QuizOption(a: string, b: string, c: string, d: string)

  datatype Question = Question(content: string, options: QuizOption, answer: string, explanation: string)

  datatype Quiz = Quiz(questions: seq<Question>)

  /** The keys a `QuizOption` is built from, in field order. */
  const OptionKeys: seq<string> := ["A", "B", "C", "D"]

  /** The field names of `QuizOption`: the only admissible answer letters. */
  predicate IsOptionKey(s: string)
  {
    s == "A" || s == "B" || s == "C" || s == "D"
  }

  const MinQuestions: nat := 3
  const MaxQuestions: nat := 20

  ghost predicate ValidQuiz(q: Quiz)
  {
    MinQuestions <= |q.questions| <= MaxQuestions
  }

  /** One option looked up in a mapping: absent means `Missing` at `loc + [key]`. */
  function OptionField(loc: seq<string>, m: map<string, string>, key: string): Result<string, FieldError>
  {
    if key in m then Ok(m[key]) else Err(FieldError(loc + [key], Missing))
  }

  /** `QuizOption(**m)`: every one of A-D must be present; any other key is
      ignored, so it is not stored. */
  function QuizOptionFrom(loc: seq<string>, m: map<string, string>): (r: Result<QuizOption, seq<FieldError>>)
    ensures r.Ok? <==> "A" in m && "B" in m && "C" in m && "D" in m
    ensures r.Ok? ==> r.value == QuizOption(m["A"], m["B"], m["C"], m["D"])
    ensures r.Err? ==> forall e :: e in r.error ==>
      e.kind == Missing && exists k :: k in OptionKeys && k !in m && e.loc == loc + [k]
    ensures r.Err? ==> forall k :: k in OptionKeys && k !in m ==> FieldError(loc + [k], Missing) in r.error
  {
    var a, b, c, d := OptionField(loc, m, "A"), OptionField(loc, m, "B"), OptionField(loc, m, "C"), OptionField(loc, m, "D");
    if a.Ok? && b.Ok? && c.Ok? && d.Ok? then Ok(QuizOption(a.value, b.value, c.value, d.value))
    else Err(ErrorsOf(a) + ErrorsOf(b) + ErrorsOf(c) + ErrorsOf(d))
  }

  /** What may be given for a field of type `QuizOption`: an instance, or a
      mapping from option keys to texts. */
  datatype OptionsInput = OptionsValue(option: QuizOption) | OptionsMapping(entries: map<string, string>)

  function ValidateOptions(loc: seq<string>, input: Option<OptionsInput>): (r: Result<QuizOption, seq<FieldError>>)
    ensures input.None? ==> r == Err([FieldError(loc, Missing)])
    ensures input.Some? && input.value.OptionsValue? ==> r == Ok(input.value.option)
    ensures input.Some? && input.value.OptionsMapping? ==> r == QuizOptionFrom(loc, input.value.entries)
  {
    match input
    case None => Err([FieldError(loc, Missing)])
    case Some(OptionsValue(o)) => Ok(o)
    case Some(OptionsMapping(m)) => QuizOptionFrom(loc, m)
  }

  /** The keyword arguments given to `Question(...)`: `content` may come as
      `question` (its alias) or `content`, and `answer` as `correctAnswer`
      (its alias) or `answer`. */
  datatype RawQuestion = RawQuestion(
    question: Option<string>, content: Option<string>,
    options: Option<OptionsInput>,
    correctAnswer: Option<string>, answer: Option<string>,
    explanation: Option<string>)

  /** Validation of `Question`: each field in declaration order, errors
      collected; the answer is any string. */
  function CreateQuestion(raw: RawQuestion): (r: Result<Question, seq<FieldError>>)
    ensures r.Ok? <==>
      && ByAliasOrName(raw.question, raw.content).Some?
      && ValidateOptions(["options"], raw.options).Ok?
      && ByAliasOrName(raw.correctAnswer, raw.answer).Some?
      && raw.explanation.Some?
    ensures r.Ok? ==> r.value == Question(
      ByAliasOrName(raw.question, raw.content).value,
      ValidateOptions(["options"], raw.options).value,
      ByAliasOrName(raw.correctAnswer, raw.answer).value,
      raw.explanation.value)
    ensures ByAliasOrName(raw.question, raw.content).None? ==> r.Err? && FieldError(["question"], Missing) in r.error
    ensures raw.options.None? ==> r.Err? && FieldError(["options"], Missing) in r.error
  {
    var content := Required(["question"], ByAliasOrName(raw.question, raw.content));
    var options := ValidateOptions(["options"], raw.options);
    var answer := Required(["correctAnswer"], ByAliasOrName(raw.correctAnswer, raw.answer));
    var explanation := Required(["explanation"], raw.explanation);
    if content.Ok? && options.Ok? && answer.Ok? && explanation.Ok? then
      Ok(Question(content.value, options.value, answer.value, explanation.value))
    else
      Err(ErrorsOf(content) + (if options.Ok? then [] else options.error) + ErrorsOf(answer) + ErrorsOf(explanation))
  }

  /** Validation of `Quiz(questions=...)`: the list must hold 3 to 20
      questions and is stored as given. */
  function CreateQuiz(loc: seq<string>, questions: Option<seq<Question>>): (r: Result<Quiz, FieldError>)
    ensures r.Ok? <==> questions.Some? && MinQuestions <= |questions.value| <= MaxQuestions
    ensures r.Ok? ==> ValidQuiz(r.value) && r.value.questions == questions.value
    ensures questions.None? ==> r == Err(FieldError(loc, Missing))
    ensures questions.Some? && |questions.value| < MinQuestions ==> r == Err(FieldError(loc, ListTooShort(MinQuestions)))
    ensures questions.Some? && |questions.value| > MaxQuestions ==> r == Err(FieldError(loc, ListTooLong(MaxQuestions)))
  {
    match questions
    case None => Err(FieldError(loc, Missing))
    case Some(qs) =>
      if |qs| < MinQuestions then Err(FieldError(loc, ListTooShort(MinQuestions)))
      else if |qs| > MaxQuestions then Err(FieldError(loc, ListTooLong(MaxQuestions)))
      else Ok(Quiz(qs))
  }

  /** Both spellings of a field populate the same field: given only under
      its alias or only under its name, a question validates to the same value. */
  lemma AliasOrNameAgree(content: string, options: OptionsInput, answer: string, explanation: string)
    ensures CreateQuestion(RawQuestion(Some(content), None, Some(options), Some(answer), None, Some(explanation)))
         == CreateQuestion(RawQuestion(None, Some(content), Some(options), None, Some(answer), Some(explanation)))
    ensures CreateQuestion(RawQuestion(Some(content), None, Some(options), Some(answer), None, Some(explanation))).Ok?
        <==> ValidateOptions(["options"], Some(options)).Ok?
  {
  }

  /** A mapping with the four keys gives the option with those four texts,
      and an extra key such as "E" changes nothing. */
  lemma ExtraOptionKeyIgnored(m: map<string, string>, extra: string, text: string)
    requires "A" in m && "B" in m && "C" in m && "D" in m
    requires !IsOptionKey(extra)
    ensures QuizOptionFrom([], m[extra := text]) == QuizOptionFrom([], m)
    ensures QuizOptionFrom([], m) == Ok(QuizOption(m["A"], m["B"], m["C"], m["D"]))
  {
  }

  /** Three options, or two, are refused: the missing keys are reported. */
  lemma MissingOptionRejected(a: string, b: string, c: string)
    ensures QuizOptionFrom(["options"], map["A" := a, "B" := b, "C" := c])
         == Err([FieldError(["options", "D"], Missing)])
    ensures QuizOptionFrom(["options"], map["A" := a, "B" := b])
         == Err([FieldError(["options", "C"], Missing), FieldError(["options", "D"], Missing)])
  {
    MissingD(a, b, c);
    MissingCD(a, b);
  }

  lemma KeysDistinct()
    ensures "C" != "A" && "C" != "B" && "D" != "A" && "D" != "B" && "D" != "C"
  {
    assert "C"[0] != "A"[0] && "C"[0] != "B"[0];
    assert "D"[0] != "A"[0] && "D"[0] != "B"[0] && "D"[0] != "C"[0];
  }

  lemma MissingD(a: string, b: string, c: string)
    ensures QuizOptionFrom(["options"], map["A" := a, "B" := b, "C" := c])
         == Err([FieldError(["options", "D"], Missing)])
  {
    KeysDistinct();
    var loc, m := ["options"], map["A" := a, "B" := b, "C" := c];
    assert loc + ["D"] == ["options", "D"];
    assert OptionField(loc, m, "D") == Err(FieldError(["options", "D"], Missing));
    var none: seq<FieldError> := [];
    var eD := FieldError(["options", "D"], Missing);
    assert QuizOptionFrom(loc, m).Err?;
    assert QuizOptionFrom(loc, m).error == none + none + none + [eD];
    assert none + none + none + [eD] == [eD];
  }

  lemma MissingCD(a: string, b: string)
    ensures QuizOptionFrom(["options"], map["A" := a, "B" := b])
         == Err([FieldError(["options", "C"], Missing), FieldError(["options", "D"], Missing)])
  {
    KeysDistinct();
    var loc, m := ["options"], map["A" := a, "B" := b];
    assert loc + ["C"] == ["options", "C"] && loc + ["D"] == ["options", "D"];
    var eC, eD := FieldError(["options", "C"], Missing), FieldError(["options", "D"], Missing);
    assert OptionField(loc, m, "C") == Err(eC) && OptionField(loc, m, "D") == Err(eD);
    var none: seq<FieldError> := [];
    assert QuizOptionFrom(loc, m).Err?;
    assert QuizOptionFrom(loc, m).error == none + none + [eC] + [eD];
    assert none + none + [eC] + [eD] == [eC, eD];
  }

  /** Any answer text is accepted at this layer: answers A, B, C and D, or
      anything else, coexist in a quiz. */
  lemma AnyAnswerAccepted(content: string, o: QuizOption, answer: string, explanation: string)
    ensures CreateQuestion(RawQuestion(None, Some(content), Some(OptionsValue(o)), None, Some(answer), Some(explanation)))
         == Ok(Question(content, o, answer, explanation))
  {
  }

  /** The boundary values: 3 and 20 questions are accepted, 0, 2 and 21 refused. */
  lemma QuizLengthBounds(qs: seq<Question>)
    ensures |qs| == 3 || |qs| == 20 ==> CreateQuiz(["questions"], Some(qs)) == Ok(Quiz(qs))
    ensures |qs| == 0 || |qs| == 2 ==> CreateQuiz(["questions"], Some(qs)) == Err(FieldError(["questions"], ListTooShort(3)))
    ensures |qs| == 21 ==> CreateQuiz(["questions"], Some(qs)) == Err(FieldError(["questions"], ListTooLong(20)))
  {
  }
}
