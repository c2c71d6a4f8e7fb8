/** Shared vocabulary of the model: optional values, results, and the
    per-field errors that pydantic collects while it validates a record. */
module Common {

  datatype Option<+T> = None | Some(value: T)

  datatype Result<+T, +E> = Ok(value: T) | Err(error: E)

  /** What a caller may pass for an enum-typed field: a member of the
      enum itself, or a string that should be one of the members' values. */
  datatype ChoiceInput<+E> = Member(member: E) | Raw(text: string)

  /** The reason pydantic reports for rejecting one field. */
  datatype ErrorKind =
    | Missing                                   // a required field was not supplied
    | EnumMismatch(input: string)               // the string is no member's value
    | GreaterThanEqual(ge: int)                 // violates a `ge=` bound
    | LessThanEqual(le: int)                    // violates a `le=` bound
    | StringTooShort(minLength: nat)            // violates `min_length` on a string
    | ListTooShort(minLength: nat)              // violates `min_length` on a list
    | ListTooLong(maxLength: nat)               // violates `max_length` on a list
    | ValueError(message: string)               // a validator raised ValueError(message)
    | EmptyId                                   // UserAnswer.validate_id
    | AnswerCountMismatch(given: nat, expected: nat)  // UserAnswer answer count
    | InvalidAnswers(invalid: seq<string>)      // UserAnswer answers outside A-D

  /** One entry of a ValidationError: where it occurred and why. */
  datatype FieldError = FieldError(loc: seq<string>, kind: ErrorKind)

  /** The errors one field contributes to the collected list. */
  function ErrorsOf<T>(r: Result<T, FieldError>): seq<FieldError>
  {
    if r.Ok? then [] else [r.error]
  }

  /** With `populate_by_name`, a field is looked up under its alias first
      and under its own name only when the alias is absent. */
  function ByAliasOrName<T>(alias: Option<T>, name: Option<T>): Option<T>
  {
    if alias.Some? then alias else name
  }

  /** A required field: absent means a `Missing` error at `loc`. */
  function Required<T>(loc: seq<string>, v: Option<T>): Result<T, FieldError>
  {
    if v.Some? then Ok(v.value) else Err(FieldError(loc, Missing))
  }

  /** Decimal rendering of an integer, as Python's str(int) and f-strings do. */
  function IntToString(n: int): (s: string)
    ensures |s| >= 1
  {
    if n < 0 then "-" + NatToString(-n) else NatToString(n)
  }

  function NatToString(n: nat): (s: string)
    ensures |s| >= 1
    ensures forall i :: 0 <= i < |s| ==> '0' <= s[i] <= '9'
  {
    var digit := ['0' + (n % 10) as char];
    if n < 10 then digit else NatToString(n / 10) + digit
  }
}
