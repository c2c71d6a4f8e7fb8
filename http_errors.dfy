/** The HTTP errors of the API layer and the mapping from application
    exceptions to them (`api/exceptions/quiz_exceptions.py`). */
module HttpErrors {

  /** The three HTTP exceptions, each with its detail text. */
  datatype HttpError =
    | BadRequestError(detail: string)
    | NotFoundError(detail: string)
    | InternalServerError(detail: string)

  function StatusCode(e: HttpError): int
  {
    match e
    case BadRequestError(_) => 400
    case NotFoundError(_) => 404
    case InternalServerError(_) => 500
  }

  /** The errors as constructed without an argument. */
  const DefaultBadRequest: HttpError := BadRequestError("Bad request")
  const DefaultNotFound: HttpError := NotFoundError("Resource not found")
  const DefaultInternalServerError: HttpError := InternalServerError("Internal server error")

  /** The exceptions `handle_application_exception` tells apart. The
      application exceptions derive from `QuizCreationBaseException`, whose
      `str()` is its message; `OtherException` is any exception outside
      these classes, with its `str()`. */
  datatype AppException =
    | ValueError(message: string)
    | QuizCreationBaseException(message: string)
    | DocumentProcessingError(message: string)
    | VectorStoreOperationError(message: string)
    | RAGProcessingError(message: string)
    | InvalidInputError(message: string)
    | OtherException(message: string)

  /** Faults of the caller: ValueError, invalid input, unprocessable documents. */
  predicate IsClientFault(e: AppException)
  {
    e.ValueError? || e.InvalidInputError? || e.DocumentProcessingError?
  }

  /** Faults the application knows as its own. */
  predicate IsKnownServerFault(e: AppException)
  {
    e.VectorStoreOperationError? || e.RAGProcessingError?
  }

  /** `handle_application_exception`. */
  function HandleApplicationException(e: AppException): (r: HttpError)
    ensures IsClientFault(e) ==> r == BadRequestError(e.message)
    ensures IsKnownServerFault(e) ==> r == InternalServerError(e.message)
    ensures !IsClientFault(e) && !IsKnownServerFault(e) ==> r == InternalServerError("Unexpected error: " + e.message)
  {
    if e.ValueError? then BadRequestError(e.message)
    else if e.InvalidInputError? then BadRequestError(e.message)
    else if e.DocumentProcessingError? then BadRequestError(e.message)
    else if e.VectorStoreOperationError? then InternalServerError(e.message)
    else if e.RAGProcessingError? then InternalServerError(e.message)
    else InternalServerError("Unexpected error: " + e.message)
  }

  /** The mapping never answers 404: the status is 400 exactly for the
      client faults and 500 otherwise. */
  lemma StatusIs400Or500(e: AppException)
    ensures StatusCode(HandleApplicationException(e)) == 400 <==> IsClientFault(e)
    ensures StatusCode(HandleApplicationException(e)) == 500 <==> !IsClientFault(e)
    ensures StatusCode(HandleApplicationException(e)) != 404
  {
  }

  /** The message survives the mapping: the detail ends with it, and only an
      unexpected exception gets a prefix. */
  lemma MessagePreserved(e: AppException)
    ensures var d := HandleApplicationException(e).detail;
      |e.message| <= |d| && d[|d| - |e.message|..] == e.message
    ensures HandleApplicationException(e).detail == e.message <==> IsClientFault(e) || IsKnownServerFault(e)
  {
    var d := HandleApplicationException(e).detail;
    if !IsClientFault(e) && !IsKnownServerFault(e) {
      assert d == "Unexpected error: " + e.message;
      assert d[|d| - |e.message|..] == e.message;
      assert |d| > |e.message|;
    }
  }

  /** A bare `QuizCreationBaseException` is not one of the classes the
      mapping names, so it is unexpected. */
  lemma BaseExceptionIsUnexpected(m: string)
    ensures HandleApplicationException(QuizCreationBaseException(m)) == InternalServerError("Unexpected error: " + m)
  {
  }

  /** The defaults carry the statuses 400, 404 and 500. */
  lemma DefaultStatuses()
    ensures StatusCode(DefaultBadRequest) == 400 && DefaultBadRequest.detail == "Bad request"
    ensures StatusCode(DefaultNotFound) == 404 && DefaultNotFound.detail == "Resource not found"
    ensures StatusCode(DefaultInternalServerError) == 500 && DefaultInternalServerError.detail == "Internal server error"
  {
  }
}
