/** The exceptions of the language-model layer
    (`infrastructure/exceptions/llm_exceptions.py`) and the way an opaque
    collaborator (a text splitter, a document loader, a retriever, the
    model) ends: with a value, with a `ValueError`, or with any other
    exception. */
module LlmErrors {

  /** How a call into a collaborator ends, with the `str()` of what it raised. */
  datatype Outcome<+T> =
    | Returned(value: T)
    | RaisedValueError(message: string)
    | RaisedOther(message: string)
  {
    predicate Raised()
    {
      !Returned?
    }
  }

  /** The exceptions the layer raises; each carries its message. */
  datatype LlmError =
    | TranslationError(message: string)
    | DocumentLoadError(message: string)
    | DocumentSplitException(message: string)
    | RAGChainSetupError(message: string)
    | RAGChainExecutionError(message: string)
    | LLMResponseParsingError(message: string)

  /** `t` occurs in `s`. */
  predicate Contains(s: string, t: string)
  {
    exists i, j :: 0 <= i <= j <= |s| && s[i..j] == t
  }

  /** A message built as `prefix + cause` gives the cause back. */
  lemma CauseRecoverable(prefix: string, cause: string)
    ensures (prefix + cause)[|prefix|..] == cause
    ensures Contains(prefix + cause, cause)
  {
    var s := prefix + cause;
    assert s[|prefix|..|prefix| + |cause|] == cause;
  }
}
