/** The retrieval-augmented quiz generator (`infrastructure/llm/rag_agent.py`).
    The agent is a frozen value holding the model, the prompt and the chain;
    `set_rag_chain` returns a new agent with a chain built from a retriever,
    and `invoke_chain` runs it once.  The retriever, the prompt and the
    model are opaque and given as functions to their outcomes. */
module RagAgent {
  import opened Common
  import opened LlmErrors
  import opened DocCreator
  import opened QuizEntities

  /** What the prompt is filled with: the four keys of the chain's first step. */
  datatype PromptVars = PromptVars(questionCount: int, difficulty: string, input: string, context: seq<Document>)

  /** What the chain is invoked with. */
  datatype ChainInput = ChainInput(input: string, questionCount: int, difficulty: string)

  type Retriever = string -> Outcome<seq<Document>>

  /** The prompt, and whether it can be put after a mapping in a chain. */
  datatype Prompt = Prompt(asRunnable: Outcome<PromptVars -> Outcome<string>>)

  /** The chat model, and what `with_structured_output(Quiz)` gives. */
  datatype Llm = Llm(withStructuredOutput: Outcome<string -> Outcome<Quiz>>)

  /** The built chain: the retriever, the filled prompt, the structured model. */
  datatype RagChain = RagChain(retriever: Retriever, format: PromptVars -> Outcome<string>, model: string -> Outcome<Quiz>)

  datatype RagAgentModel = RagAgentModel(llm: Llm, prompt: Prompt, ragChain: Option<RagChain>)

  const FixedInput := "Please generate the quiz according to the above instructions."
  const NotInitialized := "RAG chain is not initialized. Call set_rag_chain first."
  const ExecutionFailurePrefix := "Error while invoking RAG Chain with question_count="

  /** What one step's failure becomes for the rest of the chain. */
  function Propagate<T, U>(o: Outcome<T>): (r: Outcome<U>)
    requires !o.Returned?
    ensures !r.Returned? && r.message == o.message
    ensures r.RaisedValueError? <==> o.RaisedValueError?
  {
    if o.RaisedValueError? then RaisedValueError(o.message) else RaisedOther(o.message)
  }

  /** Running the chain on `x`: the context is what the retriever finds for
      `x.input`, the prompt is filled with `x`'s values and that context,
      and the model answers the filled prompt. */
  function RunChain(chain: RagChain, x: ChainInput): (r: Outcome<Quiz>)
    ensures r.Returned? ==>
      && chain.retriever(x.input).Returned?
      && var vars := PromptVars(x.questionCount, x.difficulty, x.input, chain.retriever(x.input).value);
         chain.format(vars).Returned? && chain.model(chain.format(vars).value) == r
    ensures chain.retriever(x.input).Raised() ==> r == Propagate(chain.retriever(x.input))
    ensures chain.retriever(x.input).Returned? ==>
      var vars := PromptVars(x.questionCount, x.difficulty, x.input, chain.retriever(x.input).value);
      && (chain.format(vars).Raised() ==> r == Propagate(chain.format(vars)))
      && (chain.format(vars).Returned? ==> r == chain.model(chain.format(vars).value))
  {
    match chain.retriever(x.input)
    case RaisedValueError(m) => RaisedValueError(m)
    case RaisedOther(m) => RaisedOther(m)
    case Returned(context) =>
      match chain.format(PromptVars(x.questionCount, x.difficulty, x.input, context))
      case RaisedValueError(m) => RaisedValueError(m)
      case RaisedOther(m) => RaisedOther(m)
      case Returned(text) => chain.model(text)
  }

  /** `set_rag_chain(retriever)`: a new agent with the same model and prompt
      and a chain; composing the prompt is tried before the model. */
  function SetRagChain(agent: RagAgentModel, retriever: Retriever): (r: Result<RagAgentModel, LlmError>)
    ensures r.Ok? <==> agent.prompt.asRunnable.Returned? && agent.llm.withStructuredOutput.Returned?
    ensures r.Ok? ==> && r.value.llm == agent.llm && r.value.prompt == agent.prompt
                      && r.value.ragChain == Some(RagChain(retriever, agent.prompt.asRunnable.value, agent.llm.withStructuredOutput.value))
    ensures agent.prompt.asRunnable.Raised() ==>
      r == Err(RAGChainSetupError("Failed to set up RAG chain: " + agent.prompt.asRunnable.message))
    ensures agent.prompt.asRunnable.Returned? && agent.llm.withStructuredOutput.Raised() ==>
      r == Err(RAGChainSetupError("Failed to set up RAG chain: " + agent.llm.withStructuredOutput.message))
  {
    match agent.prompt.asRunnable
    case RaisedValueError(m) => Err(RAGChainSetupError("Failed to set up RAG chain: " + m))
    case RaisedOther(m) => Err(RAGChainSetupError("Failed to set up RAG chain: " + m))
    case Returned(format) =>
      match agent.llm.withStructuredOutput
      case RaisedValueError(m) => Err(RAGChainSetupError("Failed to set up RAG chain: " + m))
      case RaisedOther(m) => Err(RAGChainSetupError("Failed to set up RAG chain: " + m))
      case Returned(model) => Ok(RagAgentModel(agent.llm, agent.prompt, Some(RagChain(retriever, format, model))))
  }

  /** The message of a failure other than a `ValueError`. */
  function ExecutionFailure(questionCount: int, difficulty: string, cause: string): string
  {
    ExecutionFailurePrefix + IntToString(questionCount)
      + " and difficulty=" + difficulty + ": " + cause
  }

  /** `invoke_chain(question_count, difficulty)`. */
  function InvokeChain(agent: RagAgentModel, questionCount: int, difficulty: string): (r: Result<Quiz, LlmError>)
    ensures agent.ragChain.None? ==> r == Err(RAGChainExecutionError(NotInitialized))
    ensures agent.ragChain.Some? ==> var o := RunChain(agent.ragChain.value, ChainInput(FixedInput, questionCount, difficulty));
      && (r.Ok? <==> o.Returned?)
      && (r.Ok? ==> r.value == o.value)
      && (o.RaisedValueError? ==> r == Err(LLMResponseParsingError("Failed to parse LLM response: " + o.message)))
      && (o.RaisedOther? ==> r == Err(RAGChainExecutionError(ExecutionFailure(questionCount, difficulty, o.message))))
  {
    match agent.ragChain
    case None => Err(RAGChainExecutionError(NotInitialized))
    case Some(chain) =>
      match RunChain(chain, ChainInput(FixedInput, questionCount, difficulty))
      case Returned(quiz) => Ok(quiz)
      case RaisedValueError(m) => Err(LLMResponseParsingError("Failed to parse LLM response: " + m))
      case RaisedOther(m) => Err(RAGChainExecutionError(ExecutionFailure(questionCount, difficulty, m)))
  }

  /** Without a chain nothing is called: the answer does not depend on the
      model, the prompt or the arguments. */
  lemma UninitializedCallsNothing(a: RagAgentModel, b: RagAgentModel, n1: int, d1: string, n2: int, d2: string)
    requires a.ragChain.None? && b.ragChain.None?
    ensures InvokeChain(a, n1, d1) == InvokeChain(b, n2, d2)
  {
  }

  /** The chain sees the fixed input and the count and difficulty as given;
      the retriever is asked about that same input. */
  lemma InvokeForwardsArguments(agent: RagAgentModel, questionCount: int, difficulty: string)
    requires agent.ragChain.Some?
    requires InvokeChain(agent, questionCount, difficulty).Ok?
    ensures var chain := agent.ragChain.value;
      && chain.retriever(FixedInput).Returned?
      && var vars := PromptVars(questionCount, difficulty, FixedInput, chain.retriever(FixedInput).value);
         chain.format(vars).Returned?
         && Ok(chain.model(chain.format(vars).value).value) == InvokeChain(agent, questionCount, difficulty)
  {
  }

  /** A failure other than a `ValueError` names the count, the difficulty
      and the original message. */
  lemma ExecutionFailureMentionsArguments(questionCount: int, difficulty: string, cause: string)
    ensures var s := ExecutionFailure(questionCount, difficulty, cause);
      Contains(s, IntToString(questionCount)) && Contains(s, difficulty) && Contains(s, cause)
  {
    var p1 := ExecutionFailurePrefix;
    var n := IntToString(questionCount);
    var p2 := " and difficulty=";
    var p3 := ": ";
    var s := ExecutionFailure(questionCount, difficulty, cause);
    assert s == p1 + n + p2 + difficulty + p3 + cause;
    var i := |p1|;
    assert s[i..i + |n|] == n;
    var j := |p1| + |n| + |p2|;
    assert s[j..j + |difficulty|] == difficulty;
    assert s[|s| - |cause|..|s|] == cause;
  }

  /** Once a chain is set, the agent no longer reports it missing, and a
      failure of the retriever reaches the caller as the chain's failure. */
  lemma SetChainInitializes(agent: RagAgentModel, retriever: Retriever, questionCount: int, difficulty: string)
    requires SetRagChain(agent, retriever).Ok?
    ensures InvokeChain(SetRagChain(agent, retriever).value, questionCount, difficulty) != Err(RAGChainExecutionError(NotInitialized))
    ensures retriever(FixedInput).RaisedOther? ==>
      InvokeChain(SetRagChain(agent, retriever).value, questionCount, difficulty)
        == Err(RAGChainExecutionError(ExecutionFailure(questionCount, difficulty, retriever(FixedInput).message)))
  {
    var ready := SetRagChain(agent, retriever).value;
    var o := RunChain(ready.ragChain.value, ChainInput(FixedInput, questionCount, difficulty));
    if o.RaisedOther? {
      ExecutionFailureLonger(questionCount, difficulty, o.message);
    }
  }

  /** A failure's message is never the missing-chain message: it is longer. */
  lemma ExecutionFailureLonger(questionCount: int, difficulty: string, cause: string)
    ensures |ExecutionFailure(questionCount, difficulty, cause)| > |NotInitialized|
  {
  }
}
