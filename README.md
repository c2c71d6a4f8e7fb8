# Readum core, modelled in Dafny

Readum turns reading notes or a web page into a multiple-choice quiz. A
FastAPI backend validates the quiz request, splits the text into documents,
indexes them in a temporary vector-store directory, and asks a language
model through a retrieval chain for a quiz of 3 to 20 questions. The user's
answers are then checked and graded in the browser.

This project models the parts of that system that decide things:

- The validated records and their pydantic validation rules:
  - the request (API model and dataclass);
  - the domain question and quiz;
  - the submitted answer sheet;
  - the value objects.
- Python 3.12's `urlsplit`, as far as the URL rule looks at it.
- The mapping from application exceptions to HTTP errors.
- The directory handler of the vector-store index, over a model of
  `os.makedirs` / `shutil.rmtree`.
- The document creator and the RAG agent. Their LangChain collaborators are
  opaque functions to outcomes.
- The frontend's score and result message.

How the model is built:

- Each pydantic model becomes a function from the raw keyword arguments to
  `Ok(value)` or `Err(errors)`. Errors are collected in field order.
- The file system is a `FileSystem` class whose directory and file sets the
  handler's methods change in place. Each method is proved against a pure
  outcome function.
- `calculateScore` is a method with a loop, proved against a recursive count.

Modules (one file each): `Common`, `QuizEnums`, `UrlParse`, `RequestModel`,
`ApiQuizModel`, `QuizEntities`, `DomainResults`, `ValueObjects`,
`HttpErrors`, `Paths`, `FileSystemModel`, `DbFileHandlerModel`,
`LlmErrors`, `DocCreator`, `RagAgent`, `ResultScore`.

Where the system's design description and its code disagree, the model
follows the code:

- The question count is bounded by 3..20, not 3..10.
- Text content is neither required to be non-empty nor to be at least 100
  characters long, by either request model.
- A question's answer is any string. It is not checked against A-D.
- A bad request fails with pydantic's validation error, not
  `InvalidInputError`.
- The answer sheet has no `difficulty_value`.
- The model call has no "insufficient context" outcome.
- No refinement loop exists.
- The index directory has a delete operation, but nothing in the code calls
  it.
- The backend's tests expect the API `QuizRequest` to refuse empty content,
  and expect a `UserAnswer` in the API models. The code does neither.
- The frontend's `UserAnswer` type declares `selected_options`, while
  `calculateScore` reads `selectedOptions`. The model follows
  `calculateScore`.

## Model

| member | source | states |
|---|---|---|
| QuizEnums.ParseQuizType | backend/src/api/models/request.py:6-8 | a quiz type is found exactly for "text" and "url", and its value is the string parsed |
| QuizEnums.ParseDifficulty | backend/src/api/models/request.py:11-14 | a difficulty is found exactly for "beginner", "intermediate" and "advanced", and its value is the string parsed |
| QuizEnums.ValidateQuizType | backend/src/api/models/request.py:20 | an enum field accepts a member as it is, or a string equal to a member's value; a missing field is a Missing error and any other string an EnumMismatch error, at its location |
| QuizEnums.ValidateDifficulty | backend/src/api/models/request.py:24 | the same rule for the difficulty field, with the same Missing and EnumMismatch errors |
| QuizEnums.EnumValuesRoundTrip | backend/src/api/models/request.py:6-14 | parsing a member's value gives that member back |
| QuizEnums.MemberOrValueAgree | backend/src/api/models/request.py:20-24 | passing a member or its value validates to the same member |
| UrlParse.AcceptedUrlShape | backend/src/api/models/request.py:33-34 | every accepted URL is, after preprocessing, a lower-cased http(s) scheme, "://", a non-empty netloc free of '/', '?' and '#', then a rest that is empty or starts at one of those |
| UrlParse.HttpUrlSplits | backend/src/api/models/request.py:33-34 | conversely, an http or https scheme in any case, "://", a plain non-empty netloc and a plain rest split into exactly those parts and are accepted |
| UrlParse.SchemeShape | backend/src/api/models/request.py:33-34 | a recognised http(s) scheme is the lower-cased text before the first ':', and the rest starts after it |
| UrlParse.NetlocShape | backend/src/api/models/request.py:33-34 | a non-empty netloc is exactly the text between "//" and the next delimiter |
| UrlParse.LetterSchemeRecognised | backend/src/api/models/request.py:33 | a run of ASCII letters before ':' is taken as the scheme, lower-cased |
| UrlParse.NetlocSplits | backend/src/api/models/request.py:33-34 | "//" + netloc + rest splits into that netloc and rest |
| UrlParse.NoColonRejected | backend/src/api/models/request.py:34 | text without ':' has no scheme, so it is refused |
| UrlParse.OtherSchemeRejected | backend/src/api/models/request.py:34 | a scheme other than http and https is refused |
| UrlParse.HttpsExampleAccepted | backend/src/api/models/request.py:33-34 | "https://example.com" is accepted |
| UrlParse.PlainWordsRejected | backend/src/api/models/request.py:33-37 | "invalid_url" and "not-a-url" are refused |
| UrlParse.LetterSchemeRejected | backend/src/api/models/request.py:33-34 | any scheme of ASCII letters that lower-cases to neither http nor https is refused |
| UrlParse.FtpExampleRejected | backend/src/api/models/request.py:33-37 | "ftp://example.com" is refused |
| RequestModel.ValidateQuestionCount | backend/src/api/models/request.py:25-27 | a count is accepted exactly in 3..20 and stored as given; below 3 is a ge=3 error, above 20 a le=20 error |
| RequestModel.CheckUrl | backend/src/api/models/request.py:32-38 | the content passes exactly when it is an accepted URL, and is then returned unchanged; otherwise the validator's ValueError message, or urlsplit's own error when that fails |
| RequestModel.Create | backend/src/api/models/request.py:17-38 | a request is built exactly when every field validates and URL content is an accepted URL; the built request holds the inputs unchanged and is valid; a refusal reports at least one error |
| RequestModel.TextContentNotInspected | backend/src/api/models/request.py:31-32 | text content is accepted and stored whatever it is |
| RequestModel.UrlContentRule | backend/src/api/models/request.py:32-38 | with type url, the request is accepted exactly when the content is an accepted URL; the content is stored unchanged; otherwise the only error is the validator's message at "content" |
| RequestModel.AliasAndNameAgree | backend/src/api/models/request.py:18-26 | questionCount and question_count populate the same field; the alias wins when both are given |
| RequestModel.InvalidTypeSkipsUrlCheck | backend/src/api/models/request.py:31 | when the type fails validation, the content validator sees no type, and the type's error is the only one |
| RequestModel.QuestionCountBounds | backend/src/api/models/request.py:25-27 | 2 and 25 are refused with the bound they break; 3 and 20 are accepted |
| RequestModel.UnknownChoicesRejected | backend/src/api/models/request.py:11-14 | "expert" is no difficulty and "not_a_valid_type" no type |
| ApiQuizModel.CreateRequest | backend/src/api/models/quiz.py:19-39 | the dataclass accepts exactly the admissible requests, builds a valid request with the content unchanged, and reports an error otherwise |
| ApiQuizModel.RequestModelsAgree | backend/src/api/models/quiz.py:19-39 | the dataclass and the pydantic model accept the same inputs and build the same value |
| ApiQuizModel.PostInitRunsAfterFields | backend/src/api/models/quiz.py:30-39 | with a bad count and a bad URL, the dataclass reports the count alone, while the model reports both |
| ApiQuizModel.PostInitRejectsBadUrl | backend/src/api/models/quiz.py:34-39 | a URL request breaking the rule fails in `__post_init__`, with the validator's message and no field location |
| ApiQuizModel.CreateApiQuestion | backend/src/api/models/quiz.py:50-55 | a question is built exactly when all four fields are present and the options validate, holding those values |
| ApiQuizModel.ApiAnswerUnconstrained | backend/src/api/models/quiz.py:54 | any answer text is stored as given |
| ApiQuizModel.CreateResponse | backend/src/api/models/quiz.py:58-68 | a response is built exactly when the id is given and the preview holds 3 to 20 questions; a missing field is reported at its location |
| QuizEntities.QuizOptionFrom | backend/src/domain/entities/question.py:10-16 | options are built exactly when A, B, C and D are all given; they hold those texts; the errors are exactly the missing keys |
| QuizEntities.ValidateOptions | backend/src/domain/entities/question.py:21 | an options field takes an instance as it is, or builds one from a mapping; absent is Missing |
| QuizEntities.CreateQuestion | backend/src/domain/entities/question.py:19-25 | a question is built exactly when content (alias "question"), options, answer (alias "correctAnswer") and explanation are given; the alias is looked up first |
| QuizEntities.CreateQuiz | backend/src/domain/entities/quiz.py:12-16 | a quiz is built exactly from 3 to 20 questions, stored as given; fewer is a min_length error, more a max_length error, an absent list a Missing error |
| QuizEntities.AliasOrNameAgree | backend/src/domain/entities/question.py:20-25 | the alias and the field name give the same question |
| QuizEntities.ExtraOptionKeyIgnored | backend/src/domain/entities/question.py:10-16 | an extra key beside A-D changes nothing |
| QuizEntities.MissingOptionRejected | backend/src/domain/entities/question.py:10-16 | with D missing, or C and D missing, exactly those keys are reported, in order |
| QuizEntities.AnyAnswerAccepted | backend/src/domain/entities/question.py:22 | any answer text is accepted at this layer |
| QuizEntities.QuizLengthBounds | backend/src/domain/entities/quiz.py:14-16 | 3 and 20 questions are accepted; 0, 2 and 21 are refused with the bound broken |
| DomainResults.InvalidOptions | backend/src/domain/entities/results.py:39-40 | the filter keeps exactly the answers outside A-D, and is empty exactly when every answer is a letter A-D |
| DomainResults.InvalidOptionsAppend | backend/src/domain/entities/results.py:40 | the filter keeps the list's order: it distributes over concatenation |
| DomainResults.ValidateId | backend/src/domain/entities/results.py:18-24 | an id passes exactly when it is given and non-empty, and is kept as given; "" is the empty-id error and an absent id a Missing error |
| DomainResults.ValidatePreview | backend/src/domain/entities/results.py:11 | the preview passes exactly when it holds 3 to 20 questions, stored as given; an absent preview is a Missing error, and too few or too many questions the min_length or max_length error at its questions |
| DomainResults.ValidateSelectedOptions | backend/src/domain/entities/results.py:26-47 | the answers pass exactly when their number matches a validated quiz and all are letters A-D; the count is reported first, then the invalid letters |
| DomainResults.Create | backend/src/domain/entities/results.py:9-47 | a sheet is built exactly for a non-empty id, a quiz of 3 to 20 questions and one letter A-D per question; it holds the inputs |
| DomainResults.CountCheckedFirst | backend/src/domain/entities/results.py:33-37 | a wrong number of answers is reported as such, even when some answers are not letters |
| DomainResults.MissingPreviewSkipsCount | backend/src/domain/entities/results.py:33-45 | without a validated quiz the count is not checked, but the letters still are |
| DomainResults.EmptyIdRejected | backend/src/domain/entities/results.py:22-23 | an empty id is refused |
| DomainResults.AnswerExamples | backend/src/domain/entities/results.py:34-45 | 3 answers for 5 questions are refused, and so is an "X" or "E" in a sheet of the right length |
| ValueObjects.TrimShape | backend/src/domain/value_objects/quiz.py:8 | stripping keeps a middle slice with only white space cut on either side, and the result starts and ends with a visible character |
| ValueObjects.TrimIdempotent | backend/src/domain/value_objects/quiz.py:8 | stripping twice is stripping once |
| ValueObjects.TrimSurrounded | backend/src/domain/value_objects/quiz.py:8 | white space around a trimmed text is removed and the text kept exactly |
| ValueObjects.TrimEmptyIffBlank | backend/src/domain/value_objects/quiz.py:8 | stripping leaves nothing exactly when the text is all white space |
| ValueObjects.CreateQuizContent | backend/src/domain/value_objects/quiz.py:6-10 | content is accepted exactly when it holds a non-white-space character; its value is the stripped text, non-empty and trimmed |
| ValueObjects.QuizContentKeepsMiddle | backend/src/domain/value_objects/quiz.py:6-10 | stripped content is stored as it is; surrounding white space is removed exactly |
| ValueObjects.BlankContentRejected | backend/src/domain/value_objects/quiz.py:8 | empty or white-space-only content is refused with min_length 1 |
| ValueObjects.CreateQuizType | backend/src/domain/value_objects/quiz.py:13-22 | the type object is built from a member or from "text" or "url" |
| ValueObjects.CreateQuizDifficulty | backend/src/domain/value_objects/quiz.py:25-36 | the difficulty object is built from a member or from one of the three values |
| ValueObjects.CreateQuestionCount | backend/src/domain/value_objects/quiz.py:39-41 | the count object is built exactly for 3..20 and holds the count |
| ValueObjects.ValueObjectExamples | backend/src/domain/value_objects/quiz.py:31-41 | "expert" is refused; 3 and 20 are accepted; 2 and 21 are refused |
| HttpErrors.HandleApplicationException | backend/src/api/exceptions/quiz_exceptions.py:28-48 | ValueError, InvalidInputError and DocumentProcessingError become 400 with their message; VectorStoreOperationError and RAGProcessingError become 500 with their message; anything else becomes 500 "Unexpected error: " + message |
| HttpErrors.StatusIs400Or500 | backend/src/api/exceptions/quiz_exceptions.py:37-48 | the status is 400 exactly for client faults and 500 otherwise, never 404 |
| HttpErrors.MessagePreserved | backend/src/api/exceptions/quiz_exceptions.py:37-48 | the detail always ends with the exception's message, and equals it exactly for the named classes |
| HttpErrors.BaseExceptionIsUnexpected | backend/src/application/exceptions/quiz_creation_exceptions.py:1-30 | a bare base exception of the application is treated as unexpected |
| HttpErrors.DefaultStatuses | backend/src/api/exceptions/quiz_exceptions.py:4-24 | the three HTTP errors default to 400 "Bad request", 404 "Resource not found" and 500 "Internal server error" |
| Paths.Join | backend/src/infrastructure/file_system/database_file_handler.py:23-27 | an absolute second part replaces the first; otherwise the parts are joined by one '/' unless the first is empty or ends with '/' |
| Paths.ResolveJoin | backend/src/infrastructure/file_system/database_file_handler.py:23-27 | joining a plain name onto a path names the entry of that name in the directory the path names |
| Paths.JoinInjective | backend/src/infrastructure/file_system/database_file_handler.py:23-27 | different plain names give different paths under the same directory |
| FileSystemModel.MakeDirsOutcome | backend/src/infrastructure/file_system/database_file_handler.py:33 | on success, the directory and its ancestors exist, files are unchanged, and nothing else is created (for the lexically resolved path; see Left out for '..'); on failure nothing changes; "" fails with ENOENT |
| FileSystemModel.RmTreeOutcome | backend/src/infrastructure/file_system/database_file_handler.py:55 | on success, exactly the subtree at the path is removed; a not-found failure changes nothing |
| FileSystemModel.MakeDirsExisting | backend/src/infrastructure/file_system/database_file_handler.py:33 | creating an existing directory succeeds and changes nothing |
| FileSystemModel.MakeDirsIdempotent | backend/src/infrastructure/file_system/database_file_handler.py:33 | a second creation after a success changes nothing |
| FileSystemModel.MakeDirsValid | backend/src/infrastructure/file_system/database_file_handler.py:33 | creation keeps the tree well formed |
| FileSystemModel.RmTreeValid | backend/src/infrastructure/file_system/database_file_handler.py:55 | removal keeps the tree well formed |
| FileSystemModel.RmTreeMissing | backend/src/infrastructure/file_system/database_file_handler.py:55-58 | removing a path that does not exist raises FileNotFoundError and changes nothing |
| FileSystemModel.RmTreeExactlySubtree | backend/src/infrastructure/file_system/database_file_handler.py:55 | after a removal, an entry remains exactly when it was there and lies outside the subtree |
| FileSystemModel.RmTreeLeavesNothingBelow | backend/src/infrastructure/file_system/database_file_handler.py:55-58 | after a removal that succeeded or found nothing, nothing at or below the path remains and everything else does |
| FileSystemModel.CreateThenRemoveRestores | backend/src/infrastructure/file_system/database_file_handler.py:33-55 | creating a new directory under an existing parent and removing it restores the state |
| FileSystemModel.FileSystem.FindFileAncestor | backend/src/infrastructure/file_system/database_file_handler.py:33-55 | the scan finds a file among the path's proper ancestors exactly when there is one |
| FileSystemModel.FileSystem.MakeDirs | backend/src/infrastructure/file_system/database_file_handler.py:33 | the in-place creation leaves the state and error of `MakeDirsOutcome` and keeps the tree valid |
| FileSystemModel.FileSystem.RmTree | backend/src/infrastructure/file_system/database_file_handler.py:55 | the in-place removal leaves the state and error of `RmTreeOutcome` and keeps the tree valid |
| DbFileHandlerModel.UniqueDirPath | backend/src/infrastructure/file_system/database_file_handler.py:21-27 | the path is built exactly when both settings are set; an unset root or provider gives `os.path.join`'s TypeError text |
| DbFileHandlerModel.DirPathIsEntry | backend/src/infrastructure/file_system/database_file_handler.py:21-27 | the directory of a plain id is the entry of that name in root/provider |
| DbFileHandlerModel.DistinctIdsDistinctDirs | backend/src/infrastructure/file_system/database_file_handler.py:23-27 | different plain ids never share a directory |
| DbFileHandlerModel.CreationFailure | backend/src/infrastructure/file_system/database_file_handler.py:39-49 | ENOENT becomes FileNotFoundError; every other OS error becomes DirectoryCreationError |
| DbFileHandlerModel.CreateUniqueDirectoryOutcome | backend/src/infrastructure/file_system/database_file_handler.py:29-49 | a returned path is the id's path and exists afterwards, with files unchanged; a failure changes nothing and is FileNotFoundError exactly when makedirs raised ENOENT, DirectoryCreationError otherwise |
| DbFileHandlerModel.CreateUniqueDirectoryAsWritten | backend/src/infrastructure/file_system/database_file_handler.py:29-49 | as written, a failure while building the path surfaces as UnboundLocalError |
| DbFileHandlerModel.DeleteUniqueDirectoryOutcome | backend/src/infrastructure/file_system/database_file_handler.py:51-63 | the state is rmtree's; nothing is raised exactly when rmtree succeeded or found nothing; every raised error is DirectoryDeletionError |
| DbFileHandlerModel.DeleteUniqueDirectoryAsWritten | backend/src/infrastructure/file_system/database_file_handler.py:51-63 | as written, a failure while building the path surfaces as UnboundLocalError |
| DbFileHandlerModel.UnsetRootEscapesAsWritten | backend/config/settings.py:37-40 | with the root setting unset, the code as written raises UnboundLocalError in both operations; the corrected ones raise DirectoryCreationError and DirectoryDeletionError |
| DbFileHandlerModel.OperationsKeepValid | backend/src/infrastructure/file_system/database_file_handler.py:29-63 | both operations keep the tree well formed |
| DbFileHandlerModel.CreateExisting | backend/src/infrastructure/file_system/database_file_handler.py:33-37 | creating an existing directory returns its path and changes nothing |
| DbFileHandlerModel.CreateIdempotent | backend/src/infrastructure/file_system/database_file_handler.py:33 | after a success, a second creation gives the same path and the same state |
| DbFileHandlerModel.DeleteRemovesExactlySubtree | backend/src/infrastructure/file_system/database_file_handler.py:55-58 | a deletion without error leaves the id's directory absent, removes what was below it, and keeps every entry outside it |
| DbFileHandlerModel.DeleteMissingIsNoOp | backend/src/infrastructure/file_system/database_file_handler.py:57-58 | deleting a directory that does not exist raises nothing and changes nothing |
| DbFileHandlerModel.CreateThenDeleteRestores | backend/src/infrastructure/file_system/database_file_handler.py:29-63 | creating a fresh directory for a plain id and deleting it restores the tree |
| DbFileHandlerModel.DbFileHandler.CreateUniqueDirectory | backend/src/infrastructure/file_system/database_file_handler.py:29-49 | changes the file system and returns exactly as the corrected `CreateUniqueDirectoryOutcome` says, keeping it valid; it differs from the code as written only when a setting is unset (see Findings) |
| DbFileHandlerModel.DbFileHandler.DeleteUniqueDirectory | backend/src/infrastructure/file_system/database_file_handler.py:51-63 | changes the file system and raises exactly as the corrected `DeleteUniqueDirectoryOutcome` says, keeping it valid; it differs from the code as written only when a setting is unset (see Findings) |
| DocCreator.ToDocuments | backend/src/infrastructure/llm/doc_creator.py:42-44 | one document per piece, in order, with that piece as content and metadata {"source": "text"} |
| DocCreator.PageContentsOfDocuments | backend/src/infrastructure/llm/doc_creator.py:42-44 | reading the contents back gives the pieces |
| DocCreator.TranslateStrIntoDoc | backend/src/infrastructure/llm/doc_creator.py:38-49 | succeeds exactly when the splitter does, with one text-sourced document per piece in order; any failure is TranslationError "Failed to translate string to document: " + cause |
| DocCreator.TranslatedContentsArePieces | backend/src/infrastructure/llm/doc_creator.py:41-45 | the documents' contents are exactly the splitter's pieces |
| DocCreator.LoadDocument | backend/src/infrastructure/llm/doc_creator.py:51-59 | the loader's documents unchanged, or DocumentLoadError "Failed to load document: " + cause, including the default loader None |
| DocCreator.SplitDocument | backend/src/infrastructure/llm/doc_creator.py:61-78 | [] gives [] at once; otherwise the splitter's result, a ValueError as "Invalid document format for splitting: " + cause, and any other failure as "Failed to split document: " + cause |
| DocCreator.SplitEmptyIgnoresSplitter | backend/src/infrastructure/llm/doc_creator.py:63-65 | splitting [] does not depend on the splitter |
| DocCreator.FailuresKeepCause | backend/src/infrastructure/llm/doc_creator.py:46-78 | every failure's message contains the collaborator's message |
| RagAgent.RunChain | backend/src/infrastructure/llm/rag_agent.py:33-42 | a result means the retriever answered for the same input the prompt is filled with, and the model answered that filled prompt; a failure of the retriever or of the prompt is passed on with its kind and message, and once the prompt is filled the model's outcome is the chain's |
| RagAgent.SetRagChain | backend/src/infrastructure/llm/rag_agent.py:30-48 | succeeds exactly when the prompt composes and structured output is available, giving an agent with the same model and prompt and a chain over the retriever; the prompt's failure is reported first, both as RAGChainSetupError "Failed to set up RAG chain: " + cause |
| RagAgent.InvokeChain | backend/src/infrastructure/llm/rag_agent.py:50-77 | without a chain, RAGChainExecutionError "not initialized"; otherwise the chain's quiz is returned; a ValueError becomes LLMResponseParsingError "Failed to parse LLM response: " + cause, and any other failure becomes RAGChainExecutionError |
| RagAgent.UninitializedCallsNothing | backend/src/infrastructure/llm/rag_agent.py:52-55 | without a chain, the answer depends on nothing else |
| RagAgent.InvokeForwardsArguments | backend/src/infrastructure/llm/rag_agent.py:58-67 | a success means the chain ran once with the fixed input and the count and difficulty as given, and its quiz is returned |
| RagAgent.ExecutionFailureMentionsArguments | backend/src/infrastructure/llm/rag_agent.py:75 | the execution error's message names the count, the difficulty and the cause |
| RagAgent.SetChainInitializes | backend/src/infrastructure/llm/rag_agent.py:43-77 | after set_rag_chain succeeds, the agent never reports a missing chain; a retriever failure reaches the caller as an execution error |
| ResultScore.CorrectCount | frontend/src/features/result/utils.ts:7-11 | the count of matching answers is at most the number of questions and at most the number of answers |
| ResultScore.AllCorrectIff | frontend/src/features/result/utils.ts:7-11 | the count equals the number of questions exactly when every question is answered correctly |
| ResultScore.NoAnswersNoPoints | frontend/src/features/result/utils.ts:8 | answers missing at an index count as wrong; no answers give 0 |
| ResultScore.RoundedPercentage | frontend/src/features/result/utils.ts:16 | the percentage is NaN exactly for no questions; otherwise it is the nearest integer to 100c/t, halves rounded up |
| ResultScore.CalculateScore | frontend/src/features/result/utils.ts:3-18 | total is the number of questions, correct the matching count, percentage the rounded ratio |
| ResultScore.PercentageInRange | frontend/src/features/result/utils.ts:16 | with at least one question, the percentage lies in 0..100 |
| ResultScore.PerfectIffAllCorrect | frontend/src/features/result/utils.ts:16 | for 1 to 199 questions, 100 is reached exactly when every answer is right |
| ResultScore.NearPerfectRoundsUp | frontend/src/features/result/utils.ts:16 | 199 right out of 200 rounds to 100 |
| ResultScore.GetResultMessage | frontend/src/features/result/utils.ts:21-31 | PERFECT exactly for 100; EXCELLENT for 66-99; GOOD for 33-65; NEEDS_IMPROVEMENT below 33 and for NaN |
| ResultScore.MessageMonotone | frontend/src/features/result/utils.ts:21-31 | up to 100, a higher percentage never gets a worse message |
| ResultScore.MessageAbovePerfect | frontend/src/features/result/utils.ts:22-25 | 101 gets EXCELLENT, below PERFECT |
| ResultScore.ScoreExamples | frontend/src/features/result/utils.ts:16-30 | an all-correct sheet is perfect; 66/65 and 33/32 fall on either side of their tiers |

## Left out

- Routes, the orchestrator and other entry points: the stub endpoints, the
  request handler and the quiz-creation use case return fixed data or have
  no body.
- Storage and network: FAISS, the embeddings, Google Cloud Storage, the page
  fetcher and every frontend `fetch` are I/O outside the core.
- Logging everywhere, and React state and rendering.
- Interfaces and other copies: the abstract interfaces, and the modules
  that repeat a modelled one line for line.
  - Examples are `doc_translate.py`, `doc_loader.py`, the per-class
    value-object files and `api/models/response.py`.
  - The enums declared in several files are modelled once.
- Python's `urlsplit`:
  - it does not validate the host in brackets (`_check_bracketed_host`);
  - it does not check the netloc for NFKC normalisation;
  - its cache, and its bytes inputs, are not modelled.
  - The model raises on unbalanced brackets only.
  - Schemes are lower-cased for ASCII only, which is all a scheme can hold.
- Pydantic:
  - a non-string value given for a string field, and lax or strict
    coercion, are not modelled;
  - the nested errors of a quiz's list elements are not modelled: questions
    are passed to `Quiz` as already validated values;
  - only the kind of each error is modelled, not its message text. This
    covers the Japanese messages of `UserAnswer` and the unordered set it
    prints.
- Frozenness of the records: it is inherent to Dafny datatypes, so it is
  not stated separately.
- Paths:
  - paths are resolved lexically, so ".." is not followed through symlinks;
  - symlinks, permissions and full disks are not modelled;
  - the filename that Python appends to an OS error message is not modelled.
- rmtree on the root: `shutil.rmtree("/")` is modelled as emptying the tree
  and then failing with EBUSY.
- Paths with '.' or '..' components are resolved lexically before the
  file system is consulted. The handler's plain ids never produce such
  paths, but for other inputs the model differs from Python:
  - `os.makedirs("a/../b")` with `a` missing also creates `a`, because
    makedirs recurses into the missing head `a/..`; the model creates `b`
    only.
  - `shutil.rmtree("a/../b")` with `a` missing raises FileNotFoundError;
    the model removes `b`.
  - `shutil.rmtree(".")` empties the directory and then fails with EINVAL;
    the model removes the working directory itself.
- The `CharacterTextSplitter` algorithm, its defaults 2000/100 and the
  loaders: they are opaque. Only how the creator calls them and reacts to
  their outcome is modelled.
- LangChain internals: the retriever, the prompt and the model are opaque
  functions. Composing a chain can only fail at the prompt or at
  `with_structured_output`.
- Truthiness of the chain: `if not self.rag_chain` is modelled as "no chain
  set". A chain object that is falsy for another reason is not modelled.
- ResultScore.RoundedPercentage: JavaScript's double arithmetic
  (`Math.round(c / t * 100)`) is replaced by exact round-half-up. The two
  are not proved to agree.
- ResultScore.PerfectIffAllCorrect: stated for fewer than 200 questions
  only, because from 200 questions on one wrong answer can still round to
  100 (`NearPerfectRoundsUp`). Quizzes hold at most 20 questions.
- ResultScore.MessageMonotone: stated for percentages up to 100 only,
  because above 100 the message drops back from PERFECT to EXCELLENT
  (`MessageAbovePerfect`). Percentages never exceed 100
  (`PercentageInRange`).
- ResultScore.CalculateScore: the frontend's `UserAnswer` declares
  `selected_options`, while the function reads `selectedOptions`. The model
  gives the function the field it reads.

## Findings

| source | as written | input that shows it | evidently intended | confidence | as-written member | corrected member |
|---|---|---|---|---|---|---|
| backend/src/infrastructure/file_system/database_file_handler.py:32-49 | when building the path raises, the `except Exception` message reads `dir_path`, which was never assigned, so `UnboundLocalError` escapes instead of `DirectoryCreationError` (and the same for deletion, lines 54-63) | `TMP_VECTORDB_PATH` unset, so `Settings.embeddings.TMP_VECTORDB_PATH` is `None` (backend/config/settings.py:37-40) and `os.path.join(None, ...)` raises `TypeError` | the failure is reported as `DirectoryCreationError` / `DirectoryDeletionError`, here naming the id | high, not executed | DbFileHandlerModel.CreateUniqueDirectoryAsWritten | DbFileHandlerModel.CreateUniqueDirectoryOutcome |
