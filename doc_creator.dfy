/** The document creator (`infrastructure/llm/doc_creator.py`): turning a
    text into documents, loading documents through a loader, and splitting
    documents, each wrapping the collaborator's failure in its own
    exception.  The splitter and the loader are opaque: they are given as
    functions to their outcomes. */
module DocCreator {
  import opened Common
  import opened LlmErrors

  /** A LangChain `Document`. */
  datatype Document = Document(pageContent: string, metadata: map<string, string>)

  /** The metadata every document made from a text carries. */
  const TextSourceMetadata: map<string, string> := map["source" := "text"]

  /** A `TextSplitter`: `split_text` and `split_documents`. */
  datatype TextSplitter = TextSplitter(
    splitText: string -> Outcome<seq<string>>,
    splitDocuments: seq<Document> -> Outcome<seq<Document>>)

  /** A `BaseLoader`: `load()`. */
  datatype Loader = Loader(load: () -> Outcome<seq<Document>>)

  /** `DocumentCreatorImpl`; the loader defaults to `None`. */
  datatype DocumentCreatorImpl = DocumentCreatorImpl(documentLoader: Option<Loader>, textSplitter: TextSplitter)

  const NoLoaderMessage := "'NoneType' object has no attribute 'load'"

  /** One document per piece, in order, each marked as coming from text. */
  function ToDocuments(texts: seq<string>): (r: seq<Document>)
    ensures |r| == |texts|
    ensures forall i :: 0 <= i < |r| ==> r[i].pageContent == texts[i] && r[i].metadata == TextSourceMetadata
  {
    if texts == [] then []
    else [Document(texts[0], TextSourceMetadata)] + ToDocuments(texts[1..])
  }

  function PageContents(docs: seq<Document>): (r: seq<string>)
    ensures |r| == |docs|
  {
    if docs == [] then [] else [docs[0].pageContent] + PageContents(docs[1..])
  }

  /** Reading the contents back gives the pieces: no piece is lost, merged
      or reordered. */
  lemma {:induction false} PageContentsOfDocuments(texts: seq<string>)
    ensures PageContents(ToDocuments(texts)) == texts
  {
    if texts != [] {
      PageContentsOfDocuments(texts[1..]);
      assert ToDocuments(texts)[1..] == ToDocuments(texts[1..]);
    }
  }

  /** `translate_str_into_doc(text)`. */
  function TranslateStrIntoDoc(c: DocumentCreatorImpl, text: string): (r: Result<seq<Document>, LlmError>)
    ensures r.Ok? <==> c.textSplitter.splitText(text).Returned?
    ensures r.Ok? ==> var pieces := c.textSplitter.splitText(text).value;
      && |r.value| == |pieces|
      && forall i :: 0 <= i < |pieces| ==> r.value[i] == Document(pieces[i], TextSourceMetadata)
    ensures r.Err? ==> r.error == TranslationError("Failed to translate string to document: " + c.textSplitter.splitText(text).message)
  {
    match c.textSplitter.splitText(text)
    case Returned(texts) => Ok(ToDocuments(texts))
    case RaisedValueError(m) => Err(TranslationError("Failed to translate string to document: " + m))
    case RaisedOther(m) => Err(TranslationError("Failed to translate string to document: " + m))
  }

  /** The documents' contents are the splitter's pieces. */
  lemma TranslatedContentsArePieces(c: DocumentCreatorImpl, text: string)
    requires c.textSplitter.splitText(text).Returned?
    ensures PageContents(TranslateStrIntoDoc(c, text).value) == c.textSplitter.splitText(text).value
  {
    PageContentsOfDocuments(c.textSplitter.splitText(text).value);
  }

  /** `load_document()`: the loader's documents as they are. Without a
      loader the call on `None` fails like any other loader failure. */
  function LoadDocument(c: DocumentCreatorImpl): (r: Result<seq<Document>, LlmError>)
    ensures c.documentLoader.None? ==> r == Err(DocumentLoadError("Failed to load document: " + NoLoaderMessage))
    ensures c.documentLoader.Some? ==>
      (r.Ok? <==> c.documentLoader.value.load().Returned?)
      && (r.Ok? ==> r.value == c.documentLoader.value.load().value)
      && (r.Err? ==> r.error == DocumentLoadError("Failed to load document: " + c.documentLoader.value.load().message))
  {
    match c.documentLoader
    case None => Err(DocumentLoadError("Failed to load document: " + NoLoaderMessage))
    case Some(loader) =>
      match loader.load()
      case Returned(docs) => Ok(docs)
      case RaisedValueError(m) => Err(DocumentLoadError("Failed to load document: " + m))
      case RaisedOther(m) => Err(DocumentLoadError("Failed to load document: " + m))
  }

  /** `split_document(document)`: an empty list is returned at once;
      otherwise the splitter's result, with a `ValueError` and any other
      failure told apart in the message. */
  function SplitDocument(c: DocumentCreatorImpl, docs: seq<Document>): (r: Result<seq<Document>, LlmError>)
    ensures docs == [] ==> r == Ok([])
    ensures docs != [] ==> var o := c.textSplitter.splitDocuments(docs);
      && (r.Ok? <==> o.Returned?)
      && (r.Ok? ==> r.value == o.value)
      && (o.RaisedValueError? ==> r == Err(DocumentSplitException("Invalid document format for splitting: " + o.message)))
      && (o.RaisedOther? ==> r == Err(DocumentSplitException("Failed to split document: " + o.message)))
  {
    if docs == [] then Ok([])
    else
      match c.textSplitter.splitDocuments(docs)
      case Returned(split) => Ok(split)
      case RaisedValueError(m) => Err(DocumentSplitException("Invalid document format for splitting: " + m))
      case RaisedOther(m) => Err(DocumentSplitException("Failed to split document: " + m))
  }

  /** Splitting nothing does not depend on the splitter at all. */
  lemma SplitEmptyIgnoresSplitter(c1: DocumentCreatorImpl, c2: DocumentCreatorImpl)
    ensures SplitDocument(c1, []) == SplitDocument(c2, []) == Ok([])
  {
  }

  /** Every failure of the creator keeps the collaborator's message at its
      end, after a prefix naming the step. */
  lemma FailuresKeepCause(c: DocumentCreatorImpl, text: string, docs: seq<Document>)
    ensures TranslateStrIntoDoc(c, text).Err? ==>
      Contains(TranslateStrIntoDoc(c, text).error.message, c.textSplitter.splitText(text).message)
    ensures docs != [] && SplitDocument(c, docs).Err? ==>
      Contains(SplitDocument(c, docs).error.message, c.textSplitter.splitDocuments(docs).message)
  {
    var t := c.textSplitter.splitText(text);
    if !t.Returned? {
      CauseRecoverable("Failed to translate string to document: ", t.message);
    }
    var o := c.textSplitter.splitDocuments(docs);
    if !o.Returned? {
      CauseRecoverable("Invalid document format for splitting: ", o.message);
      CauseRecoverable("Failed to split document: ", o.message);
    }
  }
}
