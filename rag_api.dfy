/** The RAG router: a process-wide dict from session id to the retriever
    built over that session's uploaded PDF, and the handlers that fill it
    (upload), read it (query, document info) and empty it (delete).

    The framework and the toolkit behind it are parameters: `save` stands for
    creating the files directory and writing the upload to a path,
    `createRetriever` for `create_rag_retriever`, `createChain` for
    `create_rag_chain` and `astream` for running the chain on a question. */
module RagApi {
  import opened Wrappers
  import PyText
  import opened SseStream

  type SessionId = string
  type Path = string

  const CACHE_DIR: Path := ".cache"
  /** Where uploads are written; `os.path.join(CACHE_DIR, "files")`. */
  const FILES_DIR: Path := PyText.Join(CACHE_DIR, "files")

  const ONLY_PDF := "Only PDF files are supported"
  const NO_FILE := "No file uploaded for this session. Please upload a PDF file first."
  const UPLOADED := "File uploaded and processed successfully"
  const DELETED := "RAG session deleted successfully"
  const NOT_FOUND := "RAG session not found"

  /** Opaque handles for what the toolkit builds. */
  datatype Retriever = Retriever(handle: nat)
  datatype Chain = Chain(handle: nat)

  /** The value stored per session: `{retriever, filename, file_path}`. */
  datatype Binding = Binding(retriever: Retriever, filename: string, filePath: Path)

  type Store = map<SessionId, Binding>

  /** An HTTP error response. Its detail is either plain text or the string
      form of another `HTTPException` that was caught and re-raised. */
  datatype HttpError = HttpError(status: nat, detail: Detail)
  datatype Detail = Text(text: string) | StrOf(cause: HttpError)

  /** What a handler's `try` block can raise. */
  datatype Exception = HttpException(error: HttpError) | OtherException(description: string)

  /** The handlers' blanket `except Exception as e: raise HTTPException(500, str(e))`:
      every exception, an `HTTPException` included, becomes a 500. */
  function Rewrap(e: Exception): (r: HttpError)
    ensures r.status == 500
    ensures e.HttpException? <==> r.detail.StrOf?
    ensures e.HttpException? ==> r.detail.cause == e.error
    ensures e.OtherException? ==> r.detail == Text(e.description)
  {
    HttpError(500, match e
      case HttpException(h) => StrOf(h)
      case OtherException(d) => Text(d))
  }

  datatype UploadResponse = UploadResponse(message: string, filename: string, sessionId: SessionId, filePath: Path)

  datatype QueryRequest = QueryRequest(sessionId: SessionId, question: string, model: string, promptFile: string, temperature: Option<real>)

  /** The arguments `create_rag_chain` receives. */
  datatype ChainConfig = ChainConfig(promptFile: string, retriever: Retriever, model: string, temperature: Option<real>)

  datatype DocumentInfo =
    | NoDocument(sessionId: SessionId)
    | Document(sessionId: SessionId, filename: string, filePath: Path)

  datatype DeleteReply = DeleteReply(message: string, sessionId: SessionId)

  /** `filename.lower().endswith('.pdf')`: the name ends in a dot followed by
      `p`, `d`, `f` in either case. */
  predicate HasPdfExtension(filename: string)
  {
    PyText.EndsWith(PyText.Lower(filename), ".pdf")
  }

  lemma PdfExtensionChars(filename: string)
    ensures HasPdfExtension(filename) <==>
              && |filename| >= 4
              && filename[|filename| - 4] == '.'
              && filename[|filename| - 3] in "pP"
              && filename[|filename| - 2] in "dD"
              && filename[|filename| - 1] in "fF"
  {
    var n := |filename|;
    var l := PyText.Lower(filename);
    if n >= 4 {
      assert l[n - 4..] == [l[n - 4], l[n - 3], l[n - 2], l[n - 1]];
    }
  }

  /** The extension check in examples: any capitalisation of `.pdf` passes,
      other extensions and a `.pdf` that is not last fail. */
  lemma PdfExtensionExamples()
    ensures HasPdfExtension("X.PDF")
    ensures HasPdfExtension("report.Pdf")
    ensures !HasPdfExtension("notes.txt")
    ensures !HasPdfExtension("report.pdf.txt")
    ensures !HasPdfExtension("pdf")
  {
    PdfExtensionChars("X.PDF");
    PdfExtensionChars("report.Pdf");
    PdfExtensionChars("notes.txt");
    PdfExtensionChars("report.pdf.txt");
    PdfExtensionChars("pdf");
  }

  /** The path an upload is written to. */
  function UploadPath(filename: string): Path
  {
    PyText.Join(FILES_DIR, filename)
  }

  /** A relative file name is written directly under `.cache/files`; the
      session id plays no part, so two sessions uploading the same name share
      one path. */
  lemma UploadPathUnderFilesDir(filename: string)
    requires filename == [] || filename[0] != '/'
    ensures UploadPath(filename) == ".cache/files/" + filename
  {
    assert FILES_DIR == ".cache/files";
    PyText.JoinRelative(FILES_DIR, filename);
  }

  /** The `try` block of `upload_pdf` up to the store update: the extension
      check, the path, the write, then the retriever. */
  function UploadAttempt(filename: string, save: Path -> Outcome, createRetriever: Path -> Result<Retriever, string>): Result<Binding, Exception>
  {
    if !HasPdfExtension(filename) then
      Err(HttpException(HttpError(400, Text(ONLY_PDF))))
    else
      var path := UploadPath(filename);
      match save(path)
      case Raised(d) => Err(OtherException(d))
      case Completed =>
        match createRetriever(path)
        case Err(d) => Err(OtherException(d))
        case Ok(retriever) => Ok(Binding(retriever, filename, path))
  }

  /** `upload_pdf`: the new store and the reply. */
  function Upload(store: Store, sessionId: SessionId, filename: string, save: Path -> Outcome, createRetriever: Path -> Result<Retriever, string>): (Store, Result<UploadResponse, HttpError>)
  {
    match UploadAttempt(filename, save, createRetriever)
    case Err(e) => (store, Err(Rewrap(e)))
    case Ok(b) => (store[sessionId := b], Ok(UploadResponse(UPLOADED, filename, sessionId, b.filePath)))
  }

  /** `rag_query`: the response frames, or the error the request fails with
      before any frame is sent. */
  function Query(store: Store, req: QueryRequest, createChain: ChainConfig -> Result<Chain, string>, astream: (Chain, string) -> StreamRun): Result<seq<Frame>, HttpError>
  {
    match Get(store, req.sessionId)
    case None => Err(Rewrap(HttpException(HttpError(400, Text(NO_FILE)))))
    case Some(binding) =>
      match createChain(ChainConfig(req.promptFile, binding.retriever, req.model, req.temperature))
      case Err(d) => Err(Rewrap(OtherException(d)))
      case Ok(chain) => Ok(Frames(astream(chain, req.question)))
  }

  /** `get_session_document`: reports no document exactly when the session
      has no binding, and otherwise the stored file name and path. */
  function SessionDocument(store: Store, sessionId: SessionId): (info: DocumentInfo)
    ensures info.sessionId == sessionId
    ensures info.NoDocument? <==> sessionId !in store
    ensures info.Document? ==> info.filename == store[sessionId].filename && info.filePath == store[sessionId].filePath
  {
    match Get(store, sessionId)
    case None => NoDocument(sessionId)
    case Some(b) => Document(sessionId, b.filename, b.filePath)
  }

  /** `delete_rag_session`: the new store and the reply. */
  function Delete(store: Store, sessionId: SessionId): (Store, DeleteReply)
  {
    if sessionId in store then (store - {sessionId}, DeleteReply(DELETED, sessionId))
    else (store, DeleteReply(NOT_FOUND, sessionId))
  }

  /** A file whose name fails the extension check is rejected before any
      collaborator runs: the reply is the same whatever the write and the
      retriever would have done, the store is unchanged, and the 400 raised
      for it reaches the caller as a 500 whose detail is that 400's text. */
  lemma RejectedUpload(store: Store, sessionId: SessionId, filename: string,
                       save: Path -> Outcome, createRetriever: Path -> Result<Retriever, string>,
                       save': Path -> Outcome, createRetriever': Path -> Result<Retriever, string>)
    requires !HasPdfExtension(filename)
    ensures Upload(store, sessionId, filename, save, createRetriever) == Upload(store, sessionId, filename, save', createRetriever')
    ensures Upload(store, sessionId, filename, save, createRetriever).0 == store
    ensures Upload(store, sessionId, filename, save, createRetriever).1
              == Err(HttpError(500, StrOf(HttpError(400, Text(ONLY_PDF)))))
  {
  }

  /** A PDF whose write and retriever both succeed is bound to the session,
      replacing any earlier binding for it, with the upload's own file name
      and the path derived from it; other sessions keep their bindings. */
  lemma SuccessfulUpload(store: Store, sessionId: SessionId, filename: string,
                         save: Path -> Outcome, createRetriever: Path -> Result<Retriever, string>)
    requires HasPdfExtension(filename)
    requires save(UploadPath(filename)) == Completed
    requires createRetriever(UploadPath(filename)).Ok?
    ensures var (store', reply) := Upload(store, sessionId, filename, save, createRetriever);
            && store'.Keys == store.Keys + {sessionId}
            && store'[sessionId] == Binding(createRetriever(UploadPath(filename)).value, filename, UploadPath(filename))
            && (forall other :: other in store && other != sessionId ==> store'[other] == store[other])
            && reply == Ok(UploadResponse(UPLOADED, filename, sessionId, UploadPath(filename)))
  {
  }

  /** A PDF whose write or retriever construction raises leaves the store as
      it was, so an earlier binding for the session survives, and the caller
      gets a 500 carrying the exception's text. */
  lemma FailedUpload(store: Store, sessionId: SessionId, filename: string,
                     save: Path -> Outcome, createRetriever: Path -> Result<Retriever, string>)
    requires HasPdfExtension(filename)
    requires save(UploadPath(filename)).Raised? || createRetriever(UploadPath(filename)).Err?
    ensures var (store', reply) := Upload(store, sessionId, filename, save, createRetriever);
            && store' == store
            && reply.Err? && reply.error.status == 500
            && reply.error.detail == Text(if save(UploadPath(filename)).Raised?
                                          then save(UploadPath(filename)).description
                                          else createRetriever(UploadPath(filename)).error)
  {
  }

  /** Two sessions uploading the same file name are given the same path. */
  lemma SharedUploadPath(store1: Store, store2: Store, session1: SessionId, session2: SessionId, filename: string,
                         save: Path -> Outcome, createRetriever: Path -> Result<Retriever, string>)
    requires Upload(store1, session1, filename, save, createRetriever).1.Ok?
    ensures Upload(store2, session2, filename, save, createRetriever).1.Ok?
    ensures Upload(store1, session1, filename, save, createRetriever).1.value.filePath
         == Upload(store2, session2, filename, save, createRetriever).1.value.filePath
  {
  }

  /** Every error either handler returns is a 500. */
  lemma HandlerErrorsAre500(store: Store, sessionId: SessionId, filename: string,
                            save: Path -> Outcome, createRetriever: Path -> Result<Retriever, string>,
                            req: QueryRequest, createChain: ChainConfig -> Result<Chain, string>, astream: (Chain, string) -> StreamRun)
    ensures Upload(store, sessionId, filename, save, createRetriever).1.Err? ==>
              Upload(store, sessionId, filename, save, createRetriever).1.error.status == 500
    ensures Query(store, req, createChain, astream).Err? ==> Query(store, req, createChain, astream).error.status == 500
  {
  }

  /** A query for a session without a binding fails before a chain is built,
      whatever the question, model or prompt: a 500 wrapping the 400 "No file
      uploaded" exception. */
  lemma QueryWithoutDocument(store: Store, req: QueryRequest,
                             createChain: ChainConfig -> Result<Chain, string>, astream: (Chain, string) -> StreamRun)
    requires req.sessionId !in store
    ensures Query(store, req, createChain, astream) == Err(HttpError(500, StrOf(HttpError(400, Text(NO_FILE)))))
  {
  }

  /** A query for a bound session builds its chain over that session's own
      retriever, and streams a response that ends in exactly one closing
      frame: `[DONE]` when the chain's stream completes, and an error frame
      when it raises. */
  lemma QueryWithDocument(store: Store, req: QueryRequest,
                          createChain: ChainConfig -> Result<Chain, string>, astream: (Chain, string) -> StreamRun)
    requires req.sessionId in store
    requires createChain(ChainConfig(req.promptFile, store[req.sessionId].retriever, req.model, req.temperature)).Ok?
    ensures var chain := createChain(ChainConfig(req.promptFile, store[req.sessionId].retriever, req.model, req.temperature)).value;
            var run := astream(chain, req.question);
            && Query(store, req, createChain, astream) == Ok(Frames(run))
            && CountClosing(Frames(run)) == 1
            && Decode(Frames(run)) == Some(run)
  {
    var chain := createChain(ChainConfig(req.promptFile, store[req.sessionId].retriever, req.model, req.temperature)).value;
    ExactlyOneClosing(astream(chain, req.question));
    DecodeFrames(astream(chain, req.question));
  }

  /** Upload then query: once an upload succeeds, a query on the same session
      no longer fails for want of a document, and its chain is built over the
      retriever that upload produced. */
  lemma UploadThenQuery(store: Store, sessionId: SessionId, filename: string,
                        save: Path -> Outcome, createRetriever: Path -> Result<Retriever, string>,
                        req: QueryRequest, createChain: ChainConfig -> Result<Chain, string>, astream: (Chain, string) -> StreamRun)
    requires Upload(store, sessionId, filename, save, createRetriever).1.Ok?
    requires req.sessionId == sessionId
    ensures var store' := Upload(store, sessionId, filename, save, createRetriever).0;
            var config := ChainConfig(req.promptFile, createRetriever(UploadPath(filename)).value, req.model, req.temperature);
            && createRetriever(UploadPath(filename)).Ok?
            && Query(store', req, createChain, astream)
               == match createChain(config)
                  case Err(d) => Err(HttpError(500, Text(d)))
                  case Ok(chain) => Ok(Frames(astream(chain, req.question)))
  {
  }

  /** Two uploads in a row to one session: only the second binding remains. */
  lemma SecondUploadWins(store: Store, sessionId: SessionId,
                         file1: string, save1: Path -> Outcome, create1: Path -> Result<Retriever, string>,
                         file2: string, save2: Path -> Outcome, create2: Path -> Result<Retriever, string>)
    requires Upload(store, sessionId, file1, save1, create1).1.Ok?
    requires Upload(Upload(store, sessionId, file1, save1, create1).0, sessionId, file2, save2, create2).1.Ok?
    ensures var after := Upload(Upload(store, sessionId, file1, save1, create1).0, sessionId, file2, save2, create2).0;
            SessionDocument(after, sessionId) == Document(sessionId, file2, UploadPath(file2))
  {
  }

  /** Delete removes the session's binding and reports it deleted when there
      is one; otherwise it reports not found and changes nothing. Other
      sessions keep their bindings, and the session then has no document. */
  lemma DeleteEffect(store: Store, sessionId: SessionId)
    ensures var (store', reply) := Delete(store, sessionId);
            && reply.sessionId == sessionId
            && (reply.message == DELETED <==> sessionId in store)
            && (reply.message == NOT_FOUND <==> sessionId !in store)
            && store'.Keys == store.Keys - {sessionId}
            && (forall other :: other in store' ==> store'[other] == store[other])
            && SessionDocument(store', sessionId) == NoDocument(sessionId)
  {
  }

  /** Deleting twice: the second delete always reports not found and leaves
      the store as the first one left it. */
  lemma DeleteTwice(store: Store, sessionId: SessionId)
    ensures var store' := Delete(store, sessionId).0;
            Delete(store', sessionId) == (store', DeleteReply(NOT_FOUND, sessionId))
  {
  }

  /** Every stored binding is for a file that passed the extension check and
      records the path that file was written to. */
  ghost predicate WellFormed(store: Store)
  {
    forall id :: id in store ==>
      HasPdfExtension(store[id].filename) && store[id].filePath == UploadPath(store[id].filename)
  }

  /** The operations that change the store, with the collaborators' behaviour
      for an upload. */
  datatype Op =
    | UploadOp(sessionId: SessionId, filename: string, save: Path -> Outcome, createRetriever: Path -> Result<Retriever, string>)
    | DeleteOp(sessionId: SessionId)

  function Apply(store: Store, op: Op): Store
  {
    match op
    case UploadOp(id, f, s, c) => Upload(store, id, f, s, c).0
    case DeleteOp(id) => Delete(store, id).0
  }

  /** The store after a sequence of requests, handled one after another. */
  function Run(store: Store, ops: seq<Op>): Store
    decreases |ops|
  {
    if ops == [] then store else Run(Apply(store, ops[0]), ops[1..])
  }

  /** The requests of a sequence that name the given session. */
  function ForSession(ops: seq<Op>, sessionId: SessionId): (r: seq<Op>)
    ensures forall op :: op in r ==> op.sessionId == sessionId
  {
    if ops == [] then []
    else (if ops[0].sessionId == sessionId then [ops[0]] else []) + ForSession(ops[1..], sessionId)
  }

  /** Uploads and deletes keep every binding well formed. */
  lemma {:induction false} RunWellFormed(store: Store, ops: seq<Op>)
    requires WellFormed(store)
    ensures WellFormed(Run(store, ops))
    decreases |ops|
  {
    if ops != [] {
      var next := Apply(store, ops[0]);
      assert WellFormed(next);
      RunWellFormed(next, ops[1..]);
    }
  }

  /** Sessions are independent: what a session is bound to after any sequence
      of uploads and deletes depends only on the requests naming it. */
  lemma {:induction false} SessionsIndependent(store1: Store, store2: Store, ops: seq<Op>, sessionId: SessionId)
    requires Get(store1, sessionId) == Get(store2, sessionId)
    ensures Get(Run(store1, ops), sessionId) == Get(Run(store2, ForSession(ops, sessionId)), sessionId)
    decreases |ops|
  {
    if ops != [] {
      var next1 := Apply(store1, ops[0]);
      if ops[0].sessionId == sessionId {
        assert ForSession(ops, sessionId) == [ops[0]] + ForSession(ops[1..], sessionId);
        var next2 := Apply(store2, ops[0]);
        assert Get(next1, sessionId) == Get(next2, sessionId);
        assert ([ops[0]] + ForSession(ops[1..], sessionId))[1..] == ForSession(ops[1..], sessionId);
        SessionsIndependent(next1, next2, ops[1..], sessionId);
      } else {
        assert ForSession(ops, sessionId) == ForSession(ops[1..], sessionId);
        assert Get(next1, sessionId) == Get(store1, sessionId);
        SessionsIndependent(next1, store2, ops[1..], sessionId);
      }
    }
  }

  /** `retriever_store` and the handlers that use it. */
  class RagRouter {
    var retrieverStore: Store

    /** Every binding came from an accepted upload. */
    ghost predicate Valid()
      reads this
    {
      WellFormed(retrieverStore)
    }

    /** The router as the module starts: no session has a document. */
    constructor ()
      ensures Valid() && retrieverStore == map[]
    {
      retrieverStore := map[];
    }

    /** `upload_pdf`: checks the extension, derives the path, writes the file,
        builds the retriever, and only then overwrites the session's binding. */
    method UploadPdf(sessionId: SessionId, filename: string, save: Path -> Outcome, createRetriever: Path -> Result<Retriever, string>)
      returns (reply: Result<UploadResponse, HttpError>)
      requires Valid()
      modifies this
      ensures Valid()
      ensures (retrieverStore, reply) == Upload(old(retrieverStore), sessionId, filename, save, createRetriever)
    {
      if !HasPdfExtension(filename) {
        return Err(Rewrap(HttpException(HttpError(400, Text(ONLY_PDF)))));
      }
      var path := PyText.Join(FILES_DIR, filename);
      var written := save(path);
      if written.Raised? {
        return Err(Rewrap(OtherException(written.description)));
      }
      var built := createRetriever(path);
      if built.Err? {
        return Err(Rewrap(OtherException(built.error)));
      }
      retrieverStore := retrieverStore[sessionId := Binding(built.value, filename, path)];
      reply := Ok(UploadResponse(UPLOADED, filename, sessionId, path));
    }

    /** `rag_query`: refuses a session without a binding, builds the chain
        over the bound retriever, and streams the frames of `generate()`. */
    method RagQuery(req: QueryRequest, createChain: ChainConfig -> Result<Chain, string>, astream: (Chain, string) -> StreamRun)
      returns (reply: Result<seq<Frame>, HttpError>)
      ensures reply == Query(retrieverStore, req, createChain, astream)
    {
      var sessionData := Get(retrieverStore, req.sessionId);
      if sessionData.None? {
        return Err(Rewrap(HttpException(HttpError(400, Text(NO_FILE)))));
      }
      var chain := createChain(ChainConfig(req.promptFile, sessionData.value.retriever, req.model, req.temperature));
      if chain.Err? {
        return Err(Rewrap(OtherException(chain.error)));
      }
      var frames := Generate(astream(chain.value, req.question));
      reply := Ok(frames);
    }

    /** `delete_rag_session`. */
    method DeleteRagSession(sessionId: SessionId) returns (reply: DeleteReply)
      requires Valid()
      modifies this
      ensures Valid()
      ensures (retrieverStore, reply) == Delete(old(retrieverStore), sessionId)
    {
      if sessionId in retrieverStore {
        retrieverStore := retrieverStore - {sessionId};
        return DeleteReply(DELETED, sessionId);
      }
      reply := DeleteReply(NOT_FOUND, sessionId);
    }
  }
}
