# Session state and RAG streaming of the AI backend, in Dafny

This project models the two stateful parts of the backend's FastAPI service.

- **The conversation-history store** (`ai_backend/app/session_manager.py`). This is a process-wide dict
  from session id to a LangChain `ChatMessageHistory`. A history is created empty the first time a
  session asks for it, is cleared in place on request, and is never removed. `SessionManager.SessionStore`
  keeps the dict's keys in insertion order (`order`) and the history object stored under each key
  (`store`). `ChatMessageHistory` is a small class that holds a message list, so a caller holding a
  history sees the in-place `clear()`. The methods are specified by the abstract value
  `Histories(): map<SessionId, seq<Message>>`.
- **The RAG router** (`ai_backend/app/rag_api.py`). This is a second process-wide dict,
  `retriever_store`, from session id to a binding `{retriever, filename, file_path}`, plus the handlers
  that use it:
  - upload: extension check, path, write, retriever, then overwrite of the binding
  - query: refuses an unbound session, builds the chain, streams frames
  - session-document info
  - delete

  Each handler is a pure function on `Store = map<SessionId, Binding>` (`Upload`, `Query`,
  `SessionDocument`, `Delete`). The class `RagApi.RagRouter` holds `retrieverStore`, and its upload,
  query and delete methods are proved equal to the matching pure function. The document-info handler
  only reads the dict, so it is `SessionDocument` applied to `retrieverStore`. The lemmas state what the handlers
  promise, including over whole sequences of requests (`Run`).
- **The `generate()` framing** (`SseStream`). A run of the chain is the tokens it yielded and how it
  ended (`Completed`, or `Raised` with the exception's text). `Frames(run)` is one token frame per token
  followed by exactly one closing frame: `[DONE]`, or an error frame. `Generate` is the loop that
  produces it. The properties are stated against two independent readings of a frame sequence:
  - the client's parser `Decode`, which gives a round trip in both directions
  - the state machine `INIT -> STREAMING -> DONE | ERRORED` (`Next`, `Replay`)

The external collaborators are parameters of the handlers, each a function that may fail:
- `save`: `os.makedirs`, then opening and writing the uploaded bytes to the path
- `createRetriever`: `create_rag_retriever`
- `createChain`: `create_rag_chain`
- `astream`: `chain.astream(question)`

`os.path.join` is modelled as `posixpath.join` for two arguments (`PyText.Join`). `FILES_DIR` is
`.cache/files`, as in `ai_backend/app/config.py:56-57`.

Exceptions follow the code. The 400 `HTTPException` that the upload handler raises for a non-PDF file,
and the one the query handler raises for a session with no document, are both raised inside the
handler's `try` (ai_backend/app/rag_api.py:61-64 and 109-112). The blanket `except Exception`
(ai_backend/app/rag_api.py:92-93 and 145-146) then catches them and re-raises them as a 500 whose
detail is the text of the 400. The model gives what the code does, not the 400 the handlers raise first: `HttpError(500, StrOf(HttpError(400, …)))` (`Rewrap`,
`RejectedUpload`, `QueryWithoutDocument`, `HandlerErrorsAre500`). Every other exception in those
handlers becomes `HttpError(500, Text(str(e)))`.

Two further behaviours are kept as the code has them.
- The stored path depends only on the file name. Two sessions uploading the same name share one path
  (`SharedUploadPath`).
- An absolute file name replaces `FILES_DIR` altogether (`PyText.JoinAbsolute`).

## Model

| member | source | states |
|---|---|---|
| `SessionManager.SessionStore.constructor` | ai_backend/app/session_manager.py:12 | the store starts with no sessions, and it is valid: keys listed once each, no history shared between sessions |
| `SessionManager.SessionStore.GetSessionHistory` | ai_backend/app/session_manager.py:28-30 | an absent id gets a fresh empty history appended at the end of the key order, and afterwards the id is a key. A present id returns its existing history object with the store, the order and every history unchanged, so repeated calls create at most one entry. No other session's history changes |
| `SessionManager.ChatMessageHistory.Clear` | ai_backend/app/session_manager.py:44 | the history object is emptied in place |
| `SessionManager.SessionStore.ClearSession` | ai_backend/app/session_manager.py:43-46 | returns true exactly when the id is a key. In that case only that session's history becomes empty. Otherwise nothing changes. No key is added or removed |
| `SessionManager.SessionStore.GetAllSessions` | ai_backend/app/session_manager.py:56 | returns exactly the store's keys, each once, as many as the store has entries |
| `SessionManager.SessionStore.SessionExists` | ai_backend/app/session_manager.py:69 | true exactly when the id is among the listed sessions |
| `RagApi.Rewrap` | ai_backend/app/rag_api.py:92-93 | the blanket handler turns every exception into a 500. An `HTTPException` is kept whole as the detail (`StrOf`); any other exception's text becomes the detail |
| `RagApi.PdfExtensionChars` | ai_backend/app/rag_api.py:60 | the extension check passes exactly when the name ends in `.` followed by `p`, `d`, `f` in either case |
| `RagApi.PdfExtensionExamples` | ai_backend/app/rag_api.py:60-64 | `X.PDF` and `report.Pdf` pass. `notes.txt`, `report.pdf.txt` and `pdf` fail |
| `RagApi.RejectedUpload` | ai_backend/app/rag_api.py:60-64 | a name failing the check gives a reply that does not depend on the write or the retriever, leaves the store unchanged, and is a 500 wrapping the 400 "Only PDF files are supported" |
| `PyText.JoinRelative` | ai_backend/app/rag_api.py:70 | a relative name joined onto a directory is that directory, one separator and the name |
| `PyText.JoinAbsolute` | ai_backend/app/rag_api.py:70 | an absolute name replaces the directory |
| `RagApi.UploadPathUnderFilesDir` | ai_backend/app/rag_api.py:70 | a relative file name is stored at `.cache/files/<name>`, a path with no session id in it |
| `RagApi.SharedUploadPath` | ai_backend/app/rag_api.py:70 | two sessions uploading the same name (with the same collaborator behaviour) both succeed and get the same path |
| `RagApi.SuccessfulUpload` | ai_backend/app/rag_api.py:79-90 | a successful upload binds the session to the new retriever, the upload's file name and its path, overwriting any earlier binding. Every other session's binding is unchanged. The reply carries the success message, name, session and path |
| `RagApi.FailedUpload` | ai_backend/app/rag_api.py:67-93 | if the write or the retriever raises, the store is unchanged, so a previous binding survives. The reply is a 500 whose detail is the text of whichever step raised first |
| `RagApi.SecondUploadWins` | ai_backend/app/rag_api.py:79-83 | after two successful uploads to one session, its document is the second file |
| `RagApi.HandlerErrorsAre500` | ai_backend/app/rag_api.py:145-146 | every error that the upload or query handler returns has status 500 |
| `RagApi.QueryWithoutDocument` | ai_backend/app/rag_api.py:106-112 | a query on a session with no binding fails before any chain is built, whatever the question, model or prompt. The error is a 500 wrapping the 400 "No file uploaded…" |
| `RagApi.QueryWithDocument` | ai_backend/app/rag_api.py:114-143 | a query on a bound session builds its chain over that session's retriever. The response is the framing of the chain's run: exactly one closing frame, and it decodes back to that run |
| `RagApi.UploadThenQuery` | ai_backend/app/rag_api.py:79-122 | after a successful upload, a query on the same session does not fail for lack of a document, and its chain is built over the retriever that the upload produced |
| `RagApi.SessionDocument` | ai_backend/app/rag_api.py:166-180 | reports no document exactly when the session has no binding. Otherwise it returns the stored file name and path |
| `RagApi.DeleteEffect` | ai_backend/app/rag_api.py:188-192 | reports "deleted" exactly when a binding existed and "not found" otherwise. The session's key is removed, the other bindings are unchanged, and afterwards the session has no document |
| `RagApi.DeleteTwice` | ai_backend/app/rag_api.py:188-192 | a second delete always reports "not found" and changes nothing |
| `RagApi.RunWellFormed` | ai_backend/app/rag_api.py:60-83 | after any sequence of uploads and deletes, every binding is for a name that passed the extension check, and its path was derived from that name |
| `RagApi.SessionsIndependent` | ai_backend/app/rag_api.py:20 | after any sequence of uploads and deletes, a session's binding depends only on the requests that name that session |
| `RagApi.RagRouter.constructor` | ai_backend/app/rag_api.py:20 | the router starts with no bindings |
| `RagApi.RagRouter.UploadPdf` | ai_backend/app/rag_api.py:47-93 | the steps run in the handler's order, and the new store and the reply are those of `Upload` |
| `RagApi.RagRouter.RagQuery` | ai_backend/app/rag_api.py:96-146 | the reply is that of `Query`, and the store is not changed |
| `RagApi.RagRouter.DeleteRagSession` | ai_backend/app/rag_api.py:183-192 | the new store and the reply are those of `Delete` |
| `SseStream.TokenFrames` | ai_backend/app/rag_api.py:127-128 | one token frame per streamed token, in the same order |
| `SseStream.Generate` | ai_backend/app/rag_api.py:125-134 | the loop yields exactly `Frames(run)`: the token frames, then `[DONE]` or the error frame |
| `SseStream.FramesShape` | ai_backend/app/rag_api.py:127-134 | n tokens give n + 1 frames. The first n are the tokens in order. The last is `[DONE]` exactly when the stream completed, and the error frame with the exception's text when it raised |
| `SseStream.DoneAndErrorExclusive` | ai_backend/app/rag_api.py:126-134 | `[DONE]` appears exactly when the stream completed, and an error frame appears exactly when it raised, so the two never both appear |
| `SseStream.ExactlyOneClosing` | ai_backend/app/rag_api.py:126-134 | every response holds exactly one closing frame |
| `SseStream.DecodeFrames` | ai_backend/app/rag_api.py:127-134 | a client reading the frames recovers the run's tokens and its outcome |
| `SseStream.DecodeOnlyFrames` | ai_backend/app/rag_api.py:127-134 | only the framing of a run is accepted by the client. No frame follows a closing frame, and no response lacks one |
| `SseStream.ReplayPrefixes` | ai_backend/app/rag_api.py:125-134 | every prefix of a response is a legal run of the `INIT -> STREAMING -> DONE / ERRORED` machine. Only the full response reaches DONE or ERRORED |
| `SseStream.ReplayFrames` | ai_backend/app/rag_api.py:125-134 | the full response ends in DONE after a normal end, and in ERRORED after an exception |
| `SseStream.SentinelUnambiguous` | ai_backend/app/rag_api.py:128-134 | since `json.dumps` of a dict starts with `{`, no token or error frame is the `[DONE]` text on the wire |

## Left out

- `list_rag_prompts` (ai_backend/app/rag_api.py:149-158) is not modelled. It only wraps `get_available_prompts` from `app.chain_factory`, which is not part of this model.
- `app.chain_factory` is not part of this model. `create_rag_retriever`, `create_rag_chain`, chunking, embedding, retrieval and the language model are opaque parameters.
- The file system is not modelled: `os.makedirs`, `open`, `await file.read()` and `write` are one step, `save`, which may raise. The files it writes are not tracked. So the model does not show that a file written before a failed retriever construction stays on disk, or that two sessions uploading the same name overwrite one file.
- Path normalisation is not modelled. A name containing `..` is joined as text, like any other.
- `PyText.LowerChar` case-maps only ASCII letters, whereas Python's `str.lower` follows Unicode.
- The JSON escaping of `json.dumps` is not modelled. Frames are constructors, and `Wire` takes the encoder as a parameter.
- The text `str()` gives for an `HTTPException` is not modelled. `StrOf` records which exception it was taken from.
- The asynchronous machinery is replaced by a finite run and its outcome: `async for`, `StreamingResponse` and its headers, and laziness. A client disconnect mid-stream is not modelled.
- Concurrent requests on one session id, which the service does not synchronise, are modelled one after another.
- Request validation is left out: pydantic's field defaults (`model="gpt-4o"`, `temperature=0.0`), the `temperature` float (carried as `Option<real>` and passed through), and the 422 responses.
- `ChatMessageHistory` is reduced to its message list, with the `add_message` and `clear` calls that callers use. `Message` stands for LangChain's message classes.
- The `main.py` application setup and the rest of `config.py` are not modelled: CORS, router registration, the `/` and `/health` responses, and the environment variables.
