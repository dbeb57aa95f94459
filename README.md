# ThreadWeaver core, modelled in Dafny

ThreadWeaver is a chat assistant with a React web client and a FastAPI backend over
Supabase. Most of its code moves data between those services. This project models
the logic the repository owns itself:

- **`Screen`** (`screen.dfy`). The chat screen of the web client. It holds two pieces
  of state: the draft in the text area and the list of sent messages. `ChatScreen` is
  a class with those two fields and two handlers. `HandleSend` ignores a draft that
  JavaScript's `trim()` reduces to nothing. Otherwise it appends the draft exactly as
  typed and clears it. `HandleInputChange` overwrites the draft. The whitespace that
  `trim()` removes is spelled out: ECMAScript's WhiteSpace and LineTerminator sets.
- **`Documents`** (`documents.dfy`). The upload endpoint. It checks the `.txt` filename
  guard, reads the file and inserts a documents row. It then chunks the text (refusing
  empty text) and embeds the chunks (refusing an empty chunk list). A loop pairs chunks
  with embeddings into numbered chunk records, and the records are inserted. Failures
  map to HTTP 400 or 503. The splitter and the embedding model are opaque functions in
  a `Backend` value, and the outcomes of the two database inserts are given there too.
  The handler's calls are returned in order as a sequence of `Effect`s. They are the
  file read, the documents insert, entering the embedding step, and the chunks insert.
  Entering that step does not mean a request reached the model: building the model
  client may raise first.
  `UploadDocument` is the handler as a method. `Uploaded` is the function it is proved
  equal to, and the lemmas state the properties of `Uploaded`.
- **`Sessions`** (`sessions.dfy`). The session-history endpoint. It turns database rows into
  `ChatMessage`s in order. Each row is a map from column name to cell, and a cell is
  either a string or a non-string value such as NULL. A row missing `role` or `content`
  is skipped. Some rows have both columns but fail schema validation: the role is not
  a `MessageType` value, or either value is not a string. Such a row fails the whole
  call with 500, because schema validation errors are not `KeyError`s. A failed query
  also gives 500. `GetSessionMessages` is the loop, proved equal to
  `SessionMessages`, which is defined through the left fold `ConvertRows`.
- **`Chat`** (`chat.dfy`). The stub chat endpoint. It builds an assistant reply and
  `query_used` from the first request message alone.
- **`Schemas`** (`schemas.dfy`) and **`Wrappers`** (`wrappers.dfy`). The message
  schemas, string-enum validation of roles, FastAPI's `HTTPException`, and
  Option/Result.

The handlers import `DocumentUploadResponse`, `MessageListResponse` and
`SessionCreateResponse` from `app/schemas/requests.py`. That file
(threadweaver-backend/app/schemas/requests.py:1-37) defines none of them. As written,
importing documents.py or sessions.py would therefore fail. The model declares the two
response records it needs from the fields the handlers fill in.

## Model

| member | source | states |
|---|---|---|
| `Schemas.ParseMessageType` | threadweaver-backend/app/schemas/requests.py:5-11 | a role string validates exactly when it is the value of some member, and then to that member |
| `Schemas.ParseTypeValue` | threadweaver-backend/app/schemas/requests.py:9-11 | parsing a member's value gives the member back, and distinct members have distinct values |
| `Screen.TrimStart` | threadweaver-frontend/src/App.tsx:19 | the result is the suffix of the draft after its leading whitespace; it does not start with whitespace |
| `Screen.TrimEnd` | threadweaver-frontend/src/App.tsx:19 | the result is the prefix of the draft before its trailing whitespace; it does not end with whitespace |
| `Screen.TrimEmptyIffBlank` | threadweaver-frontend/src/App.tsx:19 | the send guard `trim() === ''` holds exactly when every character of the draft is whitespace, the empty draft included |
| `Screen.TrimIdempotent` | threadweaver-frontend/src/App.tsx:19 | trimming twice equals trimming once, and a non-empty trimmed draft is never blank |
| `Screen.ChatScreen.constructor` | threadweaver-frontend/src/App.tsx:12-15 | the screen starts with an empty draft and an empty message list |
| `Screen.ChatScreen.HandleSend` | threadweaver-frontend/src/App.tsx:18-25 | a blank draft changes nothing; otherwise the list grows by exactly the untrimmed draft at the end, earlier messages stay in place, and the draft becomes empty; every sent message is non-blank |
| `Screen.ChatScreen.HandleInputChange` | threadweaver-frontend/src/App.tsx:27-29 | the draft becomes the given value whatever it is, and the message list is untouched |
| `Documents.ChunkDocument` | threadweaver-backend/app/api/documents.py:106-116 | chunking fails with the "File content is empty" ValueError exactly when the text is empty; otherwise it yields the splitter's chunks |
| `Documents.EmbedChunks` | threadweaver-backend/app/api/documents.py:129-134 | an empty chunk list fails with the "Chunks are empty" ValueError; the step succeeds exactly when there are chunks and the model returns a non-empty list of vectors, which is the result |
| `Documents.EmbedEffects` | threadweaver-backend/app/api/documents.py:129-132 | the embedding step is entered, at most once and on the given chunks, exactly when the chunk list is non-empty |
| `Documents.ErrorResponse` | threadweaver-backend/app/api/documents.py:86-90 | an HTTPException is re-raised unchanged; any other exception becomes 503 with the fixed "try again later" detail |
| `Documents.EnumeratedAt` | threadweaver-backend/app/api/documents.py:62-69 | zipping stops at the shorter list, giving min(\|chunks\|, \|embeddings\|) records; record i holds chunk i, embedding i and index i |
| `Documents.BuildChunkRecords` | threadweaver-backend/app/api/documents.py:61-70 | the loop builds exactly the enumerate-over-zip records |
| `Documents.TryUpload` | threadweaver-backend/app/api/documents.py:33-81 | the try block's outcome and calls are those of the step-by-step reference `Attempted` |
| `Documents.UploadDocument` | threadweaver-backend/app/api/documents.py:26-90 | the endpoint's response and calls are those of `Uploaded`: the try block followed by the except clauses |
| `Documents.NonTextFileRejected` | threadweaver-backend/app/api/documents.py:34-35 | a named file not ending in ".txt" gets 400 "Only text files are supported" with no read and no insert |
| `Documents.UpperCaseSuffixRejected` | threadweaver-backend/app/api/documents.py:34 | the ending is compared case-sensitively: "notes.TXT" gets 400 |
| `Documents.UploadErrorStatus` | threadweaver-backend/app/api/documents.py:34-90 | every failure is 400 or 503, and it is 400 exactly when a named file lacks the ".txt" ending, so the 400 is never turned into 503 |
| `Documents.EmptyContentFails` | threadweaver-backend/app/api/documents.py:57 | an accepted empty file inserts its documents row, then gets 503 without calling the embedding model or inserting any chunk |
| `Documents.NoChunksFails` | threadweaver-backend/app/api/documents.py:58 | text that splits into no chunks gets 503 without calling the embedding model or inserting any chunk |
| `Documents.EmbeddingCalledIff` | threadweaver-backend/app/api/documents.py:34-58 | the embedding step is entered exactly when a named ".txt" file decodes to non-empty text, the documents insert returns an id and the text splits into chunks |
| `Documents.UploadSucceedsIff` | threadweaver-backend/app/api/documents.py:33-81 | the upload succeeds exactly when the name ends in ".txt", the text decodes and is non-empty, the document insert returns an id, the text splits into chunks, the model returns vectors, and the chunk insert returns |
| `Documents.UploadedRecords` | threadweaver-backend/app/api/documents.py:54-81 | on success the calls are exactly: the file read, the documents insert, one embedding step on all chunks, and the insert of min(\|chunks\|, \|embeddings\|) records; record i has index i, chunk i and embedding i, with the new document's id and the fixed user id; the response carries the success message and chunks_created is the number of records |
| `Sessions.ConvertRow` | threadweaver-backend/app/api/sessions.py:26-34 | a row is skipped exactly when it lacks `role` or `content`; it is rejected exactly when it has both but the role is no member's value or a value is not a string; a converted row's message has the row's role and content |
| `Sessions.Kept` | threadweaver-backend/app/api/sessions.py:25-34 | the kept rows are no more than the input rows, and each has both columns |
| `Sessions.KeptAppend` | threadweaver-backend/app/api/sessions.py:25 | the rows kept from a concatenation are those kept from each part in turn, so order is preserved |
| `Sessions.FailureIsFinal` | threadweaver-backend/app/api/sessions.py:26-40 | once a row fails validation, the rows after it change nothing |
| `Sessions.ConvertRowsFailsIff` | threadweaver-backend/app/api/sessions.py:26-40 | the call fails exactly when some row has both columns and the schema refuses it, and the failure reports the first such row |
| `Sessions.ConvertRowsMessages` | threadweaver-backend/app/api/sessions.py:24-36 | on success there is one message per kept row, in order, with the row's role and content, and never more messages than rows |
| `Sessions.ConvertRowsAppend` | threadweaver-backend/app/api/sessions.py:24-31 | the messages of concatenated rows are those of the first part followed by those of the second |
| `Sessions.SkippedRowChangesNothing` | threadweaver-backend/app/api/sessions.py:32-34 | a row missing a column adds nothing, and processing goes on with later rows |
| `Sessions.UnknownRoleWithoutContentSkipped` | threadweaver-backend/app/api/sessions.py:27-30 | both columns are read before validation, so a row with an unknown role and no content is skipped, not fatal |
| `Sessions.NullContentFails` | threadweaver-backend/app/api/sessions.py:27-40 | a row at any position with both columns and a NULL content is not skipped: the whole call fails |
| `Sessions.GetSessionMessages` | threadweaver-backend/app/api/sessions.py:13-40 | the endpoint's answer is `SessionMessages`: the message list, or 500 with the error prefix for a failed query or a refused row |
| `Chat.Chat` | threadweaver-backend/app/api/chat.py:13-15 | the reply is an assistant message whose content begins with "I am answering the question: ", and query_used begins with "Question: " |
| `Chat.QuestionRecoverable` | threadweaver-backend/app/api/chat.py:13-15 | after either prefix comes exactly the first request message's content |
| `Chat.ChatDependsOnlyOnFirstContent` | threadweaver-backend/app/api/chat.py:13-15 | two requests get the same response exactly when their first messages have the same content; later messages and the first message's type are ignored |

## Left out

- The Supabase client and its queries are not modelled. The outcomes of the two inserts and of the session query are inputs. The document row's MIME type and file size are not modelled.
- `get_supabase_connection` runs before the upload handler's `try`, so its failure is not mapped to 503. That connection step is not modelled.
- The text splitter (chunk size 700, overlap 100) and the embedding model are library code. They are opaque functions here. Embedding vectors are carried as values and never inspected.
- Reading the upload and decoding it as UTF-8 is one input: the decoded text, or nothing when decoding fails.
- The model does not record whether a failed document insert left a row behind. It records only that the insert was issued.
- `Sessions.GetSessionMessages`: for a row the schema refuses, the detail after the prefix is the schema library's own error text. The model puts a shorter reason there instead: the offending role, or the name of the column whose value is not a string.
- Non-string cells are one case in the model. It does not tell NULL apart from a number or any other non-string value, because the schema refuses all of them.
- `Chat.Chat`: the handler has no guard for a request with no messages. Indexing the first message then fails, and FastAPI answers 500. The model excludes that request with a precondition.
- Logging is not modelled.
- The other backend modules are not part of this model: users, search, the RAG and LLM services, the Notion client, the prompt constant, configuration and main. The other front-end files are not part of this model either: the older App.jsx, the login page and the presentational components. They are database plumbing, foreign libraries or presentation.
