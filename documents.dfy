/** The document upload handler (threadweaver-backend/app/api/documents.py): the
    filename guard, the chunking and embedding guards, the loop that pairs chunks with
    embeddings into indexed chunk records, and the mapping of failures to HTTP errors.
    The database, the text splitter and the embedding model are outside the model:
    their outcomes are given as a Backend value. */
module Documents {
  import opened Wrappers
  import opened Schemas

  /** One embedding vector; its numbers are carried, never inspected. */
  type Embedding = seq<real>

  /** The user id every row is written with. */
  const FixedUserId := "7b3866ad-1ffd-49c5-94c4-4b11d11d9cb8"
  const UploadIntegration := "upload"
  const FileContentType := "file"
  /** The only accepted filename ending, compared case-sensitively. */
  const TextSuffix := ".txt"
  const OnlyTextDetail := "Only text files are supported"
  const UnavailableDetail := "Unable to upload document. Please try again later."
  const UploadedMessage := "Document and chunks uploaded successfully"
  const EmptyContentMessage := "File content is empty"
  const EmptyChunksMessage := "Chunks are empty"

  /** The uploaded file: its name, which a multipart upload may leave unset, and the
      outcome of reading its bytes and decoding them as UTF-8 (None when decoding fails). */
  datatype UploadFile = UploadFile(filename: Option<string>, text: Option<string>)

  /** What the handler gets from its collaborators:
      - documentId: the id of the inserted documents row, None when the insert raised;
      - split: the recursive character splitter (chunk size 700, overlap 100);
      - embed: the embedding model, None when it raised;
      - chunkInsertSucceeds: whether the insert into the chunks table returned. */
  datatype Backend = Backend(
    documentId: Option<string>,
    split: string -> seq<string>,
    embed: seq<string> -> Option<seq<Embedding>>,
    chunkInsertSucceeds: bool)

  /** The row written to the documents table (file size and MIME type not modelled). */
  datatype DocumentRow = DocumentRow(userId: string, originalFilename: string, integrationType: string,
                                     contentType: string, title: string)

  /** One row of the chunks table. */
  datatype ChunkRecord = ChunkRecord(documentId: string, userId: string, integrationType: string,
                                     chunkIndex: nat, originalText: string, embedding: Embedding)

  /** The calls the handler makes to the outside world, in the order it makes them:
      reading the file, the documents insert, the embedding step and the chunks insert.
      Embed records that the embedding step was entered past its guard; obtaining the
      model may still raise before any request reaches it. */
  datatype Effect = ReadFile | InsertDocument(row: DocumentRow) | Embed(chunks: seq<string>)
                  | InsertChunks(records: seq<ChunkRecord>)

  /** An exception raised inside the handler's try block: the HTTPException of the
      filename guard, the ValueError of a chunking or embedding guard, or any other
      error (a failing database or embedding call, an unset filename). A failed UTF-8
      decode raises UnicodeDecodeError, a ValueError too; having no message of the
      handler's own, it is folded into OtherError. */
  datatype Raised = HttpRaised(exception: HttpException) | ValueError(message: string) | OtherError

  /** The try block's outcome and the calls it made. */
  datatype Attempt = Attempt(outcome: Result<DocumentUploadResponse, Raised>, effects: seq<Effect>)

  /** What the client sees and the calls that were made. */
  datatype Upload = Upload(result: Result<DocumentUploadResponse, HttpException>, effects: seq<Effect>)

  predicate EndsWith(s: string, suffix: string)
  {
    |suffix| <= |s| && s[|s| - |suffix|..] == suffix
  }

  function Min(a: int, b: int): int
  {
    if a <= b then a else b
  }

  /** The documents row for an accepted file. */
  function DocumentRowFor(filename: string): DocumentRow
  {
    DocumentRow(FixedUserId, filename, UploadIntegration, FileContentType, filename)
  }

  /** Chunking: empty text is refused with a ValueError before the splitter runs;
      otherwise the splitter's chunks, possibly none. */
  function ChunkDocument(text: string, split: string -> seq<string>): (r: Result<seq<string>, Raised>)
    ensures r.Failure? <==> text == []
    ensures r.Failure? ==> r.error == ValueError(EmptyContentMessage)
    ensures r.Success? ==> r.value == split(text)
  {
    if text == [] then Failure(ValueError(EmptyContentMessage)) else Success(split(text))
  }

  /** Embedding: an empty chunk list is refused with a ValueError before the model
      runs. A model that raises, or that returns no vectors (the log line reads the
      first vector's length), makes the step fail too. */
  function EmbedChunks(chunks: seq<string>, embed: seq<string> -> Option<seq<Embedding>>): (r: Result<seq<Embedding>, Raised>)
    ensures chunks == [] ==> r == Failure(ValueError(EmptyChunksMessage))
    ensures r.Success? <==> chunks != [] && embed(chunks).Some? && embed(chunks).value != []
    ensures r.Success? ==> r.value == embed(chunks).value
  {
    if chunks == [] then Failure(ValueError(EmptyChunksMessage))
    else match embed(chunks)
      case None => Failure(OtherError)
      case Some(vectors) => if vectors == [] then Failure(OtherError) else Success(vectors)
  }

  /** The calls the embedding step makes: the model is called only past the
      empty-chunks guard. */
  function EmbedEffects(chunks: seq<string>): (effects: seq<Effect>)
    ensures effects == [] <==> chunks == []
    ensures |effects| <= 1
    ensures forall i :: 0 <= i < |effects| ==> effects[i] == Embed(chunks)
  {
    if chunks == [] then [] else [Embed(chunks)]
  }

  /** The except clauses: an HTTPException is re-raised as it is, anything else
      becomes 503. */
  function ErrorResponse(e: Raised): (h: HttpException)
    ensures e.HttpRaised? ==> h == e.exception
    ensures !e.HttpRaised? ==> h == HttpException(503, UnavailableDetail)
  {
    match e
    case HttpRaised(exception) => exception
    case _ => HttpException(503, UnavailableDetail)
  }

  function Record(documentId: string, index: nat, chunk: string, embedding: Embedding): ChunkRecord
  {
    ChunkRecord(documentId, FixedUserId, UploadIntegration, index, chunk, embedding)
  }

  /** Pairing chunks with embeddings, numbered from `from`, stopping at the end of the
      shorter list: a reference definition of enumerate over zip. */
  function Enumerated(documentId: string, chunks: seq<string>, embeddings: seq<Embedding>, from: nat): seq<ChunkRecord>
    decreases |chunks|
  {
    if chunks == [] || embeddings == [] then []
    else [Record(documentId, from, chunks[0], embeddings[0])]
         + Enumerated(documentId, chunks[1..], embeddings[1..], from + 1)
  }

  function ChunkRecords(documentId: string, chunks: seq<string>, embeddings: seq<Embedding>): seq<ChunkRecord>
  {
    Enumerated(documentId, chunks, embeddings, 0)
  }

  /** The zip truncates to the shorter list, and record i pairs chunk i with
      embedding i under number from + i. */
  lemma {:induction false} EnumeratedAt(documentId: string, chunks: seq<string>, embeddings: seq<Embedding>, from: nat)
    ensures |Enumerated(documentId, chunks, embeddings, from)| == Min(|chunks|, |embeddings|)
    ensures forall i :: 0 <= i < Min(|chunks|, |embeddings|) ==>
              Enumerated(documentId, chunks, embeddings, from)[i] == Record(documentId, from + i, chunks[i], embeddings[i])
    decreases |chunks|
  {
    if chunks != [] && embeddings != [] {
      EnumeratedAt(documentId, chunks[1..], embeddings[1..], from + 1);
    }
  }

  /** The record-building loop of the handler. */
  method BuildChunkRecords(documentId: string, chunks: seq<string>, embeddings: seq<Embedding>)
    returns (records: seq<ChunkRecord>)
    ensures records == ChunkRecords(documentId, chunks, embeddings)
  {
    var n := Min(|chunks|, |embeddings|);
    records := [];
    var i := 0;
    while i < n
      invariant 0 <= i <= n
      invariant |records| == i
      invariant forall k :: 0 <= k < i ==> records[k] == Record(documentId, k, chunks[k], embeddings[k])
    {
      records := records + [Record(documentId, i, chunks[i], embeddings[i])];
      i := i + 1;
    }
    EnumeratedAt(documentId, chunks, embeddings, 0);
  }

  /** The try block, step by step. */
  function Attempted(file: UploadFile, backend: Backend): Attempt
  {
    match file.filename
    case None => Attempt(Failure(OtherError), [])
    case Some(name) =>
      if !EndsWith(name, TextSuffix) then
        Attempt(Failure(HttpRaised(HttpException(400, OnlyTextDetail))), [])
      else match file.text
        case None => Attempt(Failure(OtherError), [ReadFile])
        case Some(text) =>
          var inserted := [ReadFile, InsertDocument(DocumentRowFor(name))];
          match backend.documentId
          case None => Attempt(Failure(OtherError), inserted)
          case Some(id) =>
            match ChunkDocument(text, backend.split)
            case Failure(e) => Attempt(Failure(e), inserted)
            case Success(chunks) =>
              var embedded := inserted + EmbedEffects(chunks);
              match EmbedChunks(chunks, backend.embed)
              case Failure(e) => Attempt(Failure(e), embedded)
              case Success(embeddings) =>
                var records := ChunkRecords(id, chunks, embeddings);
                var effects := embedded + [InsertChunks(records)];
                if backend.chunkInsertSucceeds then
                  Attempt(Success(DocumentUploadResponse(UploadedMessage, id, |records|)), effects)
                else
                  Attempt(Failure(OtherError), effects)
  }

  /** The whole handler: the try block followed by the except clauses. */
  function Uploaded(file: UploadFile, backend: Backend): Upload
  {
    var attempt := Attempted(file, backend);
    match attempt.outcome
    case Success(response) => Upload(Success(response), attempt.effects)
    case Failure(e) => Upload(Failure(ErrorResponse(e)), attempt.effects)
  }

  /** The try block of the handler. */
  method TryUpload(file: UploadFile, backend: Backend)
    returns (outcome: Result<DocumentUploadResponse, Raised>, effects: seq<Effect>)
    ensures Attempt(outcome, effects) == Attempted(file, backend)
  {
    effects := [];
    if file.filename.None? {
      return Failure(OtherError), effects;
    }
    var name := file.filename.value;
    if !EndsWith(name, TextSuffix) {
      return Failure(HttpRaised(HttpException(400, OnlyTextDetail))), effects;
    }
    effects := effects + [ReadFile];
    if file.text.None? {
      return Failure(OtherError), effects;
    }
    var text := file.text.value;
    effects := effects + [InsertDocument(DocumentRowFor(name))];
    if backend.documentId.None? {
      return Failure(OtherError), effects;
    }
    var documentId := backend.documentId.value;
    var chunked := ChunkDocument(text, backend.split);
    if chunked.Failure? {
      return Failure(chunked.error), effects;
    }
    effects := effects + EmbedEffects(chunked.value);
    var embedded := EmbedChunks(chunked.value, backend.embed);
    if embedded.Failure? {
      return Failure(embedded.error), effects;
    }
    var records := BuildChunkRecords(documentId, chunked.value, embedded.value);
    effects := effects + [InsertChunks(records)];
    if !backend.chunkInsertSucceeds {
      return Failure(OtherError), effects;
    }
    outcome := Success(DocumentUploadResponse(UploadedMessage, documentId, |records|));
  }

  /** The upload endpoint. */
  method UploadDocument(file: UploadFile, backend: Backend)
    returns (result: Result<DocumentUploadResponse, HttpException>, effects: seq<Effect>)
    ensures Upload(result, effects) == Uploaded(file, backend)
  {
    var outcome;
    outcome, effects := TryUpload(file, backend);
    if outcome.Failure? {
      result := Failure(ErrorResponse(outcome.error));
    } else {
      result := Success(outcome.value);
    }
  }

  /** A named file without the exact, case-sensitive ".txt" ending is refused with
      400 before the file is read or anything is inserted. */
  lemma NonTextFileRejected(file: UploadFile, backend: Backend)
    requires file.filename.Some? && !EndsWith(file.filename.value, TextSuffix)
    ensures Uploaded(file, backend) == Upload(Failure(HttpException(400, OnlyTextDetail)), [])
  {
  }

  /** The case of the ending matters: "notes.TXT" is refused. */
  lemma UpperCaseSuffixRejected(text: Option<string>, backend: Backend)
    ensures Uploaded(UploadFile(Some("notes.TXT"), text), backend).result == Failure(HttpException(400, OnlyTextDetail))
  {
  }

  /** Every failure is a 400 or a 503, and it is a 400 exactly when a named file
      lacks the ".txt" ending: the guard's HTTPException is never turned into 503. */
  lemma UploadErrorStatus(file: UploadFile, backend: Backend)
    ensures Uploaded(file, backend).result.Failure? ==>
              Uploaded(file, backend).result.error.statusCode in {400, 503}
    ensures (Uploaded(file, backend).result.Failure? && Uploaded(file, backend).result.error.statusCode == 400)
            <==> file.filename.Some? && !EndsWith(file.filename.value, TextSuffix)
  {
  }

  /** An accepted file with empty content inserts the documents row, then fails with
      503 without calling the embedding model or inserting any chunk. */
  lemma EmptyContentFails(name: string, backend: Backend)
    requires EndsWith(name, TextSuffix) && backend.documentId.Some?
    ensures Uploaded(UploadFile(Some(name), Some("")), backend)
            == Upload(Failure(HttpException(503, UnavailableDetail)), [ReadFile, InsertDocument(DocumentRowFor(name))])
  {
  }

  /** An accepted, non-empty file whose text splits into no chunks fails with 503
      without calling the embedding model or inserting any chunk. */
  lemma NoChunksFails(name: string, text: string, backend: Backend)
    requires EndsWith(name, TextSuffix) && text != [] && backend.documentId.Some? && backend.split(text) == []
    ensures Uploaded(UploadFile(Some(name), Some(text)), backend)
            == Upload(Failure(HttpException(503, UnavailableDetail)), [ReadFile, InsertDocument(DocumentRowFor(name))])
  {
  }

  /** The embedding model is called exactly when a named ".txt" file decodes to
      non-empty text, the documents insert returns an id, and the text splits into at
      least one chunk. */
  lemma EmbeddingCalledIff(file: UploadFile, backend: Backend)
    ensures (exists i :: 0 <= i < |Uploaded(file, backend).effects| && Uploaded(file, backend).effects[i].Embed?)
            <==> file.filename.Some? && EndsWith(file.filename.value, TextSuffix)
                 && file.text.Some? && file.text.value != []
                 && backend.documentId.Some?
                 && backend.split(file.text.value) != []
  {
    var up := Uploaded(file, backend);
    if file.filename.Some? && EndsWith(file.filename.value, TextSuffix) && file.text.Some? && file.text.value != []
       && backend.documentId.Some? && backend.split(file.text.value) != [] {
      assert up.effects[2].Embed?;
    }
  }

  /** The conditions of success, all of them. */
  lemma UploadSucceedsIff(file: UploadFile, backend: Backend)
    ensures Uploaded(file, backend).result.Success? <==>
              file.filename.Some? && EndsWith(file.filename.value, TextSuffix)
              && file.text.Some? && file.text.value != []
              && backend.documentId.Some?
              && backend.split(file.text.value) != []
              && backend.embed(backend.split(file.text.value)).Some?
              && backend.embed(backend.split(file.text.value)).value != []
              && backend.chunkInsertSucceeds
  {
  }

  /** On success the embedding model is called once, on all the chunks, and the last
      call inserts min(|chunks|, |embeddings|) records, record i
      holding chunk i and embedding i under index i, every one under the new document's
      id and the fixed user; chunksCreated is their number. */
  lemma UploadedRecords(file: UploadFile, backend: Backend)
    requires Uploaded(file, backend).result.Success?
    ensures var up := Uploaded(file, backend);
            var chunks := backend.split(file.text.value);
            var embeddings := backend.embed(chunks).value;
            |up.effects| == 4 && up.effects[0] == ReadFile
            && up.effects[1] == InsertDocument(DocumentRowFor(file.filename.value))
            && up.effects[2] == Embed(chunks) && up.effects[3].InsertChunks?
            && up.result.value.message == UploadedMessage
            && up.result.value.documentId == backend.documentId.value
            && up.result.value.chunksCreated == |up.effects[3].records| == Min(|chunks|, |embeddings|)
            && forall i :: 0 <= i < |up.effects[3].records| ==>
                 up.effects[3].records[i] == ChunkRecord(up.result.value.documentId, FixedUserId, UploadIntegration,
                                                         i, chunks[i], embeddings[i])
  {
    var chunks := backend.split(file.text.value);
    EnumeratedAt(backend.documentId.value, chunks, backend.embed(chunks).value, 0);
  }
}
