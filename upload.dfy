/** Document ingestion (app/api/upload.py, `upload_document`): the upload is
    gated on its content type and file extension, its text extracted, chunked
    and embedded, one metadata entry built per chunk, the vectors stored, and
    a metadata row and a short response produced. PDF page extraction and
    UTF-8 decoding are opaque; the file write is represented by its path. */
module Upload {
  import opened Common
  import opened Text
  import Chunking
  import Embedding
  import VectorStores

  /** The uploaded file as FastAPI hands it over. */
  datatype UploadFile = UploadFile(filename: string, contentType: string, content: seq<byte>)

  /** The text extractor the extension selects. */
  datatype Extractor = Pdf | PlainText

  /** The handler's response body. */
  datatype UploadResponse = UploadResponse(documentId: string, filename: string, totalChunks: nat, vectorIds: seq<string>)

  /** The `DocumentMetadata` row recorded for an upload. */
  datatype DocumentRecord = DocumentRecord(
    documentId: string, filename: string, filePath: string, chunkingMethod: string,
    embeddingModel: string, totalChunks: nat, fileSize: nat, processed: bool)

  const PdfType: string := "application/pdf"
  const TextType: string := "text/plain"
  const UploadDir: string := "uploads/"
  /** How many vector ids the response shows. */
  const PreviewIds: nat := 5

  // ---------------------------------------------------------------------------
  // Gating and extraction
  // ---------------------------------------------------------------------------

  /** Whether `splitext` finds an extension: a '.' after the last '/', with a
      character other than '.' between them (a leading dot does not count). */
  predicate HasExtension(path: string) {
    var sep := RFind(path, '/');
    var dot := RFind(path, '.');
    dot > sep && exists i :: sep + 1 <= i < dot && path[i] != '.'
  }

  /** `os.path.splitext(path)[1]` on a POSIX system. */
  function SplitExt(path: string): (ext: string)
    ensures ext == [] || (ext[0] == '.' && '.' !in ext[1..] && '/' !in ext)
    ensures |ext| <= |path| && (ext == [] || ext == path[|path| - |ext|..])
  {
    if HasExtension(path) then
      var dot := RFind(path, '.');
      assert forall k :: dot < k < |path| ==> path[k] != '/';
      path[dot..]
    else []
  }

  /** The lower-cased extension the handler tests. */
  function Extension(filename: string): string {
    Lower(SplitExt(filename))
  }

  /** A name ending in "." and an extension without '.' or '/' has that
      extension, provided the stem ends in a character other than '.' or '/'. */
  lemma SplitExtOf(stem: string, suffix: string)
    requires |stem| >= 1 && stem[|stem| - 1] != '.' && stem[|stem| - 1] != '/'
    requires '.' !in suffix && '/' !in suffix
    ensures SplitExt(stem + ['.'] + suffix) == ['.'] + suffix
  {
    var path := stem + ['.'] + suffix;
    var dot := RFind(path, '.');
    var sep := RFind(path, '/');
    assert path[|stem|] == '.';
    assert forall k :: |stem| < k < |path| ==> path[k] == suffix[k - |stem| - 1];
    assert dot == |stem|;
    assert path[|stem| - 1] == stem[|stem| - 1];
    assert sep < |stem| - 1;
    assert path[dot..] == ['.'] + suffix;
  }

  /** A hidden file such as ".pdf" has no extension at all. */
  lemma DotFileHasNoExtension(suffix: string)
    requires '.' !in suffix && '/' !in suffix
    ensures SplitExt(['.'] + suffix) == []
  {
    var path := ['.'] + suffix;
    assert forall k :: 0 < k < |path| ==> path[k] == suffix[k - 1];
    assert RFind(path, '.') == 0;
  }

  /** Lines 35-36: only PDF and plain-text uploads get past the first gate. */
  function CheckContentType(contentType: string): (r: Result<(), Error>)
    ensures r.Success? <==> contentType == PdfType || contentType == TextType
    ensures r.Failure? ==> r.error == HttpError(400, "Unsupported file type")
  {
    if contentType == PdfType || contentType == TextType then Success(())
    else Failure(HttpError(400, "Unsupported file type"))
  }

  /** Lines 41-46: the extractor an extension selects. */
  function SelectExtractor(extension: string): (r: Result<Extractor, Error>)
    ensures r == Success(Pdf) <==> extension == ".pdf"
    ensures r == Success(PlainText) <==> extension == ".txt"
    ensures r.Failure? <==> extension != ".pdf" && extension != ".txt"
    ensures r.Failure? ==> r.error == HttpError(400, "Unsupported extension")
  {
    if extension == ".pdf" then Success(Pdf)
    else if extension == ".txt" then Success(PlainText)
    else Failure(HttpError(400, "Unsupported extension"))
  }

  /** The non-empty texts among the pages. */
  function NonEmpty(pages: seq<string>): (r: seq<string>)
    ensures |r| <= |pages|
    ensures forall k :: 0 <= k < |r| ==> r[k] != []
  {
    if |pages| == 0 then []
    else (if pages[0] != [] then [pages[0]] else []) + NonEmpty(pages[1..])
  }

  /** `extract_text_from_pdf`: the page texts that are not empty, joined with ''. */
  function PdfText(pages: seq<string>): string {
    Join(NonEmpty(pages), "")
  }

  lemma {:induction false} JoinNoSeparator(parts: seq<string>)
    ensures Join(parts, "") == Flatten(parts)
  {
    if |parts| == 1 {
      assert Flatten(parts) == parts[0] + Flatten([]);
    } else if |parts| > 1 {
      JoinNoSeparator(parts[1..]);
    }
  }

  lemma {:induction false} FlattenNonEmpty(pages: seq<string>)
    ensures Flatten(NonEmpty(pages)) == Flatten(pages)
  {
    if |pages| > 0 {
      FlattenNonEmpty(pages[1..]);
      var head := if pages[0] != [] then [pages[0]] else [];
      FlattenAppend(head, NonEmpty(pages[1..]));
      if pages[0] != [] {
        assert Flatten([pages[0]]) == pages[0] + Flatten([]);
      }
    }
  }

  /** Skipping the empty pages changes nothing: the PDF text is all the page
      texts, in page order. */
  lemma PdfTextIsAllPages(pages: seq<string>)
    ensures PdfText(pages) == Flatten(pages)
  {
    JoinNoSeparator(NonEmpty(pages));
    FlattenNonEmpty(pages);
  }

  /** Lines 35-46: the text of an upload, or why it is refused. `pages` is
      what PyPDF2 reads from each page of the file, or the error it raises on
      a file it cannot read; `decodeUtf8` is `bytes.decode`. */
  function ExtractText(file: UploadFile, pages: seq<byte> -> Result<seq<string>, Error>,
                       decodeUtf8: seq<byte> -> Result<string, Error>): (r: Result<string, Error>)
    ensures CheckContentType(file.contentType).Failure? ==> r == Failure(HttpError(400, "Unsupported file type"))
    ensures CheckContentType(file.contentType).Success? && SelectExtractor(Extension(file.filename)).Failure? ==>
      r == Failure(HttpError(400, "Unsupported extension"))
    ensures CheckContentType(file.contentType).Success? && Extension(file.filename) == ".pdf" ==>
      r == (if pages(file.content).Success? then Success(Flatten(pages(file.content).value))
            else Failure(pages(file.content).error))
    ensures CheckContentType(file.contentType).Success? && Extension(file.filename) == ".txt" ==>
      r == decodeUtf8(file.content)
  {
    if CheckContentType(file.contentType).Failure? then Failure(HttpError(400, "Unsupported file type"))
    else
      match SelectExtractor(Extension(file.filename))
      case Failure(e) => Failure(e)
      case Success(Pdf) =>
        (match pages(file.content)
         case Failure(e) => Failure(e)
         case Success(ps) => PdfTextIsAllPages(ps); Success(PdfText(ps)))
      case Success(PlainText) => decodeUtf8(file.content)
  }

  // ---------------------------------------------------------------------------
  // Metadata, path and response
  // ---------------------------------------------------------------------------

  /** Lines 56-64: one metadata dictionary per chunk. */
  function ChunkMetadata(documentId: string, filename: string, chunkingMethod: string,
                         embeddingModel: string, n: nat): (ms: seq<Metadata>)
    ensures |ms| == n
  {
    seq(n, i requires 0 <= i < n =>
      map["document_id" := Str(documentId), "filename" := Str(filename), "chunk_index" := Int(i),
          "chunking_method" := Str(chunkingMethod), "embedding_model" := Str(embeddingModel)])
  }

  /** Every chunk's metadata names the same document, file, method and model,
      and its chunk index is its position. */
  lemma ChunkMetadataShape(documentId: string, filename: string, chunkingMethod: string,
                           embeddingModel: string, n: nat, i: nat)
    requires i < n
    ensures var m := ChunkMetadata(documentId, filename, chunkingMethod, embeddingModel, n)[i];
      && m.Keys == {"document_id", "filename", "chunk_index", "chunking_method", "embedding_model"}
      && m["chunk_index"] == Int(i)
      && m["document_id"] == Str(documentId) && m["filename"] == Str(filename)
      && m["chunking_method"] == Str(chunkingMethod) && m["embedding_model"] == Str(embeddingModel)
  {
  }

  /** Every record stored for an upload carries the upload's document id, so
      deleting by that document removes all of them; its "text" is the chunk,
      and its chunk index is its position. */
  lemma StoredChunksBelongToDocument(ids: seq<string>, embeddings: seq<Embedding.Vector>,
                                     chunks: seq<string>, documentId: string, filename: string,
                                     chunkingMethod: string, embeddingModel: string, k: nat)
    requires |ids| <= |embeddings| && |ids| <= |chunks| && k < |ids|
    ensures var metadata := ChunkMetadata(documentId, filename, chunkingMethod, embeddingModel, |chunks|);
      var r := VectorStores.BuildRecords(ids, embeddings, chunks, metadata)[k];
      && VectorStores.OfDocument(r, documentId)
      && r.metadata["text"] == Str(chunks[k])
      && r.metadata["chunk_index"] == Int(k)
  {
  }

  /** Line 70: where the upload is saved. */
  function SavedPath(documentId: string, filename: string): (p: string)
    ensures |p| == |UploadDir| + |documentId| + 1 + |filename|
    ensures p[..|UploadDir|] == UploadDir && p[|p| - |filename|..] == filename
    ensures p[|UploadDir|..|UploadDir| + |documentId|] == documentId
  {
    UploadDir + documentId + "_" + filename
  }

  /** Uploads with ids of one length (uuid4 strings all have 36 characters)
      are saved at the same path only when both the id and the name agree. */
  lemma SavedPathInjective(a: string, f: string, b: string, g: string)
    requires |a| == |b| && SavedPath(a, f) == SavedPath(b, g)
    ensures a == b && f == g
  {
    var p := SavedPath(a, f);
    assert a == p[|UploadDir|..|UploadDir| + |a|];
    assert f == p[|UploadDir| + |a| + 1..];
    assert g == SavedPath(b, g)[|UploadDir| + |b| + 1..];
  }

  /** Lines 91-96: the response; `vector_ids[:5]`. */
  function Response(documentId: string, filename: string, n: nat, ids: seq<string>): (r: UploadResponse)
    ensures r.totalChunks == n
    ensures |r.vectorIds| == Min(PreviewIds, |ids|) && r.vectorIds == ids[..|r.vectorIds|]
  {
    UploadResponse(documentId, filename, n, ids[..Min(PreviewIds, |ids|)])
  }

  /** The attributes of the `DocumentMetadata` model (app/db/models.py:10-20):
      its columns. It has no `document_id` and no `processed`. */
  const DocumentMetadataColumns: set<string> :=
    {"id", "filename", "file_path", "chunking_method", "embedding_model",
     "total_chunks", "upload_timestamp", "file_size"}

  /** The columns lines 76-85 expect the model to have. */
  const IntendedColumns: set<string> := DocumentMetadataColumns + {"document_id", "processed"}

  /** The keyword arguments lines 76-85 pass to `DocumentMetadata`, in order. */
  const RowKeywords: seq<string> :=
    ["document_id", "filename", "file_path", "chunking_method", "embedding_model",
     "total_chunks", "file_size", "processed"]

  /** The message of the TypeError for a keyword `name` that `className` lacks. */
  function InvalidKeyword(name: string, className: string): string {
    "'" + name + "' is an invalid keyword argument for " + className
  }

  /** SQLAlchemy's declarative constructor: the keywords are set in order,
      and the first one that is not an attribute of the class raises
      a TypeError naming it and the class. */
  function CheckKeywords(className: string, attributes: set<string>, keywords: seq<string>)
    : (r: Result<(), Error>)
    ensures r.Success? <==> forall k :: 0 <= k < |keywords| ==> keywords[k] in attributes
    ensures forall k :: 0 <= k < |keywords| && keywords[k] !in attributes
                        && (forall j :: 0 <= j < k ==> keywords[j] in attributes) ==>
      r == Failure(TypeError(InvalidKeyword(keywords[k], className)))
    decreases |keywords|
  {
    if |keywords| == 0 then Success(())
    else if keywords[0] !in attributes then
      Failure(TypeError(InvalidKeyword(keywords[0], className)))
    else
      var r := CheckKeywords(className, attributes, keywords[1..]);
      assert forall k :: 1 <= k < |keywords| ==> keywords[k] == keywords[1..][k - 1];
      r
  }

  /** As written, lines 76-85 raise: `document_id` is not a column of
      `DocumentMetadata`. */
  lemma RowKeywordsRejected()
    ensures CheckKeywords("DocumentMetadata", DocumentMetadataColumns, RowKeywords)
      == Failure(TypeError(InvalidKeyword("document_id", "DocumentMetadata")))
  {
    assert RowKeywords[0] == "document_id" && "document_id" !in DocumentMetadataColumns;
  }

  /** With the two columns the handler expects, the row is built. */
  lemma RowKeywordsAccepted()
    ensures CheckKeywords("DocumentMetadata", IntendedColumns, RowKeywords) == Success(())
  {
    assert forall k :: 0 <= k < |RowKeywords| ==> RowKeywords[k] in IntendedColumns;
  }

  /** The metadata database: the rows added so far. */
  class MetadataDb {
    var rows: seq<DocumentRecord>

    constructor ()
      ensures rows == []
    {
      rows := [];
    }

    /** `db.add(row)` followed by `db.commit()`. */
    method Add(row: DocumentRecord)
      modifies this
      ensures rows == old(rows) + [row]
    {
      rows := rows + [row];
    }
  }

  // ---------------------------------------------------------------------------
  // The handler
  // ---------------------------------------------------------------------------

  /** The record stored under `id` is chunk `index` of the document, with its
      embedding as its vector. */
  predicate HoldsChunk(records: map<string, VectorStores.Record>, id: string, documentId: string,
                       chunk: string, embedding: Embedding.Vector, index: nat)
  {
    && id in records
    && records[id].values == embedding
    && VectorStores.OfDocument(records[id], documentId)
    && "text" in records[id].metadata && records[id].metadata["text"] == Str(chunk)
    && "chunk_index" in records[id].metadata && records[id].metadata["chunk_index"] == Int(index)
  }

  /** Lines 56-67 leave behind: one new id per chunk that has an embedding,
      each holding its chunk of the document; the old records unchanged;
      and no other record. */
  predicate StoredUpload(records: map<string, VectorStores.Record>, oldRecords: map<string, VectorStores.Record>,
                         ids: seq<string>, documentId: string,
                         chunks: seq<string>, embeddings: seq<Embedding.Vector>)
  {
    && |ids| == Min(|embeddings|, |chunks|)
    && (forall k :: 0 <= k < |ids| ==>
          ids[k] !in oldRecords && HoldsChunk(records, ids[k], documentId, chunks[k], embeddings[k], k))
    && (forall id :: id in oldRecords ==> id in records && records[id] == oldRecords[id])
    && records.Keys == oldRecords.Keys + set k | 0 <= k < |ids| :: ids[k]
  }

  /** What an accepted upload of `chunks` and their `embeddings` leaves
      behind: the stored chunks under a fresh document id, a response counting
      the chunks and showing the first five of their ids, and exactly one new
      metadata row. */
  predicate Accepted(response: UploadResponse, ids: seq<string>, chunks: seq<string>,
                     embeddings: seq<Embedding.Vector>, file: UploadFile,
                     chunkingMethod: string, embeddingModel: string,
                     records: map<string, VectorStores.Record>, oldRecords: map<string, VectorStores.Record>,
                     oldIssued: set<string>, rows: seq<DocumentRecord>, oldRows: seq<DocumentRecord>)
  {
    && response.documentId !in oldIssued
    && response.filename == file.filename
    && response.totalChunks == |chunks|
    && response.vectorIds == ids[..Min(PreviewIds, |ids|)]
    && StoredUpload(records, oldRecords, ids, response.documentId, chunks, embeddings)
    && rows == oldRows + [DocumentRecord(
         response.documentId, file.filename, SavedPath(response.documentId, file.filename),
         chunkingMethod, embeddingModel, |chunks|, |file.content|, true)]
  }

  /** Lines 56-67: build the per-chunk metadata and store the vectors; every
      stored record is new and is its chunk of the document. */
  method StoreDocumentChunks(store: VectorStores.VectorStore, documentId: string, filename: string,
                             chunkingMethod: string, embeddingModel: string,
                             embeddings: seq<Embedding.Vector>, chunks: seq<string>)
    returns (ids: seq<string>)
    requires store.Valid()
    modifies store.index, store.uuids
    ensures store.Valid()
    ensures StoredUpload(store.index.records, old(store.index.records), ids, documentId, chunks, embeddings)
  {
    var metadata := ChunkMetadata(documentId, filename, chunkingMethod, embeddingModel, |chunks|);
    ids := store.StoreEmbeddings(embeddings, chunks, metadata);
    forall k | 0 <= k < |ids|
      ensures HoldsChunk(store.index.records, ids[k], documentId, chunks[k], embeddings[k], k)
    {
      StoredChunksBelongToDocument(ids, embeddings, chunks, documentId, filename,
                                   chunkingMethod, embeddingModel, k);
    }
    BuiltIds(ids, embeddings, chunks, metadata);
  }

  /** The ids of the built records are the ids they were built from. */
  lemma BuiltIds(ids: seq<string>, embeddings: seq<Embedding.Vector>, chunks: seq<string>, metadata: seq<Metadata>)
    requires |ids| <= |embeddings| && |ids| <= |chunks| && |ids| <= |metadata|
    ensures var vs := VectorStores.BuildRecords(ids, embeddings, chunks, metadata);
      (set k | 0 <= k < |vs| :: vs[k].id) == set k | 0 <= k < |ids| :: ids[k]
  {
    var vs := VectorStores.BuildRecords(ids, embeddings, chunks, metadata);
    assert forall k :: 0 <= k < |vs| ==> vs[k].id == ids[k];
  }

  /** Lines 51-53, with the lists used as lists: the chunks of the text and
      their embeddings, or the error of either step. */
  function Prepared(text: string, chunkingMethod: string, embeddingModel: string,
                    chunker: Chunking.Chunker, generator: Embedding.EmbeddingGenerator)
    : Result<(seq<string>, seq<Embedding.Vector>), Error>
  {
    match Chunking.DocumentChunks(text, chunkingMethod, chunker)
    case Failure(e) => Failure(e)
    case Success(chunks) =>
      match Embedding.Embeddings(generator, chunks, embeddingModel)
      case Failure(e) => Failure(e)
      case Success(vectors) => Success((chunks, vectors))
  }

  /** The outcomes of lines 51-53: the chunking error, else the embedding
      model's ValueError, else the chunks with their embeddings. */
  lemma PreparedCases(text: string, chunkingMethod: string, embeddingModel: string,
                      chunker: Chunking.Chunker, generator: Embedding.EmbeddingGenerator)
    ensures var r := Prepared(text, chunkingMethod, embeddingModel, chunker, generator);
      var chunked := Chunking.DocumentChunks(text, chunkingMethod, chunker);
      && (chunked.Failure? ==> r == Failure(chunked.error))
      && (chunked.Success? && Embedding.SelectBackend(embeddingModel).Failure? ==>
            r == Failure(ValueError("Unknown embedding model: " + embeddingModel)))
      && (chunked.Success? && Embedding.SelectBackend(embeddingModel).Success? ==>
            && r.Success? && r.value.0 == chunked.value
            && r.value.1 == Embedding.Embeddings(generator, chunked.value, embeddingModel).value)
  {
  }

  /** The OpenAI requests lines 51-53 send: one per chunk, in order, with the
      configured model, when the chunks are embedded by the OpenAI backend;
      none when chunking fails or another backend is chosen. */
  function PreparedRequests(text: string, chunkingMethod: string, embeddingModel: string,
                            chunker: Chunking.Chunker, generator: Embedding.EmbeddingGenerator)
    : (rs: seq<Embedding.Request>)
    ensures embeddingModel != "openai" ==> rs == []
    ensures Chunking.DocumentChunks(text, chunkingMethod, chunker).Failure? ==> rs == []
    ensures embeddingModel == "openai" && Chunking.DocumentChunks(text, chunkingMethod, chunker).Success? ==>
      && |rs| == |Chunking.DocumentChunks(text, chunkingMethod, chunker).value|
      && forall k :: 0 <= k < |rs| ==>
           rs[k] == Embedding.Request(Chunking.DocumentChunks(text, chunkingMethod, chunker).value[k],
                                      generator.embeddingModel)
  {
    match Chunking.DocumentChunks(text, chunkingMethod, chunker)
    case Success(chunks) => if embeddingModel == "openai" then Embedding.RequestsFor(chunks, generator.embeddingModel) else []
    case Failure(_) => []
  }

  /** Lines 51-53: chunk, then embed the chunks; an unknown chunking method
      or embedding model raises its ValueError, and only the OpenAI backend
      sends requests, one per chunk. */
  method ChunkAndEmbed(text: string, chunkingMethod: string, embeddingModel: string,
                       chunker: Chunking.Chunker, generator: Embedding.EmbeddingGenerator)
    returns (r: Result<(seq<string>, seq<Embedding.Vector>), Error>)
    modifies generator.openaiClient
    ensures r == Prepared(text, chunkingMethod, embeddingModel, chunker, generator)
    ensures generator.openaiClient.requests ==
      old(generator.openaiClient.requests) + PreparedRequests(text, chunkingMethod, embeddingModel, chunker, generator)
  {
    var chunked := Chunking.ChunkDocument(text, chunkingMethod, chunker);
    if chunked.Failure? {
      return Failure(chunked.error);
    }
    var embedded := generator.GenerateEmbeddings(chunked.value, embeddingModel);
    if embedded.Failure? {
      return Failure(embedded.error);
    }
    r := Success((chunked.value, embedded.value));
  }

  /** Lines 55-96 once the chunks are embedded, for a `DocumentMetadata`
      model with the given attributes: store the vectors, save the file,
      build the row, record it and answer. Building the row raises when a
      keyword is not an attribute; the vectors are stored by then. */
  method RecordUpload(attributes: set<string>, documentId: string, chunks: seq<string>,
                      embeddings: seq<Embedding.Vector>, file: UploadFile, chunkingMethod: string,
                      embeddingModel: string, store: VectorStores.VectorStore, db: MetadataDb,
                      ghost oldIssued: set<string>)
    returns (r: Result<UploadResponse, Error>, ghost ids: seq<string>)
    requires store.Valid() && documentId !in oldIssued
    modifies store.index, store.uuids, db
    ensures store.Valid()
    ensures StoredUpload(store.index.records, old(store.index.records), ids, documentId, chunks, embeddings)
    ensures CheckKeywords("DocumentMetadata", attributes, RowKeywords).Failure? ==>
      && r == Failure(CheckKeywords("DocumentMetadata", attributes, RowKeywords).error)
      && db.rows == old(db.rows)
    ensures CheckKeywords("DocumentMetadata", attributes, RowKeywords).Success? ==>
      && r.Success? && r.value.documentId == documentId
      && Accepted(r.value, ids, chunks, embeddings, file, chunkingMethod, embeddingModel,
                  store.index.records, old(store.index.records), oldIssued, db.rows, old(db.rows))
  {
    ghost var oldRows := db.rows;
    var stored := StoreDocumentChunks(store, documentId, file.filename, chunkingMethod, embeddingModel,
                                      embeddings, chunks);
    ids := stored;
    var filePath := SavedPath(documentId, file.filename);
    var built := CheckKeywords("DocumentMetadata", attributes, RowKeywords);
    if built.Failure? {
      return Failure(built.error), ids;
    }
    db.Add(DocumentRecord(documentId, file.filename, filePath, chunkingMethod, embeddingModel,
                          |chunks|, |file.content|, true));
    var response := Response(documentId, file.filename, |chunks|, stored);
    r := Success(response);
  }

  /** Lines 55-96 as written: building the row raises a TypeError, after the
      vectors are stored and the file saved; no row is recorded and no
      response is returned. */
  method RecordUploadAsWritten(documentId: string, chunks: seq<string>, embeddings: seq<Embedding.Vector>,
                               file: UploadFile, chunkingMethod: string, embeddingModel: string,
                               store: VectorStores.VectorStore, db: MetadataDb)
    returns (r: Result<UploadResponse, Error>, ghost ids: seq<string>)
    requires store.Valid()
    modifies store.index, store.uuids, db
    ensures store.Valid()
    ensures r == Failure(TypeError(InvalidKeyword("document_id", "DocumentMetadata")))
    ensures db.rows == old(db.rows)
    ensures StoredUpload(store.index.records, old(store.index.records), ids, documentId, chunks, embeddings)
  {
    RowKeywordsRejected();
    r, ids := RecordUpload(DocumentMetadataColumns, documentId, chunks, embeddings, file, chunkingMethod,
                           embeddingModel, store, db, {});
  }

  /** Lines 49-96 once the text is extracted, with the row built as the
      handler intends: a fresh document id, the chunks and their embeddings,
      the stored vectors, one metadata row and the response. A chunking or
      embedding error stores and records nothing. */
  method IngestText(text: string, file: UploadFile, chunkingMethod: string, embeddingModel: string,
                    chunker: Chunking.Chunker, generator: Embedding.EmbeddingGenerator,
                    store: VectorStores.VectorStore, db: MetadataDb)
    returns (r: Result<UploadResponse, Error>, ghost ids: seq<string>)
    requires store.Valid()
    modifies generator.openaiClient, store.index, store.uuids, db
    ensures store.Valid()
    ensures generator.openaiClient.requests ==
      old(generator.openaiClient.requests) + PreparedRequests(text, chunkingMethod, embeddingModel, chunker, generator)
    ensures r.Failure? <==> Prepared(text, chunkingMethod, embeddingModel, chunker, generator).Failure?
    ensures r.Failure? ==>
      && r.error == Prepared(text, chunkingMethod, embeddingModel, chunker, generator).error
      && db.rows == old(db.rows) && store.index.records == old(store.index.records)
    ensures r.Success? ==>
      var prepared := Prepared(text, chunkingMethod, embeddingModel, chunker, generator).value;
      Accepted(r.value, ids, prepared.0, prepared.1, file, chunkingMethod, embeddingModel,
               store.index.records, old(store.index.records), old(store.uuids.issued), db.rows, old(db.rows))
  {
    ghost var oldIssued, oldRecords, oldRows := store.uuids.issued, store.index.records, db.rows;
    var documentId := store.uuids.Fresh();
    var prepared := ChunkAndEmbed(text, chunkingMethod, embeddingModel, chunker, generator);
    if prepared.Failure? {
      return Failure(prepared.error), [];
    }
    var (chunks, embeddings) := prepared.value;
    assert store.index.records == oldRecords && db.rows == oldRows;
    RowKeywordsAccepted();
    r, ids := RecordUpload(IntendedColumns, documentId, chunks, embeddings, file, chunkingMethod,
                           embeddingModel, store, db, oldIssued);
    assert Accepted(r.value, ids, chunks, embeddings, file, chunkingMethod, embeddingModel,
                    store.index.records, oldRecords, oldIssued, db.rows, oldRows);
  }

  /** `upload_document`, with the chunk list and the embedding list used as
      lists and the row built as intended: a refused upload stores nothing and
      records nothing; an accepted one is ingested. */
  method UploadDocument(file: UploadFile, chunkingMethod: string, embeddingModel: string,
                        chunker: Chunking.Chunker, generator: Embedding.EmbeddingGenerator,
                        store: VectorStores.VectorStore, db: MetadataDb,
                        pages: seq<byte> -> Result<seq<string>, Error>,
                        decodeUtf8: seq<byte> -> Result<string, Error>)
    returns (r: Result<UploadResponse, Error>, ghost ids: seq<string>)
    requires store.Valid()
    modifies generator.openaiClient, store.index, store.uuids, db
    ensures store.Valid()
    ensures ExtractText(file, pages, decodeUtf8).Failure? ==>
      && r == Failure(ExtractText(file, pages, decodeUtf8).error)
      && generator.openaiClient.requests == old(generator.openaiClient.requests)
    ensures ExtractText(file, pages, decodeUtf8).Success? ==>
      generator.openaiClient.requests == old(generator.openaiClient.requests)
        + PreparedRequests(ExtractText(file, pages, decodeUtf8).value, chunkingMethod, embeddingModel,
                           chunker, generator)
    ensures ExtractText(file, pages, decodeUtf8).Success? ==>
      (r.Failure? <==> Prepared(ExtractText(file, pages, decodeUtf8).value, chunkingMethod, embeddingModel,
                                chunker, generator).Failure?)
    ensures r.Failure? ==> db.rows == old(db.rows) && store.index.records == old(store.index.records)
    ensures r.Success? ==>
      && ExtractText(file, pages, decodeUtf8).Success?
      && var prepared := Prepared(ExtractText(file, pages, decodeUtf8).value, chunkingMethod, embeddingModel,
                                  chunker, generator).value;
         Accepted(r.value, ids, prepared.0, prepared.1, file, chunkingMethod, embeddingModel,
                  store.index.records, old(store.index.records), old(store.uuids.issued), db.rows, old(db.rows))
  {
    var extracted := ExtractText(file, pages, decodeUtf8);
    if extracted.Failure? {
      return Failure(extracted.error), [];
    }
    r, ids := IngestText(extracted.value, file, chunkingMethod, embeddingModel, chunker, generator, store, db);
  }
}
