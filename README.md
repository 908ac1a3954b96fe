# Retrieval-pipeline bookkeeping of backend_RAG, modelled in Dafny

backend_RAG is a FastAPI retrieval-augmented-generation backend. Its core keeps
the books of the pipeline:

- it cuts uploaded documents into chunks;
- it embeds the chunks;
- it stores them as vector records;
- it formats search results for the agent;
- it keeps per-session conversation histories in Redis.

This project models that core and proves properties of it:

- **Chunking** (`app/core/chunking.py`). Sentence-similarity chunking: split on `.`, strip, drop blanks, merge neighbours whose similarity is strictly above the threshold, and join each group with `". "`. Token-window chunking: windows of `max_tokens` tokens; every window but the last is cut back to its last `.` when that `.` lies beyond 80% of the decoded text. The name-based dispatcher.
- **Session memory** (`app/db/redis_memory.py`). `conversation:<id>` keys in a Redis modelled as a map of values with expiry times and a clock. Store, read, append and clear, with a one-hour expiry.
- **Vector store** (`app/core/vector_store.py`). The Pinecone index as a map from id to record. Index creation only when the index is absent. `store_embeddings` with fresh ids and `"text"` merged into the metadata. The reshaping of search matches. Deletion by `document_id`.
- **Search tool** (`app/core/tools.py`). `DocumentSearchTool._run`: the 500-character preview, the `filename`/`chunk_index` defaults, and the conversion of every exception into an error string.
- **Upload** (`app/api/upload.py`). The content-type and extension gates, text extraction, per-chunk metadata, the saved path, the metadata row and the response with at most five ids.
- **Embedding** (`app/core/embedding.py`). Backend selection by name, and the OpenAI path that makes one remote call per text.

Where the source changes state in place, the model does too:

- Redis, the Pinecone catalogue and index, the uuid source, the OpenAI client and the metadata database are classes.
- Their methods state the new state in terms of the old one.
- The loops of `semantic_chunking`, `custom_chunking`, `generate_openai_embeddings`, `store_embeddings` and `_run` are methods with loop invariants. Each is proved against a function that specifies it.

Remote or numeric collaborators are parameters:

- the tokenizer;
- the sentence-embedding similarity;
- the OpenAI and sentence-transformer models;
- PyPDF2 page extraction;
- UTF-8 decoding;
- LangChain's recursive splitter;
- Pinecone's ranking.

The modules follow the source files: `Chunking`, `RedisMemory`, `VectorStores`, `Tools`, `Upload` and `Embedding`. Two support modules sit beside them:

- `Text` holds the CPython semantics of `split`, `strip`, `join` and `rfind`, and an ASCII `lower`. ASCII lowering decides the upload's `.pdf`/`.txt` test as CPython's Unicode `lower()` does, because no character outside A-Z lowers to text containing any of the letters of `.pdf` or `.txt`;
- `Common` holds results, exceptions and metadata values.

Two facts about the code are worth stating up front:

- **Sentence splitting drops the periods.** The code splits on `.` and does not put it back, so the sentences of "A. B. C." are "A", "B" and "C". `Chunking.SentenceShape` proves that no sentence contains a `.`.
- **Some plausible features are absent from the code and are not modelled:** a cap on history length, an in-memory fallback for Redis, token overlap in custom chunking, an error on empty input, batching of embedding calls, and rescoring of matches.

## Model

| member | source | states |
|---|---|---|
| Text.IsSpace | app/core/chunking.py:31 | the characters `str.isspace()` accepts: ASCII whitespace, the separators 0x1C-0x1F, and CPython's Unicode spaces; `Strip` removes exactly these |
| Text.Strip | app/core/chunking.py:31 | `s.strip()` is a contiguous slice of `s` whose first and last characters are not whitespace; everything before and after the slice is whitespace |
| Text.Split | app/core/chunking.py:30 | `s.split(c)` has at least one piece and no piece contains `c` |
| Text.JoinSplit | app/core/chunking.py:30 | joining the pieces of `s.split(c)` with `c` gives back `s` |
| Text.SplitJoin | app/core/chunking.py:30 | splitting the `c`-join of one or more `c`-free pieces gives back the pieces |
| Text.RFind | app/core/chunking.py:74 | `rfind(c)` is -1 exactly when `c` does not occur; otherwise it is an index holding `c` with no `c` after it |
| Text.Join | app/core/chunking.py:54-59 | `sep.join(parts)` (also `''.join` at app/api/upload.py:22): "" for no parts, the part itself for one, otherwise the parts with `sep` between them; `JoinSplit`, `SplitJoin` and `JoinRender` state its properties |
| Text.Lower | app/api/upload.py:39 | ASCII lowering keeps the length, maps A-Z to a-z and keeps every other character |
| Chunking.Stripped | app/core/chunking.py:31 | stripping and dropping blanks yields no more pieces than it was given, none of them empty |
| Chunking.StrippedShape | app/core/chunking.py:31 | every kept piece is free of the separator and has no whitespace at either end |
| Chunking.Sentences | app/core/chunking.py:30-31 | the sentences are the stripped, non-blank `.`-pieces of the text, in order; `SentenceShape` states what they are |
| Chunking.SentenceShape | app/core/chunking.py:30-31 | the sentences are non-blank, hold no `.`, have no surrounding whitespace, and are at most as many as the `.`-pieces |
| Chunking.Merges | app/core/chunking.py:50 | a sentence joins the current chunk only when its similarity to the previous sentence is strictly above the threshold |
| Chunking.Groups | app/core/chunking.py:40-59 | the grouping of n >= 1 sentences has between 1 and n groups, none of them empty |
| Chunking.GroupsFlatten | app/core/chunking.py:43-59 | the groups, read in order, are exactly the sentences: each sentence lands in exactly one chunk, in order |
| Chunking.GroupsCount | app/core/chunking.py:43-59 | the number of groups is 1 plus the number of adjacent pairs whose similarity is not strictly above the threshold (so equality starts a new chunk) |
| Chunking.Render | app/core/chunking.py:54-59 | one chunk per group, each the group's sentences joined with ". " |
| Chunking.JoinRender | app/core/chunking.py:54-59 | joining the rendered groups with ". " equals joining all their sentences with ". " |
| Chunking.SemanticChunks | app/core/chunking.py:27-61 | `semantic_chunking`'s result: `[text]` below two sentences, otherwise the rendered grouping; `SemanticPartition`, `SemanticCount`, `SemanticFewSentences` and `SemanticNoMerge` state its properties |
| Chunking.SemanticPartition | app/core/chunking.py:40-61 | with two or more sentences, the chunks partition the sentences in order, and joining the chunks with ". " equals joining the sentences with ". " |
| Chunking.SemanticCount | app/core/chunking.py:43-61 | with two or more sentences, the chunk count is 1 plus the number of breaks, and lies between 1 and the number of sentences |
| Chunking.SemanticFewSentences | app/core/chunking.py:33-34 | with fewer than two sentences the result is `[text]`, the original text unstripped |
| Chunking.GroupsNoMerge | app/core/chunking.py:50-55 | when no adjacent pair merges, every sentence is a group of its own |
| Chunking.SemanticNoMerge | app/core/chunking.py:43-59 | when no adjacent pair of sentences is similar enough, the chunks are exactly the sentences |
| Chunking.GroupsStep | app/core/chunking.py:43-55 | one more sentence either extends the last group or opens a new one, as the loop body does |
| Chunking.GroupsFlattenStep | app/core/chunking.py:43-59 | adding a sentence to the grouping adds it at the end of the flattened groups |
| Chunking.MergeStep | app/core/chunking.py:43-55 | each iteration keeps the loop state: the chunks so far render every group but the last, which is `current_chunk` |
| Chunking.MergeFinish | app/core/chunking.py:57-61 | after the loop `current_chunk` is non-empty and appending it gives all chunks |
| Chunking.SemanticChunking | app/core/chunking.py:27-61 | `semantic_chunking` returns the specified chunks |
| Chunking.MergeSentences | app/core/chunking.py:40-61 | the merge loop and its final append produce the rendered grouping |
| Chunking.Windows | app/core/chunking.py:68-69 | every token window holds between 1 and `max_tokens` tokens |
| Chunking.TrimToSentence | app/core/chunking.py:73-76 | the result is a prefix of the decoded window; if it is shorter, it ends in `.` and that `.` lies beyond 80% of the window's length |
| Chunking.TrimAtLastPeriod | app/core/chunking.py:73-76 | a cut leaves no `.` after it in the window, and when the last `.` lies beyond 80% of the length the window is cut right after it |
| Chunking.WindowsCount | app/core/chunking.py:68 | there are ceil(n / max_tokens) windows, and none for empty input |
| Chunking.WindowsFlatten | app/core/chunking.py:68-69 | the windows read in order are the tokens: no overlap, no gap |
| Chunking.WindowAt | app/core/chunking.py:68-73 | window k covers tokens [k*m, min((k+1)*m, n)), and it is the last window exactly when (k+1)*m >= n |
| Chunking.ShiftedWindow | app/core/chunking.py:68-69 | window k of the tokens is window k - 1 of the tokens after the first window |
| Chunking.TokenChunks | app/core/chunking.py:68-78 | the chunks of the windows of width m in order: each non-final window decoded and trimmed, the final one decoded untouched; `TokenChunksAt` and `CustomShape` state them window by window |
| Chunking.CustomChunks | app/core/chunking.py:63-80 | `custom_chunking`'s outcome: a zero step raises "range() arg 3 must not be zero", a negative step gives `[]`, otherwise the chunks of the encoded text; `CustomShape` states its shape |
| Chunking.TokenChunksAt | app/core/chunking.py:68-78 | one chunk per window; a non-final chunk is its decoded window trimmed, the final one is its decoded window untouched |
| Chunking.CustomShape | app/core/chunking.py:63-80 | for max_tokens > 0 custom chunking succeeds with one chunk per window. Chunk k is the decoding of tokens [k*m, min((k+1)*m, n)), trimmed only when not final, and always a prefix of that decoding |
| Chunking.ChunksFromSuffix | app/core/chunking.py:68-78 | the chunks of the windows starting at token i, i + m, ... are the chunks of the tokens from i on |
| Chunking.ChunksFromWindow | app/core/chunking.py:68-78 | one window: if the index-wise and slice-wise readings agree from i + m on, they agree from i on |
| Chunking.ChunksFromInner | app/core/chunking.py:68-76 | a window that is not the last is trimmed in both readings |
| Chunking.ChunksFromLast | app/core/chunking.py:68-72 | the last window is decoded untrimmed in both readings, and past the end there is nothing |
| Chunking.WindowChunk | app/core/chunking.py:69-76 | the chunk of the window at token i: decoded, and trimmed unless it is the last window |
| Chunking.DecodeWindow | app/core/chunking.py:68-76 | slicing `tokens[i:i + max_tokens]`, decoding, and cutting at a late `.` unless the window is the last yields that window's chunk |
| Chunking.ChunkWindowsStep | app/core/chunking.py:68-78 | one iteration appends the chunk of the window at i and moves on to i + m, keeping the loop state |
| Chunking.ChunkWindowsEnd | app/core/chunking.py:66-80 | when the windows pass the end, the chunks produced are all the chunks |
| Chunking.CustomChunking | app/core/chunking.py:63-80 | `custom_chunking` returns the specified chunks; `range` raises on a zero step and yields nothing for a negative one |
| Chunking.ChunkWindows | app/core/chunking.py:66-80 | the window loop produces the chunks of all windows in order |
| Chunking.DocumentChunks | app/core/chunking.py:82-91 | `chunk_document`'s outcome by name, with the strategies' defaults, and the ValueError for other names; `ChunkDocument`'s contract states it case by case |
| Chunking.ChunkDocument | app/core/chunking.py:82-91 | "recursive", "semantic" and "custom" dispatch to their strategy with its defaults (threshold 0.7, 512 tokens); every other name raises `ValueError("Unknown chunking method: …")` |
| Embedding.OpenAIClient.CreateEmbedding | app/core/embedding.py:16-20 | one request is logged and the model's vector for the input is returned |
| Embedding.RequestsFor | app/core/embedding.py:15-19 | the OpenAI path's requests are one per text, in order, all with the configured model |
| Embedding.SelectBackend | app/core/embedding.py:28-35 | exactly "openai" and "sentence-transformer" are accepted; any other name is `ValueError("Unknown embedding model: …")` |
| Embedding.EmbeddingGenerator.GenerateOpenAIEmbeddings | app/core/embedding.py:12-21 | one vector per text, in input order, each the model's answer for that text; one remote call per text, so an empty list makes none |
| Embedding.Embeddings | app/core/embedding.py:28-35 | `generate_embeddings` raises exactly for names other than "openai" and "sentence-transformer", with "Unknown embedding model: " + name; "openai" gives the model's vector for each text in order; "sentence-transformer" gives the batch encoding |
| Embedding.EmbeddingGenerator.GenerateEmbeddings | app/core/embedding.py:28-35 | dispatch by name: OpenAI per text; the sentence-transformer batch unfiltered; an unknown name raises and calls nothing; the result is `Embeddings` of the texts |
| RedisMemory.Key | app/db/redis_memory.py:17 | the key is `conversation:` followed by the session id |
| RedisMemory.KeyInjective | app/db/redis_memory.py:17-34 | distinct session ids have distinct keys |
| RedisMemory.Live | app/db/redis_memory.py:23 | a key is readable while it is present and the clock is not past its expiry; at the expiry instant it is still read, as Redis expires a key only once its deadline has passed |
| RedisMemory.Conversation | app/db/redis_memory.py:20-24 | a read gives the stored history of a live key, and `[]` for an absent or expired one |
| RedisMemory.Stored | app/db/redis_memory.py:15-18 | after `store_conversation` the session key holds the history with expiry now + 3600 and every other key is as before; `ReadAfterStore` and `StoreIsolated` state what reads see |
| RedisMemory.Cleared | app/db/redis_memory.py:32-35 | after `clear_conversation` the session key is gone and every other key is as before; `ClearEffect` states what reads see |
| RedisMemory.ReadAfterStore | app/db/redis_memory.py:15-24 | a stored history reads back unchanged up to and including 3600 s later, and as `[]` once the clock is past that |
| RedisMemory.StoreIsolated | app/db/redis_memory.py:15-18 | storing one session leaves every other session's reading unchanged |
| RedisMemory.ClearEffect | app/db/redis_memory.py:32-35 | after clearing, the session reads `[]` and others read as before; clearing an absent session changes nothing |
| RedisMemory.AddAppends | app/db/redis_memory.py:26-30 | after `add_message` the history is the old history plus exactly the new message, and the expiry is renewed to now + 3600 |
| RedisMemory.Redis.SetEx | app/db/redis_memory.py:18 | `SETEX` replaces the key's value and sets its expiry to now + ttl |
| RedisMemory.Redis.Get | app/db/redis_memory.py:23 | `GET` finds a value only for a live key, and changes nothing |
| RedisMemory.Redis.Delete | app/db/redis_memory.py:35 | `DEL` removes exactly that key |
| RedisMemory.RedisMemoryStore.StoreConversation | app/db/redis_memory.py:15-18 | writes the history under the session key with expiry now + 3600 |
| RedisMemory.RedisMemoryStore.GetConversation | app/db/redis_memory.py:20-24 | returns the history of a live key, otherwise `[]`, and changes nothing |
| RedisMemory.RedisMemoryStore.AddMessage | app/db/redis_memory.py:26-30 | the read-append-write leaves the old history plus the message under the key, with a renewed expiry |
| RedisMemory.RedisMemoryStore.ClearConversation | app/db/redis_memory.py:32-35 | deletes exactly the session key |
| RedisMemory.RedisMemoryStore.RecordTurn | app/api/rag_agent.py:36-50 | a user message then an assistant reply leave the history extended by exactly those two, in order, and every other session unchanged |
| VectorStores.EnsureIndex | app/core/vector_store.py:13-19 | the catalogue after start-up: unchanged if the index is listed, otherwise with the index added at dimension 1536 and the cosine metric; `EnsureIndexProperties` states its properties |
| VectorStores.EnsureIndexProperties | app/core/vector_store.py:13-19 | after start-up the index exists. It is created with dimension 1536 and the cosine metric only if it was not listed. Nothing else changes, and a second start-up creates nothing |
| VectorStores.Pinecone.ListIndexes | app/core/vector_store.py:14 | lists exactly the existing index names |
| VectorStores.Pinecone.CreateIndex | app/core/vector_store.py:15-19 | adds the named index with its dimension and metric |
| VectorStores.UpsertAll | app/core/vector_store.py:44 | after an upsert the index holds the old ids plus the ids of the upserted records |
| VectorStores.UpsertAllContents | app/core/vector_store.py:44 | with distinct ids, every upserted record is stored under its id and every other record is unchanged |
| VectorStores.OfDocument | app/core/vector_store.py:67 | the filter `{"document_id": d}` matches a record whose metadata holds `document_id` equal to d |
| VectorStores.WithoutDocument | app/core/vector_store.py:67 | the index after deleting by that filter: the records it does not match, unchanged |
| VectorStores.WithoutDocumentProperties | app/core/vector_store.py:65-67 | deleting by document removes exactly the records whose `document_id` is that document, keeps the rest as they were, and is idempotent |
| VectorStores.Index.Upsert | app/core/vector_store.py:44 | the index becomes the upsert of the records |
| VectorStores.Index.DeleteByFilter | app/core/vector_store.py:67 | the index loses exactly the document's records |
| VectorStores.UuidSource.Fresh | app/core/vector_store.py:31 | each generated id differs from every id generated before |
| VectorStores.BuildRecords | app/core/vector_store.py:30-41 | one record per zipped triple |
| VectorStores.StoredMetadata | app/core/vector_store.py:36-40 | the stored metadata keeps every input key, and `"text"` is the chunk text, overriding any earlier `"text"` |
| VectorStores.SimilaritySearch | app/core/vector_store.py:58-63 | one result per match, in match order, with the match's id, score and metadata; the text is the metadata's `"text"`, or `""` when absent |
| VectorStores.SearchReturnsStoredText | app/core/vector_store.py:36-63 | a match on a stored record yields that record's chunk text |
| VectorStores.VectorStore.constructor | app/core/vector_store.py:7-21 | the index catalogue becomes the create-if-absent catalogue |
| VectorStores.VectorStore.StoreEmbeddings | app/core/vector_store.py:23-45 | one id per zipped triple (the minimum of the three lengths). The ids are distinct, new to the index and in record order. Each record is stored under its id with `"text"` merged into its metadata, and earlier records are unchanged |
| VectorStores.VectorStore.DeleteByDocument | app/core/vector_store.py:65-67 | the index loses exactly the document's records |
| Tools.Preview | app/core/tools.py:53 | a text of at most 500 characters passes unchanged; a longer one becomes its first 500 characters plus "...", 503 in all |
| Tools.PreviewProperties | app/core/tools.py:53 | a preview has at most 503 characters, starts with the text's first characters, and previewing it again changes nothing |
| Tools.Format | app/core/tools.py:52-57 | a string text is previewed and carries the score. `filename` defaults to "unknown" and `chunk_index` to 0. A non-string text raises the `len()` TypeError |
| Tools.FormatDefaults | app/core/tools.py:55-56 | missing `filename`/`chunk_index` read as "unknown"/0; present ones are taken as stored |
| Tools.FormatResults | app/core/tools.py:51-57 | one formatted entry per result, in order, or the error of a result that cannot be formatted |
| Tools.Run | app/core/tools.py:31-62 | never raises. A search failure or formatting failure becomes "Error searching documents: " + the message; otherwise there is one entry per result, in order |
| Tools.NatToString | app/core/tools.py:35 | `str(n)` for the count in CPython's unpacking message: one or more decimal digits |
| Tools.Unpack2 | app/core/tools.py:35 | unpacking a list into two names succeeds exactly for two elements, with Python's messages otherwise |
| Tools.RunAsWritten | app/core/tools.py:31-62 | as written, every call sends exactly one embedding request, for the query with the configured model, and returns the unpacking error string, whatever the query and the index |
| Tools.UnpackOneVector | app/core/tools.py:35 | unpacking the one-vector list of a single query raises "not enough values to unpack (expected 2, got 1)" |
| Upload.HasExtension | app/api/upload.py:39 | `splitext` finds an extension when a `.` follows the last `/` with some character other than `.` between them |
| Upload.SplitExt | app/api/upload.py:39 | `splitext(name)[1]` is empty or a final suffix of the name that starts with its only `.` and holds no `/` |
| Upload.Extension | app/api/upload.py:39 | the extension tested is `splitext(name)[1].lower()`; `SplitExt`, `SplitExtOf` and `DotFileHasNoExtension` state its properties |
| Upload.SplitExtOf | app/api/upload.py:39 | a stem ending in a character other than `.` or `/`, then `.` and a suffix, has extension `.` + suffix |
| Upload.DotFileHasNoExtension | app/api/upload.py:39 | a hidden file such as ".pdf" has no extension, so it is refused |
| Upload.CheckContentType | app/api/upload.py:35-36 | only `application/pdf` and `text/plain` pass; anything else is HTTP 400 "Unsupported file type" |
| Upload.SelectExtractor | app/api/upload.py:41-46 | ".pdf" selects PDF extraction, ".txt" UTF-8 decoding; anything else is HTTP 400 "Unsupported extension" |
| Upload.NonEmpty | app/api/upload.py:22 | the non-empty page texts, in page order, none of them empty and no more than the pages |
| Upload.PdfText | app/api/upload.py:20-22 | the PDF text is `''.join` of the non-empty page texts; `PdfTextIsAllPages` states that this is all pages concatenated |
| Upload.PdfTextIsAllPages | app/api/upload.py:20-22 | the PDF text is the concatenation of all page texts in page order (skipping empty pages changes nothing) |
| Upload.ExtractText | app/api/upload.py:20-46 | the two gates in order, then for a PDF either the reader's error or all page texts concatenated, and for text the UTF-8 decoding or its error |
| Upload.ChunkMetadata | app/api/upload.py:56-64 | one metadata entry per chunk |
| Upload.ChunkMetadataShape | app/api/upload.py:56-64 | each entry has exactly the five keys, `chunk_index` is its position, and the other four values are the same for every entry |
| Upload.StoredChunksBelongToDocument | app/api/upload.py:56-67 | every stored record of an upload carries its `document_id` (so deleting the document removes it), its chunk as `"text"`, and its position as `chunk_index` |
| Upload.SavedPath | app/api/upload.py:70 | the path is "uploads/", then the document id, "_" and the file name |
| Upload.SavedPathInjective | app/api/upload.py:70 | with equal-length ids, two uploads share a path only if both id and name agree |
| Upload.Response | app/api/upload.py:91-96 | `total_chunks` is the chunk count and `vector_ids` the first min(5, n) ids in order |
| Upload.MetadataDb.Add | app/api/upload.py:87-88 | appends exactly one row |
| Upload.HoldsChunk | app/api/upload.py:56-67 | the record under an id holds the chunk's embedding, its text, its index and the document id |
| Upload.StoredUpload | app/api/upload.py:55-67 | what storing the chunks leaves: one new id per embedded chunk holding that chunk, the old records unchanged, and no other record |
| Upload.StoreDocumentChunks | app/api/upload.py:55-67 | one new id per chunk that has an embedding; each record holds its embedding, its chunk and its index under the document id; old records are unchanged and no other record appears |
| Upload.Prepared | app/api/upload.py:51-53 | the outcome of chunking then embedding: the chunking error, else the embedding error, else the chunks with their vectors; `PreparedCases` states the three cases |
| Upload.PreparedRequests | app/api/upload.py:51-53 | the OpenAI requests of lines 51-53: none unless chunking succeeds and the backend is "openai", then one per chunk, in order, with the configured model |
| Upload.PreparedCases | app/api/upload.py:51-53 | the chunking error is passed on; else an unknown embedding model gives "Unknown embedding model: " + name; else the chunks of `chunk_document` with their `generate_embeddings` vectors |
| Upload.ChunkAndEmbed | app/api/upload.py:51-53 | chunking then embedding yields exactly the outcome `PreparedCases` describes, and sends exactly the requests of `PreparedRequests` |
| Upload.InvalidKeyword | app/api/upload.py:76-85 | SQLAlchemy's message for a keyword the class lacks: "'name' is an invalid keyword argument for Class" |
| Upload.CheckKeywords | app/api/upload.py:76-85 | the declarative constructor accepts exactly when every keyword is an attribute, and otherwise raises the TypeError naming the first keyword that is not |
| Upload.RowKeywordsRejected | app/api/upload.py:76-85 | with the columns of app/db/models.py:10-20, building the row raises "'document_id' is an invalid keyword argument for DocumentMetadata" |
| Upload.RowKeywordsAccepted | app/api/upload.py:76-85 | with `document_id` and `processed` added to the columns, the row is built |
| Upload.Accepted | app/api/upload.py:55-96 | what an accepted upload leaves: the stored chunks under a fresh document id, a response with the chunk count and the first five ids, and exactly one new row |
| Upload.RecordUpload | app/api/upload.py:55-96 | the vectors are stored whatever happens next; if building the row raises, that error is returned and no row is added; otherwise exactly one row is added and the response shows the first five stored ids |
| Upload.RecordUploadAsWritten | app/api/upload.py:55-96 | as written, every call ends in the `document_id` TypeError, with the new vectors left in the index and no row added |
| Upload.IngestText | app/api/upload.py:48-96 | fails exactly when chunking or embedding fails, with that error, storing and recording nothing. Success uses a fresh document id, stores one record per embedded chunk, shows the first five of their ids, and adds exactly one row with the saved path, counts and size. The OpenAI requests sent are exactly those of `PreparedRequests` |
| Upload.UploadDocument | app/api/upload.py:27-96 | a refused or unreadable upload gets that error and sends, stores and records nothing; otherwise the upload is ingested as above, with exactly the OpenAI requests of `PreparedRequests` for the extracted text |

## Left out

- **Floating point.** Similarities are exact reals compared strictly with `>`. The 80% test `last_period > len * 0.8` is modelled as the exact `5 * p > 4 * n`; the two can differ only where the float product rounds across an integer.
- **Opaque collaborators.** The sentence-transformer, cosine similarity, tiktoken, OpenAI, PyPDF2, UTF-8 decoding and LangChain's recursive splitter (`recursive_chunking`) are uninterpreted functions, because their algorithms are foreign.
- **uuid4.** It is a fresh-value oracle whose ids are strings of growing length, not 36-character uuid text. `VectorStore`'s constructor assumes that every id already in the index came from that oracle.
- **JSON.** Redis values are stored as the message list itself; `json.dumps`/`json.loads` are not modelled. `_run`'s output is the list of formatted entries, not its `json.dumps` text.
- **Redis expiry and time.** Expiry is checked at read time against a clock that only `Advance` moves; a key is read up to and including its expiry instant, and the clock's unit is abstract rather than Redis's milliseconds. Lazy eviction is not modelled, and neither are connection settings.
- **Pinecone queries.** Ranking, `top_k` and `filter_dict` belong to the remote index. `VectorStores.SimilaritySearch` takes the ranked matches as given, and the vectors' dimension is not checked against the index's 1536.
- **Side effects outside the model.** The file write (`app/api/upload.py:71-73`), the SQLAlchemy session and the network connections are out of scope. The metadata database is a list of rows, and `DocumentMetadata` is only its set of column names (`app/db/models.py:10-20`).
- **Concurrency.** Races between concurrent `add_message` calls on one session are out of scope.
- Upload.UploadDocument: uses the lists returned by `chunk_document` and `generate_embeddings` directly. As written, lines 52-53 unpack each list into two names. That succeeds only for a list of exactly two elements, and then takes the first element for the whole list.
- Upload.UploadDocument: with its default `embedding_model` ("text-embedding-ada-002", the configured model name), the upload fails. `generate_embeddings` accepts only "openai" and "sentence-transformer"; `PreparedCases` states that this `ValueError` is returned.
- Upload.UploadDocument: builds the metadata row as the handler intends. As written, lines 76-85 raise a TypeError once the vectors are stored (see Findings and `Upload.RecordUploadAsWritten`).
- Chunking.CustomChunking: treats `encode` as total. tiktoken's `encode` raises ValueError on a text containing a special token such as `<|endoftext|>` (chunking.py line 65); that raise is not modelled, so `CustomShape` and `ChunkDocument` promise that "custom" always succeeds. The other collaborators (the recursive splitter, the similarity model, the OpenAI and sentence-transformer models) are likewise assumed not to raise; PDF reading and UTF-8 decoding are modelled with their errors.
- Tools.Run: takes the outcome of embedding the query and searching the index as a parameter. As written, the call on lines 39-43 also passes `method=`, which `similarity_search` does not accept, and it unpacks `results, metrics`. Neither step is reached (see Findings), so `metrics` is not modelled.
- RedisMemory.RedisMemoryStore.RecordTurn: models the turn as intended: the user message, then the reply. As written, `app/api/rag_agent.py` fails at import: line 6 imports `document_search_tool` and `booking_tool`, which `app/core/tools.py` does not define (it has only the classes), and line 7 imports `memory_store`, which `app/main.py` does not define. Since `app/main.py` line 7 imports the module, no query is ever served. Were the imports fixed, line 43 would call `.get` on the string that `run` returns and raise AttributeError after line 36, leaving only the user message.
- **`app/api/rag_agent.py`.** It is not part of this model beyond the two `add_message` calls of a turn (`RecordTurn`). The LLM call, the tool call and the `.get` on a string at line 43 are left out.
- **Other files.** `BookingTool`, `app/api/booking.py`, `app/utils/email_utils.py`, `app/db/metadata_db.py`, `app/config.py` and `app/main.py` are CRUD, SMTP, ORM schema and wiring, which fall outside this core.

## Findings

| source | as written | input that shows it | evidently intended | confidence | as-written member | corrected member |
|---|---|---|---|---|---|---|
| app/core/tools.py:35 | `query_embeddings, _ = embedding_generator.generate_embeddings([query])` unpacks a list that holds one vector per text, so for the one query it has exactly one element | any query, e.g. "refund policy": the unpacking raises, and `_run` returns "Error searching documents: not enough values to unpack (expected 2, got 1)" without searching | take the list's first element as the query embedding, then search and format the results | high (not executed) | Tools.RunAsWritten | Tools.Run |
| app/api/upload.py:76-85 | `DocumentMetadata(document_id=…, …, processed=True)`, but the model (app/db/models.py:10-20) has neither a `document_id` nor a `processed` column, so SQLAlchemy's constructor raises | any upload that gets past chunking and embedding: the vectors are already upserted (line 67) and the file written (lines 71-73), then "'document_id' is an invalid keyword argument for DocumentMetadata" is raised; no row is added and no response is returned | `DocumentMetadata` has `document_id` and `processed` columns, so the row is recorded and the response returned | high (not executed) | Upload.RecordUploadAsWritten | Upload.IngestText |
