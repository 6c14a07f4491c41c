# rag-app core, modelled in Dafny

This project models the deterministic part of a retrieval-augmented
generation (RAG) tool. The tool indexes a folder of documents and answers
questions about them. The model covers:

- the document loader: the folder walk and its suffix filter, per-file
  dispatch on the extension, the fixed-window overlapping chunker, and chunk
  identity (`source_chunkindex`);
- the vector store over a Chroma collection: insertion in sub-batches of 500,
  search-result formatting, `clear`, `count` and `exists`;
- the embedding services: the OpenAI batcher (100 texts per request), the
  empty-input cases, the dimension, and the provider factory;
- the LLM services: request and message assembly, the OpenAI stream filter,
  the display name, and the provider factory;
- the RAG engine: the `index_documents` state changes, context, prompt and
  system-prompt assembly, and routing a query to the streaming or completing
  call;
- the configuration: the extension sets, the two credential predicates, and
  the chunking and top-K constants.

Files, one module each:

- `wrappers.dfy`: `Option` and `Result` types.
- `text.dfy`: Python string built-ins such as `strip()` emptiness, ASCII and
  Kelvin-sign `lower()`, `str(n)` for natural n, `join` and `rfind`.
- `batching.dfy`: the `range(0, n, size)` slicing pattern that two loops share.
- `config.dfy`: `config.py`.
- `document_loader.dfy`: `document_loader.py`.
- `embeddings.dfy`: `embeddings.py`.
- `llm_service.dfy`: `llm_service.py`.
- `vector_store.dfy`: `vector_store.py`.
- `rag_engine.dfy`: `rag_engine.py`.

Three kinds of thing enter the model as parameters:

- Remote calls become function values held by the service datatypes or by
  the collection. These are the OpenAI and Anthropic APIs,
  sentence-transformers, and Chroma's nearest-neighbour query.
- The filesystem becomes a `Folder` value. It holds the resolved folder's
  path components, the `os.walk` listing and one reader per file kind.
  Whether the index directory exists is a `bool`.
- The environment becomes a `Config.Settings` value holding the API keys and
  the default provider names.

The vector store and the engine are classes because the source updates them
in place. `Collection.records` is the collection's content. A ghost log,
`addCalls`, records every batch handed to `add`. `VectorStore.Clear` swaps in
a fresh collection, as `clear` does in the source.

Some behaviour of the code is easy to misread. The model follows what the
code does:

- The chunker visits `ceil(L / (W - O))` windows, where L is the text length,
  W = CHUNK_SIZE and O = CHUNK_OVERLAP. A reader might expect
  `ceil(max(L - O, 0) / (W - O))`, because the last window often lies wholly
  inside the one before it. For a 2500-character text the code visits four
  windows (`Documents.ExampleWindows`), and the fourth covers only the 100
  characters that the third also holds.
- `search` treats `top_k = 0` as "use the default", not as an error. A
  negative `top_k` goes to Chroma unchanged.
- `RAGEngine.query` does not reject a folder that has not been indexed. Only
  the command-line front end checks this (main.py:125-127). With an empty
  store, the context becomes "No relevant documents found.".
- The store's `add_documents` calls `collection.add`, not `upsert`. The model
  appends, so indexing a changed folder without `rebuild` relies on the
  clear that `index_documents` performs when the store is not empty.
- `_chunk_text` advances `start` by CHUNK_SIZE - CHUNK_OVERLAP and has no
  guard of its own. With an overlap at least as large as the window, `start`
  would never grow and the loop would not end. The model's chunker therefore
  requires `overlap < size`, and `Config.ChunkStepPositive` shows that the
  configured constants meet it.
- A name such as `Main.\u212At`, whose suffix holds the Kelvin sign U+212A,
  passes the suffix filter, because `str.lower()` turns that sign into 'k' and
  the suffix becomes ".kt" (`Documents.KelvinSuffixSupported`). A suffix that
  does not lower-case to a listed extension, such as ".\u212Azz", is still
  skipped.

## Model

| member | source | states |
|---|---|---|
| Text.IsBlankAllSpace | document_loader.py:135 | `not s.strip()` holds iff every character of s is whitespace |
| Config.SupportedExtensions | config.py:53-61 | an extension is supported iff it is in the text, code, PDF or DOCX set |
| Config.SupportedExtensionsNormalized | config.py:37-47 | every listed extension is a dot followed by one or more lower-case ASCII letters and digits, a form `suffix.lower()` can produce |
| Config.CodeExtensionsNormalized | config.py:39-45 | each code extension, line by line of the set, is such a normalized extension |
| Config.NormalizedIsLower | config.py:37-47 | `lower()` leaves a normalized extension unchanged, so a listed extension can match a lower-cased suffix |
| Config.ChunkStepPositive | config.py:30-32 | 0 <= CHUNK_OVERLAP < CHUNK_SIZE, so the chunker's step is positive and at most one window |
| Config.ValidateLlmConfig | config.py:63-70 | true iff the provider is "anthropic" with a non-empty Anthropic key or "openai" with a non-empty OpenAI key; false for any other name |
| Config.ValidateEmbeddingConfig | config.py:72-79 | always true for "local"; true for "openai" iff the OpenAI key is non-empty; false for any other name |
| Documents.Document.Id | document_loader.py:17-20 | the ID is the source, then '_', then the decimal digits of the chunk index |
| Documents.ChunkIdInjective | document_loader.py:17-20 | `source + "_" + str(index)` determines both the source and the index, because the digits hold no '_' |
| Documents.Suffix | document_loader.py:50 | when the last '.' sits at 0 < i < len-1 the suffix is name[i:]; otherwise it is empty, since any non-empty suffix is a dot followed by a dot-free tail that ends the name and is shorter than it |
| Documents.Window | document_loader.py:131-133 | a visited window is non-empty and at most CHUNK_SIZE characters long |
| Documents.ChunkText | document_loader.py:116-148 | returns exactly the non-blank windows 0 .. ceil(L/step)-1, in order, as chunks with index k, tagged with the file's relative path and lower-cased suffix |
| Documents.SlideWindows | document_loader.py:128-146 | the while loop, with the start advanced by W-O per window, returns the tagged chunks of every non-blank window it visits |
| Documents.ChunkLoopStep | document_loader.py:131-146 | one iteration: the next start is start + W - O, and the piece text[start : start+W] is appended as chunk k iff it is not blank |
| Documents.WindowCountIff | document_loader.py:128-146 | the loop runs n times iff window n-1 starts inside the text and window n does not, so n = ceil(L/step) |
| Documents.WindowCountUnique | document_loader.py:128-146 | any n whose window n-1 starts inside the text and whose window n does not is the window count |
| Documents.ExampleWindows | document_loader.py:128-146 | with W=1000 and O=200, a 2500-character text has 4 windows: [0,1000), [800,1800), [1600,2500) and [2400,2500) |
| Documents.ChunksWellFormed | document_loader.py:131-146 | every emitted chunk is the non-blank window named by its chunk index, whose index is below the window count, with the given source and file type |
| Documents.ChunkShape | document_loader.py:131-143 | chunk j's content is text[k*step : k*step+W] clipped to the text, with length in 1..W, non-blank, carrying the source and file type it was chunked with |
| Documents.ChunksIncreasing | document_loader.py:135-146 | chunk indices strictly increase along the result (with ChunksComplete, a dropped blank window leaves a gap) |
| Documents.ChunksComplete | document_loader.py:135-146 | window k produces a chunk iff it is not blank |
| Documents.ChunkedWindowNotBlank | document_loader.py:135-143 | a chunk with index k exists only if window k starts inside the text and is not blank |
| Documents.ChunksBelowHaveWindow | document_loader.py:135-146 | a non-blank window k among the first n visited yields a chunk with index k |
| Documents.WindowsCoverText | document_loader.py:131-146 | every position i < L lies in window i / step, which the loop visits |
| Documents.ChunkIdsDistinct | document_loader.py:136-146 | the chunks of one file have pairwise distinct IDs |
| Documents.ChunkIdsStable | document_loader.py:136-146 | re-chunking a text of the same length with the same blank windows reproduces the same IDs in the same order |
| Documents.KelvinSuffixSupported | document_loader.py:50 | "Main.\u212at" passes the suffix filter, since `lower()` folds the Kelvin sign to 'k' |
| Documents.SupportedFilesExactly | document_loader.py:48-51 | a directory contributes exactly its listed names whose lower-cased suffix is supported |
| Documents.GetFiles | document_loader.py:41-51 | every yielded file has a supported suffix and lies under a directory with no INDEX_FOLDER component |
| Documents.GetFilesFromEntries | document_loader.py:41-51 | `_get_files` yields a file iff some walk entry outside INDEX_FOLDER yields it from its own listing |
| Documents.GetFilesExactly | document_loader.py:41-51 | `_get_files` yields a file iff its suffix is supported and the walk listed it under a directory whose path has no INDEX_FOLDER component |
| Documents.LoadFile | document_loader.py:53-69 | raises only if reading a text or code file raises; [] for an unsupported suffix or blank content; otherwise the chunks of the content, each non-blank, at most CHUNK_SIZE long, with the relative path and lower-cased suffix |
| Documents.LoadAll | document_loader.py:30-39 | the result is the in-order concatenation of each yielded file's chunks; a file whose loading raised contributes nothing |
| Documents.LoadFiles | document_loader.py:32-39 | the for loop appends each file's chunks in file order and skips a file whose loading raised, giving the concatenation of the contributions |
| Documents.LoadedChunksStep | document_loader.py:32-39 | one iteration appends exactly file i's contribution to what the earlier files gave |
| Documents.LoadedChunksAppend | document_loader.py:32-39 | loading a list of files made of two parts gives the first part's chunks followed by the second's |
| Documents.FailingFileSkipped | document_loader.py:32-39 | removing a file whose loading raises does not change the result, so it neither contributes nor aborts the run |
| Documents.LoadedChunksWellFormed | document_loader.py:30-39 | every chunk `load_all` returns is non-blank, at most CHUNK_SIZE long, and has a supported file type |
| Embeddings.EmbeddingService.Dimension | embeddings.py:66-68 | 1536 for the OpenAI service; for the local service, the dimension the model reported when it was built |
| Embeddings.EmbeddingService.EmbedQuery | embeddings.py:58-64 | a query's vector is the one embed_texts gives for the one-text list [query], for either service |
| Embeddings.EmbeddedLength | embeddings.py:38-56 | both services return exactly one vector per input text |
| Embeddings.EmbedTexts | embeddings.py:38-56 | the OpenAI loop returns the per-batch results concatenated in batch order; an empty input gives [] for both services |
| Embeddings.OpenAIRequests | embeddings.py:44-56 | there are ceil(n/100) requests; request j is texts[100j : min(100j+100, n)]; together they are the input once, in order |
| Embeddings.OpenAIBatchingTransparent | embeddings.py:44-56 | if each request maps its texts one by one, the result is the elementwise map of the whole input |
| Embeddings.GetEmbeddingService | embeddings.py:96-107 | succeeds iff `validate_embedding_config` holds for the resolved name; "openai" without a key and unknown names fail with the source's messages; "openai" builds the OpenAI service |
| Embeddings.DefaultEmbeddingProvider | embeddings.py:98 | None or "" as the provider means DEFAULT_EMBEDDING |
| Embeddings.OpenAIDimension | embeddings.py:66-68 | an OpenAI service from the factory reports dimension 1536, whatever its model calls are |
| Llm.AnthropicKwargs | llm_service.py:37-45 | the kwargs have the model, max_tokens 4096 and one user message with the prompt; "system" is present iff the system prompt is truthy, and then it is that prompt |
| Llm.OpenAIMessages | llm_service.py:77-82 | the messages are [system, user] when the system prompt is truthy and [user] otherwise; the last one is the user message with the prompt |
| Llm.Generate | llm_service.py:37-89 | Anthropic is called with the kwargs above; OpenAI is called with the model, the message list, max_tokens 4096 and no streaming; the answer is what that call returns |
| Llm.FilterDeltas | llm_service.py:104-106 | the stream yields exactly the non-empty delta contents, in arrival order, and their concatenation is the whole streamed text |
| Llm.GenerateStream | llm_service.py:91-106 | the Anthropic stream is passed through unchanged; the OpenAI stream is filtered with the same messages as `generate` and stream=True |
| Llm.GetLlmService | llm_service.py:113-126 | succeeds iff `validate_llm_config` holds for the resolved name; a missing key fails before a client is built, and unknown names fail, with the source's messages |
| Llm.DefaultLlmProvider | llm_service.py:115 | None or "" as the provider means DEFAULT_LLM |
| Llm.Name | llm_service.py:64-66 | the name is "Anthropic" or "OpenAI", then " (", the model and ")" |
| Llm.NameIdentifiesService | llm_service.py:108-110 | two services with the same name use the same provider and the same model |
| Llm.FactoryServiceName | llm_service.py:64-66 | a service from the factory is named "Anthropic (claude-sonnet-4-20250514)" or "OpenAI (gpt-4o)" |
| Vectors.NewRecords | vector_store.py:40-42 | the id, content and metadata lists are parallel and in document order: record k has document k's ID, content and metadata |
| Vectors.AddBatchesPartition | vector_store.py:55-63 | the add calls are ceil(n/500) consecutive slices [500j, min(500j+500, n)); each is non-empty and at most 500 long, and together they hold every record once, in order |
| Vectors.VectorStore.AddDocuments | vector_store.py:34-63 | the collection gains exactly the new records, appended in order and handed over as the 500-record batches; an empty list changes nothing |
| Vectors.EffectiveTopK | vector_store.py:67 | None and 0 both mean TOP_K_RESULTS; any other value is used as given |
| Vectors.FormatResults | vector_store.py:80-89 | gives one result per returned document in the collection's order, or [] when no documents come back; metadata defaults to {} and distance to 0 when absent; short lists raise IndexError |
| Vectors.VectorStore.Search | vector_store.py:65-89 | the query embedding goes to the collection with the effective top-K, and the answer is formatted as above |
| Vectors.VectorStore.constructor | vector_store.py:17-32 | opens the persisted collection with its records as they were |
| Vectors.VectorStore.Clear | vector_store.py:91-98 | afterwards the store holds a new, empty collection with the same ranking, which accepts records again |
| Vectors.VectorStore.Count | vector_store.py:100-102 | the number of stored records |
| Vectors.VectorStore.Exists | vector_store.py:104-106 | true iff the index directory exists and the collection holds at least one record |
| Rag.BuildContext | rag_engine.py:74-85 | "No relevant documents found." for no results; otherwise the sections "[Document i - source]\n" + content for i = 1..n, joined by "\n\n---\n\n"; never empty |
| Rag.ContextNeverEmpty | rag_engine.py:76-85 | the context is never empty, and for results it begins with the section of result 1 |
| Rag.ContextAppend | rag_engine.py:79-85 | one more result appends the delimiter and its section, numbered after the earlier ones |
| Rag.BuildPrompt | rag_engine.py:87-99 | the prompt is the fixed template with the context, then the question, inserted verbatim at their places |
| Rag.BuildSystemPrompt | rag_engine.py:101-108 | starts with the instructions when they are truthy, otherwise with the base prompt; both end with the same three guideline lines |
| Rag.RagEngine.IndexDocuments | rag_engine.py:33-52 | the collection keeps its ranking through every clear; rebuild clears first, even when nothing loads; with no documents and no rebuild the store is untouched and 0 is returned; with documents the store then holds exactly their records and their number is returned |
| Rag.RagEngine.Query | rag_engine.py:54-72 | searches with TOP_K_RESULTS, then hands the same prompt and system prompt to `generate_stream` when streaming and to `generate` otherwise; search errors propagate |
| Rag.RagEngine.IsIndexed | rag_engine.py:110-112 | equals the store's `exists()` |
| Rag.RagEngine.DocumentCount | rag_engine.py:114-116 | equals the store's `count()` |
| Rag.Open | rag_engine.py:15-31 | builds the embedding service, then the LLM service, so an embedding error is reported first; then opens the store over the persisted records |

## Left out

- main.py is not part of this model. It holds the command-line interface, the
  chat loop, prompts, `sys.exit`, and the check that rejects querying an
  unindexed folder.
- Filesystem access is an input, not modelled. This covers `os.walk`, the
  four-encoding text reader and `get_instructions`.
  - `Folder.readText` fails only where reading would raise. A file that no
    encoding decodes reads as "".
  - `RelativePath` joins with "/", as on POSIX. The `relative_to` fallback to
    the bare file name is not modelled, because the walk only yields files
    under the folder.
- PDF and DOCX text extraction, including page and paragraph joining, is
  foreign format decoding. `Folder.pdfText` and `Folder.docxText` stand in
  for it and never fail, as their wrappers catch every error.
- Chroma's internals are not modelled: persistence, HNSW cosine ranking, and
  what `add` does with an ID it already holds. `Ranker` stands in for the
  ranking, and `Collection.Add` appends. What Chroma does with a negative
  `n_results` is likewise its own.
- Embeddings.EmbeddingService.EmbedQuery: the single-string request of
  embed_query is modelled as a request for the one-text list [query]. The
  OpenAI endpoint and sentence-transformers' `encode` both treat a lone string
  that way.
- Embedding vectors and model inference are opaque. The `BatchEmbedder` type
  assumes the provider contract of one vector per text, in input order.
  `LocalEmbedding`'s dimension is whatever the model reports.
- LLM API calls are function values. Failures inside them, such as an empty
  `response.content`, are not modelled. Neither is a provider error
  propagating out of `index` or `query`.
- Streaming is a finite sequence of fragments. Generator laziness,
  cancellation and the Anthropic stream's context manager are left out.
- Progress bars and warning messages printed by the source are output only.
- `load_dotenv` and environment lookup are left out. `Config.Settings`
  carries the values they would produce.
- Text.ToLower: folds A-Z and the Kelvin sign U+212A, the one non-ASCII
  character whose lower-case form is ASCII. Python's `str.lower()` also folds
  other non-ASCII letters, sometimes into two characters. Their lower-case
  forms are not ASCII, so no such name can reach the supported set either
  way, and the model's suffix filter accepts the same names.
