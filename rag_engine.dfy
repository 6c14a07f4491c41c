/**
 * The retrieval-augmented generation engine: indexing a folder into the
 * vector store, and answering a question from the retrieved chunks. The
 * folder's files, its instructions file and whether the index directory
 * exists are inputs; the engine's services are those of the other modules.
 */
module Rag {
  import opened Wrappers
  import opened Text
  import opened Documents
  import opened Vectors
  import Embeddings
  import Llm
  import Config

  /** The context handed to the model when the search finds nothing. */
  const NO_DOCUMENTS: string := "No relevant documents found."

  /** What separates two sections of the context. */
  const SECTION_DELIMITER: string := "\n\n---\n\n"

  const PROMPT_HEAD: string :=
    "Based on the following context, please answer the question. If the answer cannot be found in the context, say so clearly.\n\n## Context\n\n"
  const PROMPT_MIDDLE: string := "\n\n## Question\n\n"
  const PROMPT_TAIL: string := "\n\n## Answer"

  const BASE_PROMPT: string := "You are a helpful assistant that answers questions based on the provided context documents."

  /** The three guideline lines both system prompts end with. */
  const GUIDELINES: string :=
    "- Always base your answers on the provided context\n- If information is not in the context, clearly state that\n- Cite the source documents when relevant"

  /** What follows custom instructions before the guidelines. */
  const GUIDELINES_HEADING: string := "\n\nAdditional guidelines:"

  /** What `query` returns: the completed answer, or the fragments the stream yields. */
  datatype Answer = Completion(text: string) | TokenStream(fragments: seq<string>)

  /** `result["metadata"].get("source", "Unknown")`. */
  function SourceOf(r: SearchResult): string {
    if r.metadata.Some? then r.metadata.value.source else "Unknown"
  }

  /** The labelled section of the i-th result, counting from 1. */
  function Section(i: nat, r: SearchResult): (s: string)
    ensures "[Document " <= s
  {
    "[Document " + NatToString(i) + " - " + SourceOf(r) + "]\n" + r.content
  }

  /** The sections of all results, numbered 1 .. n in result order. */
  function Sections(results: seq<SearchResult>): (parts: seq<string>)
    ensures |parts| == |results|
    ensures forall i :: 0 <= i < |results| ==> parts[i] == Section(i + 1, results[i])
  {
    seq(|results|, i requires 0 <= i < |results| => Section(i + 1, results[i]))
  }

  /** The context block _build_context returns. */
  function Context(results: seq<SearchResult>): string {
    if results == [] then NO_DOCUMENTS else Join(Sections(results), SECTION_DELIMITER)
  }

  /** RAGEngine._build_context. */
  method BuildContext(results: seq<SearchResult>) returns (context: string)
    ensures context == Context(results)
    ensures results == [] ==> context == NO_DOCUMENTS
    ensures context != ""
  {
    if results == [] {
      return NO_DOCUMENTS;
    }
    var parts: seq<string> := [];
    for i := 0 to |results|
      invariant |parts| == i
      invariant forall j :: 0 <= j < i ==> parts[j] == Section(j + 1, results[j])
    {
      parts := parts + [Section(i + 1, results[i])];
    }
    assert parts == Sections(results);
    context := Join(parts, SECTION_DELIMITER);
    JoinStartsWithFirst(parts, SECTION_DELIMITER);
  }

  /** A join of at least one part begins with the first part. */
  lemma {:induction false} JoinStartsWithFirst(parts: seq<string>, sep: string)
    requires parts != []
    ensures parts[0] <= Join(parts, sep)
  {
    if |parts| > 1 {
      var init := parts[..|parts| - 1];
      JoinStartsWithFirst(init, sep);
      assert init[0] == parts[0];
    }
  }

  /** The context is never empty: the fallback marker, or a join beginning with the first labelled section. */
  lemma ContextNeverEmpty(results: seq<SearchResult>)
    ensures Context(results) != ""
    ensures results != [] ==> Section(1, results[0]) <= Context(results)
  {
    if results != [] {
      JoinStartsWithFirst(Sections(results), SECTION_DELIMITER);
    }
  }

  /** One more result appends the delimiter and its section, numbered after all earlier ones. */
  lemma ContextAppend(results: seq<SearchResult>, r: SearchResult)
    requires results != []
    ensures Context(results + [r]) == Context(results) + SECTION_DELIMITER + Section(|results| + 1, r)
  {
    var parts := Sections(results + [r]);
    assert parts[..|parts| - 1] == Sections(results);
  }

  /** `text` ends with `suffix`. */
  predicate EndsWith(text: string, suffix: string) {
    |suffix| <= |text| && text[|text| - |suffix|..] == suffix
  }

  /** RAGEngine._build_prompt: the template, with the context and then the question inserted verbatim. */
  function BuildPrompt(question: string, context: string): (p: string)
    ensures |p| == |PROMPT_HEAD| + |context| + |PROMPT_MIDDLE| + |question| + |PROMPT_TAIL|
    ensures PROMPT_HEAD <= p && EndsWith(p, PROMPT_TAIL)
    ensures p[|PROMPT_HEAD|..|PROMPT_HEAD| + |context|] == context
    ensures p[|PROMPT_HEAD| + |context|..|PROMPT_HEAD| + |context| + |PROMPT_MIDDLE|] == PROMPT_MIDDLE
    ensures p[|PROMPT_HEAD| + |context| + |PROMPT_MIDDLE|..|p| - |PROMPT_TAIL|] == question
  {
    FiveParts(PROMPT_HEAD, context, PROMPT_MIDDLE, question, PROMPT_TAIL);
    PROMPT_HEAD + context + PROMPT_MIDDLE + question + PROMPT_TAIL
  }

  /** Where each of five concatenated strings sits in the result. */
  lemma FiveParts(a: string, b: string, c: string, d: string, e: string)
    ensures var p := a + b + c + d + e;
      && |p| == |a| + |b| + |c| + |d| + |e|
      && a <= p && EndsWith(p, e)
      && p[|a|..|a| + |b|] == b
      && p[|a| + |b|..|a| + |b| + |c|] == c
      && p[|a| + |b| + |c|..|p| - |e|] == d
  {
    var p := a + b + c + d + e;
    assert p[|p| - |e|..] == e;
  }

  /**
   * RAGEngine._build_system_prompt: the custom instructions when there are
   * some, else the base prompt, followed in both cases by the guidelines.
   */
  function BuildSystemPrompt(instructions: Option<string>): (s: string)
    ensures Truthy(instructions) ==> instructions.value <= s
    ensures !Truthy(instructions) ==> BASE_PROMPT <= s
    ensures EndsWith(s, "\n" + GUIDELINES)
  {
    var head := if Truthy(instructions) then instructions.value + GUIDELINES_HEADING else BASE_PROMPT + "\n";
    EndsWithAppend(head, "\n" + GUIDELINES);
    head + ("\n" + GUIDELINES)
  }

  /** Whatever precedes it, a string ends with what was appended last. */
  lemma EndsWithAppend(head: string, tail: string)
    ensures EndsWith(head + tail, tail)
  {
    assert (head + tail)[|head|..] == tail;
  }

  /** The results `query` retrieves: TOP_K_RESULTS neighbours of the question's embedding. */
  function Retrieved(store: VectorStore, question: string): Result<seq<SearchResult>>
    reads store, store.collection
  {
    var c := store.collection;
    Formatted(c.ranker(c.records, store.embedding.EmbedQuery(question), EffectiveTopK(Some(Config.TOP_K_RESULTS))))
  }

  class RagEngine {
    const vectorStore: VectorStore
    const llm: Llm.LlmService
    /** The contents of the folder's instructions file, None when it is absent or unreadable. */
    const instructions: Option<string>

    constructor (vectorStore: VectorStore, llm: Llm.LlmService, instructions: Option<string>)
      ensures this.vectorStore == vectorStore && this.llm == llm && this.instructions == instructions
    {
      this.vectorStore := vectorStore;
      this.llm := llm;
      this.instructions := instructions;
    }

    /**
     * index_documents: with `rebuild` the store is cleared first, even when
     * the folder yields nothing; with documents, the store ends up holding
     * exactly their records; without, a store not rebuilt is left as it was.
     */
    method IndexDocuments(folder: Folder, rebuild: bool) returns (n: nat)
      modifies vectorStore, vectorStore.collection
      ensures var docs := LoadedChunks(folder, GetFiles(folder.parts, folder.walk));
        && n == |docs|
        && vectorStore.collection.ranker == old(vectorStore.collection.ranker)
        && (rebuild ==> fresh(vectorStore.collection))
        && (docs == [] && rebuild ==> vectorStore.collection.records == [])
        && (docs == [] && !rebuild ==>
              vectorStore.collection == old(vectorStore.collection)
              && vectorStore.collection.records == old(vectorStore.collection.records))
        && (docs != [] ==> vectorStore.collection.records == NewRecords(vectorStore.embedding, docs))
    {
      ghost var ranker := vectorStore.collection.ranker;
      if rebuild {
        vectorStore.Clear();
      }
      assert vectorStore.collection.ranker == ranker;
      var documents := LoadAll(folder);
      if documents == [] {
        return 0;
      }
      var count := vectorStore.Count();
      if !rebuild && count > 0 {
        vectorStore.Clear();
      }
      assert vectorStore.collection.ranker == ranker;
      vectorStore.AddDocuments(documents);
      return |documents|;
    }

    /**
     * query: retrieves TOP_K_RESULTS chunks, builds the context, the prompt
     * and the system prompt, and hands the same prompt pair to the streaming
     * or the completing call. An empty store is not rejected here.
     */
    method Query(question: string, stream: bool) returns (r: Result<Answer>)
      ensures var results := Retrieved(vectorStore, question);
        && (results.Failure? ==> r == Failure(results.error))
        && (results.Success? ==>
              var prompt := BuildPrompt(question, Context(results.value));
              var system := Some(BuildSystemPrompt(instructions));
              r == Success(if stream then TokenStream(Llm.Streamed(llm, prompt, system))
                           else Completion(Llm.Generate(llm, prompt, system))))
    {
      var results := vectorStore.Search(question, Some(Config.TOP_K_RESULTS));
      if results.Failure? {
        return Failure(results.error);
      }
      var context := BuildContext(results.value);
      var prompt := BuildPrompt(question, context);
      var systemPrompt := BuildSystemPrompt(instructions);
      if stream {
        var fragments := Llm.GenerateStream(llm, prompt, Some(systemPrompt));
        return Success(TokenStream(fragments));
      } else {
        return Success(Completion(Llm.Generate(llm, prompt, Some(systemPrompt))));
      }
    }

    /** is_indexed: the store exists, that is, its directory is present and it holds a record. */
    method IsIndexed(indexPathExists: bool) returns (b: bool)
      ensures b <==> indexPathExists && vectorStore.collection.records != []
    {
      b := vectorStore.Exists(indexPathExists);
    }

    /** document_count: the number of stored chunks. */
    method DocumentCount() returns (n: nat)
      ensures n == |vectorStore.collection.records|
    {
      n := vectorStore.Count();
    }
  }

  /**
   * RAGEngine.__init__: builds the embedding service, then the LLM service
   * (so an embedding error wins over an LLM error), then opens the store.
   */
  method Open(
    settings: Config.Settings,
    llmProvider: Option<string>,
    embeddingProvider: Option<string>,
    embeddingBackends: Embeddings.EmbeddingBackends,
    llmBackends: Llm.LlmBackends,
    ranker: Ranker,
    persisted: seq<Record>,
    instructions: Option<string>)
    returns (r: Result<RagEngine>)
    ensures var e := Embeddings.GetEmbeddingService(embeddingProvider, settings, embeddingBackends);
      var l := Llm.GetLlmService(llmProvider, settings, llmBackends);
      && (e.Failure? ==> r == Failure(e.error))
      && (e.Success? && l.Failure? ==> r == Failure(l.error))
      && (e.Success? && l.Success? ==>
            && r.Success?
            && fresh(r.value) && fresh(r.value.vectorStore) && fresh(r.value.vectorStore.collection)
            && r.value.llm == l.value
            && r.value.vectorStore.embedding == e.value
            && r.value.vectorStore.collection.records == persisted
            && r.value.vectorStore.collection.ranker == ranker
            && r.value.instructions == instructions)
  {
    var embedding := Embeddings.GetEmbeddingService(embeddingProvider, settings, embeddingBackends);
    if embedding.Failure? {
      return Failure(embedding.error);
    }
    var llm := Llm.GetLlmService(llmProvider, settings, llmBackends);
    if llm.Failure? {
      return Failure(llm.error);
    }
    var store := new VectorStore(embedding.value, ranker, persisted);
    var engine := new RagEngine(store, llm.value, instructions);
    return Success(engine);
  }
}
