/**
 * The application's configuration: fixed constants, and the values the
 * process reads from its environment, passed in explicitly as `Settings`.
 */
module Config {
  import opened Text

  /** Values that come from environment variables (an absent variable gives the default). */
  datatype Settings = Settings(
    anthropicApiKey: string,   // ANTHROPIC_API_KEY, default ""
    openaiApiKey: string,      // OPENAI_API_KEY, default ""
    defaultLlm: string,        // DEFAULT_LLM, default "anthropic"
    defaultEmbedding: string   // DEFAULT_EMBEDDING, default "local"
  )

  const OPENAI_EMBEDDING_MODEL: string := "text-embedding-3-small"
  const LOCAL_EMBEDDING_MODEL: string := "all-MiniLM-L6-v2"
  const ANTHROPIC_MODEL: string := "claude-sonnet-4-20250514"
  const OPENAI_MODEL: string := "gpt-4o"

  const CHUNK_SIZE: nat := 1000
  const CHUNK_OVERLAP: nat := 200
  const TOP_K_RESULTS: nat := 5

  const TEXT_EXTENSIONS: set<string> := {".txt", ".md", ".markdown"}
  const CODE_EXTENSIONS: set<string> := {
    ".py", ".js", ".ts", ".jsx", ".tsx", ".json", ".yaml", ".yml",
    ".html", ".css", ".scss", ".sass", ".xml", ".csv", ".sql",
    ".sh", ".bash", ".zsh", ".ps1", ".bat", ".cmd",
    ".java", ".c", ".cpp", ".h", ".hpp", ".cs", ".go", ".rs", ".rb",
    ".php", ".swift", ".kt", ".scala", ".r", ".m", ".mm"
  }
  const PDF_EXTENSIONS: set<string> := {".pdf"}
  const DOCX_EXTENSIONS: set<string> := {".docx"}

  const INDEX_FOLDER: string := ".rag_index"
  const INSTRUCTIONS_FILE: string := "instructions.txt"

  function SupportedExtensions(): (exts: set<string>)
    ensures forall e :: e in exts <==>
      e in TEXT_EXTENSIONS || e in CODE_EXTENSIONS || e in PDF_EXTENSIONS || e in DOCX_EXTENSIONS
  {
    TEXT_EXTENSIONS + CODE_EXTENSIONS + PDF_EXTENSIONS + DOCX_EXTENSIONS
  }

  /** An extension in the form the loader compares: a dot, then lower-case ASCII letters and digits. */
  predicate IsNormalizedExtension(e: string) {
    && |e| >= 2
    && e[0] == '.'
    && (forall i :: 1 <= i < |e| ==> 'a' <= e[i] <= 'z' || '0' <= e[i] <= '9')
  }

  /** A normalized extension is its own `lower()`, so `suffix.lower()` can produce it. */
  lemma NormalizedIsLower(e: string)
    requires IsNormalizedExtension(e)
    ensures ToLower(e) == e
  {
    assert forall i :: 0 <= i < |e| ==> ToLower(e)[i] == e[i];
  }

  /** Every listed extension is already in the form `suffix.lower()` produces. */
  lemma SupportedExtensionsNormalized()
    ensures forall e :: e in SupportedExtensions() ==> IsNormalizedExtension(e)
  {
    TextExtensionsNormalized();
    CodeExtensionsNormalized();
    assert IsNormalizedExtension(".pdf") && IsNormalizedExtension(".docx");
  }

  /** The text extensions, as listed. */
  lemma TextExtensionsNormalized()
    ensures forall e :: e in {".txt", ".md", ".markdown"} ==> IsNormalizedExtension(e)
  {
  }

  /** The code extensions, checked one line of the listing at a time. */
  lemma CodeExtensionsNormalized()
    ensures forall e :: e in CODE_EXTENSIONS ==> IsNormalizedExtension(e)
  {
    CodeLineNormalized1();
    CodeLineNormalized2();
    CodeLineNormalized3();
    CodeLineNormalized4();
    CodeLineNormalized5();
  }

  lemma CodeLineNormalized1()
    ensures forall e :: e in {".py", ".js", ".ts", ".jsx", ".tsx", ".json", ".yaml", ".yml"} ==> IsNormalizedExtension(e)
  {
  }

  lemma CodeLineNormalized2()
    ensures forall e :: e in {".html", ".css", ".scss", ".sass", ".xml", ".csv", ".sql"} ==> IsNormalizedExtension(e)
  {
  }

  lemma CodeLineNormalized3()
    ensures forall e :: e in {".sh", ".bash", ".zsh", ".ps1", ".bat", ".cmd"} ==> IsNormalizedExtension(e)
  {
  }

  lemma CodeLineNormalized4()
    ensures forall e :: e in {".java", ".c", ".cpp", ".h", ".hpp", ".cs", ".go", ".rs", ".rb"} ==> IsNormalizedExtension(e)
  {
  }

  lemma CodeLineNormalized5()
    ensures forall e :: e in {".php", ".swift", ".kt", ".scala", ".r", ".m", ".mm"} ==> IsNormalizedExtension(e)
  {
  }

  /** The chunker's advance step CHUNK_SIZE - CHUNK_OVERLAP is positive and at most one window. */
  lemma ChunkStepPositive()
    ensures 0 <= CHUNK_OVERLAP < CHUNK_SIZE
    ensures 0 < CHUNK_SIZE - CHUNK_OVERLAP <= CHUNK_SIZE
  {
  }

  function ValidateLlmConfig(llmProvider: string, settings: Settings): (valid: bool)
    ensures valid <==>
      || (llmProvider == "anthropic" && settings.anthropicApiKey != "")
      || (llmProvider == "openai" && settings.openaiApiKey != "")
  {
    if llmProvider == "anthropic" then settings.anthropicApiKey != ""
    else if llmProvider == "openai" then settings.openaiApiKey != ""
    else false
  }

  function ValidateEmbeddingConfig(embeddingProvider: string, settings: Settings): (valid: bool)
    ensures embeddingProvider == "local" ==> valid
    ensures valid <==>
      || embeddingProvider == "local"
      || (embeddingProvider == "openai" && settings.openaiApiKey != "")
  {
    if embeddingProvider == "openai" then settings.openaiApiKey != ""
    else if embeddingProvider == "local" then true
    else false
  }
}
