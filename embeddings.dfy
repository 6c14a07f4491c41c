/**
 * Embedding services: the OpenAI service, which sends texts to the model in
 * batches of 100, the local sentence-transformers service, and the factory
 * that picks one by name. Model calls are function values held by the
 * service; their vectors are never inspected.
 */
module Embeddings {
  import opened Wrappers
  import opened Text
  import opened Batching
  import Config

  type Vector = seq<real>

  /** A model call over a list of texts: one vector per text, in input order. */
  type BatchEmbedder = f: seq<string> -> seq<Vector> | forall ts :: |f(ts)| == |ts|
    witness (ts: seq<string>) => seq(|ts|, _ => [])

  /** How many texts one request to the OpenAI embeddings endpoint carries at most. */
  const OPENAI_BATCH_SIZE: nat := 100

  /** The dimension of text-embedding-3-small vectors. */
  const OPENAI_DIMENSION: nat := 1536

  datatype EmbeddingService =
    | OpenAIEmbedding(model: string, create: BatchEmbedder)
    | LocalEmbedding(model: string, encode: BatchEmbedder, modelDimension: nat)
  {
    /** The `dimension` property: fixed when the service is built. */
    function Dimension(): (d: nat)
      ensures OpenAIEmbedding? ==> d == 1536
      ensures LocalEmbedding? ==> d == modelDimension
    {
      if OpenAIEmbedding? then OPENAI_DIMENSION else modelDimension
    }

    /**
     * embed_query: the model is asked for a single text, which is a batch of
     * one; so a query is embedded exactly as embed_texts embeds the same text.
     */
    function EmbedQuery(query: string): (v: Vector)
      ensures |Embedded(this, [query])| == 1 && v == Embedded(this, [query])[0]
    {
      if OpenAIEmbedding? then
        FlattenMapSingle(create, query, OPENAI_BATCH_SIZE);
        create([query])[0]
      else
        encode([query])[0]
    }
  }

  /** The vectors embed_texts returns: for OpenAI, the per-batch results concatenated in batch order. */
  function Embedded(service: EmbeddingService, texts: seq<string>): seq<Vector> {
    if texts == [] then []
    else match service
      case OpenAIEmbedding(_, create) => Flatten(MapAll(create, Batches(texts, OPENAI_BATCH_SIZE)))
      case LocalEmbedding(_, encode, _) => encode(texts)
  }

  /** Both services return one vector per text. */
  lemma EmbeddedLength(service: EmbeddingService, texts: seq<string>)
    ensures |Embedded(service, texts)| == |texts|
  {
    if texts != [] && service.OpenAIEmbedding? {
      FlattenMapLength(service.create, Batches(texts, OPENAI_BATCH_SIZE));
      BatchesPartition(texts, OPENAI_BATCH_SIZE);
    }
  }

  /** embed_texts of either service; the OpenAI branch is the batching loop. */
  method EmbedTexts(service: EmbeddingService, texts: seq<string>) returns (vectors: seq<Vector>)
    ensures vectors == Embedded(service, texts)
    ensures |vectors| == |texts|
    ensures texts == [] ==> vectors == []
  {
    if texts == [] {
      return [];
    }
    match service
    case LocalEmbedding(_, encode, _) =>
      vectors := encode(texts);
    case OpenAIEmbedding(_, create) =>
      vectors := [];
      var i: nat := 0;
      while i < |texts|
        invariant vectors + Flatten(MapAll(create, BatchesFrom(texts, i, OPENAI_BATCH_SIZE)))
                  == Flatten(MapAll(create, Batches(texts, OPENAI_BATCH_SIZE)))
        decreases |texts| - i
      {
        var batch := texts[i..Min(i + OPENAI_BATCH_SIZE, |texts|)];
        var rest := BatchesFrom(texts, i + OPENAI_BATCH_SIZE, OPENAI_BATCH_SIZE);
        assert BatchesFrom(texts, i, OPENAI_BATCH_SIZE) == [batch] + rest;
        MapAllCons(create, batch, rest);
        FlattenCons(create(batch), MapAll(create, rest));
        vectors := vectors + create(batch);
        i := i + OPENAI_BATCH_SIZE;
      }
      FlattenMapLength(create, Batches(texts, OPENAI_BATCH_SIZE));
      BatchesPartition(texts, OPENAI_BATCH_SIZE);
  }

  /**
   * The OpenAI service sends ceil(n / 100) requests, request j carrying the
   * consecutive slice texts[100 j .. min(100 j + 100, n)], none of them empty.
   */
  lemma OpenAIRequests(texts: seq<string>)
    ensures |Batches(texts, OPENAI_BATCH_SIZE)| == (|texts| + 99) / 100
    ensures Flatten(Batches(texts, OPENAI_BATCH_SIZE)) == texts
    ensures forall j :: 0 <= j < |Batches(texts, OPENAI_BATCH_SIZE)| ==>
      && j * 100 < |texts|
      && Batches(texts, OPENAI_BATCH_SIZE)[j] == texts[j * 100 .. Min(j * 100 + 100, |texts|)]
  {
    BatchCount(texts, OPENAI_BATCH_SIZE);
    BatchesPartition(texts, OPENAI_BATCH_SIZE);
    forall j | 0 <= j < |Batches(texts, OPENAI_BATCH_SIZE)|
      ensures j * 100 < |texts|
      ensures Batches(texts, OPENAI_BATCH_SIZE)[j] == texts[j * 100 .. Min(j * 100 + 100, |texts|)]
    {
      BatchAt(texts, OPENAI_BATCH_SIZE, j);
    }
  }

  /** When the model maps each text on its own, batching is invisible: the result is the elementwise map of the input. */
  lemma OpenAIBatchingTransparent(service: EmbeddingService, embed: string -> Vector, texts: seq<string>)
    requires service.OpenAIEmbedding?
    requires forall ts :: service.create(ts) == MapAll(embed, ts)
    ensures Embedded(service, texts) == MapAll(embed, texts)
  {
    if texts != [] {
      FlattenMapElementwise(service.create, embed, Batches(texts, OPENAI_BATCH_SIZE));
      BatchesPartition(texts, OPENAI_BATCH_SIZE);
    }
  }

  /** The model calls a factory can wire into the service it builds. */
  datatype EmbeddingBackends = EmbeddingBackends(
    openaiCreate: BatchEmbedder,
    localEncode: BatchEmbedder,
    localDimension: nat)

  /** `provider or Config.DEFAULT_EMBEDDING`. */
  function ResolveProvider(provider: Option<string>, default: string): string {
    if Truthy(provider) then provider.value else default
  }

  /** get_embedding_service. */
  function GetEmbeddingService(provider: Option<string>, settings: Config.Settings, backends: EmbeddingBackends)
    : (r: Result<EmbeddingService>)
    ensures var p := ResolveProvider(provider, settings.defaultEmbedding);
      && (r.Success? <==> Config.ValidateEmbeddingConfig(p, settings))
      && (p == "openai" && settings.openaiApiKey == "" ==>
            r == Failure("OPENAI_API_KEY is required for OpenAI embeddings"))
      && (p != "openai" && p != "local" ==> r == Failure("Unknown embedding provider: " + p))
      && (r.Success? ==> (r.value.OpenAIEmbedding? <==> p == "openai"))
  {
    var p := ResolveProvider(provider, settings.defaultEmbedding);
    if p == "openai" then
      if settings.openaiApiKey == "" then Failure("OPENAI_API_KEY is required for OpenAI embeddings")
      else Success(OpenAIEmbedding(Config.OPENAI_EMBEDDING_MODEL, backends.openaiCreate))
    else if p == "local" then
      Success(LocalEmbedding(Config.LOCAL_EMBEDDING_MODEL, backends.localEncode, backends.localDimension))
    else
      Failure("Unknown embedding provider: " + p)
  }

  /** With no provider named, the factory builds the configured default. */
  lemma DefaultEmbeddingProvider(settings: Config.Settings, backends: EmbeddingBackends)
    ensures GetEmbeddingService(None, settings, backends) == GetEmbeddingService(Some(settings.defaultEmbedding), settings, backends)
    ensures GetEmbeddingService(Some(""), settings, backends) == GetEmbeddingService(None, settings, backends)
  {
  }

  /** An OpenAI service from the factory reports dimension 1536 whatever its model calls are. */
  lemma OpenAIDimension(provider: Option<string>, settings: Config.Settings, backends: EmbeddingBackends)
    requires ResolveProvider(provider, settings.defaultEmbedding) == "openai"
    requires GetEmbeddingService(provider, settings, backends).Success?
    ensures GetEmbeddingService(provider, settings, backends).value.Dimension() == 1536
  {
  }
}
