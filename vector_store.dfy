/**
 * The vector store over one Chroma collection, "documents". The collection
 * is a list of records that `add` extends and that `clear` replaces by a new,
 * empty one; Chroma's nearest-neighbour ranking is a function value (`Ranker`)
 * the collection carries.
 */
module Vectors {
  import opened Wrappers
  import opened Text
  import opened Batching
  import opened Documents
  import Embeddings
  import Config

  /** One stored record: its ID, embedding, text and metadata. */
  datatype Record = Record(id: string, embedding: Embeddings.Vector, content: string, metadata: Metadata)

  /**
   * What collection.query returns for one query embedding: each field holds
   * one inner list per query embedding. A field Chroma leaves as None is the
   * empty list here, which Python treats the same way (both are falsy).
   */
  datatype QueryResult = QueryResult(documents: seq<seq<string>>, metadatas: seq<seq<Metadata>>, distances: seq<seq<real>>)

  /** One formatted search hit; `metadata` is None for the `{}` default. */
  datatype SearchResult = SearchResult(content: string, metadata: Option<Metadata>, distance: real)

  /** Chroma's nearest-neighbour lookup: stored records, query embedding and n_results to the raw answer. */
  type Ranker = (seq<Record>, Embeddings.Vector, int) -> QueryResult

  /** How many records one collection.add call receives at most. */
  const ADD_BATCH_SIZE: nat := 500

  /** The message of the IndexError Python raises for an index past the end of a list. */
  const INDEX_ERROR: string := "list index out of range"

  /** The Chroma collection "documents". */
  class Collection {
    var records: seq<Record>
    /** The batches passed to `add`, in call order. */
    ghost var addCalls: seq<seq<Record>>
    const ranker: Ranker

    /** get_or_create_collection: the records already persisted, or none. */
    constructor (ranker: Ranker, persisted: seq<Record>)
      ensures records == persisted && addCalls == [] && this.ranker == ranker
    {
      records := persisted;
      addCalls := [];
      this.ranker := ranker;
    }

    /** collection.add; what Chroma does with an ID it already holds is not modelled. */
    method Add(batch: seq<Record>)
      modifies this
      ensures records == old(records) + batch
      ensures addCalls == old(addCalls) + [batch]
    {
      records := records + batch;
      addCalls := addCalls + [batch];
    }
  }

  /**
   * The add calls of add_documents partition the records: ceil(n / 500)
   * calls, call j receiving the consecutive slice [500 j, min(500 j + 500, n)),
   * each call non-empty and at most 500 long, together every record once and in order.
   */
  lemma AddBatchesPartition(rs: seq<Record>)
    ensures |Batches(rs, ADD_BATCH_SIZE)| == (|rs| + 499) / 500
    ensures Flatten(Batches(rs, ADD_BATCH_SIZE)) == rs
    ensures forall b :: b in Batches(rs, ADD_BATCH_SIZE) ==> 0 < |b| <= 500
    ensures forall j :: 0 <= j < |Batches(rs, ADD_BATCH_SIZE)| ==>
      && j * 500 < |rs|
      && Batches(rs, ADD_BATCH_SIZE)[j] == rs[j * 500 .. Min(j * 500 + 500, |rs|)]
  {
    BatchCount(rs, ADD_BATCH_SIZE);
    BatchesPartition(rs, ADD_BATCH_SIZE);
    BatchesBounded(rs, ADD_BATCH_SIZE);
    forall j | 0 <= j < |Batches(rs, ADD_BATCH_SIZE)|
      ensures j * 500 < |rs|
      ensures Batches(rs, ADD_BATCH_SIZE)[j] == rs[j * 500 .. Min(j * 500 + 500, |rs|)]
    {
      BatchAt(rs, ADD_BATCH_SIZE, j);
    }
  }

  /** Zipping the slices of the parallel lists is slicing their zip. */
  lemma ZipSlice(ids: seq<string>, embeddings: seq<Embeddings.Vector>, contents: seq<string>, metadatas: seq<Metadata>, i: nat, j: nat)
    requires |embeddings| == |ids| && |contents| == |ids| && |metadatas| == |ids|
    requires i <= j <= |ids|
    ensures Zip(ids[i..j], embeddings[i..j], contents[i..j], metadatas[i..j]) == Zip(ids, embeddings, contents, metadatas)[i..j]
  {
  }

  /** The records add_documents stores: position k holds ids[k], embeddings[k], contents[k] and metadatas[k]. */
  function Zip(ids: seq<string>, embeddings: seq<Embeddings.Vector>, contents: seq<string>, metadatas: seq<Metadata>)
    : (rs: seq<Record>)
    requires |embeddings| == |ids| && |contents| == |ids| && |metadatas| == |ids|
    ensures |rs| == |ids|
    ensures forall k :: 0 <= k < |rs| ==> rs[k] == Record(ids[k], embeddings[k], contents[k], metadatas[k])
  {
    seq(|ids|, k requires 0 <= k < |ids| => Record(ids[k], embeddings[k], contents[k], metadatas[k]))
  }

  function Contents(documents: seq<Document>): seq<string> {
    MapAll((d: Document) => d.content, documents)
  }

  function Metadatas(documents: seq<Document>): seq<Metadata> {
    MapAll((d: Document) => d.metadata, documents)
  }

  /** The records that adding `documents` with `service` stores, in document order. */
  function NewRecords(service: Embeddings.EmbeddingService, documents: seq<Document>): (rs: seq<Record>)
    ensures |rs| == |documents|
    ensures forall k :: 0 <= k < |rs| ==>
      && rs[k].id == documents[k].Id()
      && rs[k].content == documents[k].content
      && rs[k].metadata == documents[k].metadata
  {
    var contents := Contents(documents);
    var vectors := Embeddings.Embedded(service, contents);
    Embeddings.EmbeddedLength(service, contents);
    Zip(Ids(documents), vectors, contents, Metadatas(documents))
  }

  /** n_results: `top_k or TOP_K_RESULTS`, so None and 0 both mean the default. */
  function EffectiveTopK(topK: Option<int>): (k: int)
    ensures topK.None? || topK.value == 0 ==> k == Config.TOP_K_RESULTS
    ensures topK.Some? && topK.value != 0 ==> k == topK.value
  {
    if topK.None? || topK.value == 0 then Config.TOP_K_RESULTS else topK.value
  }

  /** Whether the raw answer holds at least one document. */
  predicate HasDocuments(raw: QueryResult) {
    |raw.documents| > 0 && |raw.documents[0]| > 0
  }

  /** Every present metadata and distance list is long enough to be indexed by every document position. */
  predicate WellShaped(raw: QueryResult)
    requires HasDocuments(raw)
  {
    && (|raw.metadatas| > 0 ==> |raw.metadatas[0]| >= |raw.documents[0]|)
    && (|raw.distances| > 0 ==> |raw.distances[0]| >= |raw.documents[0]|)
  }

  /** Hit i of a raw answer, with `{}` and 0 for an absent metadata or distance list. */
  function Hit(raw: QueryResult, i: nat): SearchResult
    requires HasDocuments(raw) && WellShaped(raw) && i < |raw.documents[0]|
  {
    SearchResult(
      raw.documents[0][i],
      if |raw.metadatas| > 0 then Some(raw.metadatas[0][i]) else None,
      if |raw.distances| > 0 then raw.distances[0][i] else 0.0)
  }

  /** What the formatting loop of `search` produces from a raw answer. */
  function Formatted(raw: QueryResult): Result<seq<SearchResult>> {
    if !HasDocuments(raw) then Success([])
    else if !WellShaped(raw) then Failure(INDEX_ERROR)
    else Success(seq(|raw.documents[0]|, i requires 0 <= i < |raw.documents[0]| => Hit(raw, i)))
  }

  /**
   * The formatting loop of `search`: one result per returned document, in
   * the collection's order, with `{}` for absent metadata and 0 for absent
   * distances; an answer whose lists are too short raises IndexError.
   */
  method FormatResults(raw: QueryResult) returns (r: Result<seq<SearchResult>>)
    ensures r == Formatted(raw)
    ensures !HasDocuments(raw) ==> r == Success([])
    ensures r.Success? && HasDocuments(raw) ==>
      && |r.value| == |raw.documents[0]|
      && forall i :: 0 <= i < |r.value| ==>
           && r.value[i].content == raw.documents[0][i]
           && (r.value[i].metadata.None? <==> |raw.metadatas| == 0)
           && (|raw.distances| == 0 ==> r.value[i].distance == 0.0)
  {
    var formatted: seq<SearchResult> := [];
    if HasDocuments(raw) {
      var docs := raw.documents[0];
      for i := 0 to |docs|
        invariant |formatted| == i
        invariant |raw.metadatas| > 0 ==> i <= |raw.metadatas[0]|
        invariant |raw.distances| > 0 ==> i <= |raw.distances[0]|
        invariant forall j :: 0 <= j < i ==>
          formatted[j] == SearchResult(
            docs[j],
            if |raw.metadatas| > 0 then Some(raw.metadatas[0][j]) else None,
            if |raw.distances| > 0 then raw.distances[0][j] else 0.0)
      {
        var metadata: Option<Metadata> := None;
        if |raw.metadatas| > 0 {
          if i >= |raw.metadatas[0]| {
            return Failure(INDEX_ERROR);
          }
          metadata := Some(raw.metadatas[0][i]);
        }
        var distance := 0.0;
        if |raw.distances| > 0 {
          if i >= |raw.distances[0]| {
            return Failure(INDEX_ERROR);
          }
          distance := raw.distances[0][i];
        }
        formatted := formatted + [SearchResult(docs[i], metadata, distance)];
      }
      assert WellShaped(raw);
      ghost var expected := Formatted(raw).value;
      assert |expected| == |formatted|;
      assert forall j :: 0 <= j < |formatted| ==> expected[j] == formatted[j];
      assert expected == formatted;
    }
    return Success(formatted);
  }

  class VectorStore {
    const embedding: Embeddings.EmbeddingService
    var collection: Collection

    /** VectorStore(folder, embedding_service): opens the persisted collection. */
    constructor (embedding: Embeddings.EmbeddingService, ranker: Ranker, persisted: seq<Record>)
      ensures this.embedding == embedding
      ensures fresh(collection) && collection.records == persisted && collection.addCalls == []
      ensures collection.ranker == ranker
    {
      this.embedding := embedding;
      collection := new Collection(ranker, persisted);
    }

    /**
     * add_documents: embeds every content in one call, then hands the records
     * to the collection 500 at a time, in order.
     */
    method AddDocuments(documents: seq<Document>)
      modifies collection
      ensures collection.records == old(collection.records) + NewRecords(embedding, documents)
      ensures collection.addCalls == old(collection.addCalls) + Batches(NewRecords(embedding, documents), ADD_BATCH_SIZE)
      ensures documents == [] ==> collection.records == old(collection.records) && collection.addCalls == old(collection.addCalls)
    {
      if documents == [] {
        return;
      }
      var ids := Ids(documents);
      var contents := Contents(documents);
      var metadatas := Metadatas(documents);
      var embeddings := Embeddings.EmbedTexts(embedding, contents);
      ghost var all := Zip(ids, embeddings, contents, metadatas);
      assert all == NewRecords(embedding, documents);
      BatchesPartition(all, ADD_BATCH_SIZE);
      var i: nat := 0;
      while i < |ids|
        invariant collection.records + Flatten(BatchesFrom(all, i, ADD_BATCH_SIZE)) == old(collection.records) + all
        invariant collection.addCalls + BatchesFrom(all, i, ADD_BATCH_SIZE) == old(collection.addCalls) + Batches(all, ADD_BATCH_SIZE)
        decreases |ids| - i
      {
        var end := Min(i + ADD_BATCH_SIZE, |ids|);
        var batch := Zip(ids[i..end], embeddings[i..end], contents[i..end], metadatas[i..end]);
        ZipSlice(ids, embeddings, contents, metadatas, i, end);
        BatchLoopStep(collection.records, collection.addCalls, all, i, ADD_BATCH_SIZE,
                      old(collection.records), old(collection.addCalls));
        collection.Add(batch);
        i := i + ADD_BATCH_SIZE;
      }
    }

    /** search: embeds the query, asks the collection for n_results neighbours and formats the answer. */
    method Search(query: string, topK: Option<int>) returns (r: Result<seq<SearchResult>>)
      ensures r == Formatted(collection.ranker(collection.records, embedding.EmbedQuery(query), EffectiveTopK(topK)))
    {
      var k := EffectiveTopK(topK);
      var queryEmbedding := embedding.EmbedQuery(query);
      var raw := collection.ranker(collection.records, queryEmbedding, k);
      r := FormatResults(raw);
    }

    /** clear: drops the collection and creates a new, empty one with the same ranking. */
    method Clear()
      modifies this
      ensures fresh(collection)
      ensures collection.records == [] && collection.addCalls == []
      ensures collection.ranker == old(collection.ranker)
    {
      collection := new Collection(collection.ranker, []);
    }

    /** count: the number of stored records. */
    method Count() returns (n: nat)
      ensures n == |collection.records|
    {
      n := |collection.records|;
    }

    /** exists: the index directory is present and holds at least one record. */
    method Exists(indexPathExists: bool) returns (b: bool)
      ensures b <==> indexPathExists && collection.records != []
    {
      var n := Count();
      b := indexPathExists && n > 0;
    }
  }

}
