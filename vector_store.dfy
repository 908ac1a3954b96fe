/** The vector record store (app/core/vector_store.py): the Pinecone index is
    a map from record id to record, created once with a fixed dimension and
    metric; records get fresh ids from a uuid oracle; search results are the
    index's matches reshaped, the ranking itself being left to the index. */
module VectorStores {
  import opened Common
  import Embedding

  type Vector = Embedding.Vector

  /** An upserted vector: `{"id": …, "values": …, "metadata": …}`. */
  datatype Record = Record(id: string, values: Vector, metadata: Metadata)

  /** One match of an index query, as the index ranks and scores it. */
  datatype Match = Match(id: string, score: real, metadata: Metadata)

  /** One entry of `similarity_search`'s result. */
  datatype SearchResult = SearchResult(id: string, score: real, text: MetaValue, metadata: Metadata)

  datatype IndexSpec = IndexSpec(dimension: nat, metric: string)

  /** `settings.PINECONE_INDEX_NAME` with its default value. */
  const IndexName: string := "rag-index"
  /** The OpenAI embedding dimension and the metric the index is created with. */
  const Dimension: nat := 1536
  const Metric: string := "cosine"

  // ---------------------------------------------------------------------------
  // Index creation
  // ---------------------------------------------------------------------------

  /** The index catalogue after the start-up check: created with the fixed
      spec only when the name is not listed. */
  function EnsureIndex(indexes: map<string, IndexSpec>): map<string, IndexSpec> {
    if IndexName in indexes then indexes else indexes[IndexName := IndexSpec(Dimension, Metric)]
  }

  /** After the check the index exists; an index already listed keeps its
      spec; nothing else is created; and a second start-up changes nothing. */
  lemma EnsureIndexProperties(indexes: map<string, IndexSpec>)
    ensures IndexName in EnsureIndex(indexes)
    ensures IndexName !in indexes ==> EnsureIndex(indexes)[IndexName] == IndexSpec(1536, "cosine")
    ensures EnsureIndex(indexes).Keys == indexes.Keys + {IndexName}
    ensures forall name :: name in indexes ==> EnsureIndex(indexes)[name] == indexes[name]
    ensures EnsureIndex(EnsureIndex(indexes)) == EnsureIndex(indexes)
  {
  }

  /** The Pinecone service's catalogue of indexes. */
  class Pinecone {
    var indexes: map<string, IndexSpec>

    constructor (indexes: map<string, IndexSpec>)
      ensures this.indexes == indexes
    {
      this.indexes := indexes;
    }

    /** `pinecone.list_indexes()`. */
    method ListIndexes() returns (names: set<string>)
      ensures names == indexes.Keys
    {
      names := indexes.Keys;
    }

    /** `pinecone.create_index(name, dimension, metric)`. */
    method CreateIndex(name: string, dimension: nat, metric: string)
      modifies this
      ensures indexes == old(indexes)[name := IndexSpec(dimension, metric)]
    {
      indexes := indexes[name := IndexSpec(dimension, metric)];
    }
  }

  // ---------------------------------------------------------------------------
  // Records: upsert and delete by document
  // ---------------------------------------------------------------------------

  /** The index after upserting `vectors` in order: each record replaces
      whatever was stored under its id. */
  function UpsertAll(records: map<string, Record>, vectors: seq<Record>): (r: map<string, Record>)
    ensures r.Keys == records.Keys + set k | 0 <= k < |vectors| :: vectors[k].id
    decreases |vectors|
  {
    if |vectors| == 0 then records
    else
      var r := UpsertAll(records[vectors[0].id := vectors[0]], vectors[1..]);
      assert (set k | 0 <= k < |vectors| :: vectors[k].id)
             == {vectors[0].id} + set k | 0 <= k < |vectors[1..]| :: vectors[1..][k].id;
      r
  }

  /** With pairwise distinct ids every upserted record is stored under its id,
      and every other stored record is unchanged. */
  lemma {:induction false} UpsertAllContents(records: map<string, Record>, vectors: seq<Record>)
    requires forall i, j :: 0 <= i < j < |vectors| ==> vectors[i].id != vectors[j].id
    ensures forall k :: 0 <= k < |vectors| ==> UpsertAll(records, vectors)[vectors[k].id] == vectors[k]
    ensures forall id :: id in records && (forall k :: 0 <= k < |vectors| ==> vectors[k].id != id) ==>
      UpsertAll(records, vectors)[id] == records[id]
    decreases |vectors|
  {
    if |vectors| > 0 {
      var first := records[vectors[0].id := vectors[0]];
      UpsertAllContents(first, vectors[1..]);
      forall k | 0 <= k < |vectors|
        ensures UpsertAll(records, vectors)[vectors[k].id] == vectors[k]
      {
        if k > 0 {
          assert vectors[k] == vectors[1..][k - 1];
        } else {
          forall j | 0 <= j < |vectors[1..]| ensures vectors[1..][j].id != vectors[0].id {
            assert vectors[1..][j] == vectors[j + 1];
          }
        }
      }
      forall id | id in records && (forall k :: 0 <= k < |vectors| ==> vectors[k].id != id)
        ensures UpsertAll(records, vectors)[id] == records[id]
      {
        assert vectors[0].id != id;
        forall j | 0 <= j < |vectors[1..]| ensures vectors[1..][j].id != id {
          assert vectors[1..][j] == vectors[j + 1];
        }
      }
    }
  }

  /** Pinecone's metadata filter `{"document_id": d}`. */
  predicate OfDocument(r: Record, documentId: string) {
    "document_id" in r.metadata && r.metadata["document_id"] == Str(documentId)
  }

  /** The index after deleting by the filter `{"document_id": d}`. */
  function WithoutDocument(records: map<string, Record>, documentId: string): map<string, Record> {
    map id | id in records && !OfDocument(records[id], documentId) :: records[id]
  }

  /** Deleting by document removes exactly the records of that document,
      leaves every other record as it was, and a second delete changes nothing. */
  lemma WithoutDocumentProperties(records: map<string, Record>, documentId: string)
    ensures forall id :: (id in WithoutDocument(records, documentId)
      <==> id in records && !OfDocument(records[id], documentId))
    ensures forall id :: id in WithoutDocument(records, documentId) ==>
      WithoutDocument(records, documentId)[id] == records[id]
    ensures WithoutDocument(WithoutDocument(records, documentId), documentId)
            == WithoutDocument(records, documentId)
  {
  }

  /** A Pinecone index handle: the records it holds. */
  class Index {
    var records: map<string, Record>

    constructor (records: map<string, Record>)
      ensures this.records == records
    {
      this.records := records;
    }

    /** `index.upsert(vectors)`. */
    method Upsert(vectors: seq<Record>)
      modifies this
      ensures records == UpsertAll(old(records), vectors)
    {
      records := UpsertAll(records, vectors);
    }

    /** `index.delete(filter={"document_id": d})`. */
    method DeleteByFilter(documentId: string)
      modifies this
      ensures records == WithoutDocument(old(records), documentId)
    {
      records := WithoutDocument(records, documentId);
    }
  }

  /** `uuid.uuid4()` as a fresh-value oracle: every id it has issued is
      shorter than its counter, and the next id has exactly counter characters. */
  class UuidSource {
    var counter: nat
    var issued: set<string>

    ghost predicate Valid()
      reads this
    {
      forall id :: id in issued ==> |id| < counter
    }

    constructor ()
      ensures Valid() && issued == {}
    {
      counter := 0;
      issued := {};
    }

    /** A string never issued before. */
    method Fresh() returns (id: string)
      requires Valid()
      modifies this
      ensures Valid()
      ensures id !in old(issued) && issued == old(issued) + {id}
    {
      id := seq(counter, _ => '0');
      issued := issued + {id};
      counter := counter + 1;
    }
  }

  // ---------------------------------------------------------------------------
  // The store
  // ---------------------------------------------------------------------------

  /** The records `store_embeddings` builds for the zipped triples, in order,
      each under its id, its metadata that of the input with "text" set. */
  function BuildRecords(ids: seq<string>, embeddings: seq<Vector>, texts: seq<string>,
                        metadata: seq<Metadata>): (vs: seq<Record>)
    requires |ids| <= |embeddings| && |ids| <= |texts| && |ids| <= |metadata|
    ensures |vs| == |ids|
  {
    seq(|ids|, k requires 0 <= k < |ids| =>
      Record(ids[k], embeddings[k], metadata[k]["text" := Str(texts[k])]))
  }

  /** One more id adds one more record at the end. */
  lemma BuildRecordsSnoc(ids: seq<string>, id: string, embeddings: seq<Vector>, texts: seq<string>,
                         metadata: seq<Metadata>)
    requires |ids| < |embeddings| && |ids| < |texts| && |ids| < |metadata|
    ensures BuildRecords(ids + [id], embeddings, texts, metadata)
            == BuildRecords(ids, embeddings, texts, metadata)
               + [Record(id, embeddings[|ids|], metadata[|ids|]["text" := Str(texts[|ids|])])]
  {
    var ids' := ids + [id];
    assert forall k :: 0 <= k < |ids| ==> ids'[k] == ids[k];
  }

  /** The stored metadata: every key of the input is kept except that "text"
      is the chunk text, whatever the input held under it. */
  lemma StoredMetadata(meta: Metadata, text: string)
    ensures var stored := meta["text" := Str(text)];
      && stored.Keys == meta.Keys + {"text"}
      && stored["text"] == Str(text)
      && forall key :: key in meta && key != "text" ==> stored[key] == meta[key]
  {
  }

  /** `similarity_search`'s reshaping of the matches: one result per match,
      in order, its text the metadata's "text" or "" when there is none. */
  function SimilaritySearch(matches: seq<Match>): (rs: seq<SearchResult>)
    ensures |rs| == |matches|
    ensures forall k :: 0 <= k < |matches| ==>
      && rs[k].id == matches[k].id && rs[k].score == matches[k].score
      && rs[k].metadata == matches[k].metadata
      && ("text" in matches[k].metadata ==> rs[k].text == matches[k].metadata["text"])
      && ("text" !in matches[k].metadata ==> rs[k].text == Str(""))
  {
    seq(|matches|, k requires 0 <= k < |matches| =>
      var m := matches[k];
      SearchResult(m.id, m.score, Get(m.metadata, "text", Str("")), m.metadata))
  }

  /** A match on a record that `store_embeddings` wrote carries that record's
      chunk text back out of the search. */
  lemma SearchReturnsStoredText(ids: seq<string>, embeddings: seq<Vector>, texts: seq<string>,
                                metadata: seq<Metadata>, j: nat, score: real)
    requires |ids| <= |embeddings| && |ids| <= |texts| && |ids| <= |metadata|
    requires j < |ids|
    ensures var r := BuildRecords(ids, embeddings, texts, metadata)[j];
      SimilaritySearch([Match(r.id, score, r.metadata)])[0].text == Str(texts[j])
  {
  }

  /** `VectorStore`: the index handle and the id source. Every id in the index
      was issued by the id source, so new ids never collide with stored ones. */
  class VectorStore {
    const index: Index
    const uuids: UuidSource

    ghost predicate Valid()
      reads this, index, uuids
    {
      uuids.Valid() && index.records.Keys <= uuids.issued
    }

    /** `VectorStore()`: create the index if it is not listed, then open it. */
    constructor (pinecone: Pinecone, index: Index, uuids: UuidSource)
      requires uuids.Valid() && index.records.Keys <= uuids.issued
      modifies pinecone
      ensures Valid() && this.index == index && this.uuids == uuids
      ensures pinecone.indexes == EnsureIndex(old(pinecone.indexes))
    {
      this.index := index;
      this.uuids := uuids;
      var names := pinecone.ListIndexes();
      if IndexName !in names {
        pinecone.CreateIndex(IndexName, Dimension, Metric);
      }
    }

    /** `store_embeddings`: one fresh id per zipped triple, in order; the
        records upserted under them; everything stored before unchanged. */
    method StoreEmbeddings(embeddings: seq<Vector>, texts: seq<string>, metadata: seq<Metadata>)
      returns (ids: seq<string>)
      requires Valid()
      modifies index, uuids
      ensures Valid()
      ensures |ids| == Min(Min(|embeddings|, |texts|), |metadata|)
      ensures Distinct(ids)
      ensures forall k :: 0 <= k < |ids| ==> ids[k] !in old(index.records)
      ensures index.records == UpsertAll(old(index.records), BuildRecords(ids, embeddings, texts, metadata))
      ensures forall k :: 0 <= k < |ids| ==>
        (ids[k] in index.records
         && index.records[ids[k]] == Record(ids[k], embeddings[k], metadata[k]["text" := Str(texts[k])]))
      ensures forall id :: id in old(index.records) ==> index.records[id] == old(index.records)[id]
    {
      var n := Min(Min(|embeddings|, |texts|), |metadata|);
      var vectors: seq<Record> := [];
      ids := [];
      for i := 0 to n
        invariant |ids| == i && vectors == BuildRecords(ids, embeddings, texts, metadata)
        invariant uuids.Valid() && old(uuids.issued) <= uuids.issued
        invariant forall k :: 0 <= k < i ==> ids[k] in uuids.issued && ids[k] !in old(uuids.issued)
        invariant Distinct(ids)
        invariant index.records == old(index.records)
      {
        var id := uuids.Fresh();
        BuildRecordsSnoc(ids, id, embeddings, texts, metadata);
        ids := ids + [id];
        vectors := vectors + [Record(id, embeddings[i], metadata[i]["text" := Str(texts[i])])];
      }
      assert forall k :: 0 <= k < |vectors| ==> vectors[k].id == ids[k];
      index.Upsert(vectors);
      UpsertAllContents(old(index.records), vectors);
    }

    /** `delete_by_document`: drop exactly the records of that document. */
    method DeleteByDocument(documentId: string)
      requires Valid()
      modifies index
      ensures Valid()
      ensures index.records == WithoutDocument(old(index.records), documentId)
    {
      index.DeleteByFilter(documentId);
    }
  }
}
