/**
 * How the three sides fit together: the ingestion client's upsert payloads and
 * the retrieval client's query payloads as the gateway reads them, and the
 * gateway's query results as the retrieval client maps them. The backend's
 * storage is not modelled; where a lemma speaks of a stored record it assumes
 * the backend hands back the `meta` dict it was given.
 */
module Pipeline {
  import opened Python
  import Upsert
  import VectorizeData
  import Api
  import RagHelper

  /** The JSON an upsert payload of vectorised records is posted as. */
  function UpsertPayloadJson(p: Upsert.UpsertPayload<VectorizeData.Record>): Json
  {
    JDict(map["index_name" := JStr(p.indexName), "embedded_vectors" := JList(RecordsJson(p.embeddedVectors))])
  }

  function RecordsJson(rs: seq<VectorizeData.Record>): (js: seq<Json>)
    ensures |js| == |rs| && forall i :: 0 <= i < |rs| ==> js[i] == VectorizeData.RecordJson(rs[i])
  {
    seq(|rs|, i requires 0 <= i < |rs| => VectorizeData.RecordJson(rs[i]))
  }

  /**
   * The gateway reads an ingestion batch under the keys it was sent with: it
   * forwards record i as the dict record i is sent as, and its `count` is the
   * number of records in the batch.
   */
  lemma UpsertBatchCounted(p: Upsert.UpsertPayload<VectorizeData.Record>)
    ensures var data := UpsertPayloadJson(p);
      && DictGet(data.fields, "index_name", JNull) == JStr(p.indexName)
      && DictGet(data.fields, "embedded_vectors", JNull).JList?
      && |DictGet(data.fields, "embedded_vectors", JNull).items| == |p.embeddedVectors|
      && (forall i :: 0 <= i < |p.embeddedVectors| ==>
            DictGet(data.fields, "embedded_vectors", JNull).items[i] == VectorizeData.RecordJson(p.embeddedVectors[i]))
      && Api.UpsertedResponse(DictGet(data.fields, "embedded_vectors", JNull)).Returned?
      && Api.UpsertedResponse(DictGet(data.fields, "embedded_vectors", JNull)).value.fields["count"] == JInt(|p.embeddedVectors|)
  {
  }

  /** Ingestion and retrieval name the same indexes. */
  lemma IndexNamesAgree()
    ensures Upsert.SingleIndexName == RagHelper.SingleIndexName
    ensures Upsert.HybridIndexName == RagHelper.HybridIndexName
  {
  }

  /**
   * The gateway reads a single-index query with the retrieval client's index
   * name, vector and `top_k`, and with `include_vectors` at its default.
   */
  lemma SingleQueryAsRead(query: string, enc: VectorizeData.Encoders)
    ensures Api.QueryIndexArgs(RagHelper.SinglePayload(query, enc)) ==
      Returned(Api.QueryArgs(JStr(RagHelper.SingleIndexName), FloatList(enc.embed(query)),
                             JInt(RagHelper.QueryTopK), JBool(false)))
  {
  }

  /**
   * Ingestion stores the chunk text under `meta["text"]`, while the gateway
   * reads `meta["content"]`: a hit whose `meta` is the one a vectorised record
   * of chunk `c` was sent with normalises to no text, although the chunk's
   * text is there.
   */
  lemma StoredTextNotReturned(rec: VectorizeData.Record, c: VectorizeData.Chunk, r: Json)
    requires VectorizeData.MetaCopied(rec.meta, c)
    requires r.JDict? && "meta" in r.fields && r.fields["meta"] == VectorizeData.RecordJson(rec).fields["meta"]
    ensures r.fields["meta"].JDict? && r.fields["meta"].fields["text"] == JStr(c.pageContent)
    ensures Api.CleanRecord(r).Returned?
    ensures Api.CleanRecord(r).value.text == JNull
  {
    VectorizeData.RecordJsonOfChunk(rec, c);
  }

  /**
   * The retrieval client maps a gateway hit with its similarity only: the
   * gateway sends no `source`, `title` or `description`, so those are always
   * `None`; and the hit converts exactly when its text is a string.
   */
  lemma HitAsDocument(h: Api.Hit)
    ensures RagHelper.ToDocument(Api.HitJson(h)).Returned? <==> h.text.JStr?
    ensures RagHelper.ToDocument(Api.HitJson(h)).Returned? ==>
      RagHelper.ToDocument(Api.HitJson(h)).value ==
        RagHelper.Document(h.text.s, RagHelper.DocMeta(h.similarity, JNull, JNull, JNull))
  {
  }

  /**
   * Put together: a query answered with any stored record of a chunk fails in
   * the retrieval client, because its null text is no valid page content. Both
   * vectorisers give records that meet the first requirement: the single one
   * by its contract, the hybrid one by `VectorizeData.HybridMetaCopied`.
   */
  lemma StoredHitFailsRetrieval(rec: VectorizeData.Record, c: VectorizeData.Chunk, r: Json)
    requires VectorizeData.MetaCopied(rec.meta, c)
    requires r.JDict? && "meta" in r.fields && r.fields["meta"] == VectorizeData.RecordJson(rec).fields["meta"]
    ensures Api.CleanRecord(r).Returned?
    ensures RagHelper.ToDocument(Api.HitJson(Api.CleanRecord(r).value)) == Raised(ValidationError)
  {
    StoredTextNotReturned(rec, c, r);
    HitAsDocument(Api.CleanRecord(r).value);
  }

  /**
   * The same for the hybrid vectoriser's output: a hit that carries the `meta`
   * of hybrid record `k` has no text, and the retrieval client rejects it.
   */
  lemma HybridHitFailsRetrieval(enc: VectorizeData.Encoders, chunks: seq<VectorizeData.Chunk>, k: nat, r: Json)
    requires k < |VectorizeData.Hybrid(enc, chunks, |chunks|)|
    requires r.JDict? && "meta" in r.fields &&
      r.fields["meta"] == VectorizeData.RecordJson(VectorizeData.Hybrid(enc, chunks, |chunks|)[k]).fields["meta"]
    ensures Api.CleanRecord(r).Returned? && Api.CleanRecord(r).value.text == JNull
    ensures RagHelper.ToDocument(Api.HitJson(Api.CleanRecord(r).value)) == Raised(ValidationError)
  {
    var rec := VectorizeData.Hybrid(enc, chunks, |chunks|)[k];
    VectorizeData.HybridMetaCopied(enc, chunks, k);
    StoredHitFailsRetrieval(rec, chunks[rec.id - VectorizeData.StartIdx], r);
  }

  /**
   * A successful query response of the gateway is mapped hit by hit: the
   * retrieval client returns documents exactly when every hit has string text.
   */
  lemma QueryResponseRetrieved(indexName: Json, topK: Json, hits: seq<Api.Hit>)
    ensures var results := Api.QueryResponse(indexName, topK, hits).fields["results"];
      RagHelper.ResultDocuments(results).Returned? <==> forall i :: 0 <= i < |hits| ==> hits[i].text.JStr?
  {
    var results := Api.QueryResponse(indexName, topK, hits).fields["results"];
    RagHelper.DocumentsInOrder(results.items);
    forall i | 0 <= i < |hits| ensures RagHelper.ToDocument(results.items[i]).Returned? <==> hits[i].text.JStr? {
      HitAsDocument(hits[i]);
    }
  }
}
