/**
 * Turning text chunks into the records the index stores. The encoders are
 * opaque: `embed` gives the dense vector of a text, `dimension` is what the
 * dense model declares (`None` when it declares none), `sparse` gives the
 * sparse index/value lists of a text.
 */
module VectorizeData {
  import opened Python

  /** Record ids are the chunk position plus this offset. */
  const StartIdx := 6000

  /** A loaded document chunk: its text and its loader metadata. */
  datatype Chunk = Chunk(pageContent: string, metadata: map<string, Json>)

  datatype Sparse = Sparse(indices: seq<int>, values: seq<real>)

  datatype Encoders = Encoders(embed: string -> seq<real>, dimension: Option<nat>, sparse: string -> Sparse)

  datatype Meta = Meta(title: Json, description: Json, source: Json, text: string)

  /** A record for the index; `sparse` is present on hybrid records only. */
  datatype Record = Record(id: int, vector: seq<real>, sparse: Option<Sparse>, meta: Meta)

  function MetaOf(c: Chunk): Meta
  {
    Meta(DictGet(c.metadata, "title", JStr("")), DictGet(c.metadata, "description", JStr("")),
         DictGet(c.metadata, "source", JStr("")), c.pageContent)
  }

  /** The metadata copies the chunk's text and its three loader fields. */
  ghost predicate MetaCopied(m: Meta, c: Chunk)
  {
    && m.text == c.pageContent
    && m.title == (if "title" in c.metadata then c.metadata["title"] else JStr(""))
    && m.description == (if "description" in c.metadata then c.metadata["description"] else JStr(""))
    && m.source == (if "source" in c.metadata then c.metadata["source"] else JStr(""))
  }

  /** `vectorize_single_index`: one record per chunk, in chunk order. */
  method VectorizeSingleIndex(chunks: seq<Chunk>, embed: string -> seq<real>) returns (documents: seq<Record>)
    ensures |documents| == |chunks|
    ensures forall i :: 0 <= i < |chunks| ==>
      && documents[i].id == i + StartIdx
      && documents[i].vector == embed(chunks[i].pageContent)
      && documents[i].sparse == None
      && MetaCopied(documents[i].meta, chunks[i])
  {
    documents := [];
    var id := 0;
    while id < |chunks|
      invariant 0 <= id <= |chunks| && |documents| == id
      invariant forall i :: 0 <= i < id ==>
        documents[i] == Record(i + StartIdx, embed(chunks[i].pageContent), None, MetaOf(chunks[i]))
    {
      var chunk := chunks[id];
      var text := chunk.pageContent;
      var embedding := embed(text);
      var data := Record(id + StartIdx, embedding, None, MetaOf(chunk));
      documents := documents + [data];
      id := id + 1;
    }
  }

  // ---------------------------------------------------------------------------
  // Hybrid records

  /** The dense length check: a model that declares no dimension fails it every time. */
  predicate DenseOk(enc: Encoders, v: seq<real>)
  {
    enc.dimension.Some? && |v| == enc.dimension.value
  }

  /** A chunk is kept when its dense vector has the declared length and its sparse lists agree in length. */
  predicate Kept(enc: Encoders, c: Chunk)
  {
    DenseOk(enc, enc.embed(c.pageContent))
    && |enc.sparse(c.pageContent).indices| == |enc.sparse(c.pageContent).values|
  }

  function HybridRecord(enc: Encoders, id: int, c: Chunk): Record
  {
    Record(id + StartIdx, enc.embed(c.pageContent), Some(enc.sparse(c.pageContent)), MetaOf(c))
  }

  /** The records made from the first `n` chunks. */
  function Hybrid(enc: Encoders, chunks: seq<Chunk>, n: nat): seq<Record>
    requires n <= |chunks|
  {
    if n == 0 then []
    else Hybrid(enc, chunks, n - 1) + (if Kept(enc, chunks[n - 1]) then [HybridRecord(enc, n - 1, chunks[n - 1])] else [])
  }

  /** How many of the first `n` chunks are skipped. */
  function SkipCount(enc: Encoders, chunks: seq<Chunk>, n: nat): nat
    requires n <= |chunks|
  {
    if n == 0 then 0 else SkipCount(enc, chunks, n - 1) + (if Kept(enc, chunks[n - 1]) then 0 else 1)
  }

  /** Every hybrid record has the declared dense length and equal-length sparse lists. */
  ghost predicate WellFormed(enc: Encoders, r: Record)
  {
    enc.dimension.Some? && |r.vector| == enc.dimension.value
    && r.sparse.Some? && |r.sparse.value.indices| == |r.sparse.value.values|
  }

  /**
   * `vectorize_hybrid_index`: malformed chunks are skipped, not raised on. Every
   * record is well formed, ids keep their chunk position (so they increase,
   * with gaps where chunks were skipped), and kept plus skipped is the input.
   */
  method VectorizeHybridIndex(chunks: seq<Chunk>, enc: Encoders) returns (documents: seq<Record>)
    ensures documents == Hybrid(enc, chunks, |chunks|)
    ensures |documents| + SkipCount(enc, chunks, |chunks|) == |chunks|
    ensures forall i :: 0 <= i < |documents| ==> WellFormed(enc, documents[i])
    ensures forall i, j :: 0 <= i < j < |documents| ==> documents[i].id < documents[j].id
  {
    documents := [];
    var skipped := 0;
    var id := 0;
    while id < |chunks|
      invariant 0 <= id <= |chunks|
      invariant documents == Hybrid(enc, chunks, id)
      invariant skipped == SkipCount(enc, chunks, id)
      invariant |documents| + skipped == id
    {
      var chunk := chunks[id];
      var text := chunk.pageContent;
      var embedding := enc.embed(text);
      if !DenseOk(enc, embedding) {
        skipped := skipped + 1;
        id := id + 1;
        continue;
      }
      var sparse := enc.sparse(text);
      if |sparse.indices| != |sparse.values| {
        skipped := skipped + 1;
        id := id + 1;
        continue;
      }
      var data := Record(id + StartIdx, embedding, Some(sparse), MetaOf(chunk));
      documents := documents + [data];
      id := id + 1;
    }
    HybridShape(enc, chunks, |chunks|);
  }

  /** Records from the first `n` chunks are well formed, with strictly increasing ids in `[StartIdx, StartIdx + n)`. */
  lemma {:induction false} HybridShape(enc: Encoders, chunks: seq<Chunk>, n: nat)
    requires n <= |chunks|
    ensures forall i :: 0 <= i < |Hybrid(enc, chunks, n)| ==>
      WellFormed(enc, Hybrid(enc, chunks, n)[i]) && StartIdx <= Hybrid(enc, chunks, n)[i].id < StartIdx + n
    ensures forall i, j :: 0 <= i < j < |Hybrid(enc, chunks, n)| ==>
      Hybrid(enc, chunks, n)[i].id < Hybrid(enc, chunks, n)[j].id
  {
    if n > 0 {
      HybridShape(enc, chunks, n - 1);
      var h := Hybrid(enc, chunks, n);
      var prev := Hybrid(enc, chunks, n - 1);
      assert forall k :: 0 <= k < |prev| ==> WellFormed(enc, prev[k]);
      assert forall k :: 0 <= k < |prev| ==> h[k] == prev[k];
      if Kept(enc, chunks[n - 1]) {
        assert h == prev + [HybridRecord(enc, n - 1, chunks[n - 1])];
        assert h[|prev|].id == n - 1 + StartIdx;
      } else {
        assert h == prev;
      }
      forall k | 0 <= k < |h| ensures WellFormed(enc, h[k]) && StartIdx <= h[k].id < StartIdx + n {
        if k < |prev| { assert h[k] == prev[k]; }
      }
    }
  }

  /**
   * The record with id `i + StartIdx` is there exactly when chunk `i` is kept,
   * and it is that chunk's record: its vectors come from the chunk's own text
   * and its metadata is the chunk's.
   */
  lemma {:induction false} HybridExact(enc: Encoders, chunks: seq<Chunk>, n: nat, i: nat)
    requires i < n <= |chunks|
    ensures (exists k :: 0 <= k < |Hybrid(enc, chunks, n)| && Hybrid(enc, chunks, n)[k].id == i + StartIdx)
            <==> Kept(enc, chunks[i])
    ensures forall k :: 0 <= k < |Hybrid(enc, chunks, n)| && Hybrid(enc, chunks, n)[k].id == i + StartIdx ==>
      Hybrid(enc, chunks, n)[k] == HybridRecord(enc, i, chunks[i]) && MetaCopied(Hybrid(enc, chunks, n)[k].meta, chunks[i])
    decreases n
  {
    if i < n - 1 {
      HybridExact(enc, chunks, n - 1, i);
      HybridExactEarlier(enc, chunks, n, i);
      var h := Hybrid(enc, chunks, n);
      var prev := Hybrid(enc, chunks, n - 1);
      if Kept(enc, chunks[i]) {
        var k :| 0 <= k < |prev| && prev[k].id == i + StartIdx;
        assert h[k].id == i + StartIdx;
      }
      assert forall k :: 0 <= k < |h| && h[k].id == i + StartIdx ==> prev[k].id == i + StartIdx;
    } else {
      HybridExactLast(enc, chunks, n);
    }
  }

  /** Adding chunk `n - 1` leaves the records of earlier chunks where they were. */
  lemma HybridExactEarlier(enc: Encoders, chunks: seq<Chunk>, n: nat, i: nat)
    requires i < n - 1 && n <= |chunks|
    ensures forall k :: 0 <= k < |Hybrid(enc, chunks, n)| && Hybrid(enc, chunks, n)[k].id == i + StartIdx ==>
      k < |Hybrid(enc, chunks, n - 1)| && Hybrid(enc, chunks, n)[k] == Hybrid(enc, chunks, n - 1)[k]
    ensures forall k :: 0 <= k < |Hybrid(enc, chunks, n - 1)| ==>
      k < |Hybrid(enc, chunks, n)| && Hybrid(enc, chunks, n)[k] == Hybrid(enc, chunks, n - 1)[k]
  {
    var h := Hybrid(enc, chunks, n);
    var prev := Hybrid(enc, chunks, n - 1);
    if Kept(enc, chunks[n - 1]) {
      assert h == prev + [HybridRecord(enc, n - 1, chunks[n - 1])];
      assert h[|prev|].id == n - 1 + StartIdx;
    } else {
      assert h == prev;
    }
  }

  /** The last chunk's record is the last record when the chunk is kept, and there is none otherwise. */
  lemma HybridExactLast(enc: Encoders, chunks: seq<Chunk>, n: nat)
    requires 0 < n <= |chunks|
    ensures (exists k :: 0 <= k < |Hybrid(enc, chunks, n)| && Hybrid(enc, chunks, n)[k].id == n - 1 + StartIdx)
            <==> Kept(enc, chunks[n - 1])
    ensures forall k :: 0 <= k < |Hybrid(enc, chunks, n)| && Hybrid(enc, chunks, n)[k].id == n - 1 + StartIdx ==>
      Hybrid(enc, chunks, n)[k] == HybridRecord(enc, n - 1, chunks[n - 1]) && MetaCopied(Hybrid(enc, chunks, n)[k].meta, chunks[n - 1])
  {
    var h := Hybrid(enc, chunks, n);
    var prev := Hybrid(enc, chunks, n - 1);
    HybridShape(enc, chunks, n - 1);
    assert forall k :: 0 <= k < |prev| ==> prev[k].id < n - 1 + StartIdx;
    if Kept(enc, chunks[n - 1]) {
      assert h == prev + [HybridRecord(enc, n - 1, chunks[n - 1])];
      assert forall k :: 0 <= k < |prev| ==> h[k] == prev[k];
      assert h[|prev|].id == n - 1 + StartIdx;
    } else {
      assert h == prev;
    }
  }

  // ---------------------------------------------------------------------------

  function MetaJson(m: Meta): Json
  {
    JDict(map["title" := m.title, "description" := m.description, "source" := m.source, "text" := JStr(m.text)])
  }

  /** The dict the record is sent as. */
  function RecordJson(r: Record): Json
  {
    var base := map["id" := JInt(r.id), "vector" := FloatList(r.vector), "meta" := MetaJson(r.meta)];
    match r.sparse
    case None => JDict(base)
    case Some(s) => JDict(base["sparse_indices" := IntList(s.indices)]["sparse_values" := FloatList(s.values)])
  }

  /**
   * The dict a record built from chunk `c` is sent as: `id`, `vector` and
   * `meta` always, the sparse pair exactly on a hybrid record; `meta` holds the
   * chunk's text under `"text"` and the three loader fields, and nothing else.
   */
  lemma RecordJsonOfChunk(r: Record, c: Chunk)
    requires MetaCopied(r.meta, c)
    ensures RecordJson(r).JDict?
    ensures RecordJson(r).fields.Keys ==
      {"id", "vector", "meta"} + (if r.sparse.Some? then {"sparse_indices", "sparse_values"} else {})
    ensures RecordJson(r).fields["id"] == JInt(r.id) && RecordJson(r).fields["vector"] == FloatList(r.vector)
    ensures r.sparse.Some? ==>
      && RecordJson(r).fields["sparse_indices"] == IntList(r.sparse.value.indices)
      && RecordJson(r).fields["sparse_values"] == FloatList(r.sparse.value.values)
    ensures var meta := RecordJson(r).fields["meta"];
      && meta.JDict? && meta.fields.Keys == {"title", "description", "source", "text"}
      && meta.fields["text"] == JStr(c.pageContent)
      && meta.fields["title"] == DictGet(c.metadata, "title", JStr(""))
      && meta.fields["description"] == DictGet(c.metadata, "description", JStr(""))
      && meta.fields["source"] == DictGet(c.metadata, "source", JStr(""))
  {
  }

  /** Every hybrid record carries the metadata of the chunk its id names. */
  lemma HybridMetaCopied(enc: Encoders, chunks: seq<Chunk>, k: nat)
    requires k < |Hybrid(enc, chunks, |chunks|)|
    ensures var r := Hybrid(enc, chunks, |chunks|)[k];
      0 <= r.id - StartIdx < |chunks| && MetaCopied(r.meta, chunks[r.id - StartIdx])
  {
    var r := Hybrid(enc, chunks, |chunks|)[k];
    HybridShape(enc, chunks, |chunks|);
    var i: nat := r.id - StartIdx;
    HybridExact(enc, chunks, |chunks|, i);
  }
}
