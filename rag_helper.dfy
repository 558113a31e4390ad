/**
 * The retrieval client: it builds a query payload from the query text, posts
 * it to the gateway and turns the returned `results` into LangChain
 * `Document`s. The post is a parameter (its outcome for a URL and payload);
 * the encoders are the same opaque ones the ingestion side uses.
 */
module RagHelper {
  import opened Python
  import opened Http
  import opened VectorizeData

  const EndeeUrl := "http://127.0.0.1:8000"
  const SingleIndexQueryUrl := EndeeUrl + "/index/query"
  const HybridIndexQueryUrl := EndeeUrl + "/index/hybrid/query"
  const SingleIndexName := "enterprise_knowledge_base2"
  const HybridIndexName := "enterprise_knowledge_base2_hybrid"
  /** Both retrievers ask for this many hits. */
  const QueryTopK := 20

  // ---------------------------------------------------------------------------
  // Payloads

  /** The single-index query: the fixed index name, the dense vector of the query, `top_k`. */
  function SinglePayload(query: string, enc: Encoders): (p: Json)
    ensures p.JDict? && p.fields.Keys == {"index_name", "vector", "top_k"}
    ensures p.fields["index_name"] == JStr(SingleIndexName)
    ensures p.fields["vector"] == FloatList(enc.embed(query))
    ensures p.fields["top_k"] == JInt(QueryTopK)
  {
    JDict(map["index_name" := JStr(SingleIndexName), "vector" := FloatList(enc.embed(query)), "top_k" := JInt(QueryTopK)])
  }

  /** The hybrid query adds the sparse pair of the same query text. */
  function HybridPayload(query: string, enc: Encoders): (p: Json)
    ensures p.JDict? && p.fields.Keys == {"index_name", "vector", "sparse_indices", "sparse_values", "top_k"}
    ensures p.fields["index_name"] == JStr(HybridIndexName)
    ensures p.fields["vector"] == FloatList(enc.embed(query))
    ensures p.fields["sparse_indices"] == IntList(enc.sparse(query).indices)
    ensures p.fields["sparse_values"] == FloatList(enc.sparse(query).values)
    ensures p.fields["top_k"] == JInt(QueryTopK)
  {
    var s := enc.sparse(query);
    JDict(map["index_name" := JStr(HybridIndexName), "vector" := FloatList(enc.embed(query)),
              "sparse_indices" := IntList(s.indices), "sparse_values" := FloatList(s.values),
              "top_k" := JInt(QueryTopK)])
  }

  /**
   * The two payloads differ in the index name and the sparse pair only: the
   * dense vector and `top_k` are the same for the same query, and the single
   * payload carries no sparse field.
   */
  lemma PayloadsDiffer(query: string, enc: Encoders)
    ensures "sparse_indices" !in SinglePayload(query, enc).fields && "sparse_values" !in SinglePayload(query, enc).fields
    ensures HybridPayload(query, enc).fields ==
      SinglePayload(query, enc).fields["index_name" := JStr(HybridIndexName)]
        ["sparse_indices" := IntList(enc.sparse(query).indices)]
        ["sparse_values" := FloatList(enc.sparse(query).values)]
  {
    var h := HybridPayload(query, enc).fields;
    var s := SinglePayload(query, enc).fields;
    var m := s["index_name" := JStr(HybridIndexName)]["sparse_indices" := IntList(enc.sparse(query).indices)]
              ["sparse_values" := FloatList(enc.sparse(query).values)];
    assert h.Keys == m.Keys;
    forall k | k in h.Keys ensures h[k] == m[k] { }
  }

  // ---------------------------------------------------------------------------
  // Result mapping

  /** The metadata each Document carries. */
  datatype DocMeta = DocMeta(similarity: Json, source: Json, title: Json, description: Json)

  datatype Document = Document(pageContent: string, metadata: DocMeta)

  /**
   * One result entry as a Document: `text` (or "") is the page content and the
   * four metadata fields are copied, `None` when absent. An entry that is not a
   * dict has no `get`; a page content that is not a string fails `Document`'s
   * field validation.
   */
  function ToDocument(d: Json): (r: Outcome<Document>)
    ensures !d.JDict? ==> r == Raised(AttributeError)
    ensures d.JDict? ==>
      var text := if "text" in d.fields then d.fields["text"] else JStr("");
      && (r.Returned? <==> text.JStr?)
      && (r.Raised? ==> r.exc == ValidationError)
      && (r.Returned? ==>
            && r.value.pageContent == text.s
            && r.value.metadata.similarity == (if "similarity" in d.fields then d.fields["similarity"] else JNull)
            && r.value.metadata.source == (if "source" in d.fields then d.fields["source"] else JNull)
            && r.value.metadata.title == (if "title" in d.fields then d.fields["title"] else JNull)
            && r.value.metadata.description == (if "description" in d.fields then d.fields["description"] else JNull))
  {
    match d
    case JDict(m) =>
      var text := DictGet(m, "text", JStr(""));
      var meta := DocMeta(DictGet(m, "similarity", JNull), DictGet(m, "source", JNull),
                          DictGet(m, "title", JNull), DictGet(m, "description", JNull));
      if text.JStr? then Returned(Document(text.s, meta)) else Raised(ValidationError)
    case _ => Raised(AttributeError)
  }

  /** The documents made from `items` in order; the first entry that fails ends the loop with its error. */
  function Documents(items: seq<Json>): Outcome<seq<Document>>
  {
    if items == [] then Returned([])
    else
      match Documents(items[..|items| - 1])
      case Raised(e) => Raised(e)
      case Returned(docs) =>
        match ToDocument(items[|items| - 1])
        case Raised(e) => Raised(e)
        case Returned(doc) => Returned(docs + [doc])
  }

  /** One Document per entry, in order, exactly when every entry converts. */
  lemma {:induction false} DocumentsInOrder(items: seq<Json>)
    ensures Documents(items).Returned? <==> forall i :: 0 <= i < |items| ==> ToDocument(items[i]).Returned?
    ensures Documents(items).Returned? ==>
      |Documents(items).value| == |items| &&
      forall i :: 0 <= i < |items| ==> Documents(items).value[i] == ToDocument(items[i]).value
  {
    if items != [] {
      var n := |items| - 1;
      var prefix := items[..n];
      DocumentsInOrder(prefix);
      assert forall i :: 0 <= i < n ==> prefix[i] == items[i];
      if Documents(prefix).Returned? && ToDocument(items[n]).Returned? {
        assert Documents(items).value == Documents(prefix).value + [ToDocument(items[n]).value];
      }
    }
  }

  /** A failed mapping ends with the error of the first entry that does not convert. */
  lemma {:induction false} DocumentsFirstFailure(items: seq<Json>)
    ensures Documents(items).Raised? ==>
      exists k :: 0 <= k < |items| && ToDocument(items[k]).Raised? && Documents(items).exc == ToDocument(items[k]).exc &&
        forall j :: 0 <= j < k ==> ToDocument(items[j]).Returned?
  {
    if items != [] {
      var n := |items| - 1;
      var prefix := items[..n];
      assert forall i :: 0 <= i < n ==> prefix[i] == items[i];
      if Documents(prefix).Raised? {
        DocumentsFirstFailure(prefix);
        var k :| 0 <= k < n && ToDocument(prefix[k]).Raised? && Documents(prefix).exc == ToDocument(prefix[k]).exc &&
          forall j :: 0 <= j < k ==> ToDocument(prefix[j]).Returned?;
        assert ToDocument(items[k]).Raised?;
      } else {
        DocumentsInOrder(prefix);
      }
    }
  }

  /** Once a prefix has failed, the longer loop ends with the same failure. */
  lemma {:induction false} DocumentsFailurePersists(items: seq<Json>, k: nat)
    requires k <= |items| && Documents(items[..k]).Raised?
    ensures Documents(items) == Documents(items[..k])
    decreases |items| - k
  {
    if k < |items| {
      assert items[..k + 1][..k] == items[..k];
      DocumentsFailurePersists(items, k + 1);
    } else {
      assert items[..k] == items;
    }
  }

  /** `data.get("results", [])` iterated: a list by its entries, a string by its characters, a dict by its keys. */
  function ResultDocuments(results: Json): (r: Outcome<seq<Document>>)
    ensures results.JList? ==> r == Documents(results.items)
    ensures (results.JStr? && results.s != "") || (results.JDict? && results.fields != map[]) ==> r == Raised(AttributeError)
    ensures (results.JStr? && results.s == "") || (results.JDict? && results.fields == map[]) ==> r == Returned([])
    ensures results.JNull? || results.JBool? || results.JInt? || results.JFloat? ==> r == Raised(TypeError)
  {
    match results
    case JList(items) => Documents(items)
    // Every character (or key) is a string, and a string has no `get`.
    case JStr(s) => if s == "" then Returned([]) else Raised(AttributeError)
    case JDict(m) => if m == map[] then Returned([]) else Raised(AttributeError)
    case _ => Raised(TypeError)
  }

  /**
   * `_endee_base_retriever` as a function of the post's outcome: a transport
   * error propagates; an error status raises before anything is decoded or
   * mapped; a body that is not JSON raises its decode error.
   */
  function Retrieve(o: PostOutcome): (r: Outcome<seq<Document>>)
    ensures !o.Received? ==> r == Raised(PostException(o))
    ensures o.Received? && IsErrorStatus(o.response.status) ==> r == Raised(HTTPError)
    ensures o.Received? && !IsErrorStatus(o.response.status) && o.response.body.TextBody? ==>
      r == Raised(JSONDecodeError(o.response.body.decodeError))
    ensures o.Received? && !IsErrorStatus(o.response.status) && o.response.body.JsonBody? ==>
      var data := o.response.body.value;
      && (!data.JDict? ==> r == Raised(AttributeError))
      && (data.JDict? && "results" !in data.fields ==> r == Returned([]))
      && (data.JDict? && "results" in data.fields ==> r == ResultDocuments(data.fields["results"]))
  {
    if !o.Received? then Raised(PostException(o))
    else if IsErrorStatus(o.response.status) then Raised(HTTPError)
    else
      match ResponseJson(o.response)
      case Raised(e) => Raised(e)
      case Returned(data) =>
        match Get(data, "results", JList([]))
        case Raised(e) => Raised(e)
        case Returned(results) => ResultDocuments(results)
  }

  /** `_endee_base_retriever`: post, check the status, decode, then map the results one by one. */
  method BaseRetriever(queryUrl: string, payload: Json, post: (string, Json) -> PostOutcome) returns (docs: Outcome<seq<Document>>)
    ensures docs == Retrieve(post(queryUrl, payload))
  {
    var o := post(queryUrl, payload);
    if !o.Received? {
      return Raised(PostException(o));
    }
    if IsErrorStatus(o.response.status) {
      return Raised(HTTPError);
    }
    var data := ResponseJson(o.response);
    if data.Raised? {
      return Raised(data.exc);
    }
    var results := Get(data.value, "results", JList([]));
    if results.Raised? {
      return Raised(results.exc);
    }
    if !results.value.JList? {
      return ResultDocuments(results.value);
    }
    var items := results.value.items;
    var out: seq<Document> := [];
    var i := 0;
    while i < |items|
      invariant 0 <= i <= |items|
      invariant Documents(items[..i]) == Returned(out)
    {
      assert items[..i + 1][..i] == items[..i];
      var doc := ToDocument(items[i]);
      if doc.Raised? {
        DocumentsFailurePersists(items, i + 1);
        return Raised(doc.exc);
      }
      out := out + [doc.value];
      i := i + 1;
    }
    assert items[..i] == items;
    docs := Returned(out);
  }

  method SingleIndexRetriever(query: string, enc: Encoders, post: (string, Json) -> PostOutcome) returns (docs: Outcome<seq<Document>>)
    ensures docs == Retrieve(post(SingleIndexQueryUrl, SinglePayload(query, enc)))
  {
    var payload := SinglePayload(query, enc);
    docs := BaseRetriever(SingleIndexQueryUrl, payload, post);
  }

  method HybridIndexRetriever(query: string, enc: Encoders, post: (string, Json) -> PostOutcome) returns (docs: Outcome<seq<Document>>)
    ensures docs == Retrieve(post(HybridIndexQueryUrl, HybridPayload(query, enc)))
  {
    var payload := HybridPayload(query, enc);
    docs := BaseRetriever(HybridIndexQueryUrl, payload, post);
  }
}
