/**
 * The gateway's HTTP surface: four POST handlers that read a JSON request,
 * call the module-level Endee client and answer with a JSON dict. The client
 * is an object that records every call made on it; what the backend answers
 * (an exception, or for a query the raw result list) is fixed by its oracles.
 * A handler that raises ends in the web framework's error response, which is
 * not modelled: the handler's outcome is then `Raised`.
 */
module Api {
  import opened Python

  const DefaultSpaceType := "cosine"
  const DefaultPrecision := "INT8D"
  const DefaultTopK := 5

  // ---------------------------------------------------------------------------
  // The client

  /** A call on the client, or on the index object that `get_index` returned for a name. */
  datatype Call =
    | CreateIndexCall(name: Json, dimension: Json, spaceType: Json, precision: string)
    | GetIndexCall(name: Json)
    | UpsertCall(indexName: Json, vectors: Json)
    | QueryCall(indexName: Json, vector: Json, topK: Json, includeVectors: Json)

  class EndeeClient {
    /** Every call made so far, in order. */
    var calls: seq<Call>
    /** The member names of the client library's `Precision` enum. */
    const precisions: set<string>
    /** Whether the `n`-th call raises, and what. */
    const fails: (nat, Call) -> Option<Exception>
    /** What the `n`-th call returns when it is a query: the raw result records. */
    const hits: (nat, Call) -> seq<Json>

    constructor (precisions: set<string>, fails: (nat, Call) -> Option<Exception>, hits: (nat, Call) -> seq<Json>)
      ensures calls == []
      ensures this.precisions == precisions && this.fails == fails && this.hits == hits
    {
      calls := [];
      this.precisions := precisions;
      this.fails := fails;
      this.hits := hits;
    }

    /** How the backend answers call number `n`. */
    function Answer(n: nat, c: Call): (r: Outcome<seq<Json>>)
      ensures r.Raised? <==> fails(n, c).Some?
    {
      match fails(n, c)
      case Some(e) => Raised(e)
      case None => Returned(hits(n, c))
    }

    method Invoke(c: Call) returns (r: Outcome<seq<Json>>)
      modifies this
      ensures calls == old(calls) + [c]
      ensures r == Answer(|old(calls)|, c)
    {
      r := Answer(|calls|, c);
      calls := calls + [c];
    }
  }

  // ---------------------------------------------------------------------------
  // create_index

  datatype CreateArgs = CreateArgs(name: Json, dimension: Json, spaceType: Json, precision: Json)

  /** The four fields `create_index` reads, with its defaults for `space_type` and `precision`. */
  function CreateIndexArgs(data: Json): (r: Outcome<CreateArgs>)
    ensures r.Raised? <==> !data.JDict?
    ensures r.Raised? ==> r.exc == AttributeError
    ensures data.JDict? ==>
      && r.value.name == (if "name" in data.fields then data.fields["name"] else JNull)
      && r.value.dimension == (if "dimension" in data.fields then data.fields["dimension"] else JNull)
      && r.value.spaceType == (if "space_type" in data.fields then data.fields["space_type"] else JStr(DefaultSpaceType))
      && r.value.precision == (if "precision" in data.fields then data.fields["precision"] else JStr(DefaultPrecision))
  {
    match data
    case JDict(m) =>
      Returned(CreateArgs(DictGet(m, "name", JNull), DictGet(m, "dimension", JNull),
                          DictGet(m, "space_type", JStr(DefaultSpaceType)), DictGet(m, "precision", JStr(DefaultPrecision))))
    case _ => Raised(AttributeError)
  }

  /** `Precision[p]`: lookup by member name; an unhashable key is a `TypeError`, any other miss a `KeyError`. */
  function PrecisionByName(names: set<string>, p: Json): (r: Outcome<string>)
    ensures r.Returned? <==> p.JStr? && p.s in names
    ensures r.Returned? ==> r.value == p.s
    ensures r.Raised? ==> r.exc == (if p.JList? || p.JDict? then TypeError else KeyError)
  {
    if p.JStr? && p.s in names then Returned(p.s)
    else if p.JList? || p.JDict? then Raised(TypeError)
    else Raised(KeyError)
  }

  function CreatedResponse(name: Json): Json
  {
    JDict(map["status" := JStr("index created"), "index_name" := name])
  }

  /**
   * `create_index`: the precision is looked up before the client is called, so
   * a bad one makes no call; otherwise exactly one create call is made and the
   * response echoes the given name.
   */
  method CreateIndex(client: EndeeClient, data: Json) returns (response: Outcome<Json>)
    modifies client
    ensures !data.JDict? ==> response == Raised(AttributeError) && client.calls == old(client.calls)
    ensures data.JDict? ==>
      var args := CreateIndexArgs(data).value;
      var p := PrecisionByName(client.precisions, args.precision);
      && (p.Raised? ==> response == Raised(p.exc) && client.calls == old(client.calls))
      && (p.Returned? ==>
            var c := CreateIndexCall(args.name, args.dimension, args.spaceType, p.value);
            && client.calls == old(client.calls) + [c]
            && response == (match client.Answer(|old(client.calls)|, c)
                            case Raised(e) => Raised(e)
                            case Returned(_) => Returned(CreatedResponse(args.name))))
  {
    var parsed := CreateIndexArgs(data);
    if parsed.Raised? {
      return Raised(parsed.exc);
    }
    var args := parsed.value;
    var precision := PrecisionByName(client.precisions, args.precision);
    if precision.Raised? {
      return Raised(precision.exc);
    }
    var r := client.Invoke(CreateIndexCall(args.name, args.dimension, args.spaceType, precision.value));
    if r.Raised? {
      return Raised(r.exc);
    }
    response := Returned(CreatedResponse(args.name));
  }

  // ---------------------------------------------------------------------------
  // get_index

  function LoadedResponse(name: Json): Json
  {
    JDict(map["status" := JStr("index loaded"), "index_name" := name])
  }

  /** `get_index`: one get call for the given name; the response echoes it. */
  method GetIndex(client: EndeeClient, data: Json) returns (response: Outcome<Json>)
    modifies client
    ensures !data.JDict? ==> response == Raised(AttributeError) && client.calls == old(client.calls)
    ensures data.JDict? ==>
      var name := DictGet(data.fields, "name", JNull);
      && client.calls == old(client.calls) + [GetIndexCall(name)]
      && response == (match client.Answer(|old(client.calls)|, GetIndexCall(name))
                      case Raised(e) => Raised(e)
                      case Returned(_) => Returned(LoadedResponse(name)))
  {
    var got := Get(data, "name", JNull);
    if got.Raised? {
      return Raised(got.exc);
    }
    var name := got.value;
    var r := client.Invoke(GetIndexCall(name));
    if r.Raised? {
      return Raised(r.exc);
    }
    response := Returned(LoadedResponse(name));
  }

  // ---------------------------------------------------------------------------
  // upsert_vectors

  /** The upsert response: its `count` is `len(embedded_vectors)`, which raises on a non-sized value. */
  function UpsertedResponse(vectors: Json): (r: Outcome<Json>)
    ensures r.Returned? <==> vectors.JStr? || vectors.JList? || vectors.JDict?
    ensures vectors.JList? ==>
      r == Returned(JDict(map["status" := JStr("vectors upserted"), "count" := JInt(|vectors.items|)]))
  {
    match Len(vectors)
    case Raised(e) => Raised(e)
    case Returned(n) => Returned(JDict(map["status" := JStr("vectors upserted"), "count" := JInt(n)]))
  }

  /** `upsert_vectors`: get the index, upsert on it, then count what was sent. */
  method UpsertVectors(client: EndeeClient, data: Json) returns (response: Outcome<Json>)
    modifies client
    ensures !data.JDict? ==> response == Raised(AttributeError) && client.calls == old(client.calls)
    ensures data.JDict? ==>
      var name := DictGet(data.fields, "index_name", JNull);
      var vectors := DictGet(data.fields, "embedded_vectors", JNull);
      var n := |old(client.calls)|;
      match client.Answer(n, GetIndexCall(name))
      case Raised(e) => client.calls == old(client.calls) + [GetIndexCall(name)] && response == Raised(e)
      case Returned(_) =>
        && client.calls == old(client.calls) + [GetIndexCall(name), UpsertCall(name, vectors)]
        && response == (match client.Answer(n + 1, UpsertCall(name, vectors))
                        case Raised(e) => Raised(e)
                        case Returned(_) => UpsertedResponse(vectors))
  {
    if !data.JDict? {
      return Raised(AttributeError);
    }
    var name := DictGet(data.fields, "index_name", JNull);
    var vectors := DictGet(data.fields, "embedded_vectors", JNull);
    var got := client.Invoke(GetIndexCall(name));
    if got.Raised? {
      return Raised(got.exc);
    }
    var done := client.Invoke(UpsertCall(name, vectors));
    if done.Raised? {
      return Raised(done.exc);
    }
    response := UpsertedResponse(vectors);
  }

  // ---------------------------------------------------------------------------
  // query_index

  /** A normalised query hit. */
  datatype Hit = Hit(id: Json, similarity: Json, distance: Json, text: Json)

  /**
   * One raw record, normalised: `id`, `similarity` and `distance` copied (None
   * when absent) and `text` taken from `meta["content"]`. A record or `meta`
   * that is not a dict has no `get`.
   */
  function CleanRecord(r: Json): (o: Outcome<Hit>)
    ensures o.Returned? <==> r.JDict? && ("meta" in r.fields ==> r.fields["meta"].JDict?)
    ensures o.Raised? ==> o.exc == AttributeError
    ensures o.Returned? ==>
      && o.value.id == DictGet(r.fields, "id", JNull)
      && o.value.similarity == DictGet(r.fields, "similarity", JNull)
      && o.value.distance == DictGet(r.fields, "distance", JNull)
      && o.value.text == (if "meta" in r.fields && "content" in r.fields["meta"].fields
                          then r.fields["meta"].fields["content"] else JNull)
  {
    if !r.JDict? then Raised(AttributeError)
    else
      var meta := DictGet(r.fields, "meta", JDict(map[]));
      match Get(meta, "content", JNull)
      case Raised(e) => Raised(e)
      case Returned(text) =>
        Returned(Hit(DictGet(r.fields, "id", JNull), DictGet(r.fields, "similarity", JNull),
                     DictGet(r.fields, "distance", JNull), text))
  }

  /** The `cleaned_results` comprehension: one hit per raw record, same order, or the first record's error. */
  function NormalizeResults(raw: seq<Json>): (r: Outcome<seq<Hit>>)
    ensures r.Returned? <==> forall i :: 0 <= i < |raw| ==> CleanRecord(raw[i]).Returned?
    ensures r.Raised? ==> r.exc == AttributeError
    ensures r.Returned? ==> |r.value| == |raw| && forall i :: 0 <= i < |raw| ==> r.value[i] == CleanRecord(raw[i]).value
  {
    if forall i :: 0 <= i < |raw| ==> CleanRecord(raw[i]).Returned? then
      Returned(seq(|raw|, i requires 0 <= i < |raw| => CleanRecord(raw[i]).value))
    else Raised(AttributeError)
  }

  /** Record `i` of `a + b` is record `i` of `a`, or record `i - |a|` of `b`. */
  lemma CleanRecordOfConcat(a: seq<Json>, b: seq<Json>, i: int)
    requires 0 <= i < |a| + |b|
    ensures CleanRecord((a + b)[i]) == if i < |a| then CleanRecord(a[i]) else CleanRecord(b[i - |a|])
  {
  }

  /** Normalising is a map over the records: it distributes over concatenation, so nothing is reordered. */
  lemma NormalizeConcat(a: seq<Json>, b: seq<Json>)
    ensures NormalizeResults(a + b).Returned? <==> NormalizeResults(a).Returned? && NormalizeResults(b).Returned?
    ensures NormalizeResults(a + b).Returned? ==>
      NormalizeResults(a + b).value == NormalizeResults(a).value + NormalizeResults(b).value
  {
    var ra, rb, rab := NormalizeResults(a), NormalizeResults(b), NormalizeResults(a + b);
    if ra.Returned? && rb.Returned? {
      forall i | 0 <= i < |a| + |b| ensures CleanRecord((a + b)[i]).Returned? {
        CleanRecordOfConcat(a, b, i);
      }
      assert rab.Returned?;
      forall i | 0 <= i < |a| + |b| ensures rab.value[i] == (ra.value + rb.value)[i] {
        CleanRecordOfConcat(a, b, i);
      }
      assert rab.value == ra.value + rb.value;
    } else if ra.Raised? {
      var i :| 0 <= i < |a| && CleanRecord(a[i]).Raised?;
      CleanRecordOfConcat(a, b, i);
      assert !CleanRecord((a + b)[i]).Returned?;
    } else {
      var i :| 0 <= i < |b| && CleanRecord(b[i]).Raised?;
      CleanRecordOfConcat(a, b, |a| + i);
      assert !CleanRecord((a + b)[|a| + i]).Returned?;
    }
  }

  function HitJson(h: Hit): Json
  {
    JDict(map["id" := h.id, "similarity" := h.similarity, "distance" := h.distance, "text" := h.text])
  }

  /** The query response: it echoes the index name and `top_k` and lists the hits in order. */
  function QueryResponse(indexName: Json, topK: Json, hits: seq<Hit>): (r: Json)
    ensures r.JDict? && r.fields.Keys == {"index_name", "top_k", "results"}
    ensures r.fields["index_name"] == indexName && r.fields["top_k"] == topK
    ensures r.fields["results"].JList? && |r.fields["results"].items| == |hits|
    ensures forall i :: 0 <= i < |hits| ==> r.fields["results"].items[i] == HitJson(hits[i])
  {
    JDict(map["index_name" := indexName, "top_k" := topK,
              "results" := JList(seq(|hits|, i requires 0 <= i < |hits| => HitJson(hits[i])))])
  }

  datatype QueryArgs = QueryArgs(indexName: Json, vector: Json, topK: Json, includeVectors: Json)

  /** The fields `query_index` reads: `top_k` defaults to 5 and `include_vectors` to False. */
  function QueryIndexArgs(data: Json): (r: Outcome<QueryArgs>)
    ensures r.Raised? <==> !data.JDict?
    ensures r.Raised? ==> r.exc == AttributeError
    ensures data.JDict? ==>
      && r.value.indexName == (if "index_name" in data.fields then data.fields["index_name"] else JNull)
      && r.value.vector == (if "vector" in data.fields then data.fields["vector"] else JNull)
      && r.value.topK == (if "top_k" in data.fields then data.fields["top_k"] else JInt(DefaultTopK))
      && r.value.includeVectors == (if "include_vectors" in data.fields then data.fields["include_vectors"] else JBool(false))
  {
    match data
    case JDict(m) =>
      Returned(QueryArgs(DictGet(m, "index_name", JNull), DictGet(m, "vector", JNull),
                         DictGet(m, "top_k", JInt(DefaultTopK)), DictGet(m, "include_vectors", JBool(false))))
    case _ => Raised(AttributeError)
  }

  /** `query_index`: get the index, query it with the (defaulted) arguments, normalise the hits. */
  method QueryIndex(client: EndeeClient, data: Json) returns (response: Outcome<Json>)
    modifies client
    ensures !data.JDict? ==> response == Raised(AttributeError) && client.calls == old(client.calls)
    ensures data.JDict? ==>
      var a := QueryIndexArgs(data).value;
      var q := QueryCall(a.indexName, a.vector, a.topK, a.includeVectors);
      var n := |old(client.calls)|;
      match client.Answer(n, GetIndexCall(a.indexName))
      case Raised(e) => client.calls == old(client.calls) + [GetIndexCall(a.indexName)] && response == Raised(e)
      case Returned(_) =>
        && client.calls == old(client.calls) + [GetIndexCall(a.indexName), q]
        && response == (match client.Answer(n + 1, q)
                        case Raised(e) => Raised(e)
                        case Returned(raw) =>
                          match NormalizeResults(raw)
                          case Raised(e) => Raised(e)
                          case Returned(hits) => Returned(QueryResponse(a.indexName, a.topK, hits)))
  {
    var parsed := QueryIndexArgs(data);
    if parsed.Raised? {
      return Raised(parsed.exc);
    }
    var a := parsed.value;
    var got := client.Invoke(GetIndexCall(a.indexName));
    if got.Raised? {
      return Raised(got.exc);
    }
    var raw := client.Invoke(QueryCall(a.indexName, a.vector, a.topK, a.includeVectors));
    if raw.Raised? {
      return Raised(raw.exc);
    }
    var cleaned := NormalizeResults(raw.value);
    if cleaned.Raised? {
      return Raised(cleaned.exc);
    }
    response := Returned(QueryResponse(a.indexName, a.topK, cleaned.value));
  }
}
