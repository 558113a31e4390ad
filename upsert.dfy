/**
 * The batch upsert coordinator of the ingestion service: it cuts the embedded
 * records into contiguous slices below the backend's per-call insertion limit,
 * posts one upsert request per slice, in order, and reports the outcome of the
 * last one. Each post's outcome is given by `post`, a function of the attempt
 * number and the request, so any sequence of backend behaviours is covered.
 */
module Upsert {
  import opened Python
  import opened Http

  /** The backend accepts at most this many records per call ... */
  const InsertionLimit := 1000
  /** ... and each slice holds at most this many, a margin below it. */
  const BatchSize := 950

  const SingleIndexName := "enterprise_knowledge_base2"
  const HybridIndexName := "enterprise_knowledge_base2_hybrid"
  /** `ENDEE_URL` when the `ENDEE_DB_URL` environment variable is not set. */
  const DefaultEndeeUrl := "http://localhost:8080"

  function SingleUpsertUrl(endeeUrl: string): string { endeeUrl + "/index/upsert" }
  function HybridUpsertUrl(endeeUrl: string): string { endeeUrl + "/index/hybrid/upsert" }

  const MsgUpserted := "Vectors upserted successfully"
  const MsgUnreachable := "Backend service is not reachable"
  const MsgTimedOut := "Request timed out"
  const MsgHttpDefault := "HTTP error occurred"
  const UnexpectedPrefix := "Unexpected error: "

  // ---------------------------------------------------------------------------
  // Slicing

  /** A half-open range `[start, end)` of record positions. */
  datatype Slice = Slice(start: nat, end: nat)

  function Min(a: int, b: int): int { if a < b then a else b }

  /** The slices `get_slices` produces for positions `start, start + b, ...` below `n`. */
  function SlicesFrom(start: nat, n: nat, b: nat): seq<Slice>
    requires b > 0
    decreases if start < n then n - start else 0
  {
    if start >= n then [] else [Slice(start, Min(start + b, n))] + SlicesFrom(start + b, n, b)
  }

  function Slices(n: nat, b: nat): seq<Slice>
    requires b > 0
  {
    SlicesFrom(0, n, b)
  }

  /**
   * `s` tiles `[lo, hi)`: it starts at `lo`, each slice ends where the next one
   * starts, the last ends at `hi`; every slice is non-empty and at most `b`
   * long, and all but the last are exactly `b` long.
   */
  ghost predicate Tiles(s: seq<Slice>, lo: nat, hi: nat, b: nat)
  {
    && |s| > 0
    && s[0].start == lo
    && s[|s| - 1].end == hi
    && (forall i :: 0 <= i < |s| - 1 ==> s[i].end == s[i + 1].start)
    && (forall i :: 0 <= i < |s| ==> s[i].start < s[i].end <= s[i].start + b)
    && (forall i :: 0 <= i < |s| - 1 ==> s[i].end == s[i].start + b)
  }

  /** A full slice in front of a tiling of `[lo + b, hi)` tiles `[lo, hi)`. */
  lemma TilesCons(rest: seq<Slice>, lo: nat, hi: nat, b: nat)
    requires b > 0 && Tiles(rest, lo + b, hi, b)
    ensures Tiles([Slice(lo, lo + b)] + rest, lo, hi, b)
  {
    var s := [Slice(lo, lo + b)] + rest;
    forall i | 1 <= i < |s| ensures s[i] == rest[i - 1] { }
    forall i | 0 <= i < |s| - 1 ensures s[i].end == s[i + 1].start && s[i].end == s[i].start + b {
      if i > 0 { assert s[i] == rest[i - 1] && s[i + 1] == rest[i]; }
    }
    forall i | 0 <= i < |s| ensures s[i].start < s[i].end <= s[i].start + b {
      if i > 0 { assert s[i] == rest[i - 1]; }
    }
  }

  lemma {:induction false} SlicesFromTile(start: nat, n: nat, b: nat)
    requires b > 0 && start < n
    ensures Tiles(SlicesFrom(start, n, b), start, n, b)
    decreases n - start
  {
    var s := SlicesFrom(start, n, b);
    if start + b < n {
      SlicesFromTile(start + b, n, b);
      var rest := SlicesFrom(start + b, n, b);
      assert s == [Slice(start, start + b)] + rest;
      TilesCons(rest, start, n, b);
    } else {
      assert SlicesFrom(start + b, n, b) == [];
      assert s == [Slice(start, n)];
    }
  }

  /** `get_slices` partitions `[0, n)`; nothing at all when `n == 0`. */
  lemma SlicesPartition(n: nat, b: nat)
    requires b > 0
    ensures Slices(n, b) == [] <==> n == 0
    ensures n > 0 ==> Tiles(Slices(n, b), 0, n, b)
  {
    if n > 0 { SlicesFromTile(0, n, b); }
  }

  /** There are `ceil((n - start) / b)` slices: `k` slices with `(k - 1) * b < n - start <= k * b`. */
  lemma {:induction false} SlicesFromCount(start: nat, n: nat, b: nat)
    requires b > 0 && start <= n
    ensures var k := |SlicesFrom(start, n, b)|; (k - 1) * b < n - start <= k * b
    decreases n - start
  {
    if start + b < n {
      SlicesFromCount(start + b, n, b);
      var k := |SlicesFrom(start + b, n, b)|;
      assert |SlicesFrom(start, n, b)| == k + 1;
      assert (k + 1) * b == k * b + b && (k + 1 - 1) * b == (k - 1) * b + b;
    } else if start < n {
      assert SlicesFrom(start + b, n, b) == [];
    }
  }

  lemma SlicesCount(n: nat, b: nat)
    requires b > 0
    ensures var k := |Slices(n, b)|; (k - 1) * b < n <= k * b
  {
    SlicesFromCount(0, n, b);
  }

  /** 2100 records go out as 950, 950 and 200. */
  lemma SlicesExample()
    ensures Slices(2100, BatchSize) == [Slice(0, 950), Slice(950, 1900), Slice(1900, 2100)]
  {
    assert SlicesFrom(2850, 2100, 950) == [];
    assert SlicesFrom(1900, 2100, 950) == [Slice(1900, 2100)];
    assert SlicesFrom(950, 2100, 950) == [Slice(950, 1900), Slice(1900, 2100)];
  }

  /** `get_slices(vectors, batch_size)`: a `range` with step 0 raises; a negative step yields nothing. */
  method GetSlices<T>(vectors: seq<T>, batchSize: int := BatchSize) returns (r: Outcome<seq<Slice>>)
    ensures batchSize == 0 ==> r == Raised(ValueError)
    ensures batchSize < 0 ==> r == Returned([])
    ensures batchSize > 0 ==> r == Returned(Slices(|vectors|, batchSize))
  {
    if batchSize == 0 {
      return Raised(ValueError);
    }
    var slices: seq<Slice> := [];
    if batchSize < 0 {
      return Returned(slices);
    }
    var n := |vectors|;
    var start: nat := 0;
    while start < n
      invariant slices + SlicesFrom(start, n, batchSize) == Slices(n, batchSize)
      decreases n - start
    {
      var end := Min(start + batchSize, n);
      assert SlicesFrom(start, n, batchSize) == [Slice(start, end)] + SlicesFrom(start + batchSize, n, batchSize);
      slices := slices + [Slice(start, end)];
      start := start + batchSize;
    }
    assert SlicesFrom(start, n, batchSize) == [];
    assert slices == slices + SlicesFrom(start, n, batchSize);
    return Returned(slices);
  }

  // ---------------------------------------------------------------------------
  // One upsert call

  datatype UpsertPayload<T> = UpsertPayload(indexName: string, embeddedVectors: seq<T>)
  datatype UpsertRequest<T> = UpsertRequest(url: string, payload: UpsertPayload<T>)

  /** The `{success, message, data}` dict; `message` is whatever the backend's `error` field holds. */
  datatype UpsertResult = UpsertResult(success: bool, message: Json, data: Json)

  function Failure(message: Json): UpsertResult
  {
    UpsertResult(false, message, JNull)
  }

  /**
   * `upsertVectors`, once the post has ended with `o`. A JSON error body that is
   * not a dict makes `err.get` raise inside the `HTTPError` handler, where no
   * later `except` clause catches it.
   */
  function UpsertVectors(o: PostOutcome): (r: Outcome<UpsertResult>)
    ensures (r.Returned? && r.value.success) <==>
      o.Received? && !IsErrorStatus(o.response.status) && o.response.body.JsonBody?
    ensures r.Returned? && r.value.success ==>
      r.value == UpsertResult(true, JStr(MsgUpserted), o.response.body.value)
    ensures r.Returned? && !r.value.success ==> r.value.data == JNull
    ensures o.ConnectFailed? ==> r == Returned(Failure(JStr(MsgUnreachable)))
    ensures o.ReadTimedOut? ==> r == Returned(Failure(JStr(MsgTimedOut)))
    ensures o.Failed? ==> r == Returned(Failure(JStr(UnexpectedPrefix + o.message)))
    ensures o.Received? && !IsErrorStatus(o.response.status) && o.response.body.TextBody? ==>
      r == Returned(Failure(JStr(UnexpectedPrefix + o.response.body.decodeError)))
    ensures o.Received? && IsErrorStatus(o.response.status) && o.response.body.TextBody? ==>
      r == Returned(Failure(JStr(o.response.body.text)))
    ensures o.Received? && IsErrorStatus(o.response.status) && o.response.body.JsonBody? ==>
      var err := o.response.body.value;
      && (err.JDict? && "error" in err.fields ==> r == Returned(Failure(err.fields["error"])))
      && (err.JDict? && "error" !in err.fields ==> r == Returned(Failure(JStr(MsgHttpDefault))))
      && (!err.JDict? ==> r == Raised(AttributeError))
    ensures r.Raised? ==> r.exc == AttributeError
  {
    match o
    case ConnectFailed => Returned(Failure(JStr(MsgUnreachable)))
    case ReadTimedOut => Returned(Failure(JStr(MsgTimedOut)))
    case Failed(m) => Returned(Failure(JStr(UnexpectedPrefix + m)))
    case Received(response) =>
      if IsErrorStatus(response.status) then
        match ResponseJson(response)
        case Returned(err) =>
          (match Get(err, "error", JStr(MsgHttpDefault))
           case Returned(message) => Returned(Failure(message))
           case Raised(e) => Raised(e))
        case Raised(_) => Returned(Failure(JStr(response.body.text)))
      else
        match ResponseJson(response)
        case Returned(data) => Returned(UpsertResult(true, JStr(MsgUpserted), data))
        case Raised(e) => Returned(Failure(JStr(UnexpectedPrefix + e.message)))
  }

  // ---------------------------------------------------------------------------
  // The batch

  /** The records each slice carries. */
  function Batches<T>(vectors: seq<T>, s: seq<Slice>): (r: seq<seq<T>>)
    requires forall i :: 0 <= i < |s| ==> s[i].start <= s[i].end <= |vectors|
    ensures |r| == |s|
  {
    seq(|s|, i requires 0 <= i < |s| => vectors[s[i].start..s[i].end])
  }

  function Flatten<T>(xss: seq<seq<T>>): seq<T>
  {
    if xss == [] then [] else xss[0] + Flatten(xss[1..])
  }

  lemma SlicesInBounds(n: nat)
    ensures forall i :: 0 <= i < |Slices(n, BatchSize)| ==>
      Slices(n, BatchSize)[i].start <= Slices(n, BatchSize)[i].end <= n
  {
    SlicesPartition(n, BatchSize);
    if n > 0 {
      var s := Slices(n, BatchSize);
      forall i | 0 <= i < |s| ensures s[i].end <= n {
        EndsBelowLast(s, 0, n, BatchSize, i);
      }
    }
  }

  lemma {:induction false} EndsBelowLast(s: seq<Slice>, lo: nat, hi: nat, b: nat, i: nat)
    requires Tiles(s, lo, hi, b) && i < |s|
    ensures s[i].end <= hi
    decreases |s| - i
  {
    if i < |s| - 1 {
      EndsBelowLast(s, lo, hi, b, i + 1);
    }
  }

  /** Request `i` carries the records of slice `i`. */
  lemma RequestAt<T>(vectors: seq<T>, indexName: string, url: string, i: nat)
    requires i < |Slices(|vectors|, BatchSize)|
    ensures Slices(|vectors|, BatchSize)[i].start <= Slices(|vectors|, BatchSize)[i].end <= |vectors|
    ensures var s := Slices(|vectors|, BatchSize)[i];
      Requests(vectors, indexName, url)[i] == UpsertRequest(url, UpsertPayload(indexName, vectors[s.start..s.end]))
  {
    SlicesInBounds(|vectors|);
  }

  /** The requests `batch_upsert_vectors` sends, one per slice, in slice order. */
  function Requests<T>(vectors: seq<T>, indexName: string, url: string): (r: seq<UpsertRequest<T>>)
    ensures |r| == |Slices(|vectors|, BatchSize)|
  {
    SlicesInBounds(|vectors|);
    var batches := Batches(vectors, Slices(|vectors|, BatchSize));
    seq(|batches|, i requires 0 <= i < |batches| => UpsertRequest(url, UpsertPayload(indexName, batches[i])))
  }

  /**
   * What `batch_upsert_vectors` does, given the post outcomes: it sends a prefix
   * of `Requests` in order, carrying on past every returned result (failed ones
   * included) and stopping only when `upsertVectors` raises. If nothing raised,
   * every request was sent and the result is the last one's, or `{}` when there
   * was nothing to send.
   */
  ghost predicate BatchContract<T>(vectors: seq<T>, indexName: string, url: string,
                                   post: (nat, UpsertRequest<T>) -> PostOutcome,
                                   posted: seq<UpsertRequest<T>>, result: Outcome<BatchResult>)
  {
    var all := Requests(vectors, indexName, url);
    && |posted| <= |all|
    && posted == all[..|posted|]
    && (forall j :: 0 <= j < |posted| - 1 ==> UpsertVectors(post(j, posted[j])).Returned?)
    && match result
       case Returned(b) =>
         && posted == all
         && (posted == [] ==> b == NothingSent)
         && (posted != [] ==>
               var last := UpsertVectors(post(|posted| - 1, posted[|posted| - 1]));
               last.Returned? && b == LastResult(last.value))
       case Raised(e) =>
         posted != [] && UpsertVectors(post(|posted| - 1, posted[|posted| - 1])) == Raised(e)
  }

  /** `{}` when nothing was sent, else the last slice's result dict. */
  datatype BatchResult = NothingSent | LastResult(result: UpsertResult)

  /** `batch_upsert_vectors(vectors, INDEX_NAME, URL)`. */
  method BatchUpsertVectors<T>(vectors: seq<T>, indexName: string, url: string,
                               post: (nat, UpsertRequest<T>) -> PostOutcome)
    returns (posted: seq<UpsertRequest<T>>, result: Outcome<BatchResult>)
    ensures BatchContract(vectors, indexName, url, post, posted, result)
  {
    var sliced := GetSlices(vectors);
    var slices := sliced.value;
    posted := [];
    result := Returned(NothingSent);
    var i := 0;
    while i < |slices|
      invariant 0 <= i <= |slices| && |posted| == i
      invariant Progress(vectors, indexName, url, post, posted, result)
    {
      var s := slices[i];
      RequestAt(vectors, indexName, url, i);
      var request := UpsertRequest(url, UpsertPayload(indexName, vectors[s.start..s.end]));
      ProgressStep(vectors, indexName, url, post, posted, result);
      posted := posted + [request];
      var r := UpsertVectors(post(i, request));
      if r.Raised? {
        result := Raised(r.exc);
        return;
      }
      result := Returned(LastResult(r.value));
      i := i + 1;
    }
    ProgressDone(vectors, indexName, url, post, posted, result);
  }

  /**
   * The loop's state: the requests posted so far are the first ones, in order,
   * none of them raised, and the result is the last one's (or `{}`).
   */
  ghost predicate Progress<T>(vectors: seq<T>, indexName: string, url: string,
                              post: (nat, UpsertRequest<T>) -> PostOutcome,
                              posted: seq<UpsertRequest<T>>, result: Outcome<BatchResult>)
  {
    var all := Requests(vectors, indexName, url);
    && |posted| <= |all|
    && posted == all[..|posted|]
    && (forall j :: 0 <= j < |posted| ==> UpsertVectors(post(j, posted[j])).Returned?)
    && (posted == [] ==> result == Returned(NothingSent))
    && (posted != [] ==> result == Returned(LastResult(UpsertVectors(post(|posted| - 1, posted[|posted| - 1])).value)))
  }

  /** Posting the next request either keeps the loop's state or ends the batch as its contract says. */
  lemma ProgressStep<T>(vectors: seq<T>, indexName: string, url: string,
                        post: (nat, UpsertRequest<T>) -> PostOutcome,
                        posted: seq<UpsertRequest<T>>, result: Outcome<BatchResult>)
    requires Progress(vectors, indexName, url, post, posted, result)
    requires |posted| < |Requests(vectors, indexName, url)|
    ensures var next := posted + [Requests(vectors, indexName, url)[|posted|]];
      match UpsertVectors(post(|posted|, Requests(vectors, indexName, url)[|posted|]))
      case Raised(e) => BatchContract(vectors, indexName, url, post, next, Raised(e))
      case Returned(v) => Progress(vectors, indexName, url, post, next, Returned(LastResult(v)))
  {
    var all := Requests(vectors, indexName, url);
    var next := posted + [all[|posted|]];
    assert next == all[..|posted| + 1];
    assert forall j :: 0 <= j < |posted| ==> next[j] == posted[j];
  }

  /** A loop that has posted every request meets the contract. */
  lemma ProgressDone<T>(vectors: seq<T>, indexName: string, url: string,
                        post: (nat, UpsertRequest<T>) -> PostOutcome,
                        posted: seq<UpsertRequest<T>>, result: Outcome<BatchResult>)
    requires Progress(vectors, indexName, url, post, posted, result)
    requires |posted| == |Requests(vectors, indexName, url)|
    ensures BatchContract(vectors, indexName, url, post, posted, result)
  {
    assert posted == Requests(vectors, indexName, url);
  }

  /** `upsert_single_index`: the batch, aimed at the single index. */
  method UpsertSingleIndex<T>(vectors: seq<T>, endeeUrl: string, post: (nat, UpsertRequest<T>) -> PostOutcome)
    returns (posted: seq<UpsertRequest<T>>, result: Outcome<BatchResult>)
    ensures BatchContract(vectors, SingleIndexName, SingleUpsertUrl(endeeUrl), post, posted, result)
  {
    posted, result := BatchUpsertVectors(vectors, SingleIndexName, SingleUpsertUrl(endeeUrl), post);
  }

  /** `upsert_hybrid_index`: the same batch, aimed at the hybrid index. */
  method UpsertHybridIndex<T>(vectors: seq<T>, endeeUrl: string, post: (nat, UpsertRequest<T>) -> PostOutcome)
    returns (posted: seq<UpsertRequest<T>>, result: Outcome<BatchResult>)
    ensures BatchContract(vectors, HybridIndexName, HybridUpsertUrl(endeeUrl), post, posted, result)
  {
    posted, result := BatchUpsertVectors(vectors, HybridIndexName, HybridUpsertUrl(endeeUrl), post);
  }

  // ---------------------------------------------------------------------------
  // Properties of the batch

  lemma {:induction false} FlattenSlicesFrom<T>(vectors: seq<T>, start: nat, b: nat)
    requires b > 0 && start <= |vectors|
    requires forall i :: 0 <= i < |SlicesFrom(start, |vectors|, b)| ==>
      SlicesFrom(start, |vectors|, b)[i].start <= SlicesFrom(start, |vectors|, b)[i].end <= |vectors|
    ensures Flatten(Batches(vectors, SlicesFrom(start, |vectors|, b))) == vectors[start..]
    decreases |vectors| - start
  {
    var n := |vectors|;
    var s := SlicesFrom(start, n, b);
    if start < n {
      var end := Min(start + b, n);
      var rest := SlicesFrom(start + b, n, b);
      assert s == [Slice(start, end)] + rest;
      BatchesCons(vectors, s);
      assert s[1..] == rest;
      if start + b < n {
        FlattenSlicesFrom(vectors, start + b, b);
        assert vectors[start..] == vectors[start..end] + vectors[start + b..];
      } else {
        assert Batches(vectors, rest) == [];
      }
    }
  }

  /** The batches of a slice list: the first slice's records, then the rest's batches. */
  lemma BatchesCons<T>(vectors: seq<T>, s: seq<Slice>)
    requires s != [] && forall i :: 0 <= i < |s| ==> s[i].start <= s[i].end <= |vectors|
    ensures Flatten(Batches(vectors, s)) == vectors[s[0].start..s[0].end] + Flatten(Batches(vectors, s[1..]))
  {
    var bs := Batches(vectors, s);
    assert bs[1..] == Batches(vectors, s[1..]);
  }

  /**
   * The requests carry the given index name and URL, each at most `BatchSize`
   * (so below the insertion limit) and none empty, and their batches put
   * together give back the input, in order.
   */
  lemma RequestsCoverInput<T>(vectors: seq<T>, indexName: string, url: string)
    ensures var r := Requests(vectors, indexName, url);
      && (forall i :: 0 <= i < |r| ==>
            && r[i].url == url && r[i].payload.indexName == indexName
            && 0 < |r[i].payload.embeddedVectors| <= BatchSize < InsertionLimit)
      && Flatten(seq(|r|, i requires 0 <= i < |r| => r[i].payload.embeddedVectors)) == vectors
      && (vectors == [] <==> r == [])
  {
    var n := |vectors|;
    var r := Requests(vectors, indexName, url);
    var s := Slices(n, BatchSize);
    SlicesInBounds(n);
    SlicesPartition(n, BatchSize);
    var bs := Batches(vectors, s);
    assert seq(|r|, i requires 0 <= i < |r| => r[i].payload.embeddedVectors) == bs;
    FlattenSlicesFrom(vectors, 0, BatchSize);
    assert vectors[0..] == vectors;
  }

  /**
   * A slice whose result says `success: false` does not stop the batch: unless
   * some call raises, every slice is posted and the last result is reported.
   */
  lemma FailureDoesNotStopBatch<T>(vectors: seq<T>, indexName: string, url: string,
                                   post: (nat, UpsertRequest<T>) -> PostOutcome,
                                   posted: seq<UpsertRequest<T>>, result: Outcome<BatchResult>)
    requires BatchContract(vectors, indexName, url, post, posted, result)
    requires var all := Requests(vectors, indexName, url);
      forall j :: 0 <= j < |all| ==> UpsertVectors(post(j, all[j])).Returned?
    ensures result.Returned? && posted == Requests(vectors, indexName, url)
  {
    var all := Requests(vectors, indexName, url);
    assert forall j :: 0 <= j < |posted| ==> posted[j] == all[j];
  }

  /** How many requests the batch sends from position `k` on: up to and including the first that raises. */
  ghost function SentCount<T>(all: seq<UpsertRequest<T>>, post: (nat, UpsertRequest<T>) -> PostOutcome, k: nat): nat
    requires k <= |all|
    decreases |all| - k
  {
    if k == |all| then k
    else if UpsertVectors(post(k, all[k])).Raised? then k + 1
    else SentCount(all, post, k + 1)
  }

  lemma {:induction false} PostedIsSentCount<T>(vectors: seq<T>, indexName: string, url: string,
                                                post: (nat, UpsertRequest<T>) -> PostOutcome,
                                                posted: seq<UpsertRequest<T>>, result: Outcome<BatchResult>, k: nat)
    requires BatchContract(vectors, indexName, url, post, posted, result)
    requires k < |posted| || (result.Returned? && k == |posted|)
    ensures SentCount(Requests(vectors, indexName, url), post, k) == |posted|
    decreases |posted| - k
  {
    var all := Requests(vectors, indexName, url);
    if k < |posted| {
      assert all[k] == posted[k];
      if k == |posted| - 1 && result.Raised? {
      } else {
        PostedIsSentCount(vectors, indexName, url, post, posted, result, k + 1);
      }
    }
  }

  /** The contract fixes what is posted and what is returned: there is one behaviour. */
  lemma BatchContractUnique<T>(vectors: seq<T>, indexName: string, url: string,
                               post: (nat, UpsertRequest<T>) -> PostOutcome,
                               posted1: seq<UpsertRequest<T>>, result1: Outcome<BatchResult>,
                               posted2: seq<UpsertRequest<T>>, result2: Outcome<BatchResult>)
    requires BatchContract(vectors, indexName, url, post, posted1, result1)
    requires BatchContract(vectors, indexName, url, post, posted2, result2)
    ensures posted1 == posted2 && result1 == result2
  {
    var all := Requests(vectors, indexName, url);
    if posted1 != [] || result1.Returned? {
      PostedIsSentCount(vectors, indexName, url, post, posted1, result1, 0);
    }
    if posted2 != [] || result2.Returned? {
      PostedIsSentCount(vectors, indexName, url, post, posted2, result2, 0);
    }
    assert posted1 == all[..|posted1|] && posted2 == all[..|posted2|];
  }
}
