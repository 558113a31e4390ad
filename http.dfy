/**
 * What the gateway code sees of an HTTP POST made with the `requests` library:
 * either a response (status and body), or the exception the call raised.
 * The network itself is not modelled; every post's outcome is a value.
 */
module Http {
  import opened Python

  /** A response body: JSON, or text that `response.json()` cannot decode. */
  datatype Body =
    | JsonBody(value: Json)
    | TextBody(text: string, decodeError: string)

  datatype Response = Response(status: int, body: Body)

  /**
   * How `requests.post` ends. `ConnectFailed` is a `ConnectionError`, which
   * includes a connect timeout (`ConnectTimeout` derives from both
   * `ConnectionError` and `Timeout`); `ReadTimedOut` is a `Timeout` only;
   * `Failed` is any other request exception, with its `str`.
   */
  datatype PostOutcome =
    | Received(response: Response)
    | ConnectFailed
    | ReadTimedOut
    | Failed(message: string)

  /** `raise_for_status` raises for a 4xx or 5xx status and for nothing else. */
  predicate IsErrorStatus(status: int)
  {
    400 <= status < 600
  }

  /** `response.json()`: a decode failure raises `JSONDecodeError`, which is a `ValueError`. */
  function ResponseJson(r: Response): (o: Outcome<Json>)
    ensures o.Returned? <==> r.body.JsonBody?
    ensures r.body.JsonBody? ==> o == Returned(r.body.value)
    ensures r.body.TextBody? ==> o == Raised(JSONDecodeError(r.body.decodeError))
  {
    match r.body
    case JsonBody(v) => Returned(v)
    case TextBody(_, err) => Raised(JSONDecodeError(err))
  }

  /** The exception `requests.post` raised, for callers that do not catch it. */
  function PostException(o: PostOutcome): Exception
    requires !o.Received?
  {
    match o
    case ConnectFailed => ConnectionError
    case ReadTimedOut => Timeout
    case Failed(m) => RequestException(m)
  }
}
