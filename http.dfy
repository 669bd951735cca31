/** The HTTP exchange as the data layer sees it. The network is not modelled: what the
    server (or the transport) did is an input, and a request is a value the caller records. */
module Http {
  import opened ApiResult
  import Json

  datatype Method = GET | POST | PUT | DELETE

  /** A JavaScript `Error` object; only its message is observable here. */
  datatype JsError = JsError(message: string)

  /** A thrown value: an `Error` instance, or anything else (a string, `undefined`, ...). */
  datatype Thrown = ThrownError(error: JsError) | ThrownOther

  /** What `res.json()` gives: the parsed body, or what it threw. */
  datatype Body = Parsed(value: Json.Value) | Unreadable(thrown: Thrown)

  /** How a request ended: `fetch` itself threw, or a response arrived. */
  datatype Outcome = Failed(thrown: Thrown) | Responded(status: int, statusText: string, body: Body)

  /** `res.ok`: the status is in the range 200-299. */
  predicate IsOk(status: int) {
    200 <= status <= 299
  }

  /** The `RequestInit` the data layer passes: method `verb` (absent means GET), headers, JSON body. */
  datatype Init = Init(verb: Option<Method>, headers: seq<(string, string)>, body: Option<Json.Value>)

  /** One call of `fetch(url, init)`. */
  datatype Request = Request(url: string, init: Option<Init>)

  /** The method a request is sent with: GET unless the init names one. */
  function MethodOf(r: Request): (m: Method)
    ensures r.init.None? || r.init.value.verb.None? ==> m == GET
    ensures r.init.Some? && r.init.value.verb.Some? ==> m == r.init.value.verb.value
  {
    if r.init.Some? && r.init.value.verb.Some? then r.init.value.verb.value else GET
  }

  /** The requests an operation issued, in order, and what it returned. */
  datatype Exchange<Q, T, E> = Exchange(sent: seq<Q>, result: Result<T, E>)
}
