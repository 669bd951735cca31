/** `fetchData` (src/lib/api/fetch.ts): one `fetch`, then the response mapped to a
    `Result<T, Error>`: a non-2xx status, a body the schema rejects and anything thrown
    each become an `Error`; nothing escapes as an exception. */
module Fetch {
  import opened ApiResult
  import opened Text
  import opened Http
  import Json

  const UnknownError := "Unknown error"

  /** What the `catch` turns a thrown value into: an `Error` is kept as it is; anything
      else becomes `Error('Unknown error')`. */
  function AsError(t: Thrown): (e: JsError)
    ensures t.ThrownError? ==> e == t.error
    ensures t.ThrownOther? ==> e.message == UnknownError
  {
    match t
    case ThrownError(e) => e
    case ThrownOther => JsError(UnknownError)
  }

  /** The message of the error a non-2xx response becomes: `HTTP <status>: <statusText>`. */
  function HttpErrorMessage(status: int, statusText: string): string {
    "HTTP " + IntToString(status) + ": " + statusText
  }

  /** `fetchData(schema, url, init)` given how the request ended. `schema` is the schema's
      `safeParse`, yielding the data or the `ZodError`'s message. */
  function FetchData<T>(schema: Json.Value -> Result<T, string>, url: string, init: Option<Init>,
                        outcome: Outcome): (x: Exchange<Request, T, JsError>)
    // exactly one request, the one asked for, and no retry
    ensures x.sent == [Request(url, init)]
    // success only for a 2xx response whose body the schema accepts, with the validated data
    ensures x.result.Ok? <==> outcome.Responded? && IsOk(outcome.status) && outcome.body.Parsed?
                              && schema(outcome.body.value).Ok?
    ensures x.result.Ok? ==> x.result.data == schema(outcome.body.value).data
    // the error for each way of failing
    ensures outcome.Failed? ==> x.result == Err(AsError(outcome.thrown))
    ensures outcome.Responded? && !IsOk(outcome.status) ==>
              x.result == Err(JsError(HttpErrorMessage(outcome.status, outcome.statusText)))
    ensures outcome.Responded? && IsOk(outcome.status) && outcome.body.Unreadable? ==>
              x.result == Err(AsError(outcome.body.thrown))
    ensures outcome.Responded? && IsOk(outcome.status) && outcome.body.Parsed?
            && schema(outcome.body.value).Err? ==>
              x.result == Err(JsError(schema(outcome.body.value).error))
  {
    var result :=
      match outcome
      case Failed(thrown) => Err(AsError(thrown))
      case Responded(status, statusText, body) =>
        if !IsOk(status) then Err(JsError(HttpErrorMessage(status, statusText)))
        else
          match body
          case Unreadable(thrown) => Err(AsError(thrown))
          case Parsed(data) =>
            var validated := schema(data);
            if validated.Ok? then Ok(validated.data) else Err(JsError(validated.error));
    Exchange([Request(url, init)], result)
  }

  /** The message of an HTTP failure names its status and status text unambiguously: two
      failures with the same message had the same status and the same status text. */
  lemma HttpErrorMessageInjective(s1: int, t1: string, s2: int, t2: string)
    ensures HttpErrorMessage(s1, t1) == HttpErrorMessage(s2, t2) ==> s1 == s2 && t1 == t2
  {
    if HttpErrorMessage(s1, t1) == HttpErrorMessage(s2, t2) {
      NumeralBetween("HTTP ", s1, s2, ": ", t1, t2);
    }
  }
}
