/** A parsed JSON value: what `res.json()` yields and what the schemas receive. */
module Json {

  /** JSON numbers are exact rationals here; JSON has no NaN or infinities. */
  datatype Value =
    | JNull
    | JBool(b: bool)
    | JNumber(n: real)
    | JString(s: string)
    | JArray(items: seq<Value>)
    | JObject(fields: map<string, Value>)
}
