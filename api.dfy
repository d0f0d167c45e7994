/** The shape shared by every call to the REST backend: a request (verb,
    path, query parameters, JSON body) and the `{data, error}` envelope the
    response carries. The transport itself is not modelled. */
module Api {
  import opened Base

  /** A scalar in a query string or a JSON body. */
  datatype Value = NumV(n: int) | StrV(s: string) | BoolV(b: bool)

  /** A flat JSON object or query-parameter dictionary. */
  type Json = map<string, Value>

  datatype Verb = GET | POST | PATCH | DELETE

  datatype Request = Request(verb: Verb, path: string, params: Json, body: Json)

  /** A response body: the payload, and the `error` field the server may
      set. An empty error string is falsy, as in the client. */
  datatype Envelope<T> = Envelope(body: T, error: Option<string>)

  /** The envelope rule every API function applies to its response: a set
      `error` rejects the call with that error, otherwise the whole body is
      the result. */
  function Settle<T>(res: Envelope<T>): (r: Reply<T>)
    ensures r.Failed? <==> Truthy(res.error)
    ensures r.Failed? ==> r.message == res.error.value
    ensures r.Ok? ==> r.value == res.body
  {
    if Truthy(res.error) then Failed(res.error.value) else Ok(res.body)
  }

  /** A form's `{[key]: string}` data as a JSON body (`{ ...data }`). */
  function AsJson(data: map<string, string>): (j: Json)
    ensures j.Keys == data.Keys
    ensures forall k :: k in data ==> j[k] == StrV(data[k])
  {
    map k | k in data :: StrV(data[k])
  }
}
