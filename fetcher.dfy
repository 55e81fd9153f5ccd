/**
 * The remote fetcher of the ingestion script: one GET per ID, whose outcome is
 * sorted into a record or `null` by the JavaScript type of the response body.
 */
module Fetcher {
  import opened Wrappers

  /** A TV document: the remote-assigned id plus passthrough attributes. */
  datatype Record = Record(id: int, fields: map<string, string>)

  /**
   * The JSON value axios hands back as `response.data`. Any JSON object or
   * array is a `JsObject`; numbers are modelled as integers.
   */
  datatype JsValue =
    | JsNull
    | JsObject(doc: Record)
    | JsString(text: string)
    | JsNumber(n: int)
    | JsBool(b: bool)

  /** What one `axios.get` does: resolve with a body, or throw. */
  datatype Response = Received(data: JsValue) | Thrown(message: string)

  /** JavaScript's `typeof`, which famously answers "object" for `null`. */
  function TypeOf(v: JsValue): string {
    match v
    case JsNull => "object"
    case JsObject(_) => "object"
    case JsString(_) => "string"
    case JsNumber(_) => "number"
    case JsBool(_) => "boolean"
  }

  /** JavaScript truthiness, as used by `if (data)`. */
  predicate Truthy(v: JsValue) {
    match v
    case JsNull => false
    case JsObject(_) => true
    case JsString(s) => s != ""
    case JsNumber(n) => n != 0
    case JsBool(b) => b
  }

  /**
   * `fetchData`: keep the body when its `typeof` is "object", otherwise give
   * `null`; a thrown request also gives `null`. There is no retry.
   * The value returned is usable (truthy) exactly when the body was a real
   * object, and every other outcome collapses to `null`.
   */
  function FetchData(resp: Response): (r: JsValue)
    ensures Truthy(r) <==> resp.Received? && resp.data.JsObject?
    ensures Truthy(r) ==> r == resp.data
    ensures !Truthy(r) ==> r == JsNull
  {
    match resp
    case Thrown(_) => JsNull
    case Received(data) => if TypeOf(data) == "object" then data else JsNull
  }

  /**
   * What the loop of `main` makes of one ID: `fetchData` followed by the
   * `if (data)` test. A record comes out exactly for an object body.
   */
  function Payload(resp: Response): (r: Option<Record>)
    ensures r.Some? <==> resp.Received? && resp.data.JsObject?
    ensures r.Some? ==> resp.data == JsObject(r.value)
  {
    var data := FetchData(resp);
    if Truthy(data) then Some(data.doc) else None
  }

  /** A `null` JSON body passes the `typeof` test yet still yields no record. */
  lemma NullBodyPassesTypeofButYieldsNothing()
    ensures TypeOf(JsNull) == "object"
    ensures FetchData(Received(JsNull)) == JsNull
    ensures Payload(Received(JsNull)) == None
  {
  }
}
