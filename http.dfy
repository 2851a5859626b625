/**
 * The HTTP exchange of a form action, seen from the browser: the request the action would send,
 * and the one outcome its `await axios...` produces, given as an input.
 */
module Http {
  import opened Wrappers
  import opened Json
  import opened Text
  import opened JsNumber

  datatype Verb = Get | Post | Put

  /** A path under the configured backend URL, or a hard-coded absolute URL. */
  datatype Url = Backend(path: string) | Absolute(url: string)

  /**
   * `bearer` is the token of the `Authorization: Bearer ...` header, when there is one.
   * `params` are the query parameters; `body` is the JSON body as serialised, so keys whose value
   * is `undefined` are absent and a `NaN` number is `null`.
   */
  datatype Request = Request(verb: Verb, url: Url, bearer: Option<string>, params: map<string, Json>, body: Json)

  /** `response.data`: absent (`null`/`undefined`), or an object with the fields the source reads. */
  datatype Data =
    | NoData
    | Data(exceptionMessage: Option<string>, body: Option<string>, message: Option<string>)

  /**
   * A status the HTTP client returns as a response. With its default `validateStatus` it throws
   * for anything outside 2xx, so a refused request is a `ClientError`, not a `Response`.
   */
  type Accepted = s: int | 200 <= s < 300 witness 200

  /**
   * The outcome of the call: a response with its 2xx status, an HTTP-client error
   * (`isAxiosError`, which is also what a non-2xx status raises) carrying
   * `error.response?.data?.exceptionMessage`, or any other exception.
   */
  datatype Outcome =
    | Response(status: Accepted, data: Data)
    | ClientError(serverMessage: Option<string>)
    | OtherError

  /** `response.data?.exceptionMessage`. */
  function ServerMessage(d: Data): (r: Option<string>)
    ensures d.NoData? ==> r == None
    ensures d.Data? ==> r == d.exceptionMessage
  {
    if d.Data? then d.exceptionMessage else None
  }

  /** A JSON object with string values, as the source's request bodies and parameters are written. */
  function Texts(m: map<string, string>): (r: map<string, Json>)
    ensures r.Keys == m.Keys
    ensures forall k :: k in m ==> r[k] == Str(m[k])
  {
    map k | k in m :: Str(m[k])
  }

  /** A number as `JSON.stringify` writes it: `NaN` and the infinities become `null`. */
  function Wire(n: Number): (r: Json)
    ensures n.Finite? ==> r == Num(n.value)
    ensures !n.Finite? ==> r == Null
  {
    if n.Finite? then Num(n.value) else Null
  }

  /**
   * `value ? Number(value) : undefined` as serialised: an empty string leaves the key out, any
   * other string is sent as its number, or as `null` when that is not finite.
   */
  function NumberOrOmitted(value: string): (r: Option<Json>)
    ensures r.None? <==> value == ""
    ensures r.Some? ==> r.value == Wire(ToNumber(value))
  {
    if value == "" then None else Some(Wire(ToNumber(value)))
  }

  /** A JSON object with `key` added when the optional value is present. */
  function With(props: map<string, Json>, key: string, value: Option<Json>): (r: map<string, Json>)
    ensures value.None? ==> r == props
    ensures value.Some? ==> r == props[key := value.value]
  {
    if value.Some? then props[key := value.value] else props
  }

  /** `Number(s)` of a string that passed `^\d+$`, as serialised: its decimal value. */
  lemma WireDigits(s: string)
    requires IsDigits(s)
    ensures Wire(ToNumber(s)) == Num(Value(s) as real)
  {
    DigitsToNumber(s);
  }

  /** `Number(s)` of a string that passed `^\d+(\.\d+)?$`, as serialised: its decimal value. */
  lemma WireDecimal(s: string)
    requires IsDecimal(s)
    ensures Wire(ToNumber(s)) == Num(DecimalValue(s))
  {
    DecimalToNumber(s);
  }
}
