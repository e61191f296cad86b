/**
 * JavaScript values as far as the weather routes look into them, property
 * access (which throws on `null` and `undefined`), the upstream fetch made
 * abstract, and the JSON response a route returns.
 */
module JsValues {
  import opened Wrappers

  /** A JavaScript value as parsed from JSON, or `undefined`. Numbers are opaque. */
  datatype JsValue =
    | Undefined
    | Null
    | Bool(b: bool)
    | Num(n: real)
    | Str(s: string)
    | Arr(items: seq<JsValue>)
    | Obj(fields: map<string, JsValue>)

  predicate Nullish(v: JsValue)
  {
    v.Undefined? || v.Null?
  }

  /** Reading a property either yields a value or throws a TypeError. */
  datatype Access = Value(v: JsValue) | TypeError

  /**
   * `v[key]`: a TypeError on `null`/`undefined`; the field of an object that has
   * it; `undefined` otherwise (none of the keys read here names a built-in
   * property of strings, numbers, booleans or arrays).
   */
  function Get(v: JsValue, key: string): (r: Access)
    ensures r.TypeError? <==> Nullish(v)
    ensures v.Obj? && key in v.fields ==> r == Value(v.fields[key])
    ensures r.Value? && r.v != Undefined ==> v.Obj? && key in v.fields
  {
    match v
    case Undefined => TypeError
    case Null => TypeError
    case Obj(fields) => if key in fields then Value(fields[key]) else Value(Undefined)
    case _ => Value(Undefined)
  }

  /** `v.k1.k2...kn`, throwing at the first step that reads from `null` or `undefined`. */
  function Path(v: JsValue, keys: seq<string>): (r: Access)
    ensures keys == [] ==> r == Value(v)
    ensures r.TypeError? ==> keys != []
    ensures keys != [] && Nullish(v) ==> r.TypeError?
    decreases keys
  {
    if keys == [] then Value(v)
    else
      match Get(v, keys[0])
      case TypeError => TypeError
      case Value(w) => Path(w, keys[1..])
  }

  /** A path one key longer reads that key from what the shorter path gave. */
  lemma {:induction false} PathSnoc(v: JsValue, keys: seq<string>, k: string)
    ensures Path(v, keys + [k]) == match Path(v, keys)
                                   case TypeError => TypeError
                                   case Value(w) => Get(w, k)
    decreases keys
  {
    if keys == [] {
      assert [k][1..] == [];
    } else {
      assert (keys + [k])[0] == keys[0];
      assert (keys + [k])[1..] == keys[1..] + [k];
      match Get(v, keys[0])
      case TypeError =>
      case Value(w) => PathSnoc(w, keys[1..], k);
    }
  }

  /** The value `{ error: message }`. */
  function ErrorBody(message: JsValue): (r: JsValue)
    ensures r.Obj? && r.fields.Keys == {"error"} && r.fields["error"] == message
  {
    Obj(map["error" := message])
  }

  /** A status a fetched response can carry: the Fetch standard allows 0 to 999. */
  type HttpStatus = s: int | 0 <= s <= 999 witness 200

  /** `response.ok`: the status lies in 200 to 299. */
  predicate IsOk(status: HttpStatus)
  {
    200 <= status <= 299
  }

  /**
   * A status `NextResponse.json(body, { status })` accepts; for any other the
   * response constructor throws a RangeError.
   */
  predicate Sendable(status: int)
  {
    200 <= status <= 599
  }

  /**
   * The one upstream call: `fetch` rejected, or there was a response whose body
   * parsed as JSON (`Some`) or did not (`None`, so `response.json()` throws).
   */
  datatype FetchOutcome =
    | NetworkError
    | Reply(status: HttpStatus, body: Option<JsValue>)

  /** `NextResponse.json(body, { status })`. */
  datatype JsonResponse = JsonResponse(status: int, body: JsValue)

  /** A route's response together with the city queries it sent upstream, in order. */
  datatype RouteResult = RouteResult(response: JsonResponse, upstreamQueries: seq<string>)
}
