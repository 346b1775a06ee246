/** JavaScript values as they flow through the gateway: parsed JSON bodies,
    request bodies and token payloads. Numbers are modelled as integers. */
module Js {

  import opened Strings

  datatype JsValue =
    | Undefined
    | Null
    | Bool(b: bool)
    | Num(n: int)
    | Str(s: string)
    | Arr(items: seq<JsValue>)
    | Obj(fields: map<string, JsValue>)

  /** `Boolean(v)`: false, 0, "", null and undefined are falsy. */
  predicate Truthy(v: JsValue)
  {
    match v
    case Undefined => false
    case Null => false
    case Bool(b) => b
    case Num(n) => n != 0
    case Str(s) => s != ""
    case Arr(_) => true
    case Obj(_) => true
  }

  /** `v === null || v === undefined`: reading a property of such a value throws. */
  predicate Nullish(v: JsValue)
  {
    v.Undefined? || v.Null?
  }

  /** `typeof v === "object"`, which holds of null as well. */
  predicate TypeofObject(v: JsValue)
  {
    v.Null? || v.Arr? || v.Obj?
  }

  /** `v[key]` for a value that is neither null nor undefined: an own field of
      a plain object, otherwise undefined. */
  function Prop(v: JsValue, key: string): JsValue
    requires !Nullish(v)
  {
    if v.Obj? && key in v.fields then v.fields[key] else Undefined
  }

  /** `String(v)`, also the property key that `res[v] = ...` writes under. */
  function ToString(v: JsValue): string
    decreases v, 1
  {
    match v
    case Undefined => "undefined"
    case Null => "null"
    case Bool(b) => if b then "true" else "false"
    case Num(n) => IntToString(n)
    case Str(s) => s
    case Arr(items) => JoinItems(v, items)
    case Obj(_) => "[object Object]"
  }

  /** `items.join(",")`, where null and undefined elements print as "". */
  function JoinItems(ghost parent: JsValue, items: seq<JsValue>): string
    requires forall k :: 0 <= k < |items| ==> items[k] < parent
    decreases parent, 0, |items|
  {
    if items == [] then ""
    else
      var head := if Nullish(items[0]) then "" else ToString(items[0]);
      if |items| == 1 then head else head + "," + JoinItems(parent, items[1..])
  }
}

/** The gateway's error taxonomy and the values shared by every component. */
module Common {

  import opened Wrappers
  import opened Js

  /** An error a promise rejects with. */
  datatype Error =
      /** A Boom error: its own HTTP status, message and response headers. */
    | Boom(status: int, message: string, headers: map<string, string>)
      /** An HTTP client error that carries the upstream response. */
    | HttpError(status: int, body: JsValue)
      /** Anything else: TypeError, RangeError, file-system errors, plain Error. */
    | Thrown(name: string, message: string)

  type Res<T> = Result<T, Error>

  type Headers = map<string, string>

  const STATUS_BAD_REQUEST := 400
  const STATUS_UNAUTHORIZED := 401
  const STATUS_NOT_FOUND := 404

  function BadRequest(message: string): Error
  {
    Boom(STATUS_BAD_REQUEST, message, map[])
  }

  function Unauthorized(message: string): Error
  {
    Boom(STATUS_UNAUTHORIZED, message, map[])
  }

  function NotFound(message: string): Error
  {
    Boom(STATUS_NOT_FOUND, message, map[])
  }

  function TypeError(message: string): Error
  {
    Thrown("TypeError", message)
  }

  /** A present, non-empty string: a truthy optional string. */
  predicate Given(s: Option<string>)
  {
    s.Some? && s.value != ""
  }

  /** `v[key]`, which throws a TypeError when `v` is null or undefined. */
  function Member(v: JsValue, key: string): (r: Res<JsValue>)
    ensures r.Err? <==> Nullish(v)
    ensures r.Ok? ==> r.value == Prop(v, key)
  {
    if Nullish(v) then Err(TypeError("Cannot read properties of " + ToString(v))) else Ok(Prop(v, key))
  }
}
