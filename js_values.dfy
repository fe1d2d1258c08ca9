/**
 * The few pieces of JavaScript value semantics the editor bridge relies on:
 * values as `JSON.parse` produces them, property reads, `hasOwnProperty`,
 * and the exceptions these can raise.
 */
module JsValues {

  datatype Option<+T> = None | Some(value: T)

  /** The exceptions that matter to the bridge. `HostError` is anything thrown by host code. */
  datatype JsError = TypeError | URIError | SyntaxError | HostError

  /** A computation that either yields a value or throws. */
  datatype Result<+T> = Ok(value: T) | Throw(error: JsError)

  /**
   * A JSON value, plus `undefined` (what a missing property reads as).
   * Numbers are never inspected by the bridge, so they keep only their text.
   */
  datatype JsValue =
    | Undefined
    | Null
    | Bool(b: bool)
    | Num(text: string)
    | Str(s: string)
    | Arr(items: seq<JsValue>)
    | Obj(fields: map<string, JsValue>)
  {
    /** `null` and `undefined`: reading any property of them throws a TypeError. */
    predicate IsNullish() {
      Undefined? || Null?
    }
  }

  /**
   * The property names the bridge reads. None of them is an array index,
   * `length`, or a member of a built-in prototype, so on anything but an
   * object literal they read as `undefined`.
   */
  const BridgeKeys: set<string> :=
    {"prefix", "type", "payload", "editor", "deltaChange", "delta", "deltaOld", "changeSource"}

  /** `v[key]` on a value that is not nullish. */
  function Lookup(v: JsValue, key: string): (r: JsValue)
    requires key in BridgeKeys
    ensures r != Undefined ==> v.Obj? && key in v.fields && v.fields[key] == r
    ensures v.Obj? && key in v.fields ==> r == v.fields[key]
  {
    if v.Obj? && key in v.fields then v.fields[key] else Undefined
  }

  /** `v.key`: throws on `null` and `undefined`, reads the property otherwise. */
  function GetProperty(v: JsValue, key: string): (r: Result<JsValue>)
    requires key in BridgeKeys
    ensures r.Throw? <==> v.IsNullish()
    ensures r.Throw? ==> r.error == TypeError
    ensures r.Ok? ==> r.value == Lookup(v, key)
  {
    if v.IsNullish() then Throw(TypeError) else Ok(Lookup(v, key))
  }

  /**
   * `v.hasOwnProperty(key)`. It throws on `null` and `undefined`, and also on
   * an object that has an own `hasOwnProperty` member: that member shadows the
   * inherited method and, being a JSON value, is not callable.
   */
  function HasOwnProperty(v: JsValue, key: string): (r: Result<bool>)
    requires key in BridgeKeys
    ensures r.Throw? <==> v.IsNullish() || (v.Obj? && "hasOwnProperty" in v.fields)
    ensures r == Ok(true) <==> v.Obj? && "hasOwnProperty" !in v.fields && key in v.fields
  {
    match v
    case Undefined => Throw(TypeError)
    case Null => Throw(TypeError)
    case Obj(fields) => if "hasOwnProperty" in fields then Throw(TypeError) else Ok(key in fields)
    case _ => Ok(false)
  }

  /**
   * Whether converting `v` to a string, as a template literal does, throws a
   * TypeError. An object converts through its `toString`: an own `toString`
   * member, being a JSON value, is not callable, and the fallback `valueOf`
   * gives back the object itself, so the conversion throws. An array converts
   * by joining its elements, each converted in turn (`null` and `undefined`
   * as the empty string).
   */
  predicate ToStringThrows(v: JsValue)
  {
    match v
    case Obj(fields) => "toString" in fields
    case Arr(items) => exists i | 0 <= i < |items| :: ToStringThrows(items[i])
    case _ => false
  }
}
