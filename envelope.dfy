/**
 * The wire envelope `{prefix, type, payload}` exchanged between the host
 * component and the editor running inside the web view, the text the host
 * receives from the web view once decoded, and the prefix test that decides
 * whether an inbound message belongs to this bridge.
 */
module Envelopes {
  import opened JsValues

  /** The tag every message of this bridge carries, in both directions. */
  const MESSAGE_PREFIX: string := "react-native-webview-quilljs"

  /** The message types the host sends into the web view. */
  datatype MessageType =
    | LoadEditor
    | SetBackgroundColor
    | SetContents
    | SetHtmlContents
    | SendEditor
    | GetDelta
    | MessageAcknowledged
  {
    /** The type's name on the wire. */
    function Name(): string {
      match this
      case LoadEditor => "LOAD_EDITOR"
      case SetBackgroundColor => "SET_BACKGROUND_COLOR"
      case SetContents => "SET_CONTENTS"
      case SetHtmlContents => "SET_HTML_CONTENTS"
      case SendEditor => "SEND_EDITOR"
      case GetDelta => "GET_DELTA"
      case MessageAcknowledged => "MESSAGE_ACKNOWLEDGED"
    }
  }

  /** The message types the web view sends that the dispatcher handles, and all the others. */
  datatype InboundType = EditorLoaded | EditorSent | TextChanged | ReceiveDelta | Unhandled

  /** The `case` labels of the dispatcher's `switch`, compared with `===`. */
  function Classify(t: JsValue): (c: InboundType)
    ensures c.EditorLoaded? <==> t == Str("EDITOR_LOADED")
    ensures c.EditorSent? <==> t == Str("EDITOR_SENT")
    ensures c.TextChanged? <==> t == Str("TEXT_CHANGED")
    ensures c.ReceiveDelta? <==> t == Str("RECEIVE_DELTA")
  {
    if t == Str("EDITOR_LOADED") then EditorLoaded
    else if t == Str("EDITOR_SENT") then EditorSent
    else if t == Str("TEXT_CHANGED") then TextChanged
    else if t == Str("RECEIVE_DELTA") then ReceiveDelta
    else Unhandled
  }

  /**
   * An outbound envelope. The payload is the object literal the host builds,
   * or absent when `sendMessage` is called without one.
   */
  datatype Envelope = Envelope(prefix: string, kind: MessageType, payload: Option<map<string, JsValue>>)

  /**
   * The object `{prefix, type, payload}` as it reaches the other side: its
   * JSON text is evaluated as an object literal inside the injected script,
   * and an absent payload is dropped by serialization.
   * The bridge's own prefix test accepts exactly the envelopes that carry
   * MESSAGE_PREFIX, and reading `type` and `payload` back gives what was sent.
   */
  function ToJs(e: Envelope): (v: JsValue)
    ensures HasOwnProperty(v, "prefix") == Ok(true)
    ensures Accepts(v) == Ok(e.prefix == MESSAGE_PREFIX)
    ensures Lookup(v, "type") == Str(e.kind.Name())
    ensures Lookup(v, "payload") == if e.payload.Some? then Obj(e.payload.value) else Undefined
  {
    var head := map["prefix" := Str(e.prefix), "type" := Str(e.kind.Name())];
    Obj(if e.payload.Some? then head["payload" := Obj(e.payload.value)] else head)
  }

  /**
   * The prefix test `msgData.hasOwnProperty('prefix') && msgData.prefix === MESSAGE_PREFIX`:
   * true only for an object whose own `prefix` is exactly the bridge's tag;
   * it throws where `hasOwnProperty` does.
   */
  function Accepts(msg: JsValue): (r: Result<bool>)
    ensures r.Throw? <==> msg.IsNullish() || (msg.Obj? && "hasOwnProperty" in msg.fields)
    ensures r == Ok(true) <==>
              msg.Obj? && "hasOwnProperty" !in msg.fields
              && "prefix" in msg.fields && msg.fields["prefix"] == Str(MESSAGE_PREFIX)
  {
    match HasOwnProperty(msg, "prefix")
    case Throw(err) => Throw(err)
    case Ok(own) => Ok(own && Lookup(msg, "prefix") == Str(MESSAGE_PREFIX))
  }

  /**
   * What `handleMessage` has once `decodeURIComponent`, `unescape` and
   * `JSON.parse` have run on the event's data: a malformed percent-encoding,
   * text that is not JSON, or the parsed value.
   */
  datatype Inbound = MalformedUri | Unparsable | Parsed(value: JsValue)

  /** An inbound message that passes the prefix test. */
  predicate IsAccepted(data: Inbound) {
    data.Parsed? && Accepts(data.value) == Ok(true)
  }

  /** An own field of an accepted message, `undefined` when it has none. */
  function Field(data: Inbound, key: string): (v: JsValue)
    requires IsAccepted(data) && key in BridgeKeys
    ensures key in data.value.fields ==> v == data.value.fields[key]
    ensures key !in data.value.fields ==> v == Undefined
  {
    Lookup(data.value, key)
  }

  /**
   * An accepted message whose `type` converts to a string. The handler logs
   * the type before it acknowledges; for a type that does not convert, that
   * log line throws, and the exception is caught before anything is sent.
   */
  predicate IsAcknowledged(data: Inbound) {
    IsAccepted(data) && !ToStringThrows(Field(data, "type"))
  }
}
