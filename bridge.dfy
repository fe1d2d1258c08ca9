/**
 * The host side of the message bridge of the `WebViewQuillEditor` component:
 * the outbound channel (`sendMessage`, `getDelta`), the inbound filter and
 * dispatcher (`handleMessage`), the load-time send sequence
 * (`onWebViewLoaded`) and content hydration (`editorLoaded`).
 *
 * Everything the component does that another party can observe is recorded,
 * in order, in one log of effects: envelopes injected into the web view and
 * calls of the host's callback props. Each method is proved against a
 * function of the props, the web-view handle and the input, and what the
 * component promises is stated about those functions.
 */
module QuillBridge {
  import opened JsValues
  import opened Envelopes

  /** A callback prop that is set: a function, or some other value that a call would reject. */
  datatype Callback = Callable | NotCallable

  /** The props the bridge reads; `None` is a prop the host did not pass. */
  datatype Props = Props(
    contentToDisplay: Option<JsValue>,
    htmlContentToDisplay: Option<JsValue>,
    backgroundColor: Option<JsValue>,
    getEditorCallback: Option<Callback>,
    onDeltaChangeCallback: Option<Callback>,
    getDeltaCallback: Option<Callback>,
    onLoad: Option<Callback>)

  /** A call of one of the host's callback props, with its arguments. */
  datatype HostCall =
    | GetEditorCallback(editor: JsValue)
    | OnDeltaChangeCallback(deltaChange: JsValue, delta: JsValue, deltaOld: JsValue, changeSource: JsValue)
    | GetDeltaCallback(payload: JsValue)
    | OnLoad

  /** One observable step: an envelope injected into the web view, or a callback call. */
  datatype Effect = Inject(envelope: Envelope) | Invoke(call: HostCall)

  /** How a handler ends: it returns, or an exception escapes it. */
  datatype Completion = Normal | Abrupt(error: JsError)

  datatype Outcome = Outcome(completion: Completion, effects: seq<Effect>)

  /** The types of the injected envelopes, in order. */
  function SentKinds(effects: seq<Effect>): (kinds: seq<MessageType>)
    ensures |kinds| <= |effects|
  {
    if effects == [] then []
    else (if effects[0].Inject? then [effects[0].envelope.kind] else []) + SentKinds(effects[1..])
  }

  /** The callback calls, in order. */
  function Calls(effects: seq<Effect>): (calls: seq<HostCall>)
    ensures |calls| <= |effects|
  {
    if effects == [] then []
    else (if effects[0].Invoke? then [effects[0].call] else []) + Calls(effects[1..])
  }

  lemma {:induction false} SentKindsAppend(a: seq<Effect>, b: seq<Effect>)
    ensures SentKinds(a + b) == SentKinds(a) + SentKinds(b)
    decreases |a|
  {
    if a == [] {
      assert a + b == b;
    } else {
      assert (a + b)[0] == a[0];
      assert (a + b)[1..] == a[1..] + b;
      SentKindsAppend(a[1..], b);
      assert SentKinds(a + b) == (if a[0].Inject? then [a[0].envelope.kind] else []) + SentKinds(a[1..] + b);
    }
  }

  lemma {:induction false} CallsAppend(a: seq<Effect>, b: seq<Effect>)
    ensures Calls(a + b) == Calls(a) + Calls(b)
    decreases |a|
  {
    if a == [] {
      assert a + b == b;
    } else {
      assert (a + b)[0] == a[0];
      assert (a + b)[1..] == a[1..] + b;
      CallsAppend(a[1..], b);
      assert Calls(a + b) == (if a[0].Invoke? then [a[0].call] else []) + Calls(a[1..] + b);
    }
  }

  /** Appending to the log is associative; the methods' proofs regroup their appends with it. */
  lemma AppendAssociates(a: seq<Effect>, b: seq<Effect>, c: seq<Effect>)
    ensures (a + b) + c == a + (b + c)
  {
  }

  /** What `sendMessage(kind, payload)` injects: one envelope while a web-view handle is held. */
  function Send(webview: bool, kind: MessageType, payload: Option<map<string, JsValue>>): (r: seq<Effect>)
    ensures SentKinds(r) == if webview then [kind] else []
    ensures Calls(r) == []
  {
    if webview then [Inject(Envelope(MESSAGE_PREFIX, kind, payload))] else []
  }

  /** Content hydration, `editorLoaded`. */
  function EditorLoadedEffects(props: Props, webview: bool): seq<Effect>
  {
    (if props.contentToDisplay.Some?
     then Send(webview, SetContents, Some(map["delta" := props.contentToDisplay.value]))
     else [])
    + (if props.htmlContentToDisplay.Some?
       then Send(webview, SetHtmlContents, Some(map["html" := props.htmlContentToDisplay.value]))
       else [])
  }

  /**
   * What the `switch` on the type of an accepted message does after the
   * acknowledgement, exceptions caught (a caught exception ends the handler
   * with the effects made so far).
   */
  function DispatchEffects(props: Props, webview: bool, data: Inbound): seq<Effect>
    requires IsAccepted(data)
  {
    var payload := Field(data, "payload");
    match Classify(Field(data, "type"))
    case EditorLoaded =>
      EditorLoadedEffects(props, webview)
    case EditorSent =>
      // reading `payload.editor` throws on a missing payload; calling a missing callback throws
      if payload.IsNullish() || props.getEditorCallback != Some(Callable) then []
      else [Invoke(GetEditorCallback(Lookup(payload, "editor")))]
    case TextChanged =>
      // `delete payload.type` throws on a missing payload; a set callback that is
      // not a function is either falsy (skipped) or throws when called
      if props.onDeltaChangeCallback != Some(Callable) || payload.IsNullish() then []
      else
        var change := Lookup(payload, "deltaChange");
        [Invoke(OnDeltaChangeCallback(change, change, Lookup(payload, "deltaOld"), Lookup(payload, "changeSource")))]
    case ReceiveDelta =>
      if props.getDeltaCallback == Some(Callable) then [Invoke(GetDeltaCallback(payload))] else []
    case Unhandled =>
      []
  }

  /**
   * `handleMessage` on a decoded event: filter, log the type, acknowledge,
   * dispatch. Everything after the decoding runs inside the `try`.
   */
  function HandleOutcome(props: Props, webview: bool, data: Inbound): Outcome
  {
    if data.MalformedUri? then Outcome(Abrupt(URIError), [])
    else if !IsAcknowledged(data) then Outcome(Normal, [])
    else Outcome(Normal, Send(webview, MessageAcknowledged, None) + DispatchEffects(props, webview, data))
  }

  /** The sends `onWebViewLoaded` makes before `onLoad`: LOAD_EDITOR, then the background colour if set. */
  function LoadPrelude(props: Props, webview: bool): seq<Effect>
  {
    Send(webview, LoadEditor, None)
    + (if props.backgroundColor.Some?
       then Send(webview, SetBackgroundColor, Some(map["backgroundColor" := props.backgroundColor.value]))
       else [])
  }

  /** The send `onWebViewLoaded` makes after `onLoad`: SEND_EDITOR if `getEditorCallback` is set. */
  function EditorRequest(props: Props, webview: bool): seq<Effect>
  {
    if props.getEditorCallback.Some? then Send(webview, SendEditor, None) else []
  }

  /** `onWebViewLoaded`. Nothing catches here: an exception from `onLoad` escapes. */
  function LoadOutcome(props: Props, webview: bool, onLoadThrows: bool): Outcome
  {
    match props.onLoad
    case None => Outcome(Normal, LoadPrelude(props, webview) + EditorRequest(props, webview))
    case Some(NotCallable) => Outcome(Abrupt(TypeError), LoadPrelude(props, webview))
    case Some(Callable) =>
      if onLoadThrows then Outcome(Abrupt(HostError), LoadPrelude(props, webview) + [Invoke(OnLoad)])
      else Outcome(Normal, LoadPrelude(props, webview) + [Invoke(OnLoad)] + EditorRequest(props, webview))
  }

  /**
   * Hydration sends SET_CONTENTS with `{delta: contentToDisplay}`, then
   * SET_HTML_CONTENTS with `{html: htmlContentToDisplay}`, each only if that
   * prop is set, and nothing else; it calls no callback.
   */
  lemma HydrationSends(props: Props, webview: bool)
    ensures Calls(EditorLoadedEffects(props, webview)) == []
    ensures SentKinds(EditorLoadedEffects(props, webview)) ==
              if !webview then []
              else (if props.contentToDisplay.Some? then [SetContents] else [])
                   + (if props.htmlContentToDisplay.Some? then [SetHtmlContents] else [])
    ensures webview && props.contentToDisplay.Some? ==>
              EditorLoadedEffects(props, webview)[0]
              == Inject(Envelope(MESSAGE_PREFIX, SetContents, Some(map["delta" := props.contentToDisplay.value])))
    ensures webview && props.htmlContentToDisplay.Some? ==>
              var r := EditorLoadedEffects(props, webview);
              r[|r| - 1]
              == Inject(Envelope(MESSAGE_PREFIX, SetHtmlContents, Some(map["html" := props.htmlContentToDisplay.value])))
  {
    var contents :=
      if props.contentToDisplay.Some?
      then Send(webview, SetContents, Some(map["delta" := props.contentToDisplay.value]))
      else [];
    var html :=
      if props.htmlContentToDisplay.Some?
      then Send(webview, SetHtmlContents, Some(map["html" := props.htmlContentToDisplay.value]))
      else [];
    assert EditorLoadedEffects(props, webview) == contents + html;
    SentKindsAppend(contents, html);
    CallsAppend(contents, html);
  }

  /**
   * Dispatch by type: EDITOR_LOADED hydrates the content and is the only type
   * that sends anything; EDITOR_SENT calls `getEditorCallback(payload.editor)`
   * exactly when that callback is a function and the payload is present (the
   * call is unguarded, so otherwise it throws and is caught); TEXT_CHANGED
   * calls `onDeltaChangeCallback(deltaChange, deltaChange, deltaOld,
   * changeSource)` under the same condition; RECEIVE_DELTA calls
   * `getDeltaCallback` with the whole payload; any other type does nothing.
   * No dispatch sends an acknowledgement or calls more than one callback.
   */
  lemma DispatchByType(props: Props, webview: bool, data: Inbound)
    requires IsAccepted(data)
    ensures MessageAcknowledged !in SentKinds(DispatchEffects(props, webview, data))
    ensures |Calls(DispatchEffects(props, webview, data))| <= 1
    ensures Classify(Field(data, "type")).EditorLoaded? ==>
              DispatchEffects(props, webview, data) == EditorLoadedEffects(props, webview)
    ensures !Classify(Field(data, "type")).EditorLoaded? ==> SentKinds(DispatchEffects(props, webview, data)) == []
    ensures Classify(Field(data, "type")).EditorSent? ==>
              var r := DispatchEffects(props, webview, data);
              && (r != [] <==> props.getEditorCallback == Some(Callable) && !Field(data, "payload").IsNullish())
              && (r != [] ==> r == [Invoke(GetEditorCallback(Lookup(Field(data, "payload"), "editor")))])
    ensures Classify(Field(data, "type")).TextChanged? ==>
              var r := DispatchEffects(props, webview, data);
              var change := Lookup(Field(data, "payload"), "deltaChange");
              && (r != [] <==> props.onDeltaChangeCallback == Some(Callable) && !Field(data, "payload").IsNullish())
              && (r != [] ==>
                    r == [Invoke(OnDeltaChangeCallback(change, change, Lookup(Field(data, "payload"), "deltaOld"),
                                                       Lookup(Field(data, "payload"), "changeSource")))])
    ensures Classify(Field(data, "type")).ReceiveDelta? ==>
              DispatchEffects(props, webview, data)
              == if props.getDeltaCallback == Some(Callable) then [Invoke(GetDeltaCallback(Field(data, "payload")))] else []
    ensures Classify(Field(data, "type")).Unhandled? ==> DispatchEffects(props, webview, data) == []
  {
    HydrationSends(props, webview);
  }

  /**
   * The `delta` field of a TEXT_CHANGED payload is destructured but never
   * passed on: whatever it holds, the dispatch does the same.
   */
  lemma DeltaFieldIgnored(props: Props, webview: bool, data: Inbound, delta: JsValue)
    requires IsAccepted(data) && Classify(Field(data, "type")).TextChanged? && Field(data, "payload").Obj?
    ensures var other := Parsed(Obj(data.value.fields["payload" := Obj(Field(data, "payload").fields["delta" := delta])]));
            && IsAccepted(other)
            && Classify(Field(other, "type")).TextChanged?
            && DispatchEffects(props, webview, other) == DispatchEffects(props, webview, data)
  {
    var payload := Field(data, "payload").fields["delta" := delta];
    var other := Parsed(Obj(data.value.fields["payload" := Obj(payload)]));
    assert other.value.fields["prefix"] == data.value.fields["prefix"];
    assert Field(other, "type") == Field(data, "type");
    assert Field(other, "payload") == Obj(payload);
    assert Lookup(Obj(payload), "deltaChange") == Lookup(Field(data, "payload"), "deltaChange");
    assert Lookup(Obj(payload), "deltaOld") == Lookup(Field(data, "payload"), "deltaOld");
    assert Lookup(Obj(payload), "changeSource") == Lookup(Field(data, "payload"), "changeSource");
  }

  /**
   * The inbound filter: a malformed percent-encoding escapes as a URIError and
   * everything else returns normally. A message that fails to parse, fails the
   * prefix test, or has a type that cannot be converted to a string for the
   * log line has no effect at all; every type the dispatcher recognises
   * converts. Any other accepted message is acknowledged first, exactly once
   * while a handle is held, whatever its type (the acknowledgement stays where
   * dispatch then throws), and for an unhandled type the acknowledgement is
   * all that happens.
   */
  lemma AcknowledgedFirst(props: Props, webview: bool, data: Inbound)
    ensures HandleOutcome(props, webview, data).completion ==
              if data.MalformedUri? then Abrupt(URIError) else Normal
    ensures !IsAcknowledged(data) ==> HandleOutcome(props, webview, data).effects == []
    ensures IsAccepted(data) && !Classify(Field(data, "type")).Unhandled? ==> IsAcknowledged(data)
    ensures IsAcknowledged(data) ==>
              multiset(SentKinds(HandleOutcome(props, webview, data).effects))[MessageAcknowledged]
              == if webview then 1 else 0
    ensures IsAcknowledged(data) && webview ==>
              HandleOutcome(props, webview, data).effects[0]
              == Inject(Envelope(MESSAGE_PREFIX, MessageAcknowledged, None))
    ensures IsAcknowledged(data) && Classify(Field(data, "type")).Unhandled? ==>
              HandleOutcome(props, webview, data).effects == Send(webview, MessageAcknowledged, None)
  {
    if IsAcknowledged(data) {
      var ack := Send(webview, MessageAcknowledged, None);
      var rest := DispatchEffects(props, webview, data);
      DispatchByType(props, webview, data);
      SentKindsAppend(ack, rest);
      assert MessageAcknowledged !in multiset(SentKinds(rest));
    }
  }

  /**
   * For instance, a message whose type is the object `{"toString": 0}` passes
   * the prefix test, yet the handler neither acknowledges nor dispatches it.
   */
  lemma UnconvertibleTypeIgnored(props: Props, webview: bool)
    ensures var data := Parsed(Obj(map["prefix" := Str(MESSAGE_PREFIX), "type" := Obj(map["toString" := Num("0")])]));
            && IsAccepted(data)
            && HandleOutcome(props, webview, data) == Outcome(Normal, [])
  {
    var fields := map["prefix" := Str(MESSAGE_PREFIX), "type" := Obj(map["toString" := Num("0")])];
    assert "hasOwnProperty" !in fields;
    assert Field(Parsed(Obj(fields)), "type") == Obj(map["toString" := Num("0")]);
  }

  /**
   * The load sequence ends abruptly exactly when `onLoad` is set but is not a
   * function (a TypeError) or throws, and it calls `onLoad` exactly when that
   * prop is a function, and no other callback.
   */
  lemma LoadCalls(props: Props, webview: bool, onLoadThrows: bool)
    ensures LoadOutcome(props, webview, onLoadThrows).completion ==
              if props.onLoad == Some(NotCallable) then Abrupt(TypeError)
              else if props.onLoad == Some(Callable) && onLoadThrows then Abrupt(HostError)
              else Normal
    ensures Calls(LoadOutcome(props, webview, onLoadThrows).effects) ==
              if props.onLoad == Some(Callable) then [OnLoad] else []
  {
    var prelude := LoadPrelude(props, webview);
    var editor := EditorRequest(props, webview);
    PreludeSends(props, webview);
    match props.onLoad
    case None =>
      assert LoadOutcome(props, webview, onLoadThrows).effects == prelude + editor;
      CallsAppend(prelude, editor);
    case Some(NotCallable) =>
    case Some(Callable) =>
      var called := prelude + [Invoke(OnLoad)];
      CallsAppend(prelude, [Invoke(OnLoad)]);
      assert Calls([Invoke(OnLoad)]) == [OnLoad];
      if !onLoadThrows {
        assert LoadOutcome(props, webview, onLoadThrows).effects == called + editor;
        CallsAppend(called, editor);
      }
  }

  /**
   * The load sequence sends LOAD_EDITOR, then SET_BACKGROUND_COLOR with
   * `{backgroundColor}` if that prop is set, then SEND_EDITOR if
   * `getEditorCallback` is set and `onLoad` neither is a non-function nor
   * throws, and nothing else.
   */
  lemma LoadSequence(props: Props, webview: bool, onLoadThrows: bool)
    ensures var r := LoadOutcome(props, webview, onLoadThrows);
            SentKinds(r.effects) ==
              if !webview then []
              else [LoadEditor]
                   + (if props.backgroundColor.Some? then [SetBackgroundColor] else [])
                   + (if r.completion.Normal? && props.getEditorCallback.Some? then [SendEditor] else [])
    ensures webview ==>
              LoadOutcome(props, webview, onLoadThrows).effects[0] == Inject(Envelope(MESSAGE_PREFIX, LoadEditor, None))
    ensures webview && props.backgroundColor.Some? ==>
              LoadOutcome(props, webview, onLoadThrows).effects[1]
              == Inject(Envelope(MESSAGE_PREFIX, SetBackgroundColor, Some(map["backgroundColor" := props.backgroundColor.value])))
  {
    var prelude := LoadPrelude(props, webview);
    var editor := EditorRequest(props, webview);
    PreludeSends(props, webview);
    match props.onLoad
    case None =>
      assert LoadOutcome(props, webview, onLoadThrows).effects == prelude + editor;
      SentKindsAppend(prelude, editor);
    case Some(NotCallable) =>
    case Some(Callable) =>
      var called := prelude + [Invoke(OnLoad)];
      SentKindsAppend(prelude, [Invoke(OnLoad)]);
      assert SentKinds([Invoke(OnLoad)]) == [];
      if !onLoadThrows {
        assert LoadOutcome(props, webview, onLoadThrows).effects == called + editor;
        SentKindsAppend(called, editor);
      }
  }

  /**
   * `onLoad` is called after LOAD_EDITOR and the background colour, and
   * before SEND_EDITOR.
   */
  lemma OnLoadPosition(props: Props, webview: bool, onLoadThrows: bool)
    requires props.onLoad == Some(Callable)
    ensures var r := LoadOutcome(props, webview, onLoadThrows).effects;
            var i := (if webview then 1 else 0) + (if webview && props.backgroundColor.Some? then 1 else 0);
            && i < |r| && r[i] == Invoke(OnLoad)
            && i <= |SentKinds(r)|
            && SentKinds(r[..i]) == SentKinds(r)[..i]
            && SentKinds(r[i + 1..]) == SentKinds(r)[i..]
  {
    var prelude := LoadPrelude(props, webview);
    var editor := EditorRequest(props, webview);
    PreludeSends(props, webview);
    var called := prelude + [Invoke(OnLoad)];
    var r := LoadOutcome(props, webview, onLoadThrows).effects;
    assert |prelude| == (if webview then 1 else 0) + (if webview && props.backgroundColor.Some? then 1 else 0);
    assert r[..|prelude|] == prelude;
    SentKindsAppend(prelude, [Invoke(OnLoad)]);
    assert SentKinds([Invoke(OnLoad)]) == [];
    assert SentKinds(called) == SentKinds(prelude) + [];
    if !onLoadThrows {
      assert r == called + editor;
      assert r[|prelude| + 1..] == editor;
      SentKindsAppend(called, editor);
      assert SentKinds(r) == SentKinds(prelude) + SentKinds(editor);
      assert SentKinds(r)[|prelude|..] == SentKinds(editor);
    } else {
      assert r == called;
      assert r[|prelude| + 1..] == [];
      assert SentKinds(r)[|prelude|..] == [];
    }
  }

  /** The sends before `onLoad`, one effect per envelope. */
  lemma PreludeSends(props: Props, webview: bool)
    ensures Calls(LoadPrelude(props, webview)) == []
    ensures SentKinds(LoadPrelude(props, webview)) ==
              if !webview then []
              else [LoadEditor] + (if props.backgroundColor.Some? then [SetBackgroundColor] else [])
    ensures |LoadPrelude(props, webview)| == |SentKinds(LoadPrelude(props, webview))|
    ensures webview ==> LoadPrelude(props, webview)[0] == Inject(Envelope(MESSAGE_PREFIX, LoadEditor, None))
    ensures webview && props.backgroundColor.Some? ==>
              LoadPrelude(props, webview)[1]
              == Inject(Envelope(MESSAGE_PREFIX, SetBackgroundColor, Some(map["backgroundColor" := props.backgroundColor.value])))
  {
    var load := Send(webview, LoadEditor, None);
    var color :=
      if props.backgroundColor.Some?
      then Send(webview, SetBackgroundColor, Some(map["backgroundColor" := props.backgroundColor.value]))
      else [];
    SentKindsAppend(load, color);
    CallsAppend(load, color);
  }

  /**
   * The component's bridge state: the web-view handle (present or not), the
   * loading flag, and the log of everything it has made happen so far.
   */
  class WebViewQuillEditor {
    const props: Props
    var webview: bool
    var webViewNotLoaded: bool
    var effects: seq<Effect>

    constructor (props: Props)
      ensures this.props == props
      ensures !webview && webViewNotLoaded && effects == []
    {
      this.props := props;
      webview := false;
      webViewNotLoaded := true;
      effects := [];
    }

    /** The ref callback: the web view hands over its instance, or null when it goes away. */
    method CreateWebViewRef(handle: bool)
      modifies this
      ensures webview == handle
      ensures webViewNotLoaded == old(webViewNotLoaded) && effects == old(effects)
    {
      webview := handle;
    }

    /** Injects one envelope carrying MESSAGE_PREFIX, or nothing without a handle. */
    method SendMessage(kind: MessageType, payload: Option<map<string, JsValue>>)
      modifies this
      ensures webview == old(webview) && webViewNotLoaded == old(webViewNotLoaded)
      ensures effects == old(effects) + Send(webview, kind, payload)
    {
      if webview {
        effects := effects + [Inject(Envelope(MESSAGE_PREFIX, kind, payload))];
      }
    }

    /** Calls a host callback prop. */
    method CallHost(call: HostCall)
      modifies this
      ensures webview == old(webview) && webViewNotLoaded == old(webViewNotLoaded)
      ensures effects == old(effects) + [Invoke(call)]
    {
      effects := effects + [Invoke(call)];
    }

    /** Requests the document: one GET_DELTA without payload, answered later by RECEIVE_DELTA. */
    method GetDelta()
      modifies this
      ensures webview == old(webview) && webViewNotLoaded == old(webViewNotLoaded)
      ensures effects == old(effects) + Send(webview, MessageType.GetDelta, None)
    {
      SendMessage(MessageType.GetDelta, None);
    }

    /** Sends the content props to the editor, those that are set. */
    method EditorLoaded()
      modifies this
      ensures webview == old(webview) && webViewNotLoaded == old(webViewNotLoaded)
      ensures effects == old(effects) + EditorLoadedEffects(props, webview)
    {
      ghost var start := effects;
      ghost var contents :=
        if props.contentToDisplay.Some?
        then Send(webview, SetContents, Some(map["delta" := props.contentToDisplay.value]))
        else [];
      ghost var html :=
        if props.htmlContentToDisplay.Some?
        then Send(webview, SetHtmlContents, Some(map["html" := props.htmlContentToDisplay.value]))
        else [];
      if props.contentToDisplay.Some? {
        SendMessage(SetContents, Some(map["delta" := props.contentToDisplay.value]));
      } else {
        assert start + [] == start;
      }
      if props.htmlContentToDisplay.Some? {
        SendMessage(SetHtmlContents, Some(map["html" := props.htmlContentToDisplay.value]));
      } else {
        assert effects + [] == effects;
      }
      AppendAssociates(start, contents, html);
    }

    /**
     * The web view's load-end notification: clears the loading flag, then runs
     * the load sequence; an exception from `onLoad` escapes to the caller.
     */
    method OnWebViewLoaded(onLoadThrows: bool) returns (c: Completion)
      modifies this
      ensures webview == old(webview) && !webViewNotLoaded
      ensures c == LoadOutcome(props, webview, onLoadThrows).completion
      ensures effects == old(effects) + LoadOutcome(props, webview, onLoadThrows).effects
    {
      ghost var start := effects;
      webViewNotLoaded := false;
      SendMessage(LoadEditor, None);
      if props.backgroundColor.Some? {
        SendMessage(SetBackgroundColor, Some(map["backgroundColor" := props.backgroundColor.value]));
        AppendAssociates(start, Send(webview, LoadEditor, None),
                         Send(webview, SetBackgroundColor, Some(map["backgroundColor" := props.backgroundColor.value])));
      } else {
        assert Send(webview, LoadEditor, None) + [] == Send(webview, LoadEditor, None);
      }
      ghost var prelude := LoadPrelude(props, webview);
      assert effects == start + prelude;
      if props.onLoad.Some? {
        if props.onLoad.value.NotCallable? {
          return Abrupt(TypeError);
        }
        CallHost(OnLoad);
        AppendAssociates(start, prelude, [Invoke(OnLoad)]);
        if onLoadThrows {
          return Abrupt(HostError);
        }
      }
      ghost var called := if props.onLoad.Some? then prelude + [Invoke(OnLoad)] else prelude;
      if props.getEditorCallback.Some? {
        SendMessage(SendEditor, None);
      }
      AppendAssociates(start, called, EditorRequest(props, webview));
      return Normal;
    }

    /**
     * A message from the web view, already decoded: parse failures and
     * exceptions during dispatch are caught, a malformed percent-encoding is not.
     */
    method HandleMessage(data: Inbound) returns (c: Completion)
      modifies this
      ensures webview == old(webview) && webViewNotLoaded == old(webViewNotLoaded)
      ensures c == HandleOutcome(props, webview, data).completion
      ensures effects == old(effects) + HandleOutcome(props, webview, data).effects
    {
      if data.MalformedUri? {
        // decodeURIComponent runs before the try block
        return Abrupt(URIError);
      }
      if data.Unparsable? {
        // JSON.parse threw, caught
        return Normal;
      }
      var accepted := Accepts(data.value);
      if accepted != Ok(true) {
        // a foreign message, or a throw from `hasOwnProperty`, caught
        return Normal;
      }
      if ToStringThrows(Lookup(data.value, "type")) {
        // the log line interpolates the type; its TypeError is caught
        return Normal;
      }
      ghost var start := effects;
      SendMessage(MessageAcknowledged, None);
      Dispatch(data);
      AppendAssociates(start, Send(webview, MessageAcknowledged, None), DispatchEffects(props, webview, data));
      return Normal;
    }

    /**
     * The `switch` on the type of an accepted message, inside the `try`: an
     * exception ends it with the effects made so far.
     */
    method Dispatch(data: Inbound)
      requires IsAccepted(data)
      modifies this
      ensures webview == old(webview) && webViewNotLoaded == old(webViewNotLoaded)
      ensures effects == old(effects) + DispatchEffects(props, webview, data)
    {
      var payload := Lookup(data.value, "payload");
      match Classify(Lookup(data.value, "type")) {
      case EditorLoaded =>
        EditorLoaded();
      case EditorSent =>
        var editor := GetProperty(payload, "editor");
        if editor.Throw? || props.getEditorCallback != Some(Callable) {
          return;
        }
        CallHost(GetEditorCallback(editor.value));
      case TextChanged =>
        if props.onDeltaChangeCallback == Some(Callable) {
          if payload.IsNullish() {
            return;
          }
          var change := Lookup(payload, "deltaChange");
          CallHost(OnDeltaChangeCallback(change, change, Lookup(payload, "deltaOld"), Lookup(payload, "changeSource")));
        }
      case ReceiveDelta =>
        if props.getDeltaCallback == Some(Callable) {
          CallHost(GetDeltaCallback(payload));
        }
      case Unhandled =>
        // only a warning is logged
      }
    }
  }
}
