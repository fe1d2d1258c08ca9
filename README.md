# WebViewQuillEditor message bridge

This project models the host side of the message bridge in the React Native
component `WebViewQuillEditor`. The component embeds a Quill editor in a web
view and talks to it only by messages. Each message is an envelope
`{prefix, type, payload}` tagged with `MESSAGE_PREFIX`.

- The host injects envelopes into the web view: `sendMessage`, `getDelta`.
- The web view posts messages back. `handleMessage` decodes and parses each one,
  checks its prefix and logs its type. It then acknowledges the message with
  MESSAGE_ACKNOWLEDGED and dispatches on the type to the host's callback props.
  A type that cannot be converted to a string makes the log line throw; the
  exception is caught, and such a message is neither acknowledged nor
  dispatched.
- The load-end notification runs a fixed send sequence: `onWebViewLoaded`.
- EDITOR_LOADED hydrates the editor with the content props: `editorLoaded`.

The files:

- `js_values.dfy` (module `JsValues`): the JavaScript value semantics the
  bridge relies on:
  - values as `JSON.parse` yields them, plus `undefined`;
  - property reads, which throw on `null` and `undefined`;
  - `hasOwnProperty`, which also throws when an object's own `hasOwnProperty`
    member shadows the method;
  - conversion to a string, which throws for an object with an own `toString`
    member and for an array holding one at any depth.
- `envelope.dfy` (module `Envelopes`):
  - `MESSAGE_PREFIX`, the outbound message types and the envelope;
  - the prefix test;
  - the `switch` labels of the dispatcher;
  - the decoded inbound event, which is a malformed percent-encoding, text
    that is not JSON, or a parsed value.
- `bridge.dfy` (module `QuillBridge`): the component.
  - Class `WebViewQuillEditor` holds the fields the source writes: the web-view
    handle, the `webViewNotLoaded` flag, and one ordered log of everything
    observable. The log records envelopes injected into the web view and calls
    of host callbacks.
  - Each method is proved against a pure function of the props, the handle and
    the input: `Send`, `EditorLoadedEffects`, `DispatchEffects`,
    `HandleOutcome`, `LoadOutcome`.
  - Lemmas state what the component promises about those functions.
  - A handler either returns normally or lets an exception escape. This is its
    `Completion`.
- `session.dfy` (module `Sessions`): runs of events handled one after another,
  folded with the same functions. It holds the properties that span several
  events: acknowledgement counts, GET_DELTA counts, repeated hydration, the
  handshake order, and the behaviour without a handle. `Sessions.Deliver`
  hands one event to the class's handler and is proved to change the
  component's fields exactly as `Step` does.

In these places the code behaves in ways a reader might not expect, and the
model follows the code:

- No readiness state gates content. Every accepted EDITOR_LOADED sends
  SET_CONTENTS and SET_HTML_CONTENTS again, even before the load-end
  notification (`Sessions.ContentPerEditorLoaded`,
  `Sessions.HtmlPerEditorLoaded`, `Sessions.ContentBeforeLoadEnd`).
- A message that passes the prefix test but whose type cannot be converted to
  a string is not acknowledged (`QuillBridge.UnconvertibleTypeIgnored`).
- `webViewNotLoaded` is written but never read (`Sessions.LoadedFlagNeverRead`).
- In the handshake, the acknowledgement of EDITOR_LOADED is sent between the
  load sequence and SET_CONTENTS (`Sessions.Handshake`).
- Two errors reach the caller:
  - a malformed percent-encoding, because it is decoded outside the `try`;
  - an `onLoad` that is not a function or that throws, because nothing catches
    there. In that case SEND_EDITOR is not sent.
- The acknowledgement, like every send, happens only while a web-view handle is
  held.

## Model

| member | source | states |
|---|---|---|
| JsValues.Lookup | WebViewQuillEditor.js:71-76 | reading a key gives the object's own field when present and `undefined` otherwise |
| JsValues.GetProperty | WebViewQuillEditor.js:66 | a property read throws a TypeError exactly on `null`/`undefined`, otherwise yields the field |
| JsValues.HasOwnProperty | WebViewQuillEditor.js:54 | `hasOwnProperty` throws exactly on nullish values and on objects whose own `hasOwnProperty` shadows the method; otherwise true iff the key is an own field |
| Envelopes.Classify | WebViewQuillEditor.js:61-95 | each `case` label is selected iff the type is exactly that string (strict equality), all else falls to `default` |
| Envelopes.ToJs | WebViewQuillEditor.js:139 | an envelope as received has an own `prefix`, passes the prefix test iff it carries MESSAGE_PREFIX, and reads back its type and payload (an absent payload reads as undefined) |
| Envelopes.Accepts | WebViewQuillEditor.js:53-56 | the prefix test throws iff the message is nullish or shadows `hasOwnProperty`, and passes iff the message is an object with own `prefix` equal to MESSAGE_PREFIX |
| Envelopes.Field | WebViewQuillEditor.js:57-87 | the `type` and `payload` read from an accepted message are its own fields, or undefined when it has none |
| QuillBridge.Send | WebViewQuillEditor.js:135-142 | one send injects exactly one envelope of its type while a handle is held and nothing without one, and calls no callback |
| QuillBridge.HydrationSends | WebViewQuillEditor.js:120-133 | hydration sends SET_CONTENTS `{delta}` first and SET_HTML_CONTENTS `{html}` last, each iff its prop is set, nothing else, and calls no callback |
| QuillBridge.DispatchByType | WebViewQuillEditor.js:61-95 | only EDITOR_LOADED sends (the hydration); EDITOR_SENT and TEXT_CHANGED call their callback iff it is a function and the payload is present, with `payload.editor` and `(deltaChange, deltaChange, deltaOld, changeSource)`; RECEIVE_DELTA passes the whole payload; other types do nothing; no dispatch acknowledges or calls more than one callback |
| QuillBridge.DeltaFieldIgnored | WebViewQuillEditor.js:68-84 | the payload's `delta` field has no influence on a TEXT_CHANGED dispatch |
| QuillBridge.AcknowledgedFirst | WebViewQuillEditor.js:48-101 | only a malformed percent-encoding escapes; unparsable and foreign messages, and messages whose type does not convert to a string, have no effect; every type the dispatcher recognises converts; any other accepted message is acknowledged exactly once (with a handle), first, and for an unknown type that is its only effect |
| QuillBridge.UnconvertibleTypeIgnored | WebViewQuillEditor.js:57 | a message with type `{"toString": 0}` passes the prefix test but has no effect |
| QuillBridge.LoadCalls | WebViewQuillEditor.js:112-114 | the load sequence ends abruptly iff `onLoad` is set and is not a function or throws, and calls `onLoad` iff it is a function |
| QuillBridge.LoadSequence | WebViewQuillEditor.js:103-118 | the load sequence sends LOAD_EDITOR, SET_BACKGROUND_COLOR `{backgroundColor}` iff that prop is set, SEND_EDITOR iff `getEditorCallback` is set and `onLoad` did not throw, and nothing else |
| QuillBridge.PreludeSends | WebViewQuillEditor.js:106-111 | before `onLoad`, the load sequence makes only the LOAD_EDITOR and background-colour sends, one effect each |
| QuillBridge.OnLoadPosition | WebViewQuillEditor.js:106-117 | `onLoad` is called after LOAD_EDITOR and SET_BACKGROUND_COLOR and before SEND_EDITOR |
| QuillBridge.WebViewQuillEditor.constructor | WebViewQuillEditor.js:25-32 | a new component has no handle, is flagged not loaded, and has done nothing |
| QuillBridge.WebViewQuillEditor.CreateWebViewRef | WebViewQuillEditor.js:44-46 | the ref callback stores the handle and changes nothing else |
| QuillBridge.WebViewQuillEditor.SendMessage | WebViewQuillEditor.js:135-142 | the log grows by exactly the envelope `{MESSAGE_PREFIX, type, payload}` with a handle, and not at all without |
| QuillBridge.WebViewQuillEditor.CallHost | WebViewQuillEditor.js:66 | a callback call is appended to the log |
| QuillBridge.WebViewQuillEditor.GetDelta | WebViewQuillEditor.js:146-148 | `getDelta` adds one GET_DELTA without payload, or nothing without a handle |
| QuillBridge.WebViewQuillEditor.EditorLoaded | WebViewQuillEditor.js:120-133 | the log grows by exactly the hydration sends |
| QuillBridge.WebViewQuillEditor.OnWebViewLoaded | WebViewQuillEditor.js:103-118 | the loading flag is cleared, the handle kept, and the completion and new log are those of the load sequence |
| QuillBridge.WebViewQuillEditor.HandleMessage | WebViewQuillEditor.js:48-101 | the completion and new log are those of filter, acknowledgement and dispatch; handle and flag are unchanged |
| QuillBridge.WebViewQuillEditor.Dispatch | WebViewQuillEditor.js:61-95 | the log grows by exactly the dispatch effects, with exceptions caught after the effects already made |
| Sessions.Deliver | WebViewQuillEditor.js:44-148 | handing an event to the component's handler changes its fields exactly as `Step` does and completes as the handler's outcome says |
| Sessions.MessageSends | WebViewQuillEditor.js:48-101 | one message sends at most one acknowledgement (iff accepted with a convertible type, with a handle) and first, never GET_DELTA, SET_CONTENTS and SET_HTML_CONTENTS only for EDITOR_LOADED with the matching prop, directly after the ack |
| Sessions.EditorLoadedSends | WebViewQuillEditor.js:58-63 | an accepted EDITOR_LOADED sends the acknowledgement followed by exactly the hydration, with `{delta}` second and `{html}` last, and calls nothing |
| Sessions.LoadSends | WebViewQuillEditor.js:103-118 | the load sequence never acknowledges, sends GET_DELTA, SET_CONTENTS or SET_HTML_CONTENTS, and sends nothing without a handle |
| Sessions.StepSends | WebViewQuillEditor.js:48-148 | per event: one acknowledgement per acknowledged message, one GET_DELTA per `getDelta`, one SET_CONTENTS and one SET_HTML_CONTENTS per EDITOR_LOADED with the matching prop, hydration directly after the ack, nothing without a handle |
| Sessions.RunExtendsLog | WebViewQuillEditor.js:135-142 | no sequence of events retracts an effect |
| Sessions.RunKeepsHandle | WebViewQuillEditor.js:44-46 | only the ref callback changes the handle |
| Sessions.OneAckPerAcceptedMessage | WebViewQuillEditor.js:53-58 | with a handle, the acknowledgements sent equal the number of accepted messages whose type converts to a string |
| Sessions.OneGetDeltaPerFetch | WebViewQuillEditor.js:146-148 | with a handle, the GET_DELTA sends equal the number of `getDelta` calls |
| Sessions.ContentPerEditorLoaded | WebViewQuillEditor.js:62-63 | with a handle and content set, SET_CONTENTS is sent once per accepted EDITOR_LOADED, again every time |
| Sessions.HtmlPerEditorLoaded | WebViewQuillEditor.js:128-132 | with a handle and HTML content set, SET_HTML_CONTENTS is sent once per accepted EDITOR_LOADED, again every time |
| Sessions.DetachedSendsNothing | WebViewQuillEditor.js:137 | without a handle, nothing is injected until the ref callback provides one |
| Sessions.ForeignMessagesIgnored | WebViewQuillEditor.js:53-57 | messages that fail parsing, the prefix test or the conversion of their type leave the whole state unchanged |
| Sessions.LoadedFlagNeverRead | WebViewQuillEditor.js:105 | the loading flag has no influence on any effect or on the handle |
| Sessions.HydrationOnlyAfterAck | WebViewQuillEditor.js:58-63 | every SET_CONTENTS ever sent directly follows an acknowledgement, and every SET_HTML_CONTENTS an acknowledgement or a SET_CONTENTS |
| Sessions.Handshake | WebViewQuillEditor.js:103-133 | handle, load end with an `onLoad` that returns or none, then EDITOR_LOADED sends the load sequence, then the acknowledgement, then the hydration, and calls only `onLoad` |
| Sessions.ReturningLoad | WebViewQuillEditor.js:103-118 | with a handle and an `onLoad` that returns (or none), the load sequence sends LOAD_EDITOR, then SET_BACKGROUND_COLOR iff that prop is set, then SEND_EDITOR iff `getEditorCallback` is set, and calls only `onLoad` |
| Sessions.HandshakeContent | WebViewQuillEditor.js:120-133 | in the handshake the content is sent as `{delta: contentToDisplay}` and `{html: htmlContentToDisplay}` |
| Sessions.ContentBeforeLoadEnd | WebViewQuillEditor.js:62-63 | an EDITOR_LOADED before the load-end notification still receives the content, with the loading flag still set |

## Left out

- Rendering, the loading indicator, styles and the error alerts: UI with no logic to state.
- `componentDidMount` asset resolution: asynchronous I/O through an asset library.
- `decodeURIComponent`, `unescape` and `JSON.parse`: library text codecs. Their results are the three forms of the decoded inbound event.
- `JSON.stringify` and the injected script text: the log records the envelope itself. `Envelopes.ToJs` gives the object the web view sees, with an absent payload dropped.
- Console output, PropTypes and defaultProps.
- React's batching of `setState`: the flag is written directly.
- The editor inside the web view and its delta format: deltas are opaque JSON values, and numbers keep only their text.
- Props are fixed for the component's life: a re-render with new props is not modelled.
- A content or colour prop passed explicitly as `undefined` is treated like any other present value, as `hasOwnProperty` does. Its serialization, which drops the member, is not modelled.
- QuillBridge.Callback: a callback prop that is set is either a function or not. The model does not distinguish a falsy non-function from a truthy one, because both leave the same effects: skipped, or a call that throws and is caught.
- QuillBridge.WebViewQuillEditor.HandleMessage: a host callback that throws during dispatch is not a parameter. Every callback call is the last step of its branch, and the exception is caught, so it changes nothing observable.
- QuillBridge.WebViewQuillEditor.OnWebViewLoaded: whether `onLoad` throws is a parameter, because the host's code is not visible.
- Re-entrant callbacks, e.g. a callback that calls `getDelta`, are not modelled. Each callback is one logged call.
