/**
 * Sessions: the component receives one event at a time (the ref callback,
 * the web view's load-end notification, a message from the web view, or the
 * host's `getDelta` call), each handled to completion before the next.
 * `Run` applies to a state the same functions the component's methods are
 * proved against, event after event, and the lemmas here state what holds
 * over any such sequence.
 */
module Sessions {
  import opened JsValues
  import opened Envelopes
  import opened QuillBridge

  /** An event the component handles. */
  datatype Event =
    | WebViewRef(present: bool)       // createWebViewRef
    | LoadEnd(onLoadThrows: bool)     // onWebViewLoaded
    | Message(data: Inbound)          // handleMessage
    | FetchDelta                      // getDelta

  /** The component's fields, as a value. */
  datatype State = State(webview: bool, webViewNotLoaded: bool, effects: seq<Effect>)

  /** A freshly constructed component. */
  const Initial: State := State(false, true, [])

  /** What handling one event adds to the log. */
  function StepEffects(props: Props, webview: bool, e: Event): seq<Effect>
  {
    match e
    case WebViewRef(_) => []
    case LoadEnd(onLoadThrows) => LoadOutcome(props, webview, onLoadThrows).effects
    case Message(data) => HandleOutcome(props, webview, data).effects
    case FetchDelta => Send(webview, MessageType.GetDelta, None)
  }

  function Step(props: Props, s: State, e: Event): State
  {
    State(
      if e.WebViewRef? then e.present else s.webview,
      if e.LoadEnd? then false else s.webViewNotLoaded,
      s.effects + StepEffects(props, s.webview, e))
  }

  function Run(props: Props, s: State, events: seq<Event>): State
    decreases |events|
  {
    if events == [] then s else Run(props, Step(props, s, events[0]), events[1..])
  }

  /** The fields of a component, as a state. */
  function StateOf(c: WebViewQuillEditor): State
    reads c
  {
    State(c.webview, c.webViewNotLoaded, c.effects)
  }

  /**
   * One event delivered to a component: the matching handler runs to
   * completion, and the component's new fields are those `Step` gives, so
   * every lemma about `Run` holds of the component's methods.
   */
  method Deliver(c: WebViewQuillEditor, e: Event) returns (completion: Completion)
    modifies c
    ensures StateOf(c) == Step(c.props, old(StateOf(c)), e)
    ensures completion ==
              match e
              case LoadEnd(onLoadThrows) => LoadOutcome(c.props, old(c.webview), onLoadThrows).completion
              case Message(data) => HandleOutcome(c.props, old(c.webview), data).completion
              case _ => Normal
  {
    match e {
      case WebViewRef(present) =>
        c.CreateWebViewRef(present);
        completion := Normal;
      case LoadEnd(onLoadThrows) =>
        completion := c.OnWebViewLoaded(onLoadThrows);
      case Message(data) =>
        completion := c.HandleMessage(data);
      case FetchDelta =>
        c.GetDelta();
        completion := Normal;
    }
  }

  predicate IsAcknowledgedMessage(e: Event) {
    e.Message? && IsAcknowledged(e.data)
  }

  predicate IsEditorLoadedMessage(e: Event) {
    IsAcknowledgedMessage(e) && Classify(Field(e.data, "type")).EditorLoaded?
  }

  /** How many events of `events` satisfy `p`. */
  function CountWhere(events: seq<Event>, p: Event -> bool): (n: nat)
    ensures n <= |events|
  {
    if events == [] then 0 else (if p(events[0]) then 1 else 0) + CountWhere(events[1..], p)
  }

  /** No event changes the web-view handle. */
  predicate KeepsHandle(events: seq<Event>) {
    forall i | 0 <= i < |events| :: !events[i].WebViewRef?
  }

  /**
   * Every SET_CONTENTS in `kinds` comes right after a MESSAGE_ACKNOWLEDGED, and
   * every SET_HTML_CONTENTS right after a MESSAGE_ACKNOWLEDGED or a SET_CONTENTS.
   */
  predicate HydrationFollowsAck(kinds: seq<MessageType>) {
    && (forall i | 0 <= i < |kinds| && kinds[i] == SetContents :: 0 < i && kinds[i - 1] == MessageAcknowledged)
    && (forall i | 0 <= i < |kinds| && kinds[i] == SetHtmlContents ::
          0 < i && (kinds[i - 1] == MessageAcknowledged || kinds[i - 1] == SetContents))
  }

  /** The hydration sends, in order, as message types. */
  function Hydration(content: bool, html: bool): seq<MessageType> {
    (if content then [SetContents] else []) + (if html then [SetHtmlContents] else [])
  }

  lemma AckedHydration(content: bool, html: bool)
    ensures var kinds := [MessageAcknowledged] + Hydration(content, html);
            && multiset(kinds)[MessageAcknowledged] == 1
            && MessageType.GetDelta !in kinds
            && multiset(kinds)[SetContents] == (if content then 1 else 0)
            && multiset(kinds)[SetHtmlContents] == (if html then 1 else 0)
            && HydrationFollowsAck(kinds)
  {
    var kinds := [MessageAcknowledged] + Hydration(content, html);
    if content && html {
      assert kinds == [MessageAcknowledged, SetContents, SetHtmlContents];
    } else if content {
      assert kinds == [MessageAcknowledged, SetContents];
    } else if html {
      assert kinds == [MessageAcknowledged, SetHtmlContents];
    } else {
      assert kinds == [MessageAcknowledged];
    }
  }

  /** What one message sends: the acknowledgement first, then at most the hydration. */
  lemma MessageSends(props: Props, webview: bool, data: Inbound)
    ensures var kinds := SentKinds(HandleOutcome(props, webview, data).effects);
            && multiset(kinds)[MessageAcknowledged] == (if webview && IsAcknowledged(data) then 1 else 0)
            && MessageType.GetDelta !in kinds
            && multiset(kinds)[SetContents] ==
                 (if webview && IsAcknowledged(data) && Classify(Field(data, "type")).EditorLoaded? && props.contentToDisplay.Some?
                  then 1 else 0)
            && multiset(kinds)[SetHtmlContents] ==
                 (if webview && IsAcknowledged(data) && Classify(Field(data, "type")).EditorLoaded?
                     && props.htmlContentToDisplay.Some?
                  then 1 else 0)
            && (!webview ==> kinds == [])
            && (kinds != [] ==> kinds[0] == MessageAcknowledged)
            && HydrationFollowsAck(kinds)
  {
    MessageKinds(props, webview, data);
    var kinds := SentKinds(HandleOutcome(props, webview, data).effects);
    if webview && IsAcknowledged(data) {
      var loaded := Classify(Field(data, "type")).EditorLoaded?;
      var content := loaded && props.contentToDisplay.Some?;
      var html := loaded && props.htmlContentToDisplay.Some?;
      AckedHydration(content, html);
      assert kinds == [MessageAcknowledged] + Hydration(content, html);
    } else {
      assert kinds == [];
    }
  }

  /** The types one message sends: the acknowledgement, then the hydration for EDITOR_LOADED. */
  lemma MessageKinds(props: Props, webview: bool, data: Inbound)
    ensures SentKinds(HandleOutcome(props, webview, data).effects)
            == if webview && IsAcknowledged(data)
               then
                 var loaded := Classify(Field(data, "type")).EditorLoaded?;
                 [MessageAcknowledged]
                 + Hydration(loaded && props.contentToDisplay.Some?, loaded && props.htmlContentToDisplay.Some?)
               else []
  {
    AcknowledgedFirst(props, webview, data);
    if IsAcknowledged(data) {
      var ack := Send(webview, MessageAcknowledged, None);
      var rest := DispatchEffects(props, webview, data);
      assert HandleOutcome(props, webview, data).effects == ack + rest;
      DispatchByType(props, webview, data);
      HydrationSends(props, webview);
      SentKindsAppend(ack, rest);
      if !webview {
        assert SentKinds(rest) == [];
      }
    }
  }

  /** What the load sequence sends: no acknowledgement, no GET_DELTA, no content. */
  lemma LoadSends(props: Props, webview: bool, onLoadThrows: bool)
    ensures var kinds := SentKinds(LoadOutcome(props, webview, onLoadThrows).effects);
            && MessageAcknowledged !in kinds
            && MessageType.GetDelta !in kinds
            && SetContents !in kinds
            && SetHtmlContents !in kinds
            && (!webview ==> kinds == [])
  {
    LoadSequence(props, webview, onLoadThrows);
    var r := LoadOutcome(props, webview, onLoadThrows);
    var color := props.backgroundColor.Some?;
    var editor := r.completion.Normal? && props.getEditorCallback.Some?;
    if webview {
      if color && editor {
        assert SentKinds(r.effects) == [LoadEditor, SetBackgroundColor, SendEditor];
      } else if color {
        assert SentKinds(r.effects) == [LoadEditor, SetBackgroundColor];
      } else if editor {
        assert SentKinds(r.effects) == [LoadEditor, SendEditor];
      } else {
        assert SentKinds(r.effects) == [LoadEditor];
      }
    }
  }

  /**
   * One event's sends: the acknowledgement only for an accepted message whose type converts,
   * GET_DELTA only for `getDelta`, SET_CONTENTS and SET_HTML_CONTENTS only for
   * an accepted EDITOR_LOADED while `contentToDisplay`, respectively
   * `htmlContentToDisplay`, is set, each once, and nothing at all without a
   * handle. Within one event the hydration sends directly follow the
   * acknowledgement.
   */
  lemma StepSends(props: Props, webview: bool, e: Event)
    ensures var kinds := SentKinds(StepEffects(props, webview, e));
            && multiset(kinds)[MessageAcknowledged] == (if webview && IsAcknowledgedMessage(e) then 1 else 0)
            && multiset(kinds)[MessageType.GetDelta] == (if webview && e.FetchDelta? then 1 else 0)
            && multiset(kinds)[SetContents] ==
                 (if webview && IsEditorLoadedMessage(e) && props.contentToDisplay.Some? then 1 else 0)
            && multiset(kinds)[SetHtmlContents] ==
                 (if webview && IsEditorLoadedMessage(e) && props.htmlContentToDisplay.Some? then 1 else 0)
            && (!webview ==> kinds == [])
            && HydrationFollowsAck(kinds)
            && (kinds != [] ==> kinds[0] != SetContents && kinds[0] != SetHtmlContents)
  {
    match e
    case WebViewRef(_) =>
    case LoadEnd(onLoadThrows) =>
      LoadSends(props, webview, onLoadThrows);
    case FetchDelta =>
    case Message(data) =>
      MessageSends(props, webview, data);
  }

  /** The log only grows: a run never retracts an effect. */
  lemma {:induction false} RunExtendsLog(props: Props, s: State, events: seq<Event>)
    ensures s.effects <= Run(props, s, events).effects
    decreases |events|
  {
    if events != [] {
      RunExtendsLog(props, Step(props, s, events[0]), events[1..]);
    }
  }

  /** Across a run, the handle changes only through the ref callback. */
  lemma {:induction false} RunKeepsHandle(props: Props, s: State, events: seq<Event>)
    requires KeepsHandle(events)
    ensures Run(props, s, events).webview == s.webview
    decreases |events|
  {
    if events != [] {
      RunKeepsHandle(props, Step(props, s, events[0]), events[1..]);
    }
  }

  /**
   * While the handle is held, every message that passes the prefix test and
   * whose type converts to a string is acknowledged exactly once, and nothing
   * else is acknowledged.
   */
  lemma {:induction false} OneAckPerAcceptedMessage(props: Props, s: State, events: seq<Event>)
    requires s.webview && KeepsHandle(events)
    ensures multiset(SentKinds(Run(props, s, events).effects))[MessageAcknowledged]
            == multiset(SentKinds(s.effects))[MessageAcknowledged] + CountWhere(events, IsAcknowledgedMessage)
    decreases |events|
  {
    if events != [] {
      var e := events[0];
      StepSends(props, s.webview, e);
      SentKindsAppend(s.effects, StepEffects(props, s.webview, e));
      OneAckPerAcceptedMessage(props, Step(props, s, e), events[1..]);
    }
  }

  /**
   * While the handle is held, each `getDelta` call sends exactly one
   * GET_DELTA, whether or not any RECEIVE_DELTA ever answers it.
   */
  lemma {:induction false} OneGetDeltaPerFetch(props: Props, s: State, events: seq<Event>)
    requires s.webview && KeepsHandle(events)
    ensures multiset(SentKinds(Run(props, s, events).effects))[MessageType.GetDelta]
            == multiset(SentKinds(s.effects))[MessageType.GetDelta] + CountWhere(events, (e: Event) => e.FetchDelta?)
    decreases |events|
  {
    if events != [] {
      var e := events[0];
      StepSends(props, s.webview, e);
      SentKindsAppend(s.effects, StepEffects(props, s.webview, e));
      OneGetDeltaPerFetch(props, Step(props, s, e), events[1..]);
    }
  }

  /**
   * No readiness state gates content: while the handle is held, every
   * accepted EDITOR_LOADED sends SET_CONTENTS again when `contentToDisplay`
   * is set, and nothing else sends it.
   */
  lemma {:induction false} ContentPerEditorLoaded(props: Props, s: State, events: seq<Event>)
    requires s.webview && KeepsHandle(events)
    ensures multiset(SentKinds(Run(props, s, events).effects))[SetContents]
            == multiset(SentKinds(s.effects))[SetContents]
               + (if props.contentToDisplay.Some? then CountWhere(events, IsEditorLoadedMessage) else 0)
    decreases |events|
  {
    if events != [] {
      var e := events[0];
      StepSends(props, s.webview, e);
      SentKindsAppend(s.effects, StepEffects(props, s.webview, e));
      ContentPerEditorLoaded(props, Step(props, s, e), events[1..]);
    }
  }

  /**
   * Likewise, while the handle is held, every accepted EDITOR_LOADED sends
   * SET_HTML_CONTENTS again when `htmlContentToDisplay` is set, and nothing
   * else sends it.
   */
  lemma {:induction false} HtmlPerEditorLoaded(props: Props, s: State, events: seq<Event>)
    requires s.webview && KeepsHandle(events)
    ensures multiset(SentKinds(Run(props, s, events).effects))[SetHtmlContents]
            == multiset(SentKinds(s.effects))[SetHtmlContents]
               + (if props.htmlContentToDisplay.Some? then CountWhere(events, IsEditorLoadedMessage) else 0)
    decreases |events|
  {
    if events != [] {
      var e := events[0];
      StepSends(props, s.webview, e);
      SentKindsAppend(s.effects, StepEffects(props, s.webview, e));
      HtmlPerEditorLoaded(props, Step(props, s, e), events[1..]);
    }
  }

  /** Without a handle nothing is injected, until the ref callback provides one. */
  lemma {:induction false} DetachedSendsNothing(props: Props, s: State, events: seq<Event>)
    requires !s.webview
    requires forall i | 0 <= i < |events| :: events[i] != WebViewRef(true)
    ensures SentKinds(Run(props, s, events).effects) == SentKinds(s.effects)
    ensures !Run(props, s, events).webview
    decreases |events|
  {
    if events != [] {
      var e := events[0];
      StepSends(props, s.webview, e);
      SentKindsAppend(s.effects, StepEffects(props, s.webview, e));
      DetachedSendsNothing(props, Step(props, s, e), events[1..]);
    }
  }

  /**
   * Messages that fail to parse, fail the prefix test or have a type that does
   * not convert to a string leave the component exactly as it was.
   */
  lemma {:induction false} ForeignMessagesIgnored(props: Props, s: State, events: seq<Event>)
    requires forall i | 0 <= i < |events| :: events[i].Message? && !IsAcknowledged(events[i].data)
    ensures Run(props, s, events) == s
    decreases |events|
  {
    if events != [] {
      AcknowledgedFirst(props, s.webview, events[0].data);
      assert Step(props, s, events[0]) == s;
      ForeignMessagesIgnored(props, s, events[1..]);
    }
  }

  /** `webViewNotLoaded` is written but never read: it has no influence on any effect or on the handle. */
  lemma {:induction false} LoadedFlagNeverRead(props: Props, s: State, flag: bool, events: seq<Event>)
    ensures Run(props, s.(webViewNotLoaded := flag), events).effects == Run(props, s, events).effects
    ensures Run(props, s.(webViewNotLoaded := flag), events).webview == Run(props, s, events).webview
    decreases |events|
  {
    if events != [] {
      var t := Step(props, s, events[0]);
      assert Step(props, s.(webViewNotLoaded := flag), events[0]) == t.(webViewNotLoaded := Step(props, s.(webViewNotLoaded := flag), events[0]).webViewNotLoaded);
      LoadedFlagNeverRead(props, t, Step(props, s.(webViewNotLoaded := flag), events[0]).webViewNotLoaded, events[1..]);
    }
  }

  lemma {:induction false} HydrationFollowsAckAppend(a: seq<MessageType>, b: seq<MessageType>)
    requires HydrationFollowsAck(a) && HydrationFollowsAck(b)
    requires b != [] ==> b[0] != SetContents && b[0] != SetHtmlContents
    ensures HydrationFollowsAck(a + b)
  {
    forall i | 0 <= i < |a + b| && (a + b)[i] == SetContents
      ensures 0 < i && (a + b)[i - 1] == MessageAcknowledged
    {
      if i >= |a| {
        assert b[i - |a|] == SetContents;
        assert i - |a| > 0;
        assert (a + b)[i - 1] == b[i - |a| - 1];
      }
    }
    forall i | 0 <= i < |a + b| && (a + b)[i] == SetHtmlContents
      ensures 0 < i && ((a + b)[i - 1] == MessageAcknowledged || (a + b)[i - 1] == SetContents)
    {
      if i >= |a| {
        assert b[i - |a|] == SetHtmlContents;
        assert i - |a| > 0;
        assert (a + b)[i - 1] == b[i - |a| - 1];
      }
    }
  }

  /**
   * Every SET_CONTENTS the component ever sends directly follows the
   * acknowledgement of the message that caused it, and every SET_HTML_CONTENTS
   * follows that acknowledgement or that SET_CONTENTS: content goes out only
   * in answer to an inbound EDITOR_LOADED, never unprompted.
   */
  lemma {:induction false} HydrationOnlyAfterAck(props: Props, s: State, events: seq<Event>)
    requires HydrationFollowsAck(SentKinds(s.effects))
    ensures HydrationFollowsAck(SentKinds(Run(props, s, events).effects))
    decreases |events|
  {
    if events != [] {
      var e := events[0];
      StepSends(props, s.webview, e);
      SentKindsAppend(s.effects, StepEffects(props, s.webview, e));
      HydrationFollowsAckAppend(SentKinds(s.effects), SentKinds(StepEffects(props, s.webview, e)));
      HydrationOnlyAfterAck(props, Step(props, s, e), events[1..]);
    }
  }

  /** What one accepted EDITOR_LOADED sends while a handle is held: the acknowledgement, then the hydration. */
  lemma EditorLoadedSends(props: Props, data: Inbound)
    requires IsEditorLoadedMessage(Message(data))
    ensures var r := HandleOutcome(props, true, data).effects;
            && SentKinds(r) == [MessageAcknowledged] + Hydration(props.contentToDisplay.Some?, props.htmlContentToDisplay.Some?)
            && Calls(r) == []
            && (props.contentToDisplay.Some? ==>
                  r[1] == Inject(Envelope(MESSAGE_PREFIX, SetContents, Some(map["delta" := props.contentToDisplay.value]))))
            && (props.htmlContentToDisplay.Some? ==>
                  r[|r| - 1] == Inject(Envelope(MESSAGE_PREFIX, SetHtmlContents, Some(map["html" := props.htmlContentToDisplay.value]))))
  {
    var ack := Send(true, MessageAcknowledged, None);
    var hydration := EditorLoadedEffects(props, true);
    DispatchByType(props, true, data);
    HydrationSends(props, true);
    assert HandleOutcome(props, true, data).effects == ack + hydration;
    SentKindsAppend(ack, hydration);
    CallsAppend(ack, hydration);
  }

  /** The log of the handshake: the load sequence followed by the answer to EDITOR_LOADED. */
  lemma HandshakeLog(props: Props, data: Inbound)
    ensures Run(props, Initial, [WebViewRef(true), LoadEnd(false), Message(data)]).effects
            == LoadOutcome(props, true, false).effects + HandleOutcome(props, true, data).effects
  {
    var load := LoadOutcome(props, true, false).effects;
    var s1 := State(true, true, []);
    var s2 := State(true, false, load);
    assert Step(props, Initial, WebViewRef(true)) == s1;
    assert [] + load == load;
    assert Step(props, s1, LoadEnd(false)) == s2;
    assert Run(props, Initial, [WebViewRef(true), LoadEnd(false), Message(data)])
        == Run(props, s1, [LoadEnd(false), Message(data)]);
    assert Run(props, s1, [LoadEnd(false), Message(data)]) == Run(props, s2, [Message(data)]);
    assert Run(props, s2, [Message(data)]) == Run(props, Step(props, s2, Message(data)), []);
  }

  /**
   * The handshake: once the ref callback hands over the web view and loading
   * ends with an `onLoad` that returns (or none), the editor's EDITOR_LOADED
   * is acknowledged after the load sequence and only then is the content
   * sent. The only callback called is `onLoad`.
   */
  lemma {:induction false} Handshake(props: Props, data: Inbound)
    requires props.onLoad != Some(NotCallable)
    requires IsEditorLoadedMessage(Message(data))
    ensures var r := Run(props, Initial, [WebViewRef(true), LoadEnd(false), Message(data)]).effects;
            && SentKinds(r)
               == ([LoadEditor]
                   + (if props.backgroundColor.Some? then [SetBackgroundColor] else [])
                   + (if props.getEditorCallback.Some? then [SendEditor] else []))
                  + ([MessageAcknowledged] + Hydration(props.contentToDisplay.Some?, props.htmlContentToDisplay.Some?))
            && Calls(r) == (if props.onLoad.Some? then [OnLoad] else [])
  {
    var load := LoadOutcome(props, true, false).effects;
    var message := HandleOutcome(props, true, data).effects;
    HandshakeLog(props, data);
    ReturningLoad(props);
    EditorLoadedSends(props, data);
    SentKindsAppend(load, message);
    CallsAppend(load, message);
    assert Calls(load + message) == Calls(load) + [];
  }

  /** A load sequence whose `onLoad` returns, or is absent, with a handle held. */
  lemma ReturningLoad(props: Props)
    requires props.onLoad != Some(NotCallable)
    ensures SentKinds(LoadOutcome(props, true, false).effects)
            == [LoadEditor]
               + (if props.backgroundColor.Some? then [SetBackgroundColor] else [])
               + (if props.getEditorCallback.Some? then [SendEditor] else [])
    ensures Calls(LoadOutcome(props, true, false).effects) == if props.onLoad.Some? then [OnLoad] else []
  {
    LoadSequence(props, true, false);
    LoadCalls(props, true, false);
    assert props.onLoad.Some? <==> props.onLoad == Some(Callable);
  }

  /**
   * In the handshake the content goes out as `{delta: contentToDisplay}` and
   * `{html: htmlContentToDisplay}`.
   */
  lemma HandshakeContent(props: Props, data: Inbound)
    requires IsEditorLoadedMessage(Message(data))
    ensures var r := Run(props, Initial, [WebViewRef(true), LoadEnd(false), Message(data)]).effects;
            && (props.contentToDisplay.Some? ==>
                  Inject(Envelope(MESSAGE_PREFIX, SetContents, Some(map["delta" := props.contentToDisplay.value]))) in r)
            && (props.htmlContentToDisplay.Some? ==>
                  Inject(Envelope(MESSAGE_PREFIX, SetHtmlContents, Some(map["html" := props.htmlContentToDisplay.value]))) in r)
  {
    var load := LoadOutcome(props, true, false).effects;
    var message := HandleOutcome(props, true, data).effects;
    HandshakeLog(props, data);
    EditorLoadedSends(props, data);
    if props.contentToDisplay.Some? {
      assert message[1] in load + message;
    }
    if props.htmlContentToDisplay.Some? {
      assert message[|message| - 1] in load + message;
    }
  }

  /**
   * No readiness gate: an EDITOR_LOADED that arrives before the web view has
   * reported the end of loading is answered with the content all the same.
   */
  lemma {:induction false} ContentBeforeLoadEnd(props: Props, data: Inbound)
    requires IsEditorLoadedMessage(Message(data))
    ensures var s := Run(props, Initial, [WebViewRef(true), Message(data)]);
            && s.webViewNotLoaded
            && SentKinds(s.effects)
               == [MessageAcknowledged] + Hydration(props.contentToDisplay.Some?, props.htmlContentToDisplay.Some?)
  {
    var message := HandleOutcome(props, true, data).effects;
    var s1 := State(true, true, []);
    var s2 := State(true, true, message);
    assert Step(props, Initial, WebViewRef(true)) == s1;
    assert [] + message == message;
    assert Step(props, s1, Message(data)) == s2;
    assert Run(props, Initial, [WebViewRef(true), Message(data)]) == Run(props, s1, [Message(data)]);
    assert Run(props, s1, [Message(data)]) == Run(props, s2, []);
    EditorLoadedSends(props, data);
  }
}
