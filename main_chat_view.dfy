/** The decision rules of `MainChatView.tsx`: the credential gate in front of
    the feature toggles, and the composition of a typed (and possibly
    image-carrying) message. The view's own state is the typed text and the
    captured image's data URL; everything else lives in the provider. */
module MainChat {
  import opened JsString
  import opened Types
  import opened SessionStore
  import opened Connection
  import opened Provider
  import N = Negotiator

  /** What flipping a toggle switch does. */
  datatype ToggleAction = AskForKey | Forward(t: N.ToggleName, enabled: bool)

  /** `handleToggleChange` (lines 212-224): switching Gemini or Eval on
      without a key the server has confirmed only asks for the key; every
      other change is forwarded exactly as requested. */
  function ToggleDecision(t: N.ToggleName, enabled: bool, keyConfirmed: bool): (r: ToggleAction)
    ensures r.AskForKey? <==> (t == N.Gemini || t == N.Eval) && enabled && !keyConfirmed
    ensures r.Forward? ==> r.t == t && r.enabled == enabled
  {
    if (t == N.Gemini || t == N.Eval) && enabled && !keyConfirmed then AskForKey
    else Forward(t, enabled)
  }

  /** The provider after a flip of a switch. */
  function ToggleEffect(st: ProviderState, t: N.ToggleName, enabled: bool, suffix: string): ProviderState {
    match ToggleDecision(t, enabled, st.flags.keyConfirmed)
    case AskForKey => st.(flags := N.OpenPrompt(st.flags))
    case Forward(t', e) => ToggleRequest(st, t', e, suffix)
  }

  /** A flip never changes a toggle by itself and never touches the sessions.
      A gated flip sends nothing and opens the key prompt; any frame that goes
      out is the one `update_toggle_state` with the requested name and value,
      and on an open socket an ungated flip always sends it. */
  lemma ToggleGateSpec(st: ProviderState, t: N.ToggleName, enabled: bool, suffix: string)
    ensures var r := ToggleEffect(st, t, enabled, suffix);
            var gated := (t == N.Gemini || t == N.Eval) && enabled && !st.flags.keyConfirmed;
            r.sessions == st.sessions && N.SameToggles(r.flags, st.flags) &&
            (gated ==> r.outbox == st.outbox && r.flags.promptOpen) &&
            (r.outbox != st.outbox ==>
               !gated && |r.outbox| == |st.outbox| + 1 && r.outbox[..|st.outbox|] == st.outbox &&
               r.outbox[|st.outbox|].body == UpdateToggleState(N.NameOf(t), enabled)) &&
            (!gated && SocketOpen(st) ==> r.outbox != st.outbox)
  {
    var body := UpdateToggleState(N.NameOf(t), enabled);
    SendSpec(st, body, suffix);
    var r := Send(st, body, suffix);
    if r.outbox != st.outbox {
      var sid :| sid != "" && r.outbox == st.outbox + [Envelope(body, sid)] &&
                 (Truthy(st.activeSessionId) ==> sid == st.activeSessionId.value);
      assert r.outbox[..|st.outbox|] == st.outbox;
    }
  }

  /** What the send button does with the typed text and the captured image:
      nothing at all, or clear both after adding the displayed message (if
      any) and sending the frame (if any). */
  datatype Composed = Abort | Compose(display: Option<string>, send: Option<Outbound>)

  /** `handleSendTextMessage` (lines 79-92). */
  function ComposeText(active: Option<string>, typed: string, image: Option<string>): (r: Composed)
    ensures r.Abort? <==> !Truthy(active) || (Trim(typed) == "" && !Truthy(image))
    ensures r.Compose? && r.display.Some? ==> r.display.value != "" && r.send.Some?
    ensures r.Compose? && typed != "" ==> r.display == Some(typed) && r.send.Some?
    ensures r.Compose? && typed == "" ==>
              (Truthy(image) && Truthy(SplitSecond(image.value, ',')) ==> r.display == Some("[Image attached]")) &&
              (!(Truthy(image) && Truthy(SplitSecond(image.value, ','))) ==> r.display.None?)
    ensures r.Compose? ==>
              (r.send.Some? <==> typed != "" || (Truthy(image) && Truthy(SplitSecond(image.value, ','))))
    ensures r.Compose? && r.send.Some? ==>
              r.send.value.TextInput? && r.send.value.text == Trim(typed) &&
              r.send.value.imageData == (if Truthy(image) then SplitSecond(image.value, ',') else None)
    ensures r.Compose? && r.send.Some? && r.send.value.imageData.Some? ==>
              Truthy(image) && ',' in image.value && ',' !in r.send.value.imageData.value
  {
    if !Truthy(active) then Abort
    else if Trim(typed) == "" && !Truthy(image) then Abort
    else
      var payload := if Truthy(image) then SplitSecond(image.value, ',') else None;
      var display := if typed != "" then typed else if Truthy(payload) then "[Image attached]" else "";
      if display != "" || Truthy(payload) then
        assert Trim(typed) != "" ==> typed != "";
        Compose(if display != "" then Some(display) else None, Some(TextInput(Trim(typed), payload)))
      else Compose(None, None)
  }

  /** The provider after a send. */
  function SendTextEffect(st: ProviderState, typed: string, image: Option<string>, freshId: string, now: int, suffix: string): ProviderState {
    match ComposeText(st.activeSessionId, typed, image)
    case Abort => st
    case Compose(display, send) =>
      var st1 := if display.Some? then AddMessage(st, MessageInput(User, MessageData(display), false), None, freshId, now) else st;
      if send.Some? then Send(st1, send.value, suffix) else st1
  }

  /** An aborted send changes nothing. Otherwise the displayed text becomes one
      optimistic User message at the end of the active session, and the frame
      goes out under the active id when the socket is open; the active id and
      the flags stay as they were. */
  lemma SendTextSpec(st: ProviderState, typed: string, image: Option<string>, freshId: string, now: int, suffix: string)
    ensures var r := SendTextEffect(st, typed, image, freshId, now, suffix);
            var c := ComposeText(st.activeSessionId, typed, image);
            r.activeSessionId == st.activeSessionId && r.flags == st.flags && r.socket == st.socket &&
            (c.Abort? ==> r == st) &&
            (c.Compose? && c.display.Some? ==>
               r.sessions == AppendOptimistic(st.sessions, st.activeSessionId.value,
                 Message(freshId, User, now, MessageData(c.display), None, None, None, None, true, false), now)) &&
            (c.Compose? && c.display.None? ==> r.sessions == st.sessions) &&
            (c.Compose? && c.send.Some? && SocketOpen(st) ==>
               r.outbox == st.outbox + [Envelope(c.send.value, st.activeSessionId.value)]) &&
            (c.Compose? && c.send.None? ==> r.outbox == st.outbox)
  {
    var c := ComposeText(st.activeSessionId, typed, image);
    if c.Compose? {
      var st1 := if c.display.Some? then AddMessage(st, MessageInput(User, MessageData(c.display), false), None, freshId, now) else st;
      if c.send.Some? {
        SendSpec(st1, c.send.value, suffix);
        ResolveSessionIdSpec(st1.activeSessionId, st1.sessions, TypeName(c.send.value), TempGlobalId(suffix));
      }
    }
  }

  /** `activeMessages` of this view (lines 67-71): nothing without an active
      id, else the messages of the first session with that id. */
  function ActiveMessages(active: Option<string>, ss: seq<Session>): (r: seq<Message>)
    ensures !Truthy(active) ==> r == []
    ensures Truthy(active) && !HasSession(ss, active.value) ==> r == []
    ensures Truthy(active) && HasSession(ss, active.value) ==>
              exists i :: 0 <= i < |ss| && ss[i].id == active.value && ss[i].messages == r &&
                          forall j :: 0 <= j < i ==> ss[j].id != active.value
  {
    if !Truthy(active) then []
    else match FindById(ss, active.value)
      case None => []
      case Some(s) => s.messages
  }

  /** `handleKeyPress` (line 95). */
  predicate SubmitsOnKey(key: string, shift: bool) {
    key == "Enter" && !shift
  }

  class MainChatView {
    var typedMessage: string
    var capturedImageDataUrl: Option<string>
    const ws: WebSocketProvider

    constructor (ws: WebSocketProvider)
      ensures this.ws == ws && typedMessage == "" && capturedImageDataUrl == None
    {
      this.ws := ws;
      typedMessage := "";
      capturedImageDataUrl := None;
    }

    /** `handleInputChange` (line 77). */
    method HandleInputChange(value: string)
      modifies this
      ensures typedMessage == value && capturedImageDataUrl == old(capturedImageDataUrl)
    {
      typedMessage := value;
    }

    /** A picture taken or a file read (lines 187 and 198) leaves its data URL. */
    method AttachImage(dataUrl: string)
      modifies this
      ensures capturedImageDataUrl == Some(dataUrl) && typedMessage == old(typedMessage)
    {
      capturedImageDataUrl := Some(dataUrl);
    }

    method HandleToggleChange(t: N.ToggleName, enabled: bool, suffix: string)
      requires ws.Valid()
      modifies ws
      ensures ws.Valid()
      ensures ws.State() == ToggleEffect(old(ws.State()), t, enabled, suffix)
    {
      if (t == N.Gemini || t == N.Eval) && enabled && !ws.flags.keyConfirmed {
        ws.RequestApiKeyModal();
        return;
      }
      ws.UpdateToggleState(t, enabled, suffix);
    }

    method HandleSendTextMessage(freshId: string, now: int, suffix: string)
      requires ws.Valid()
      modifies this, ws
      ensures ws.Valid()
      ensures ws.State() == SendTextEffect(old(ws.State()), old(typedMessage), old(capturedImageDataUrl), freshId, now, suffix)
      ensures ComposeText(old(ws.activeSessionId), old(typedMessage), old(capturedImageDataUrl)).Abort? ==>
                typedMessage == old(typedMessage) && capturedImageDataUrl == old(capturedImageDataUrl)
      ensures ComposeText(old(ws.activeSessionId), old(typedMessage), old(capturedImageDataUrl)).Compose? ==>
                typedMessage == "" && capturedImageDataUrl == None
    {
      if !Truthy(ws.activeSessionId) {
        return;
      }
      if Trim(typedMessage) == "" && !Truthy(capturedImageDataUrl) {
        return;
      }
      var imageToSend := if Truthy(capturedImageDataUrl) then SplitSecond(capturedImageDataUrl.value, ',') else None;
      var display := if typedMessage != "" then typedMessage else if Truthy(imageToSend) then "[Image attached]" else "";
      if display != "" || Truthy(imageToSend) {
        if display != "" {
          ws.AddMessageToActiveSession(MessageInput(User, MessageData(Some(display)), false), None, freshId, now);
        }
        ws.SendMessage(TextInput(Trim(typedMessage), imageToSend), suffix);
      }
      typedMessage := "";
      capturedImageDataUrl := None;
    }

    method HandleKeyPress(key: string, shift: bool, freshId: string, now: int, suffix: string)
      requires ws.Valid()
      modifies this, ws
      ensures ws.Valid()
      ensures !SubmitsOnKey(key, shift) ==>
                ws.State() == old(ws.State()) && typedMessage == old(typedMessage) &&
                capturedImageDataUrl == old(capturedImageDataUrl)
      ensures SubmitsOnKey(key, shift) ==>
                ws.State() == SendTextEffect(old(ws.State()), old(typedMessage), old(capturedImageDataUrl), freshId, now, suffix)
      ensures SubmitsOnKey(key, shift) &&
              ComposeText(old(ws.activeSessionId), old(typedMessage), old(capturedImageDataUrl)).Abort? ==>
                typedMessage == old(typedMessage) && capturedImageDataUrl == old(capturedImageDataUrl)
      ensures SubmitsOnKey(key, shift) &&
              ComposeText(old(ws.activeSessionId), old(typedMessage), old(capturedImageDataUrl)).Compose? ==>
                typedMessage == "" && capturedImageDataUrl == None
    {
      if SubmitsOnKey(key, shift) {
        HandleSendTextMessage(freshId, now, suffix);
      }
    }
  }
}
