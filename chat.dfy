/** The simpler chat pane of `Chat.tsx`: which session's messages it shows,
    the gate in front of a send, and which messages it renders. Its own state
    is the text of the input field. */
module Chat {
  import opened JsString
  import opened Types
  import opened SessionStore
  import opened Connection
  import opened Provider
  import MainChat

  /** `activeMessages` (lines 23-31): without an active id the messages
      of the first session of the list, else those of the first session with the id. */
  function ActiveMessages(active: Option<string>, ss: seq<Session>): (r: seq<Message>)
    ensures !Truthy(active) ==> r == if |ss| > 0 then ss[0].messages else []
    ensures Truthy(active) && !HasSession(ss, active.value) ==> r == []
    ensures Truthy(active) && HasSession(ss, active.value) ==>
              exists i :: 0 <= i < |ss| && ss[i].id == active.value && ss[i].messages == r &&
                          forall j :: 0 <= j < i ==> ss[j].id != active.value
  {
    if !Truthy(active) then (if |ss| > 0 then ss[0].messages else [])
    else match FindById(ss, active.value)
      case None => []
      case Some(s) => s.messages
  }

  /** The two chat views show the same messages whenever a session is active;
      without one, this view falls back to the first session of the list while the main
      view shows nothing. */
  lemma ViewsAgreeWhenActive(active: Option<string>, ss: seq<Session>)
    ensures Truthy(active) ==> ActiveMessages(active, ss) == MainChat.ActiveMessages(active, ss)
    ensures !Truthy(active) ==> MainChat.ActiveMessages(active, ss) == [] &&
                                (|ss| > 0 ==> ActiveMessages(active, ss) == ss[0].messages)
  {
  }

  /** The send gate of `handleSendMessage` (line 38). */
  predicate CanSend(inputText: string, st: ProviderState) {
    Trim(inputText) != "" && Truthy(st.activeSessionId) && st.isConnected
  }

  /** The optimistic User message a send adds. */
  function UserMessage(inputText: string, freshId: string, now: int): Message {
    OptimisticMessage(MessageInput(User, MessageData(Some(inputText)), false), freshId, now)
  }

  /** The provider after a send (lines 37-50). */
  function SendEffect(st: ProviderState, inputText: string, freshId: string, now: int, suffix: string): ProviderState {
    if !CanSend(inputText, st) then st
    else
      var st1 := AddMessage(st, MessageInput(User, MessageData(Some(inputText)), false), None, freshId, now);
      Send(st1, TextInput(inputText, None), suffix)
  }

  /** A send that fails the gate changes nothing. One that passes adds one
      optimistic User message carrying the untrimmed text to the active
      session; the `text_input` frame with the same untrimmed text goes out
      under the active id when the socket is open, and is dropped when the
      gate passed on `isConnected` during the closing handshake. */
  lemma SendSpec(st: ProviderState, inputText: string, freshId: string, now: int, suffix: string)
    ensures var r := SendEffect(st, inputText, freshId, now, suffix);
            (!CanSend(inputText, st) ==> r == st) &&
            (CanSend(inputText, st) ==>
               r.sessions == AppendOptimistic(st.sessions, st.activeSessionId.value, UserMessage(inputText, freshId, now), now) &&
               (SocketOpen(st) ==> r.outbox == st.outbox + [Envelope(TextInput(inputText, None), st.activeSessionId.value)]) &&
               (!SocketOpen(st) ==> r.outbox == st.outbox) &&
               r.activeSessionId == st.activeSessionId && r.flags == st.flags)
  {
    if CanSend(inputText, st) {
      var st1 := AddMessage(st, MessageInput(User, MessageData(Some(inputText)), false), None, freshId, now);
      Provider.SendSpec(st1, TextInput(inputText, None), suffix);
      ResolveSessionIdSpec(st1.activeSessionId, st1.sessions, "text_input", TempGlobalId(suffix));
    }
  }

  /** A send made after the closing handshake started and before `onclose`
      passes the gate, so the message is shown as pending, but no frame
      goes out. */
  lemma SendWhileClosingIsLost(st: ProviderState, inputText: string, freshId: string, now: int, suffix: string)
    requires st.isConnected && SocketOpen(st) && CanSend(inputText, st)
    ensures var c := ClosingStarted(st);
            var r := SendEffect(c, inputText, freshId, now, suffix);
            CanSend(inputText, c) && r.outbox == st.outbox &&
            r.sessions == AppendOptimistic(st.sessions, st.activeSessionId.value, UserMessage(inputText, freshId, now), now)
  {
    SendSpec(ClosingStarted(st), inputText, freshId, now, suffix);
  }

  /** The render filter (line 68): a message is drawn when its text is
      present and not only white space. */
  predicate Rendered(m: Message) {
    m.data.text.Some? && Trim(m.data.text.value) != ""
  }

  /** The drawn messages, in order. */
  function Visible(ms: seq<Message>): (r: seq<Message>)
    ensures |r| <= |ms|
    ensures forall m :: m in r <==> m in ms && Rendered(m)
  {
    if ms == [] then []
    else if Rendered(ms[0]) then [ms[0]] + Visible(ms[1..])
    else Visible(ms[1..])
  }

  /** Filtering distributes over concatenation, so the drawn messages keep
      the order they have in the session. */
  lemma {:induction false} VisibleAppend(a: seq<Message>, b: seq<Message>)
    ensures Visible(a + b) == Visible(a) + Visible(b)
    decreases |a|
  {
    if a != [] {
      assert (a + b)[0] == a[0];
      assert (a + b)[1..] == a[1..] + b;
      VisibleAppend(a[1..], b);
    } else {
      assert a + b == b;
    }
  }

  /** A message that passed the send gate is drawn: once the active session
      exists, the view shows the message the send appended. */
  lemma SentMessageIsShown(st: ProviderState, inputText: string, freshId: string, now: int, suffix: string)
    requires CanSend(inputText, st) && HasSession(st.sessions, st.activeSessionId.value)
    ensures var r := SendEffect(st, inputText, freshId, now, suffix);
            UserMessage(inputText, freshId, now) in Visible(ActiveMessages(r.activeSessionId, r.sessions))
  {
    var m := UserMessage(inputText, freshId, now);
    var id := st.activeSessionId.value;
    SendSpec(st, inputText, freshId, now, suffix);
    var r := SendEffect(st, inputText, freshId, now, suffix);
    AppendOptimisticSpec(st.sessions, id, m, now);
    var i :| 0 <= i < |r.sessions| && r.sessions[i].id == id && r.sessions[i].messages == ActiveMessages(r.activeSessionId, r.sessions) &&
             forall j :: 0 <= j < i ==> r.sessions[j].id != id;
    assert r.sessions[i] in r.sessions;
    var s :| s in st.sessions && s.id == id && r.sessions[i].messages == s.messages + [m];
    assert m in r.sessions[i].messages;
  }

  /** `handleKeyPress` (lines 52-56): Enter sends, whatever the Shift key. */
  predicate SubmitsOnKey(key: string) {
    key == "Enter"
  }

  class ChatView {
    var inputText: string
    const ws: WebSocketProvider

    constructor (ws: WebSocketProvider)
      ensures this.ws == ws && inputText == ""
    {
      this.ws := ws;
      inputText := "";
    }

    /** `handleInputChange` (lines 33-35). */
    method HandleInputChange(value: string)
      modifies this
      ensures inputText == value
    {
      inputText := value;
    }

    method HandleSendMessage(freshId: string, now: int, suffix: string)
      requires ws.Valid()
      modifies this, ws
      ensures ws.Valid()
      ensures ws.State() == SendEffect(old(ws.State()), old(inputText), freshId, now, suffix)
      ensures inputText == if CanSend(old(inputText), old(ws.State())) then "" else old(inputText)
    {
      if Trim(inputText) != "" && Truthy(ws.activeSessionId) && ws.isConnected {
        ws.AddMessageToActiveSession(MessageInput(User, MessageData(Some(inputText)), false), None, freshId, now);
        ws.SendMessage(TextInput(inputText, None), suffix);
        inputText := "";
      }
    }

    method HandleKeyPress(key: string, freshId: string, now: int, suffix: string)
      requires ws.Valid()
      modifies this, ws
      ensures ws.Valid()
      ensures SubmitsOnKey(key) ==> ws.State() == SendEffect(old(ws.State()), old(inputText), freshId, now, suffix)
      ensures SubmitsOnKey(key) ==> inputText == if CanSend(old(inputText), old(ws.State())) then "" else old(inputText)
      ensures !SubmitsOnKey(key) ==> ws.State() == old(ws.State()) && inputText == old(inputText)
    {
      if SubmitsOnKey(key) {
        HandleSendMessage(freshId, now, suffix);
      }
    }
  }
}
