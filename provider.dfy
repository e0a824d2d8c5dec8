/** `WebSocketProvider.tsx` as one object: the session list, the active id
    and its local-storage copy, the negotiated flags, the socket and its
    timers, the reconnect counter, and the frames written to the socket.
    Each user action, inbound frame, socket event and timer is one atomic
    method. Fresh ids (`uuidv4`), the clock (`Date.now`), generated names and
    the decoded audio are parameters. */
module Provider {
  import opened JsString
  import opened Types
  import opened Recency
  import opened SessionStore
  import opened Connection
  import N = Negotiator
  import P = Playback

  /** The socket in `wsRef`: which one it is, and its `readyState`. */
  datatype Sock = Sock(serial: nat, state: ReadyState)

  /** Everything the provider holds besides the audio queue. `storedSessionId`
      is local storage's last-active id; `reconnectTimer` is the delay of an
      armed reconnect timer; `outbox` is every frame written, in order. */
  datatype ProviderState = ProviderState(
    sessions: seq<Session>,
    activeSessionId: Option<string>,
    storedSessionId: Option<string>,
    flags: N.Flags,
    isConnected: bool,
    socket: Option<Sock>,
    nextSerial: nat,
    reconnectAttempts: nat,
    reconnectTimer: Option<real>,
    connectionTimer: bool,
    outbox: seq<Envelope>)

  /** `sessions.find(s => s.id === id)`: the first session with the id. */
  function FindById(ss: seq<Session>, id: string): (r: Option<Session>)
    ensures r.Some? ==> r.value in ss && r.value.id == id
    ensures r.None? <==> !HasSession(ss, id)
    ensures r.Some? ==> exists i :: 0 <= i < |ss| && ss[i] == r.value && forall j :: 0 <= j < i ==> ss[j].id != id
  {
    if ss == [] then None
    else if ss[0].id == id then Some(ss[0])
    else
      var r := FindById(ss[1..], id);
      assert forall s :: s in ss ==> s == ss[0] || s in ss[1..];
      if r.Some? then
        var i :| 0 <= i < |ss[1..]| && ss[1..][i] == r.value && forall j :: 0 <= j < i ==> ss[1..][j].id != id;
        assert ss[i + 1] == r.value;
        r
      else r
  }

  /** The session with this id exists and its messages have not been fetched. */
  predicate NeedsLoad(ss: seq<Session>, id: string) {
    var t := FindById(ss, id); t.Some? && !t.value.messagesLoaded
  }

  function SockState(st: ProviderState): Option<ReadyState> {
    if st.socket.None? then None else Some(st.socket.value.state)
  }

  predicate SocketOpen(st: ProviderState) {
    st.socket.Some? && st.socket.value.state == Open
  }

  function Emit(st: ProviderState, e: Envelope): ProviderState {
    st.(outbox := st.outbox + [e])
  }

  function TempGlobalId(suffix: string): string { "client_temp_global_" + suffix }
  function TempConfigId(suffix: string): string { "client_temp_cfg_" + suffix }

  /** `activeSessionId || id` for a non-empty `id`. */
  function ActiveOr(active: Option<string>, id: string): string {
    if Truthy(active) then active.value else id
  }

  // ----- user-facing actions (lines 72-100) -----

  /** Asks for a session's messages when it has none loaded and the socket is open. */
  function LoadIfNeeded(st: ProviderState, id: string): ProviderState {
    if NeedsLoad(st.sessions, id) && SocketOpen(st) then
      Emit(st, Envelope(LoadSessionMessagesRequest(id), id))
    else st
  }

  /** `setActiveSessionId` (line 72). */
  function SetActive(st: ProviderState, id: Option<string>): ProviderState {
    if Truthy(id) then LoadIfNeeded(st.(activeSessionId := id, storedSessionId := id), id.value)
    else st.(activeSessionId := id, storedSessionId := None)
  }

  /** `createNewSession` (line 73); the new id is `id`. */
  function CreateNew(st: ProviderState, id: string, name: string, now: int): ProviderState {
    var st1 := st.(sessions := CreateSession(st.sessions, id, name, now));
    if SocketOpen(st) then Emit(st1, Envelope(CreateNewSessionBackend(id, name, now), id)) else st1
  }

  /** `addMessageToActiveSession` (line 74). */
  function AddMessage(st: ProviderState, input: MessageInput, target: Option<string>, freshId: string, now: int): ProviderState {
    var t := Or(target, st.activeSessionId);
    if !Truthy(t) then st
    else st.(sessions := AppendOptimistic(st.sessions, t.value, OptimisticMessage(input, freshId, now), now))
  }

  /** `renameSession` (line 75). */
  function RenameRequest(st: ProviderState, id: string, newName: string): ProviderState {
    if SocketOpen(st) && id != "" && Trim(newName) != "" then
      Emit(st, Envelope(RenameSessionRequest(id, Trim(newName)), ActiveOr(st.activeSessionId, id)))
    else st
  }

  /** `deleteSession` (line 76). */
  function DeleteRequest(st: ProviderState, id: string): ProviderState {
    if SocketOpen(st) && id != "" then
      Emit(st, Envelope(DeleteSessionRequest(id), ActiveOr(st.activeSessionId, id)))
    else st
  }

  /** `sendMessage` (line 78); `suffix` stands for `uuidv4().substring(0,4)`. */
  function Send(st: ProviderState, body: Outbound, suffix: string): ProviderState {
    if !SocketOpen(st) then st
    else match ResolveSessionId(st.activeSessionId, st.sessions, TypeName(body), TempGlobalId(suffix))
      case None => st
      case Some(sid) => Emit(st, Envelope(body, sid))
  }

  /** At most one frame goes out and nothing else changes; nothing goes out
      while the socket is not open; a frame that goes out carries a non-empty
      session id, the active one when there is one; a session-independent
      frame is never dropped on an open socket. */
  lemma SendSpec(st: ProviderState, body: Outbound, suffix: string)
    ensures var r := Send(st, body, suffix);
            r == st.(outbox := r.outbox) &&
            (!SocketOpen(st) ==> r == st) &&
            (r.outbox == st.outbox ||
             exists sid :: sid != "" && r.outbox == st.outbox + [Envelope(body, sid)] &&
                           (Truthy(st.activeSessionId) ==> sid == st.activeSessionId.value)) &&
            (SocketOpen(st) && SessionIndependent(TypeName(body)) ==> |r.outbox| == |st.outbox| + 1)
  {
    ResolveSessionIdSpec(st.activeSessionId, st.sessions, TypeName(body), TempGlobalId(suffix));
  }

  /** `submitApiKey` (lines 87-92): a blank key only raises an alert. */
  function SubmitKey(st: ProviderState, key: string, suffix: string): ProviderState {
    if Trim(key) == "" then st else Send(st, SetApiKey("gemini", Trim(key)), suffix)
  }

  /** `updateToggleState` (lines 94-100): a request only; the flags wait for the ack. */
  function ToggleRequest(st: ProviderState, t: N.ToggleName, enabled: bool, suffix: string): ProviderState {
    Send(st, UpdateToggleState(N.NameOf(t), enabled), suffix)
  }

  /** The client's own requests never move a flag: only the server's answers do. */
  lemma RequestsKeepFlags(st: ProviderState, t: N.ToggleName, enabled: bool, key: string, suffix: string)
    ensures ToggleRequest(st, t, enabled, suffix).flags == st.flags
    ensures SubmitKey(st, key, suffix).flags == st.flags
    ensures Trim(key) == "" ==> SubmitKey(st, key, suffix) == st
  {
  }

  // ----- socket life cycle (lines 106-141, 207, 212) -----

  /** `connect()` (lines 106-113) with the attempt counter left alone (the
      corrected rule; see `Connection.ConnectAttemptsAsWritten`). */
  function ConnectStep(st: ProviderState): ProviderState {
    if !MayConnect(SockState(st)) then st
    else st.(reconnectAttempts := ConnectAttempts(st.reconnectAttempts),
             socket := Some(Sock(st.nextSerial, Connecting)),
             nextSerial := st.nextSerial + 1,
             connectionTimer := true)
  }

  /** `reconnect()` (line 207). */
  function ReconnectStepOf(st: ProviderState): ProviderState {
    var s := ReconnectStep(st.reconnectAttempts);
    st.(reconnectAttempts := s.attempts, reconnectTimer := Some(s.delay))
  }

  /** `ws.onopen` (lines 115-140) with the `isConnected` effect (line 212). */
  function Opened(st: ProviderState, suffix: string): ProviderState
    requires st.socket.Some? && st.socket.value.state == Connecting
  {
    var stored := st.storedSessionId;
    var sid := if Truthy(stored) then stored.value else TempConfigId(suffix);
    var config := Config(stored, st.flags.useGemini, st.flags.evalMode, st.flags.groundingMode);
    st.(isConnected := true, connectionTimer := false, reconnectAttempts := 0,
        socket := Some(st.socket.value.(state := Open)),
        activeSessionId := if Truthy(stored) then stored else st.activeSessionId,
        outbox := st.outbox + [Envelope(config, sid), Envelope(LoadSessionsRequest, sid)])
  }

  /** `ws.onclose` (line 141) for the socket numbered `serial`. */
  function ClosedStep(st: ProviderState, serial: nat, code: int, wasClean: bool): ProviderState {
    var st1 := st.(isConnected := false, connectionTimer := false,
                   socket := if st.socket.Some? && st.socket.value.serial == serial then None else st.socket);
    if AbnormalClose(code, wasClean) then ReconnectStepOf(st1) else st1
  }

  /** The reconnect timer fires (line 207). */
  function ReconnectFires(st: ProviderState): ProviderState
    requires st.reconnectTimer.Some?
  {
    var st1 := st.(reconnectTimer := None);
    if MayConnect(SockState(st1)) then ConnectStep(st1) else st1
  }

  /** The connection timeout fires (line 113): a socket not yet open is closed. */
  function ConnectionTimeoutFires(st: ProviderState): ProviderState
    requires st.connectionTimer
  {
    var st1 := st.(connectionTimer := false);
    if st1.socket.Some? && st1.socket.value.state != Open then
      st1.(socket := Some(st1.socket.value.(state := Closing)))
    else st1
  }

  /** Opening resets the counter and announces the client: a `config` frame,
      then a `load_sessions_request`, both under the stored id or else one
      temporary id. */
  lemma OpenedSpec(st: ProviderState, suffix: string)
    requires st.socket.Some? && st.socket.value.state == Connecting
    ensures var r := Opened(st, suffix);
            r.isConnected && r.reconnectAttempts == 0 && !r.connectionTimer && SocketOpen(r) &&
            |r.outbox| == |st.outbox| + 2 && r.outbox[..|st.outbox|] == st.outbox &&
            r.outbox[|st.outbox|].body.Config? && r.outbox[|st.outbox| + 1].body == LoadSessionsRequest &&
            r.outbox[|st.outbox|].sessionId == r.outbox[|st.outbox| + 1].sessionId &&
            r.outbox[|st.outbox|].sessionId != "" &&
            (Truthy(st.storedSessionId) ==> r.activeSessionId == st.storedSessionId &&
                                            r.outbox[|st.outbox|].sessionId == st.storedSessionId.value) &&
            r.sessions == st.sessions && r.flags == st.flags
  {
  }

  /** A close always marks the provider disconnected; only an abnormal close
      schedules a reconnect, one attempt later, after a delay between 5 s and
      30 s. */
  lemma ClosedSpec(st: ProviderState, serial: nat, code: int, wasClean: bool)
    ensures var r := ClosedStep(st, serial, code, wasClean);
            !r.isConnected && !r.connectionTimer &&
            (AbnormalClose(code, wasClean) ==>
               r.reconnectAttempts == st.reconnectAttempts + 1 && r.reconnectTimer.Some? &&
               ReconnectTimeout <= r.reconnectTimer.value <= MaxBackoff) &&
            (!AbnormalClose(code, wasClean) ==>
               r.reconnectAttempts == st.reconnectAttempts && r.reconnectTimer == st.reconnectTimer) &&
            (st.socket.Some? && st.socket.value.serial == serial ==> r.socket.None?) &&
            r.sessions == st.sessions && r.outbox == st.outbox
  {
  }

  /** Two refused attempts in a row: the second reconnect waits at least as
      long as the first, and the counter has grown by two. */
  lemma RetriesBackOff(st: ProviderState, code1: int, clean1: bool, code2: int, clean2: bool)
    requires st.socket.Some? && AbnormalClose(code1, clean1) && AbnormalClose(code2, clean2)
    ensures var s1 := ClosedStep(st, st.socket.value.serial, code1, clean1);
            s1.reconnectTimer.Some? &&
            var s2 := ReconnectFires(s1);
            s2.socket.Some? && s2.socket.value.state == Connecting &&
            var s3 := ClosedStep(s2, s2.socket.value.serial, code2, clean2);
            s3.reconnectAttempts == st.reconnectAttempts + 2 &&
            s1.reconnectTimer.value <= s3.reconnectTimer.value
  {
    BackoffMonotone(st.reconnectAttempts, st.reconnectAttempts + 1);
  }

  // ----- inbound session frames (lines 150-153) -----

  /** Makes `id` active, or only fetches its messages when it already is. */
  function Activate(st: ProviderState, id: Option<string>, active: Option<string>): ProviderState {
    if !Truthy(id) then st
    else if id != active then SetActive(st, id)
    else LoadIfNeeded(st, id.value)
  }

  /** `sessions_list` (line 150). */
  function SessionsListStep(st: ProviderState, server: seq<ServerSession>, freshId: string, name: string, now: int): ProviderState {
    var st1 := st.(sessions := MergeSessionsList(st.sessions, server));
    match ActiveAfterList(st.activeSessionId, st.storedSessionId, server, st.sessions)
    case Keep => Activate(st1, st.activeSessionId, st.activeSessionId)
    case Choose(id) => Activate(st1, Some(id), st.activeSessionId)
    case CreateFresh => Activate(CreateNew(st1, freshId, name, now), Some(freshId), st.activeSessionId)
  }

  lemma ActivateKeepsSessions(st: ProviderState, id: Option<string>, active: Option<string>)
    ensures var r := Activate(st, id, active);
            r.sessions == st.sessions && r.flags == st.flags &&
            (Truthy(id) ==> r.activeSessionId == (if id != active then id else st.activeSessionId)) &&
            (!Truthy(id) ==> r == st)
  {
  }

  /** After a `sessions_list` the list is the merge of the server's list into
      the client's; with a non-empty server list whose ids are all non-empty
      some listed session is active, and the stored id wins when listed; with
      an empty server list and no valid active id, a fresh session is created
      and activated; otherwise an empty server list empties the list and
      leaves the active id as it was, pointing at no session. */
  lemma SessionsListSpec(st: ProviderState, server: seq<ServerSession>, freshId: string, name: string, now: int)
    requires freshId != "" && now != 0
    ensures var r := SessionsListStep(st, server, freshId, name, now);
            r.flags == st.flags &&
            (|server| > 0 ==> r.sessions == MergeSessionsList(st.sessions, server)) &&
            (|server| > 0 && (forall i :: 0 <= i < |server| ==> server[i].id != "") ==>
               Truthy(r.activeSessionId) && HasSession(r.sessions, r.activeSessionId.value)) &&
            (Truthy(st.storedSessionId) && Listed(server, st.storedSessionId.value) ==>
               r.activeSessionId == st.storedSessionId) &&
            (|server| == 0 && (!Truthy(st.activeSessionId) || !HasSession(st.sessions, st.activeSessionId.value)) ==>
               r.sessions == [NewSession(freshId, name, now)] && r.activeSessionId == Some(freshId)) &&
            (|server| == 0 && Truthy(st.activeSessionId) && HasSession(st.sessions, st.activeSessionId.value) ==>
               r.sessions == [] && r.activeSessionId == st.activeSessionId)
  {
    var merged := MergeSessionsList(st.sessions, server);
    var st1 := st.(sessions := merged);
    var c := ActiveAfterList(st.activeSessionId, st.storedSessionId, server, st.sessions);
    ActiveAfterListSpec(st.activeSessionId, st.storedSessionId, st.sessions, server);
    MergeSessionsListSpec(st.sessions, server);
    match c
    case Keep =>
      ActivateKeepsSessions(st1, st.activeSessionId, st.activeSessionId);
    case Choose(id) =>
      ActivateKeepsSessions(st1, Some(id), st.activeSessionId);
      if |server| > 0 && (forall i :: 0 <= i < |server| ==> server[i].id != "") {
        var x :| x in merged && x.id == id;
        var i :| 0 <= i < |server| && x.id == server[i].id;
      }
    case CreateFresh =>
      assert merged == [];
      CreateSessionSpec([], freshId, name, now);
      ActivateKeepsSessions(CreateNew(st1, freshId, name, now), Some(freshId), st.activeSessionId);
      assert NewSession(freshId, name, now) in [NewSession(freshId, name, now)];
  }

  /** `session_messages_data` (line 151). */
  function MessagesDataStep(st: ProviderState, id: string, msgs: seq<ServerMessage>, now: int): ProviderState {
    st.(sessions := ApplyMessagesData(st.sessions, id, msgs, now))
  }

  /** `session_renamed_ack` (line 152). */
  function RenamedStep(st: ProviderState, id: string, newName: string, lastUpdatedAt: Option<int>): ProviderState {
    st.(sessions := ApplyRename(st.sessions, id, newName, lastUpdatedAt))
  }

  /** `session_deleted_ack` (line 153), with the deferred follow-up. */
  function DeletedStep(st: ProviderState, deleted: string, freshId: string, name: string, now: int): ProviderState {
    var remaining := WithoutId(st.sessions, deleted);
    var st1 := st.(sessions := remaining);
    match ActiveAfterDelete(st.activeSessionId, deleted, remaining)
    case Keep => st1
    case Choose(id) => SetActive(st1, Some(id))
    case CreateFresh => SetActive(CreateNew(st1, freshId, name, now), Some(freshId))
  }

  lemma SetActiveKeepsSessions(st: ProviderState, id: Option<string>)
    ensures SetActive(st, id).sessions == st.sessions && SetActive(st, id).activeSessionId == id
    ensures SetActive(st, id).flags == st.flags
  {
  }

  /** A created session joins the list, which stays in recency order. */
  lemma CreateNewSpec(st: ProviderState, id: string, name: string, now: int)
    ensures var r := CreateNew(st, id, name, now);
            SortedByRecency(r.sessions) && r.activeSessionId == st.activeSessionId && r.flags == st.flags &&
            forall s :: s in r.sessions <==> s == NewSession(id, name, now) || s in st.sessions
  {
    SortByRecencySpec([NewSession(id, name, now)] + st.sessions);
    SortByRecencyMembers([NewSession(id, name, now)] + st.sessions);
  }

  /** Deleting leaves every other session in order; when the active session
      was deleted, the next active one is the first remaining session of the list,
      or a freshly created one, and it is in the list. */
  lemma DeletedSpec(st: ProviderState, deleted: string, freshId: string, name: string, now: int)
    requires SortedByRecency(st.sessions)
    requires freshId != ""
    ensures var r := DeletedStep(st, deleted, freshId, name, now);
            SortedByRecency(r.sessions) && r.flags == st.flags &&
            (st.activeSessionId != Some(deleted) ==>
               r.sessions == WithoutId(st.sessions, deleted) && r.activeSessionId == st.activeSessionId) &&
            (st.activeSessionId == Some(deleted) ==>
               (r.activeSessionId != Some(deleted) || deleted == freshId)) &&
            (st.activeSessionId == Some(deleted) ==>
               Truthy(r.activeSessionId) && HasSession(r.sessions, r.activeSessionId.value)) &&
            forall s :: s in st.sessions && s.id != deleted ==> s in r.sessions
  {
    var remaining := WithoutId(st.sessions, deleted);
    var st1 := st.(sessions := remaining);
    RemoveSessionSpec(st.sessions, deleted);
    ActiveAfterDeleteSpec(st.activeSessionId, st.sessions, deleted);
    match ActiveAfterDelete(st.activeSessionId, deleted, remaining)
    case Keep =>
    case Choose(id) =>
      SetActiveKeepsSessions(st1, Some(id));
      assert remaining[0] in remaining;
    case CreateFresh =>
      var st2 := CreateNew(st1, freshId, name, now);
      CreateNewSpec(st1, freshId, name, now);
      SetActiveKeepsSessions(st2, Some(freshId));
      assert NewSession(freshId, name, now) in st2.sessions;
  }

  // ----- text, system and audio frames (lines 196-200) -----

  /** The fields of a frame without one of the typed `type`s handled above. */
  datatype LegacyFrame = LegacyFrame(
    kind: string,
    sessionIdContext: Option<string>,
    sessionIdSnake: Option<string>,
    interrupt: bool,
    audio: Option<seq<byte>>,
    textResponse: Option<string>,
    userTranscription: Option<string>,
    id: Option<string>,
    timestamp: int,
    imageFilename: Option<string>,
    dataType: Option<string>,
    llmModelUsed: Option<string>,
    ttsAudioFilename: Option<string>,
    info: Option<string>,
    error: Option<string>)

  /** `sessionId_context || session_id || activeSessionId` (line 148). */
  function Context(st: ProviderState, f: LegacyFrame): Option<string> {
    Or(Or(f.sessionIdContext, f.sessionIdSnake), st.activeSessionId)
  }

  /** The sender of a text frame. */
  function TextSender(f: LegacyFrame): Sender {
    if f.kind == "eval_response" then AIEvaluator else if Truthy(f.textResponse) then AI else User
  }

  /** A text frame with its defaults filled in. */
  function IncomingOf(f: LegacyFrame, freshId: string, now: int): Incoming
    requires Truthy(f.textResponse) || Truthy(f.userTranscription)
  {
    Incoming(TextSender(f), Or(f.textResponse, f.userTranscription).value,
             if Truthy(f.id) then f.id.value else freshId, OrNumber(f.timestamp, now),
             f.imageFilename, f.dataType, f.llmModelUsed, f.ttsAudioFilename)
  }

  /** A context id that may carry a system message: present and not a
      temporary one. */
  predicate SessionContext(ctx: Option<string>) {
    Truthy(ctx) && !StartsWith(ctx.value, "init_") && !StartsWith(ctx.value, "client_temp_")
  }

  /** `info || "Error: " + error` */
  function SystemText(f: LegacyFrame): string
    requires Truthy(f.info) || Truthy(f.error)
  {
    if Truthy(f.info) then f.info.value else "Error: " + f.error.value
  }

  /** The session-list part of lines 199-200 (after any audio was queued). */
  function TextStep(st: ProviderState, f: LegacyFrame, freshId: string, now: int): ProviderState {
    var ctx := Context(st, f);
    if Truthy(f.textResponse) || Truthy(f.userTranscription) then
      if Truthy(ctx) then
        st.(sessions := ApplyText(st.sessions, ctx.value, IncomingOf(f, freshId, now), f.kind == "eval_response", now))
      else st
    else if Truthy(f.info) || Truthy(f.error) then
      if SessionContext(ctx) then
        AddMessage(st, MessageInput(System, MessageData(Some(SystemText(f))), true), ctx, freshId, now)
      else st
    else st
  }

  /** A text frame touches only the session list, and only when it has text
      and a context session; an info or error frame appends one System
      context message to its context session, unless that id is missing or
      temporary; any other frame changes nothing. */
  lemma TextStepSpec(st: ProviderState, f: LegacyFrame, freshId: string, now: int)
    ensures var r := TextStep(st, f, freshId, now);
            var ctx := Context(st, f);
            r == st.(sessions := r.sessions) &&
            (!Truthy(ctx) ==> r == st) &&
            (!(Truthy(f.textResponse) || Truthy(f.userTranscription)) && !(Truthy(f.info) || Truthy(f.error)) ==> r == st) &&
            ((Truthy(f.textResponse) || Truthy(f.userTranscription)) && Truthy(ctx) ==>
               r.sessions == ApplyText(st.sessions, ctx.value, IncomingOf(f, freshId, now), f.kind == "eval_response", now)) &&
            (!(Truthy(f.textResponse) || Truthy(f.userTranscription)) && (Truthy(f.info) || Truthy(f.error)) ==>
               (SessionContext(ctx) ==>
                  r.sessions == AppendOptimistic(st.sessions, ctx.value,
                    Message(freshId, System, now, MessageData(Some(SystemText(f))), None, None, None, None, true, true), now)) &&
               (!SessionContext(ctx) ==> r == st))
  {
  }

  /** The closing handshake starts on an open socket (the server's close
      frame, or the browser giving up on the connection): `readyState`
      becomes CLOSING, and nothing in the provider reacts until `onclose`
      (line 141), so `isConnected` keeps its value. */
  function ClosingStarted(st: ProviderState): ProviderState {
    if SocketOpen(st) then st.(socket := Some(st.socket.value.(state := Closing))) else st
  }

  /** `isConnected` is set on open (line 116) and cleared on close (line 141),
      so it holds only while the provider's socket is open or in its closing
      handshake. */
  predicate ConnectedOnlyWhileLive(st: ProviderState) {
    st.isConnected ==> st.socket.Some? && (st.socket.value.state == Open || st.socket.value.state == Closing)
  }

  /** Every socket event and timer keeps `isConnected` truthful. */
  lemma LifeCycleKeepsConnectedOnlyWhileLive(st: ProviderState, suffix: string, serial: nat, code: int, wasClean: bool)
    requires ConnectedOnlyWhileLive(st)
    ensures ConnectedOnlyWhileLive(ConnectStep(st))
    ensures st.socket.Some? && st.socket.value.state == Connecting ==> ConnectedOnlyWhileLive(Opened(st, suffix))
    ensures ConnectedOnlyWhileLive(ClosedStep(st, serial, code, wasClean))
    ensures st.reconnectTimer.Some? ==> ConnectedOnlyWhileLive(ReconnectFires(st))
    ensures st.connectionTimer ==> ConnectedOnlyWhileLive(ConnectionTimeoutFires(st))
    ensures ConnectedOnlyWhileLive(ClosingStarted(st))
  {
  }

  /** Between the start of the closing handshake and `onclose` the provider
      still reports itself connected although its socket no longer accepts
      frames, so `sendMessage` (line 78) drops whatever is sent. */
  lemma ConnectedWhileClosing(st: ProviderState, body: Outbound, suffix: string)
    requires st.isConnected && SocketOpen(st)
    ensures var c := ClosingStarted(st);
            c.isConnected && !SocketOpen(c) && Send(c, body, suffix) == c &&
            c.sessions == st.sessions && c.outbox == st.outbox
  {
  }

  // ----- the provider object -----

  class WebSocketProvider {
    var sessions: seq<Session>
    var activeSessionId: Option<string>
    var storedSessionId: Option<string>
    var flags: N.Flags
    var isConnected: bool
    var socket: Option<Sock>
    var nextSerial: nat
    var reconnectAttempts: nat
    var reconnectTimer: Option<real>
    var connectionTimer: bool
    var outbox: seq<Envelope>
    const audio: P.PlaybackQueue

    function State(): ProviderState
      reads this
    {
      ProviderState(sessions, activeSessionId, storedSessionId, flags, isConnected, socket,
                    nextSerial, reconnectAttempts, reconnectTimer, connectionTimer, outbox)
    }

    /** The list is always in recency order, the provider reports itself
        connected only while its socket is open or closing, and the audio queue keeps
        its invariant. */
    predicate Valid()
      reads this, audio
    {
      SortedByRecency(sessions) && ConnectedOnlyWhileLive(State()) && P.Valid(audio.State())
    }

    /** Mounting: local storage supplies the active id and the key hint. */
    constructor (stored: Option<string>, keyHint: bool)
      ensures Valid() && fresh(audio)
      ensures State() == ProviderState([], stored, stored, N.InitialFlags(keyHint), false, None, 0, 0, None, false, [])
      ensures audio.State() == P.Idle
    {
      sessions := [];
      activeSessionId := stored;
      storedSessionId := stored;
      flags := N.InitialFlags(keyHint);
      isConnected := false;
      socket := None;
      nextSerial := 0;
      reconnectAttempts := 0;
      reconnectTimer := None;
      connectionTimer := false;
      outbox := [];
      audio := new P.PlaybackQueue();
    }

    method SetActiveSessionId(id: Option<string>)
      requires Valid()
      modifies this
      ensures Valid()
      ensures State() == SetActive(old(State()), id)
    {
      activeSessionId := id;
      if Truthy(id) {
        storedSessionId := id;
        var target := FindById(sessions, id.value);
        if target.Some? && !target.value.messagesLoaded && socket.Some? && socket.value.state == Open {
          outbox := outbox + [Envelope(LoadSessionMessagesRequest(id.value), id.value)];
        }
      } else {
        storedSessionId := None;
      }
    }

    method CreateNewSession(freshId: string, name: string, now: int) returns (id: string)
      requires Valid()
      modifies this
      ensures Valid()
      ensures id == freshId
      ensures State() == CreateNew(old(State()), freshId, name, now)
    {
      id := freshId;
      SortByRecencySpec([NewSession(id, name, now)] + sessions);
      sessions := CreateSession(sessions, id, name, now);
      if socket.Some? && socket.value.state == Open {
        outbox := outbox + [Envelope(CreateNewSessionBackend(id, name, now), id)];
      }
    }

    method AddMessageToActiveSession(input: MessageInput, target: Option<string>, freshId: string, now: int)
      requires Valid()
      modifies this
      ensures Valid()
      ensures State() == AddMessage(old(State()), input, target, freshId, now)
    {
      var targetId := Or(target, activeSessionId);
      if !Truthy(targetId) {
        return;
      }
      var m := OptimisticMessage(input, freshId, now);
      AppendOptimisticSpec(sessions, targetId.value, m, now);
      sessions := AppendOptimistic(sessions, targetId.value, m, now);
    }

    method RenameSession(id: string, newName: string)
      requires Valid()
      modifies this
      ensures Valid()
      ensures State() == RenameRequest(old(State()), id, newName)
    {
      if socket.Some? && socket.value.state == Open && id != "" && Trim(newName) != "" {
        outbox := outbox + [Envelope(RenameSessionRequest(id, Trim(newName)), ActiveOr(activeSessionId, id))];
      }
    }

    method DeleteSession(id: string)
      requires Valid()
      modifies this
      ensures Valid()
      ensures State() == DeleteRequest(old(State()), id)
    {
      if socket.Some? && socket.value.state == Open && id != "" {
        outbox := outbox + [Envelope(DeleteSessionRequest(id), ActiveOr(activeSessionId, id))];
      }
    }

    method SendMessage(body: Outbound, suffix: string)
      requires Valid()
      modifies this
      ensures Valid()
      ensures State() == Send(old(State()), body, suffix)
    {
      if socket.Some? && socket.value.state == Open {
        var sid := ResolveSessionId(activeSessionId, sessions, TypeName(body), TempGlobalId(suffix));
        if sid.Some? {
          outbox := outbox + [Envelope(body, sid.value)];
        }
      }
    }

    method RequestApiKeyModal()
      requires Valid()
      modifies this
      ensures Valid()
      ensures State() == old(State()).(flags := N.OpenPrompt(old(flags)))
    {
      flags := N.OpenPrompt(flags);
    }

    method CloseApiKeyModal()
      requires Valid()
      modifies this
      ensures Valid()
      ensures State() == old(State()).(flags := N.ClosePrompt(old(flags)))
    {
      flags := N.ClosePrompt(flags);
    }

    method SubmitApiKey(key: string, suffix: string)
      requires Valid()
      modifies this
      ensures Valid()
      ensures State() == SubmitKey(old(State()), key, suffix)
    {
      if Trim(key) == "" {
        return;
      }
      SendMessage(SetApiKey("gemini", Trim(key)), suffix);
    }

    method UpdateToggleState(t: N.ToggleName, enabled: bool, suffix: string)
      requires Valid()
      modifies this
      ensures Valid()
      ensures State() == ToggleRequest(old(State()), t, enabled, suffix)
    {
      SendMessage(Connection.UpdateToggleState(N.NameOf(t), enabled), suffix);
    }

    // socket life cycle

    method Connect()
      requires Valid()
      modifies this
      ensures Valid()
      ensures State() == ConnectStep(old(State()))
    {
      if socket.Some? && socket.value.state != Closed {
        return;
      }
      reconnectAttempts := ConnectAttempts(reconnectAttempts);
      socket := Some(Sock(nextSerial, Connecting));
      nextSerial := nextSerial + 1;
      connectionTimer := true;
    }

    method Reconnect()
      requires Valid()
      modifies this
      ensures Valid()
      ensures State() == ReconnectStepOf(old(State()))
    {
      reconnectAttempts := reconnectAttempts + 1;
      reconnectTimer := Some(Backoff(reconnectAttempts - 1));
    }

    method OnOpen(suffix: string)
      requires socket.Some? && socket.value.state == Connecting
      requires Valid()
      modifies this
      ensures Valid()
      ensures State() == Opened(old(State()), suffix)
    {
      isConnected := true;
      connectionTimer := false;
      reconnectAttempts := 0;
      socket := Some(socket.value.(state := Open));
      var stored := storedSessionId;
      if Truthy(stored) {
        activeSessionId := stored;
      }
      var sid := if Truthy(stored) then stored.value else TempConfigId(suffix);
      outbox := outbox + [Envelope(Config(stored, flags.useGemini, flags.evalMode, flags.groundingMode), sid)];
      outbox := outbox + [Envelope(LoadSessionsRequest, sid)];
    }

    method OnClose(serial: nat, code: int, wasClean: bool)
      requires Valid()
      modifies this
      ensures Valid()
      ensures State() == ClosedStep(old(State()), serial, code, wasClean)
    {
      isConnected := false;
      if socket.Some? && socket.value.serial == serial {
        socket := None;
      }
      connectionTimer := false;
      if AbnormalClose(code, wasClean) {
        Reconnect();
      }
    }

    method OnReconnectTimer()
      requires reconnectTimer.Some?
      requires Valid()
      modifies this
      ensures Valid()
      ensures State() == ReconnectFires(old(State()))
    {
      reconnectTimer := None;
      if socket.None? || socket.value.state == Closed {
        Connect();
      }
    }

    /** The socket starts its closing handshake. */
    method OnClosingHandshake()
      requires Valid()
      modifies this
      ensures Valid()
      ensures State() == ClosingStarted(old(State()))
    {
      if socket.Some? && socket.value.state == Open {
        socket := Some(socket.value.(state := Closing));
      }
    }

    method OnConnectionTimeout()
      requires connectionTimer
      requires Valid()
      modifies this
      ensures Valid()
      ensures State() == ConnectionTimeoutFires(old(State()))
    {
      connectionTimer := false;
      if socket.Some? && socket.value.state != Open {
        socket := Some(socket.value.(state := Closing));
      }
    }

    // inbound frames

    /** The follow-up of a `sessions_list`: switch to `id`, or only fetch its
        messages when it is already the active one. */
    method ActivateOrLoad(id: Option<string>, active: Option<string>)
      requires Valid()
      modifies this
      ensures Valid()
      ensures State() == Activate(old(State()), id, active)
    {
      if Truthy(id) && id != active {
        SetActiveSessionId(id);
      } else if Truthy(id) {
        var current := FindById(sessions, id.value);
        if current.Some? && !current.value.messagesLoaded && socket.Some? && socket.value.state == Open {
          outbox := outbox + [Envelope(LoadSessionMessagesRequest(id.value), id.value)];
        }
      }
    }

    method OnSessionsList(server: seq<ServerSession>, freshId: string, name: string, now: int)
      requires Valid()
      modifies this
      ensures Valid()
      ensures State() == SessionsListStep(old(State()), server, freshId, name, now)
    {
      var before := sessions;
      var active := activeSessionId;
      MergeSessionsListSpec(sessions, server);
      sessions := MergeSessionsList(sessions, server);
      match ActiveAfterList(active, storedSessionId, server, before)
      case Keep =>
        ActivateOrLoad(active, active);
      case Choose(id) =>
        ActivateOrLoad(Some(id), active);
      case CreateFresh =>
        var newId := CreateNewSession(freshId, name, now);
        ActivateOrLoad(Some(newId), active);
    }

    method OnSessionMessagesData(id: string, msgs: seq<ServerMessage>, now: int)
      requires Valid()
      modifies this
      ensures Valid()
      ensures State() == MessagesDataStep(old(State()), id, msgs, now)
    {
      ApplyMessagesDataSpec(sessions, id, msgs, now);
      sessions := ApplyMessagesData(sessions, id, msgs, now);
    }

    method OnSessionRenamedAck(id: string, newName: string, lastUpdatedAt: Option<int>)
      requires Valid()
      modifies this
      ensures Valid()
      ensures State() == RenamedStep(old(State()), id, newName, lastUpdatedAt)
    {
      ApplyRenameSpec(sessions, id, newName, lastUpdatedAt);
      sessions := ApplyRename(sessions, id, newName, lastUpdatedAt);
    }

    method OnSessionDeletedAck(deleted: string, freshId: string, name: string, now: int)
      requires Valid()
      modifies this
      ensures Valid()
      ensures State() == DeletedStep(old(State()), deleted, freshId, name, now)
    {
      var active := activeSessionId;
      FilterKeepsOrder(sessions, deleted);
      sessions := WithoutId(sessions, deleted);
      match ActiveAfterDelete(active, deleted, sessions)
      case Keep =>
      case Choose(id) =>
        SetActiveSessionId(Some(id));
      case CreateFresh =>
        var newId := CreateNewSession(freshId, name, now);
        SetActiveSessionId(Some(newId));
    }

    method OnToggleAck(toggleName: string, isEnabled: bool)
      requires Valid()
      modifies this
      ensures Valid()
      ensures State() == old(State()).(flags := N.ApplyToggleAck(old(flags), toggleName, isEnabled))
    {
      flags := N.ApplyToggleAck(flags, toggleName, isEnabled);
    }

    method OnApiKeySetAck(service: string, status: string)
      requires Valid()
      modifies this
      ensures Valid()
      ensures State() == old(State()).(flags := N.ApplyApiKeyAck(old(flags), service, status))
    {
      flags := N.ApplyApiKeyAck(flags, service, status);
    }

    method OnCredentialRequired(rejectedToggle: Option<string>)
      requires Valid()
      modifies this
      ensures Valid()
      ensures State() == old(State()).(flags := N.ApplyCredentialRequired(old(flags), rejectedToggle))
    {
      flags := N.ApplyCredentialRequired(flags, rejectedToggle);
    }

    /** Lines 196-200: an interrupt flushes the audio and stops; decoded audio
        is queued; then the text or system part updates the sessions. */
    method OnLegacyFrame(f: LegacyFrame, freshId: string, now: int)
      requires Valid()
      modifies this, audio
      ensures Valid()
      ensures f.interrupt ==> State() == old(State()) && audio.State() == P.Flushed(old(audio.State()))
      ensures !f.interrupt ==> State() == TextStep(old(State()), f, freshId, now)
      ensures !f.interrupt ==>
                audio.State() == (if f.audio.Some? then P.Enqueue(old(audio.State()), f.audio.value, now)
                                  else old(audio.State()))
    {
      if f.interrupt {
        audio.Flush();
        return;
      }
      if f.audio.Some? {
        P.StepKeepsValid(audio.State(), P.Push(f.audio.value, now));
        audio.Push(f.audio.value, now);
      }
      var ctx := Context(State(), f);
      if Truthy(f.textResponse) || Truthy(f.userTranscription) {
        if Truthy(ctx) {
          var isEval := f.kind == "eval_response";
          SortByRecencySpec(UpdateWhere(sessions, ctx.value, ApplyIncoming(IncomingOf(f, freshId, now), isEval, now)));
          sessions := ApplyText(sessions, ctx.value, IncomingOf(f, freshId, now), isEval, now);
        }
      } else if Truthy(f.info) || Truthy(f.error) {
        if SessionContext(ctx) {
          AddMessageToActiveSession(MessageInput(System, MessageData(Some(SystemText(f))), true), ctx, freshId, now);
        }
      }
    }
  }
}
