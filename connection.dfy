/** Connection policy of `WebSocketProvider.tsx`: the wire messages the client
    sends, the reconnect backoff, the abnormal-close rule, the connect guard,
    and the `sessionId` that `sendMessage` stamps on every outgoing frame. */
module Connection {
  import opened JsString
  import opened Types
  import SessionStore

  /** `WebSocket.readyState` */
  datatype ReadyState = Connecting | Open | Closing | Closed

  /** Client-to-server frames (the `type` field selects the variant). */
  datatype Outbound =
    | Config(initialSessionId: Option<string>, gemini: bool, eval: bool, grounding: bool)
    | LoadSessionsRequest
    | LoadSessionMessagesRequest(sessionIdToLoad: string)
    | CreateNewSessionBackend(id: string, name: string, timestamp: int)
    | RenameSessionRequest(sessionIdToRename: string, newName: string)
    | DeleteSessionRequest(sessionIdToDelete: string)
    | TextInput(text: string, imageData: Option<string>)
    | SetApiKey(service: string, apiKey: string)
    | UpdateToggleState(toggleName: string, isEnabled: bool)

  /** A frame as written to the socket: the body plus its `sessionId`. */
  datatype Envelope = Envelope(body: Outbound, sessionId: string)

  function TypeName(o: Outbound): string {
    match o
    case Config(_, _, _, _) => "config"
    case LoadSessionsRequest => "load_sessions_request"
    case LoadSessionMessagesRequest(_) => "load_session_messages_request"
    case CreateNewSessionBackend(_, _, _) => "create_new_session_backend"
    case RenameSessionRequest(_, _) => "rename_session_request"
    case DeleteSessionRequest(_) => "delete_session_request"
    case TextInput(_, _) => "text_input"
    case SetApiKey(_, _) => "set_api_key"
    case UpdateToggleState(_, _) => "update_toggle_state"
  }

  /** The four message types that may go out under a temporary id. */
  predicate SessionIndependent(kind: string) {
    kind == "load_sessions_request" || kind == "config" || kind == "set_api_key" ||
    kind == "update_toggle_state"
  }

  // ----- reconnect backoff (line 207) -----

  /** `RECONNECT_TIMEOUT` and the cap of the backoff, in milliseconds. */
  const ReconnectTimeout: real := 5000.0
  const MaxBackoff: real := 30000.0

  /** `CONNECTION_TIMEOUT`, in milliseconds. */
  const ConnectionTimeout: int := 30000

  /** `Math.pow(1.5, k)` */
  function Pow15(k: nat): (r: real)
    ensures r >= 1.0
  {
    if k == 0 then 1.0 else 1.5 * Pow15(k - 1)
  }

  /** The delay of the reconnect whose counter was `previous` before the call
      incremented it: `min(30000, 5000 * 1.5^(attempts - 1))` with
      `attempts == previous + 1`. */
  function Backoff(previous: nat): (r: real)
    ensures ReconnectTimeout <= r <= MaxBackoff
  {
    var d := ReconnectTimeout * Pow15(previous);
    if d < MaxBackoff then d else MaxBackoff
  }

  lemma {:induction false} Pow15Monotone(k: nat, m: nat)
    requires k <= m
    ensures Pow15(k) <= Pow15(m)
  {
    if k < m {
      Pow15Monotone(k, m - 1);
    }
  }

  /** Consecutive reconnects never shorten the delay. */
  lemma BackoffMonotone(k: nat, m: nat)
    requires k <= m
    ensures Backoff(k) <= Backoff(m)
  {
    Pow15Monotone(k, m);
  }

  /** From the sixth consecutive reconnect on, the delay is the cap. */
  lemma BackoffReachesCap(previous: nat)
    requires previous >= 5
    ensures Backoff(previous) == MaxBackoff
  {
    assert Pow15(5) == 7.59375;
    Pow15Monotone(5, previous);
  }

  /** Below the cap every reconnect waits strictly longer than the one before. */
  lemma BackoffGrowsBelowCap(previous: nat)
    requires previous < 5
    ensures Backoff(previous) < Backoff(previous + 1)
  {
    assert Pow15(4) == 5.0625;
    Pow15Monotone(previous, 4);
  }

  /** A reconnect call: the counter goes up by one and the timer is armed
      with the backoff for the new count. */
  datatype Scheduled = Scheduled(attempts: nat, delay: real)

  function ReconnectStep(attempts: nat): (r: Scheduled)
    ensures r.attempts == attempts + 1
    ensures ReconnectTimeout <= r.delay <= MaxBackoff
    ensures r.delay == ReconnectTimeout <==> attempts == 0
  {
    if attempts > 0 then
      Pow15Monotone(1, attempts);
      Scheduled(attempts + 1, Backoff(attempts))
    else
      Scheduled(attempts + 1, Backoff(attempts))
  }

  /** `connect()` as written resets the counter (line 109). */
  function ConnectAttemptsAsWritten(attempts: nat): nat { 0 }

  /** The counter as `connect()` evidently means to leave it: only a
      successful open resets it (lines 118 and 212). */
  function ConnectAttempts(attempts: nat): nat { attempts }

  /** The delays of `n` consecutive failed attempts, starting when the counter
      is `attempts`: reconnect, the timer fires, `connect()`, abnormal close. */
  function DelaysAsWritten(attempts: nat, n: nat): seq<real> {
    if n == 0 then []
    else [ReconnectStep(attempts).delay] + DelaysAsWritten(ConnectAttemptsAsWritten(ReconnectStep(attempts).attempts), n - 1)
  }

  function Delays(attempts: nat, n: nat): seq<real>
    decreases n
  {
    if n == 0 then []
    else [ReconnectStep(attempts).delay] + Delays(ConnectAttempts(ReconnectStep(attempts).attempts), n - 1)
  }

  /** As written, a server that keeps refusing is retried every 5 s for ever:
      the backoff never grows. */
  lemma {:induction false} BackoffNeverGrowsAsWritten(attempts: nat, n: nat)
    ensures |DelaysAsWritten(attempts, n)| == n
    ensures forall k :: 1 <= k < n ==> DelaysAsWritten(attempts, n)[k] == ReconnectTimeout
  {
    if n > 0 {
      var rest := DelaysAsWritten(0, n - 1);
      BackoffNeverGrowsAsWritten(0, n - 1);
      if n > 1 {
        assert rest[0] == ReconnectStep(0).delay;
      }
      assert DelaysAsWritten(attempts, n) == [ReconnectStep(attempts).delay] + rest;
    }
  }

  /** The concrete input: three refused attempts after the first connect. */
  lemma BackoffCounterexample()
    ensures DelaysAsWritten(0, 3) == [5000.0, 5000.0, 5000.0]
    ensures Delays(0, 3) == [5000.0, 7500.0, 11250.0]
  {
    assert DelaysAsWritten(0, 1) == [5000.0];
    assert DelaysAsWritten(0, 2) == [5000.0, 5000.0];
    assert Delays(2, 1) == [11250.0];
    assert Delays(1, 2) == [7500.0, 11250.0];
  }

  /** With the counter kept across attempts, the k-th consecutive failure waits
      `Backoff(k)`: non-decreasing, strictly growing below the cap, and
      reaching the 30 s cap from the sixth attempt on. */
  lemma {:induction false} DelaysFollowBackoff(attempts: nat, n: nat)
    ensures |Delays(attempts, n)| == n
    ensures forall k :: 0 <= k < n ==> Delays(attempts, n)[k] == Backoff(attempts + k)
    decreases n
  {
    if n > 0 {
      DelaysFollowBackoff(attempts + 1, n - 1);
      forall k | 0 <= k < n ensures Delays(attempts, n)[k] == Backoff(attempts + k) {
        if k > 0 { assert Delays(attempts, n)[k] == Delays(attempts + 1, n - 1)[k - 1]; }
      }
    }
  }

  // ----- close and connect guards (lines 107, 141, 207) -----

  /** `event.code !== 1000 && event.code !== 1005 && !event.wasClean` */
  predicate AbnormalClose(code: int, wasClean: bool) {
    code != 1000 && code != 1005 && !wasClean
  }

  /** `!wsRef.current || wsRef.current.readyState === WebSocket.CLOSED`: the guard
      of `connect()` and of the reconnect timer. */
  predicate MayConnect(socket: Option<ReadyState>) {
    socket.None? || socket.value == Closed
  }

  // ----- sendMessage session id (line 78) -----

  /** `sessions.find(s => s.messagesLoaded)?.id` */
  function FirstLoadedId(ss: seq<Session>): (r: Option<string>)
    ensures r.Some? ==> exists i :: 0 <= i < |ss| && ss[i].messagesLoaded && ss[i].id == r.value &&
                                    forall j :: 0 <= j < i ==> !ss[j].messagesLoaded
    ensures r.None? ==> forall i :: 0 <= i < |ss| ==> !ss[i].messagesLoaded
  {
    if ss == [] then None
    else if ss[0].messagesLoaded then Some(ss[0].id)
    else
      var r := FirstLoadedId(ss[1..]);
      if r.Some? then
        var i :| 0 <= i < |ss[1..]| && ss[1..][i].messagesLoaded && ss[1..][i].id == r.value &&
                 forall j :: 0 <= j < i ==> !ss[1..][j].messagesLoaded;
        assert ss[i + 1] == ss[1..][i];
        r
      else r
  }

  /** `sessions[0]?.id` */
  function FirstId(ss: seq<Session>): Option<string> {
    if ss == [] then None else Some(ss[0].id)
  }

  /** The `sessionId` stamped on an outgoing frame of type `kind`, or `None`
      when the frame is dropped: the active id, else the first loaded
      session's, else the first session's, else (for the four
      session-independent types only) the temporary id. */
  function ResolveSessionId(active: Option<string>, ss: seq<Session>, kind: string, tempId: string): Option<string> {
    var candidate := if Truthy(active) then active else Or(FirstLoadedId(ss), FirstId(ss));
    if Truthy(candidate) then candidate
    else if SessionIndependent(kind) then Some(tempId)
    else None
  }

  /** The resolved id is never empty; it is the active id whenever there is
      one; otherwise it names a session of the list, preferring a loaded one;
      the temporary id is used only for the four session-independent types;
      and a frame is dropped exactly when it needs a session and none
      resolves. */
  lemma ResolveSessionIdSpec(active: Option<string>, ss: seq<Session>, kind: string, tempId: string)
    requires tempId != ""
    ensures var r := ResolveSessionId(active, ss, kind, tempId);
            (r.Some? ==> r.value != "") &&
            (Truthy(active) ==> r == active) &&
            (r.Some? && r != active ==> SessionStore.HasSession(ss, r.value) || (SessionIndependent(kind) && r.value == tempId)) &&
            (!Truthy(active) && Truthy(FirstLoadedId(ss)) ==> r == FirstLoadedId(ss)) &&
            (!Truthy(active) && !Truthy(FirstLoadedId(ss)) && Truthy(FirstId(ss)) ==> r == FirstId(ss)) &&
            (!Truthy(active) && !Truthy(FirstLoadedId(ss)) && !Truthy(FirstId(ss)) && SessionIndependent(kind) ==>
               r == Some(tempId)) &&
            (r.None? <==> !SessionIndependent(kind) && !Truthy(active) &&
                          !Truthy(FirstLoadedId(ss)) && !Truthy(FirstId(ss)))
  {
    var r := ResolveSessionId(active, ss, kind, tempId);
    if r.Some? && r != active && !(SessionIndependent(kind) && r.value == tempId) {
      if Truthy(FirstLoadedId(ss)) {
        var i :| 0 <= i < |ss| && ss[i].messagesLoaded && ss[i].id == FirstLoadedId(ss).value;
        assert ss[i] in ss;
      } else {
        assert ss[0] in ss;
      }
    }
  }
}
