/** The session store: the `setSessions` updaters of `WebSocketProvider.tsx`
    written as functions from the previous session list to the next one, and
    the rules that pick the active session after a list or a deletion. */
module SessionStore {
  import opened JsString
  import opened Types
  import opened Recency

  /** `prev.map(s => s.id === id ? f(s) : s)` */
  function UpdateWhere(ss: seq<Session>, id: string, f: Session -> Session): (r: seq<Session>)
    ensures |r| == |ss|
    ensures forall i :: 0 <= i < |ss| ==> r[i] == if ss[i].id == id then f(ss[i]) else ss[i]
  {
    seq(|ss|, i requires 0 <= i < |ss| => if ss[i].id == id then f(ss[i]) else ss[i])
  }

  /** What every "update the sessions with this id, then re-sort" updater
      promises: the list stays in recency order, has the same length, every
      session with the id is replaced by its update, and all others are kept
      as they were. */
  lemma UpdateAndSortSpec(ss: seq<Session>, id: string, f: Session -> Session)
    requires forall s :: f(s).id == s.id
    ensures SortedByRecency(SortByRecency(UpdateWhere(ss, id, f)))
    ensures |SortByRecency(UpdateWhere(ss, id, f))| == |ss|
    ensures forall x :: x in SortByRecency(UpdateWhere(ss, id, f)) ==>
              (x.id != id ==> x in ss) &&
              (x.id == id ==> exists s :: s in ss && s.id == id && x == f(s))
    ensures forall s :: s in ss ==>
              (s.id != id ==> s in SortByRecency(UpdateWhere(ss, id, f))) &&
              (s.id == id ==> f(s) in SortByRecency(UpdateWhere(ss, id, f)))
  {
    var u := UpdateWhere(ss, id, f);
    SortByRecencySpec(u);
    SortByRecencyMembers(u);
    forall x | x in u
      ensures (x.id != id ==> x in ss) && (x.id == id ==> exists s :: s in ss && s.id == id && x == f(s))
    {
      var i :| 0 <= i < |u| && u[i] == x;
      assert ss[i] in ss;
    }
    forall s | s in ss
      ensures (s.id != id ==> s in u) && (s.id == id ==> f(s) in u)
    {
      var i :| 0 <= i < |ss| && ss[i] == s;
      assert u[i] in u;
    }
  }

  // ----- createNewSession (line 73) -----

  function NewSession(id: string, name: string, now: int): Session {
    Session(id, name, [], now, Some(now), true)
  }

  /** `[newSession, ...prev].sort(...)` */
  function CreateSession(ss: seq<Session>, id: string, name: string, now: int): seq<Session> {
    SortByRecency([NewSession(id, name, now)] + ss)
  }

  /** A created session is empty, loaded, and sits first in the re-sorted list
      when no session is more recent than its creation time. */
  lemma CreateSessionSpec(ss: seq<Session>, id: string, name: string, now: int)
    requires SortedByRecency(ss)
    requires now != 0
    requires forall s :: s in ss ==> SortKey(s) <= now
    ensures CreateSession(ss, id, name, now) == [NewSession(id, name, now)] + ss
    ensures CreateSession(ss, id, name, now)[0].messages == []
    ensures CreateSession(ss, id, name, now)[0].messagesLoaded
  {
    SortSortedIsIdentity(ss);
    if ss != [] {
      assert ss[0] in ss;
    }
  }

  // ----- addMessageToActiveSession (line 74) -----

  /** What callers hand to `addMessageToActiveSession`: a message without id
      and timestamp (`Omit<Message, 'id' | 'timestamp'>`). */
  datatype MessageInput = MessageInput(sender: Sender, data: MessageData, isContextMessage: bool)

  function OptimisticMessage(input: MessageInput, id: string, now: int): (m: Message)
    ensures m.isOptimistic && m.sender == input.sender && m.data == input.data
  {
    Message(id, input.sender, now, input.data, None, None, None, None, true, input.isContextMessage)
  }

  function AppendTo(m: Message, now: int): Session -> Session {
    (s: Session) => s.(messages := s.messages + [m], lastUpdatedAt := Some(now), messagesLoaded := true)
  }

  /** The updater of `addMessageToActiveSession` for a resolved target id. */
  function AppendOptimistic(ss: seq<Session>, target: string, m: Message, now: int): seq<Session> {
    SortByRecency(UpdateWhere(ss, target, AppendTo(m, now)))
  }

  /** Exactly one message is appended to the target session, which becomes
      loaded; every other session is kept unchanged and no session is lost. */
  lemma AppendOptimisticSpec(ss: seq<Session>, target: string, m: Message, now: int)
    ensures SortedByRecency(AppendOptimistic(ss, target, m, now))
    ensures |AppendOptimistic(ss, target, m, now)| == |ss|
    ensures forall x :: x in AppendOptimistic(ss, target, m, now) ==>
              (x.id != target ==> x in ss) &&
              (x.id == target ==>
                 (x.messagesLoaded && x.lastUpdatedAt == Some(now) &&
                  exists s :: s in ss && s.id == target && x.messages == s.messages + [m] &&
                              x.name == s.name && x.createdAt == s.createdAt))
    ensures forall s :: s in ss && s.id != target ==> s in AppendOptimistic(ss, target, m, now)
    ensures HasSession(ss, target) ==> HasSession(AppendOptimistic(ss, target, m, now), target)
  {
    UpdateAndSortSpec(ss, target, AppendTo(m, now));
    if HasSession(ss, target) {
      var s :| s in ss && s.id == target;
      assert AppendTo(m, now)(s) in AppendOptimistic(ss, target, m, now);
    }
  }

  // ----- sessions_list (line 150) -----

  /** `new Map(prev.map(s => [s.id, s])).get(id)`: the LAST session with the id. */
  function LookupLast(ss: seq<Session>, id: string): (r: Option<Session>)
    ensures r.Some? ==> exists k :: 0 <= k < |ss| && ss[k] == r.value && r.value.id == id &&
                                    forall j :: k < j < |ss| ==> ss[j].id != id
    ensures r.None? ==> forall s :: s in ss ==> s.id != id
  {
    if ss == [] then None
    else if ss[|ss| - 1].id == id then Some(ss[|ss| - 1])
    else
      var r := LookupLast(ss[..|ss| - 1], id);
      assert forall s :: s in ss ==> s in ss[..|ss| - 1] || s == ss[|ss| - 1];
      r
  }

  /** One merged entry: the server's metadata, with the client's messages
      kept when the client had them loaded. */
  function MergeOne(se: ServerSession, client: Option<Session>): Session {
    var loaded := client.Some? && client.value.messagesLoaded;
    Session(se.id, se.name,
            if loaded then client.value.messages else se.messages.GetOr([]),
            se.createdAt, se.lastUpdatedAt, loaded)
  }

  function Merged(prev: seq<Session>, server: seq<ServerSession>): (r: seq<Session>)
    ensures |r| == |server|
    ensures forall i :: 0 <= i < |server| ==> r[i] == MergeOne(server[i], LookupLast(prev, server[i].id))
  {
    seq(|server|, i requires 0 <= i < |server| => MergeOne(server[i], LookupLast(prev, server[i].id)))
  }

  /** The `sessions_list` updater. */
  function MergeSessionsList(prev: seq<Session>, server: seq<ServerSession>): seq<Session> {
    SortByRecency(Merged(prev, server))
  }

  /** The client had the session with this id loaded (the last one, as a Map sees it). */
  predicate LoadedLocally(prev: seq<Session>, id: string) {
    var c := LookupLast(prev, id); c.Some? && c.value.messagesLoaded
  }

  /** After `sessions_list` the list holds exactly one session per server entry,
      in recency order, each carrying that entry's metadata; a session the
      client had loaded keeps its messages and stays loaded; every other one
      takes the server's messages (or none) and is not loaded. */
  lemma MergeSessionsListSpec(prev: seq<Session>, server: seq<ServerSession>)
    ensures SortedByRecency(MergeSessionsList(prev, server))
    ensures |MergeSessionsList(prev, server)| == |server|
    ensures forall i :: 0 <= i < |server| ==>
              exists x :: x in MergeSessionsList(prev, server) && x.id == server[i].id
    ensures forall x :: x in MergeSessionsList(prev, server) ==>
              exists i :: 0 <= i < |server| && x.id == server[i].id && x.name == server[i].name &&
                          x.createdAt == server[i].createdAt && x.lastUpdatedAt == server[i].lastUpdatedAt &&
                          (LoadedLocally(prev, x.id) ==>
                             x.messagesLoaded && x.messages == LookupLast(prev, x.id).value.messages) &&
                          (!LoadedLocally(prev, x.id) ==>
                             !x.messagesLoaded && x.messages == server[i].messages.GetOr([]))
  {
    var m := Merged(prev, server);
    SortByRecencySpec(m);
    SortByRecencyMembers(m);
    forall i | 0 <= i < |server|
      ensures exists x :: x in MergeSessionsList(prev, server) && x.id == server[i].id
    {
      assert m[i] in m;
    }
    forall x | x in MergeSessionsList(prev, server)
      ensures exists i :: 0 <= i < |server| && x.id == server[i].id && x.name == server[i].name &&
                          x.createdAt == server[i].createdAt && x.lastUpdatedAt == server[i].lastUpdatedAt &&
                          (LoadedLocally(prev, x.id) ==>
                             x.messagesLoaded && x.messages == LookupLast(prev, x.id).value.messages) &&
                          (!LoadedLocally(prev, x.id) ==>
                             !x.messagesLoaded && x.messages == server[i].messages.GetOr([]))
    {
      var i :| 0 <= i < |m| && m[i] == x;
    }
  }

  /** Applies the `sessions_list` frames in turn. */
  function MergeAll(prev: seq<Session>, lists: seq<seq<ServerSession>>): seq<Session>
    decreases |lists|
  {
    if lists == [] then prev else MergeAll(MergeSessionsList(prev, lists[0]), lists[1..])
  }

  /** One `sessions_list` frame that still lists a session the client has
      loaded leaves that session loaded with the same messages. */
  lemma LoadedSurvivesMerge(prev: seq<Session>, server: seq<ServerSession>, id: string)
    requires LoadedLocally(prev, id)
    requires Listed(server, id)
    ensures LoadedLocally(MergeSessionsList(prev, server), id)
    ensures LookupLast(MergeSessionsList(prev, server), id).value.messages ==
            LookupLast(prev, id).value.messages
  {
    var next := MergeSessionsList(prev, server);
    MergeSessionsListSpec(prev, server);
    var se :| se in server && se.id == id;
    var i :| 0 <= i < |server| && server[i] == se;
    var x :| x in next && x.id == id;
    var y := LookupLast(next, id).value;
    assert y in next;
  }

  /** However many `sessions_list` frames arrive, a session the client has
      loaded never loses its messages, as long as the server keeps listing it. */
  lemma {:induction false} LoadedMessagesSurviveMerges(
    prev: seq<Session>, lists: seq<seq<ServerSession>>, id: string)
    requires LoadedLocally(prev, id)
    requires forall k :: 0 <= k < |lists| ==> Listed(lists[k], id)
    ensures LoadedLocally(MergeAll(prev, lists), id)
    ensures LookupLast(MergeAll(prev, lists), id).value.messages == LookupLast(prev, id).value.messages
    decreases |lists|
  {
    if lists != [] {
      LoadedSurvivesMerge(prev, lists[0], id);
      assert forall k :: 0 <= k < |lists[1..]| ==> lists[1..][k] == lists[k + 1];
      LoadedMessagesSurviveMerges(MergeSessionsList(prev, lists[0]), lists[1..], id);
    }
  }

  /** What becomes active after a list or a deletion. */
  datatype ActiveChoice = Keep | Choose(id: string) | CreateFresh

  predicate Listed(server: seq<ServerSession>, id: string) {
    exists se :: se in server && se.id == id
  }

  predicate HasSession(ss: seq<Session>, id: string) {
    exists s :: s in ss && s.id == id
  }

  /** The active-session choice of the `sessions_list` handler. `before` is the
      list as it was before the merge (the handler reads it through a ref). */
  function ActiveAfterList(active: Option<string>, stored: Option<string>,
                           server: seq<ServerSession>, before: seq<Session>): ActiveChoice
  {
    if |server| > 0 then
      if Truthy(stored) && Listed(server, stored.value) then Choose(stored.value)
      else if !Truthy(active) || !Listed(server, active.value) then Choose(server[0].id)
      else Keep
    else if !Truthy(active) || !HasSession(before, active.value) then CreateFresh
    else Keep
  }

  /** With a non-empty server list the session left active is one the new
      list holds: the stored id when the server lists it, else the current one
      when the server lists it, else the first session of the server's list; a fresh
      session is created only when the server lists none and the current
      active id named no session the client had. */
  lemma ActiveAfterListSpec(active: Option<string>, stored: Option<string>,
                            prev: seq<Session>, server: seq<ServerSession>)
    ensures var c := ActiveAfterList(active, stored, server, prev);
            var now := if c.Choose? then Some(c.id) else active;
            (|server| > 0 ==> !c.CreateFresh? && now.Some? && HasSession(MergeSessionsList(prev, server), now.value)) &&
            (Truthy(stored) && Listed(server, stored.value) ==> now == stored) &&
            ((|server| > 0 && !(Truthy(stored) && Listed(server, stored.value)) &&
              Truthy(active) && Listed(server, active.value)) ==> now == active) &&
            ((|server| > 0 && !(Truthy(stored) && Listed(server, stored.value)) &&
              !(Truthy(active) && Listed(server, active.value))) ==> now == Some(server[0].id)) &&
            (c.CreateFresh? <==> |server| == 0 && (!Truthy(active) || !HasSession(prev, active.value)))
  {
    MergeSessionsListSpec(prev, server);
    var c := ActiveAfterList(active, stored, server, prev);
    if |server| > 0 {
      var id := if c.Choose? then c.id else active.value;
      var se :| se in server && se.id == id by {
        if c.Choose? && c.id == server[0].id { assert server[0] in server; }
      }
      var i :| 0 <= i < |server| && server[i] == se;
      var x :| x in MergeSessionsList(prev, server) && x.id == server[i].id;
    }
  }

  // ----- session_messages_data (line 151) -----

  /** `m.data || { text: "" }` */
  function Normalize(msgs: seq<ServerMessage>): (r: seq<Message>)
    ensures |r| == |msgs|
    ensures forall i :: 0 <= i < |msgs| ==>
              r[i].id == msgs[i].body.id && r[i].sender == msgs[i].body.sender &&
              r[i].data == (if msgs[i].hasData then msgs[i].body.data else MessageData(Some("")))
  {
    seq(|msgs|, i requires 0 <= i < |msgs| =>
      if msgs[i].hasData then msgs[i].body else msgs[i].body.(data := MessageData(Some(""))))
  }

  function LoadMessages(msgs: seq<Message>, now: int): Session -> Session {
    (s: Session) => s.(messages := msgs, messagesLoaded := true, lastUpdatedAt := Some(now))
  }

  function ApplyMessagesData(ss: seq<Session>, id: string, msgs: seq<ServerMessage>, now: int): seq<Session> {
    SortByRecency(UpdateWhere(ss, id, LoadMessages(Normalize(msgs), now)))
  }

  /** The named session's history is replaced wholesale and marked loaded;
      all other sessions are untouched. */
  lemma ApplyMessagesDataSpec(ss: seq<Session>, id: string, msgs: seq<ServerMessage>, now: int)
    ensures SortedByRecency(ApplyMessagesData(ss, id, msgs, now))
    ensures |ApplyMessagesData(ss, id, msgs, now)| == |ss|
    ensures forall x :: x in ApplyMessagesData(ss, id, msgs, now) ==>
              (x.id != id ==> x in ss) &&
              (x.id == id ==> x.messagesLoaded && x.messages == Normalize(msgs) &&
                              x.lastUpdatedAt == Some(now))
    ensures forall s :: s in ss ==>
              (s.id != id ==> s in ApplyMessagesData(ss, id, msgs, now)) &&
              (s.id == id ==> s.(messages := Normalize(msgs), messagesLoaded := true, lastUpdatedAt := Some(now))
                                in ApplyMessagesData(ss, id, msgs, now))
  {
    UpdateAndSortSpec(ss, id, LoadMessages(Normalize(msgs), now));
  }

  // ----- session_renamed_ack (line 152) -----

  function Rename(newName: string, lastUpdatedAt: Option<int>): Session -> Session {
    (s: Session) => s.(name := newName, lastUpdatedAt := lastUpdatedAt)
  }

  function ApplyRename(ss: seq<Session>, id: string, newName: string, lastUpdatedAt: Option<int>): seq<Session> {
    SortByRecency(UpdateWhere(ss, id, Rename(newName, lastUpdatedAt)))
  }

  /** Only the renamed session changes, and only its name and time stamp. */
  lemma ApplyRenameSpec(ss: seq<Session>, id: string, newName: string, lastUpdatedAt: Option<int>)
    ensures SortedByRecency(ApplyRename(ss, id, newName, lastUpdatedAt))
    ensures |ApplyRename(ss, id, newName, lastUpdatedAt)| == |ss|
    ensures forall x :: x in ApplyRename(ss, id, newName, lastUpdatedAt) ==>
              (x.id != id ==> x in ss) &&
              (x.id == id ==>
                 (x.name == newName && x.lastUpdatedAt == lastUpdatedAt &&
                  exists s :: s in ss && s.id == id && x.messages == s.messages &&
                              x.messagesLoaded == s.messagesLoaded))
    ensures forall s :: s in ss ==>
              (s.id != id ==> s in ApplyRename(ss, id, newName, lastUpdatedAt)) &&
              (s.id == id ==> s.(name := newName, lastUpdatedAt := lastUpdatedAt)
                                in ApplyRename(ss, id, newName, lastUpdatedAt))
  {
    UpdateAndSortSpec(ss, id, Rename(newName, lastUpdatedAt));
  }

  // ----- session_deleted_ack (line 153) -----

  /** Removal leaves no session with the id, keeps every other session, keeps
      recency order, and shrinks the list by exactly the removed ones. */
  lemma RemoveSessionSpec(ss: seq<Session>, id: string)
    requires SortedByRecency(ss)
    ensures SortedByRecency(WithoutId(ss, id))
    ensures forall s :: s in WithoutId(ss, id) <==> s in ss && s.id != id
    ensures !HasSession(WithoutId(ss, id), id)
    ensures HasSession(ss, id) ==> |WithoutId(ss, id)| < |ss|
  {
    FilterKeepsOrder(ss, id);
    WithoutIdMembers(ss, id);
    if HasSession(ss, id) {
      WithoutIdShrinks(ss, id);
    }
  }

  lemma {:induction false} WithoutIdShrinks(ss: seq<Session>, id: string)
    requires HasSession(ss, id)
    ensures |WithoutId(ss, id)| < |ss|
  {
    WithoutIdMembers(ss[1..], id);
    if ss[0].id != id {
      var s :| s in ss && s.id == id;
      assert s in ss[1..];
      WithoutIdShrinks(ss[1..], id);
    }
  }

  /** The follow-up of a deletion: nothing unless the active session was the
      deleted one; then the first remaining session, or a fresh one. */
  function ActiveAfterDelete(active: Option<string>, deleted: string, remaining: seq<Session>): ActiveChoice {
    if active != Some(deleted) then Keep
    else if |remaining| > 0 && remaining[0].id != "" then Choose(remaining[0].id)
    else CreateFresh
  }

  /** Deleting the active session always leaves some session active: the
      choice names a remaining session, or a fresh one is created. */
  lemma ActiveAfterDeleteSpec(active: Option<string>, ss: seq<Session>, deleted: string)
    requires SortedByRecency(ss)
    ensures var c := ActiveAfterDelete(active, deleted, WithoutId(ss, deleted));
            (c.Keep? <==> active != Some(deleted)) &&
            (c.Choose? ==> c.id != deleted && c.id != "" && HasSession(ss, c.id) &&
                           c.id == WithoutId(ss, deleted)[0].id) &&
            (c.CreateFresh? ==> active == Some(deleted) &&
                                (WithoutId(ss, deleted) == [] || WithoutId(ss, deleted)[0].id == ""))
  {
    var r := WithoutId(ss, deleted);
    RemoveSessionSpec(ss, deleted);
    if |r| > 0 {
      assert r[0] in r;
    }
  }

  // ----- text_response / user_transcription / eval_response (line 199) -----

  /** A text frame after its defaults are filled in: `id || uuid`,
      `timestamp || now`, the sender, and the text. */
  datatype Incoming = Incoming(
    sender: Sender, text: string, id: string, timestamp: int,
    imageFilename: Option<string>, dataType: Option<string>,
    llmModelUsed: Option<string>, ttsAudioFilename: Option<string>)

  /** The reconciliation test: same id, or a pending message with the same
      sender and exactly the same text. */
  predicate Matches(m: Message, in_: Incoming) {
    m.id == in_.id || (m.isOptimistic && m.data.text == Some(in_.text) && m.sender == in_.sender)
  }

  /** `messages.findIndex(...)`: the first matching message. */
  function FindMatch(msgs: seq<Message>, in_: Incoming): (r: Option<nat>)
    ensures r.Some? ==> r.value < |msgs| && Matches(msgs[r.value], in_) &&
                        forall j :: 0 <= j < r.value ==> !Matches(msgs[j], in_)
    ensures r.None? ==> forall j :: 0 <= j < |msgs| ==> !Matches(msgs[j], in_)
  {
    if msgs == [] then None
    else if Matches(msgs[0], in_) then Some(0)
    else match FindMatch(msgs[1..], in_)
      case None => None
      case Some(k) => Some(k + 1)
  }

  /** The matched message, overwritten with the server's fields (each one only
      when the server's value is truthy) and no longer pending. */
  function Confirm(m: Message, in_: Incoming): Message {
    m.(id := if in_.id != "" then in_.id else m.id,
       timestamp := OrNumber(in_.timestamp, m.timestamp),
       isOptimistic := false,
       imageFilename := Or(in_.imageFilename, m.imageFilename),
       dataType := Or(in_.dataType, m.dataType),
       llmModelUsed := Or(in_.llmModelUsed, m.llmModelUsed),
       ttsAudioFilename := Or(in_.ttsAudioFilename, m.ttsAudioFilename))
  }

  function ServerMessageOf(in_: Incoming, defaultType: string): Message {
    Message(in_.id, in_.sender, in_.timestamp, MessageData(Some(in_.text)),
            in_.imageFilename, in_.ttsAudioFilename, Or(in_.dataType, Some(defaultType)),
            in_.llmModelUsed, false, false)
  }

  function Reconcile(msgs: seq<Message>, in_: Incoming): seq<Message> {
    match FindMatch(msgs, in_)
    case Some(k) => msgs[k := Confirm(msgs[k], in_)]
    case None => msgs + [ServerMessageOf(in_, if in_.sender == AI then "ai_response" else "user_text_turn")]
  }

  /** Reconciliation either confirms the first matching message in place (same
      count, that message no longer pending, every other message untouched) or,
      when nothing matches, appends exactly one confirmed server message. */
  lemma ReconcileSpec(msgs: seq<Message>, in_: Incoming)
    ensures var r := Reconcile(msgs, in_);
            (exists j :: 0 <= j < |msgs| && Matches(msgs[j], in_)) ==>
              |r| == |msgs| &&
              exists k :: 0 <= k < |msgs| && Matches(msgs[k], in_) &&
                          (forall j :: 0 <= j < k ==> !Matches(msgs[j], in_)) &&
                          !r[k].isOptimistic && r[k].sender == msgs[k].sender && r[k].data == msgs[k].data &&
                          r[k].id == (if in_.id != "" then in_.id else msgs[k].id) &&
                          r[k].timestamp == OrNumber(in_.timestamp, msgs[k].timestamp) &&
                          r[k].imageFilename == Or(in_.imageFilename, msgs[k].imageFilename) &&
                          r[k].dataType == Or(in_.dataType, msgs[k].dataType) &&
                          r[k].llmModelUsed == Or(in_.llmModelUsed, msgs[k].llmModelUsed) &&
                          r[k].ttsAudioFilename == Or(in_.ttsAudioFilename, msgs[k].ttsAudioFilename) &&
                          (forall j :: 0 <= j < |msgs| && j != k ==> r[j] == msgs[j])
    ensures var r := Reconcile(msgs, in_);
            (forall j :: 0 <= j < |msgs| ==> !Matches(msgs[j], in_)) ==>
              |r| == |msgs| + 1 && r[..|msgs|] == msgs &&
              !r[|msgs|].isOptimistic && r[|msgs|].id == in_.id &&
              r[|msgs|].sender == in_.sender && r[|msgs|].data.text == Some(in_.text)
  {
    var r := Reconcile(msgs, in_);
    match FindMatch(msgs, in_)
    case Some(k) =>
    case None =>
      assert r[..|msgs|] == msgs;
  }

  /** When the
      session holds a pending message with the same sender and text, nothing is
      appended and no message becomes pending. */
  lemma NoDuplicateAfterReconcile(msgs: seq<Message>, in_: Incoming, p: nat)
    requires p < |msgs| && msgs[p].isOptimistic
    requires msgs[p].sender == in_.sender && msgs[p].data.text == Some(in_.text)
    ensures |Reconcile(msgs, in_)| == |msgs|
    ensures forall j :: 0 <= j < |msgs| ==>
              (Reconcile(msgs, in_)[j].isOptimistic ==> msgs[j].isOptimistic)
  {
    assert Matches(msgs[p], in_);
  }

  /** The content fallback as written: of two identical pending messages the
      FIRST is confirmed, whichever of the two the server is answering, and the
      second stays pending. */
  lemma FallbackConfirmsFirstIdentical(msgs: seq<Message>, in_: Incoming, i: nat, j: nat)
    requires i < j < |msgs|
    requires msgs[i].isOptimistic && msgs[j].isOptimistic
    requires msgs[i].sender == in_.sender == msgs[j].sender
    requires msgs[i].data.text == Some(in_.text) == msgs[j].data.text
    requires forall k :: 0 <= k < |msgs| ==> msgs[k].id != in_.id
    ensures !Reconcile(msgs, in_)[i].isOptimistic || exists k :: 0 <= k < i && Matches(msgs[k], in_)
    ensures Reconcile(msgs, in_)[j] == msgs[j] && Reconcile(msgs, in_)[j].isOptimistic
  {
    assert Matches(msgs[i], in_);
    var k := FindMatch(msgs, in_).value;
    assert k <= i;
  }

  function EvalMessageOf(in_: Incoming): Message {
    ServerMessageOf(in_, "ai_eval_response")
  }

  function ApplyIncoming(in_: Incoming, isEval: bool, now: int): Session -> Session {
    (s: Session) => s.(messages := if isEval then s.messages + [EvalMessageOf(in_)] else Reconcile(s.messages, in_),
            lastUpdatedAt := Some(now))
  }

  /** The updater for a text frame addressed to session `ctx`. */
  function ApplyText(ss: seq<Session>, ctx: string, in_: Incoming, isEval: bool, now: int): seq<Session> {
    SortByRecency(UpdateWhere(ss, ctx, ApplyIncoming(in_, isEval, now)))
  }

  /** A text frame touches only the addressed session: an evaluator reply is
      always appended, any other reply is reconciled; no session is added,
      lost or otherwise changed. */
  lemma ApplyTextSpec(ss: seq<Session>, ctx: string, in_: Incoming, isEval: bool, now: int)
    ensures SortedByRecency(ApplyText(ss, ctx, in_, isEval, now))
    ensures |ApplyText(ss, ctx, in_, isEval, now)| == |ss|
    ensures forall x :: x in ApplyText(ss, ctx, in_, isEval, now) ==>
              (x.id != ctx ==> x in ss) &&
              (x.id == ctx ==>
                 (x.lastUpdatedAt == Some(now) &&
                  exists s :: s in ss && s.id == ctx && x.name == s.name &&
                    x.messagesLoaded == s.messagesLoaded &&
                    x.messages == (if isEval then s.messages + [EvalMessageOf(in_)]
                                   else Reconcile(s.messages, in_))))
    ensures forall s :: s in ss ==>
              (s.id != ctx ==> s in ApplyText(ss, ctx, in_, isEval, now)) &&
              (s.id == ctx ==> ApplyIncoming(in_, isEval, now)(s) in ApplyText(ss, ctx, in_, isEval, now))
  {
    UpdateAndSortSpec(ss, ctx, ApplyIncoming(in_, isEval, now));
  }
}
