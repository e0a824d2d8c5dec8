# Chat client state engine — a Dafny model

This project models the client side of a real-time chat application. At its
core is the `WebSocketProvider`, which owns one socket to the backend and
keeps four kinds of state:

- **The session store.** An ordered list of chat sessions with their
  messages. It is kept in recency order. The provider merges the server's
  session lists into it, and it holds optimistic messages that the server's
  echoes later confirm.
- **The connection policy.** The connect guard, the abnormal-close rule and
  exponential reconnect backoff. It also decides which `sessionId` is stamped
  on each outgoing frame.
- **The toggle and credential negotiator.** Three feature flags (Gemini,
  evaluation mode, grounding), a "key confirmed by the server" flag and the
  key prompt. The flags follow only the server's acknowledgements and errors.
- **The text-to-speech playback queue.** Decoded PCM fragments are queued,
  one drain at a time takes the whole queue and plays it as a single buffer,
  and an `interrupt` flushes it.

Four view components add decision rules on top of the provider:

- The main chat view gates toggles on a confirmed key and composes text and
  image sends.
- The sidebar runs a rename editor and creates sessions.
- The simple chat pane chooses which messages to show and gates sends.
- The key dialog validates the key before submitting it.

Layout, one module per file:

| file | module | contents |
|---|---|---|
| `js_string.dfy` | `JsString` | `Option`, JavaScript truthiness and `\|\|`, ECMAScript `trim`, `split(',')[1]` |
| `types.dfy` | `Types` | the message and session records of `src/types.ts` |
| `recency.dfy` | `Recency` | the sort by `lastUpdatedAt \|\| createdAt` and the id filter |
| `session_store.dfy` | `SessionStore` | the `setSessions` updaters of every handler, as functions with lemmas |
| `connection.dfy` | `Connection` | outbound frames, backoff, close and connect guards, session-id resolution |
| `negotiator.dfy` | `Negotiator` | flags and their server-driven transitions |
| `playback.dfy` | `Playback` | PCM decoding with a fill loop, the queue state machine, class `PlaybackQueue` |
| `provider.dfy` | `Provider` | the provider as pure transitions plus class `WebSocketProvider` |
| `main_chat_view.dfy`, `sidebar.dfy`, `chat.dfy`, `api_key_modal.dfy` | `MainChat`, `Sidebar`, `Chat`, `ApiKeyModal` | the views, each a class holding its own fields and the provider |

Every state-changing class method is stated as
`State() == F(old(State()), …)`, where `F` is a pure transition function. The
properties are proved about those functions, and the class methods keep the
invariant `Valid()`:

- the session list is sorted;
- `isConnected` implies the socket is open or in its closing handshake;
- the audio queue is well formed.

Fresh ids (`uuidv4`), the clock (`Date.now`), generated session names, the
short random suffix of temporary ids and decoded audio bytes are all
parameters. Local storage's last-active id is the field `storedSessionId`,
and its key hint is `Flags.keyHint`. Each timer firing and each socket event
is a method of its own.

## Model

| member | source | states |
|---|---|---|
| JsString.Or | src/components/WebSocketProvider.tsx:148 | `a \|\| b` on strings: the result is truthy iff either operand is, and it is the first operand when that one is truthy |
| JsString.OrNumber | src/components/WebSocketProvider.tsx:199 | `timestamp \|\| Date.now()`: a zero number counts as absent |
| JsString.TrimSpec | src/components/Chat.tsx:38 | `trim()` returns a contiguous part of the text; only white space is cut from either side, and the result neither starts nor ends with white space |
| JsString.TrimEmptyIffAllSpace | src/components/MainChatView.tsx:82 | `trim() === ""` holds exactly when the text is all white space |
| JsString.TrimIdempotent | src/components/ApiKeyModal.tsx:19 | trimming an already trimmed key changes nothing |
| JsString.SplitSecond | src/components/MainChatView.tsx:84 | `split(',')[1]` is undefined exactly when there is no comma; otherwise it is the comma-free text right after the first comma |
| Recency.InsertPermutes | src/components/WebSocketProvider.tsx:73 | one insertion step of the sort is a permutation |
| Recency.InsertSorted | src/components/WebSocketProvider.tsx:73 | inserting into a recency-sorted list keeps it sorted |
| Recency.SortByRecencySpec | src/components/WebSocketProvider.tsx:73 | the re-sort orders by `lastUpdatedAt \|\| createdAt`, newest first, and is a permutation of its input |
| Recency.SortByRecencyMembers | src/components/WebSocketProvider.tsx:74 | a session is in the sorted list exactly when it is in the input |
| Recency.SortSortedIsIdentity | src/components/WebSocketProvider.tsx:73 | re-sorting an already sorted list changes nothing |
| Recency.FilterKeepsOrder | src/components/WebSocketProvider.tsx:153 | the delete filter keeps the remaining sessions in recency order |
| Recency.WithoutIdMembers | src/components/WebSocketProvider.tsx:153 | the filter keeps exactly the sessions with another id |
| SessionStore.UpdateWhere | src/components/WebSocketProvider.tsx:152 | the `map` updater rewrites exactly the sessions with the id, position by position |
| SessionStore.UpdateAndSortSpec | src/components/WebSocketProvider.tsx:74 | map-then-sort keeps the length and the order; sessions with the id are replaced by their update and every other session is kept |
| SessionStore.CreateSessionSpec | src/components/WebSocketProvider.tsx:73 | a session created at the latest time goes first, empty and loaded, ahead of the unchanged list |
| SessionStore.OptimisticMessage | src/components/WebSocketProvider.tsx:74 | the added message is optimistic and carries the caller's sender and data |
| SessionStore.AppendOptimisticSpec | src/components/WebSocketProvider.tsx:74 | exactly one message goes to the end of the target session, which becomes loaded and is stamped `now`; other sessions are kept, none is lost, and the list stays sorted |
| SessionStore.LookupLast | src/components/WebSocketProvider.tsx:150 | `new Map(...).get(id)` finds the last session with the id |
| SessionStore.Merged | src/components/WebSocketProvider.tsx:150 | one merged entry per server entry, in the server's order |
| SessionStore.MergeSessionsListSpec | src/components/WebSocketProvider.tsx:150 | the merged list holds exactly the server's sessions, sorted, with the server's metadata; a session loaded locally keeps its messages and stays loaded; any other takes the server's messages (or none) and is not loaded |
| SessionStore.LoadedSurvivesMerge | src/components/WebSocketProvider.tsx:150 | a listed session loaded locally keeps its messages through one merge |
| SessionStore.LoadedMessagesSurviveMerges | src/components/WebSocketProvider.tsx:150 | the same holds through any number of merges that keep listing it |
| SessionStore.ActiveAfterListSpec | src/components/WebSocketProvider.tsx:150 | with a non-empty server list a listed session ends up active: the stored id if listed, else the current id if listed, else the first session of the server's list; a fresh session is created iff the server lists none and the active id names no session held before the merge |
| SessionStore.Normalize | src/components/WebSocketProvider.tsx:151 | one message per server message, with missing data read as empty text |
| SessionStore.ApplyMessagesDataSpec | src/components/WebSocketProvider.tsx:151 | only the named session changes: its history is replaced, it is marked loaded and stamped; every other session survives unchanged, none is added, and the list stays sorted with its length |
| SessionStore.ApplyRenameSpec | src/components/WebSocketProvider.tsx:152 | only the renamed session changes, and only its name and time stamp; every other session survives unchanged, and the list stays sorted with its length |
| SessionStore.RemoveSessionSpec | src/components/WebSocketProvider.tsx:153 | after a delete no session has the id, every other session is kept in order, and the list shrinks when the id was present |
| SessionStore.WithoutIdShrinks | src/components/WebSocketProvider.tsx:153 | removing a present id shortens the list |
| SessionStore.ActiveAfterDeleteSpec | src/components/WebSocketProvider.tsx:153 | nothing changes iff the deleted session was not active; otherwise the first remaining session of the list is chosen, or a fresh one when none with a usable id remains |
| SessionStore.FindMatch | src/components/WebSocketProvider.tsx:199 | `findIndex` gives the first message that matches by id, or by sender and exact text while still optimistic |
| SessionStore.ReconcileSpec | src/components/WebSocketProvider.tsx:199 | a match is overwritten in place and confirmed: it takes the server's id when that is non-empty and each truthy server field (timestamp, image, data type, model, audio file), keeps its sender and text, and every other message and the count are untouched; without a match exactly one confirmed message is appended |
| SessionStore.NoDuplicateAfterReconcile | src/components/WebSocketProvider.tsx:199 | when the session holds a pending message with the incoming sender and text, nothing is appended and no message becomes pending |
| SessionStore.FallbackConfirmsFirstIdentical | src/components/WebSocketProvider.tsx:199 | of two identical pending messages only the first is confirmed (the text fallback, kept as written) |
| SessionStore.ApplyTextSpec | src/components/WebSocketProvider.tsx:199 | a text frame changes only its context session: an evaluator reply is appended and any other reply is reconciled; every other session survives unchanged, and the list stays sorted and keeps its length |
| Connection.Pow15 | src/components/WebSocketProvider.tsx:207 | `1.5^k` is at least 1 |
| Connection.Backoff | src/components/WebSocketProvider.tsx:207 | the reconnect delay lies between 5 s and 30 s |
| Connection.Pow15Monotone | src/components/WebSocketProvider.tsx:207 | `1.5^k` does not decrease as `k` grows |
| Connection.BackoffMonotone | src/components/WebSocketProvider.tsx:207 | later reconnects never wait less |
| Connection.BackoffReachesCap | src/components/WebSocketProvider.tsx:207 | from the sixth consecutive reconnect on, the delay is 30 s |
| Connection.BackoffGrowsBelowCap | src/components/WebSocketProvider.tsx:207 | below the cap each reconnect waits strictly longer than the one before |
| Connection.ReconnectStep | src/components/WebSocketProvider.tsx:207 | a reconnect adds one to the counter and arms a delay in [5 s, 30 s]; the delay is exactly 5 s iff the counter was 0 |
| Connection.BackoffNeverGrowsAsWritten | src/components/WebSocketProvider.tsx:109 | as written, every retry after the first waits 5 s, because `connect()` resets the counter |
| Connection.BackoffCounterexample | src/components/WebSocketProvider.tsx:109 | three refused attempts wait 5, 5, 5 s as written and 5, 7.5, 11.25 s with the counter kept |
| Connection.DelaysFollowBackoff | src/components/WebSocketProvider.tsx:207 | with the counter kept, the k-th consecutive failure waits `Backoff(attempts + k)` |
| Connection.FirstLoadedId | src/components/WebSocketProvider.tsx:78 | `find(s => s.messagesLoaded)` gives the first loaded session |
| Connection.ResolveSessionIdSpec | src/components/WebSocketProvider.tsx:78 | the stamped id is non-empty and is the active id when there is one; otherwise the first loaded session's id if truthy, else the first session's id if truthy, else the temporary id, which only the four session-independent types get; the frame is dropped iff it needs a session and none resolves |
| Negotiator.InitialFlags | src/components/WebSocketProvider.tsx:41-45 | every flag starts off, the prompt starts closed, and the hint comes from storage |
| Negotiator.ParseToggle | src/components/WebSocketProvider.tsx:160-162 | only the three wire names name a toggle, each its own |
| Negotiator.Set | src/components/WebSocketProvider.tsx:160-162 | setting one toggle changes that toggle only |
| Negotiator.ApplyToggleAck | src/components/WebSocketProvider.tsx:156-167 | a toggle ack sets the named toggle to the server's value and nothing else; an unknown name changes nothing |
| Negotiator.ApplyApiKeyAck | src/components/WebSocketProvider.tsx:168-184 | a Gemini success confirms the key, sets the hint and closes the prompt; an error unconfirms the key and clears the hint; toggles never move |
| Negotiator.ApplyCredentialRequired | src/components/WebSocketProvider.tsx:185-193 | the key becomes unconfirmed, the prompt opens, and the rejected Gemini or Eval toggle is switched off |
| Negotiator.OpenPrompt | src/components/WebSocketProvider.tsx:82-85 | opening the prompt touches nothing else |
| Negotiator.ClosePrompt | src/components/WebSocketProvider.tsx:237 | closing the prompt touches nothing else |
| Negotiator.OnlyAcksEnable | src/components/WebSocketProvider.tsx:156-193 | after any run of server events a toggle is on only if it was on before, or some ack enabled it |
| Negotiator.KeyConfirmedFollowsLastVerdict | src/components/WebSocketProvider.tsx:168-193 | the key is confirmed exactly when the last event about the key said so |
| Playback.UsableSamples | src/components/WebSocketProvider.tsx:70 | an odd trailing byte is dropped: `n` samples use `2n` of at most `2n + 1` bytes |
| Playback.SampleCountAppend | src/components/WebSocketProvider.tsx:70 | the total sample count adds up over concatenated fragments |
| Playback.SampleCountBounds | src/components/WebSocketProvider.tsx:70 | the sample count is half the bytes, less at most one byte per fragment; it is zero iff every fragment is shorter than two bytes |
| Playback.Int16At | src/components/WebSocketProvider.tsx:70 | each little-endian sample lies in the signed 16-bit range |
| Playback.Pcm16 | src/components/WebSocketProvider.tsx:70 | one sample per usable byte pair |
| Playback.SamplesLength | src/components/WebSocketProvider.tsx:70 | the decoded batch has as many samples as the buffer is long |
| Playback.PrefixStep | src/components/WebSocketProvider.tsx:70 | each fragment extends the decoded prefix by exactly its own samples |
| Playback.CopyFragment | src/components/WebSocketProvider.tsx:70 | the inner loop writes one fragment's samples at the running offset and leaves earlier samples alone |
| Playback.FillChannel | src/components/WebSocketProvider.tsx:70 | the filled channel is exactly the concatenated decoding of all fragments |
| Playback.Enqueue | src/components/WebSocketProvider.tsx:197 | a non-empty fragment is queued at the end, an empty one is ignored, and the drain state is untouched |
| Playback.TakeQueue | src/components/WebSocketProvider.tsx:210 | nothing happens while a drain is active or the queue is empty; otherwise the whole queue is taken at once and the drain starts |
| Playback.FinishPlayback | src/components/WebSocketProvider.tsx:70 | the end of playback releases the drain and zeroes the level, and the queue is kept |
| Playback.Clamp | src/components/WebSocketProvider.tsx:68 | the level is clamped into 0..100 |
| Playback.MeterLevel | src/components/WebSocketProvider.tsx:68 | the meter shows 0..100, and 0 when nothing is playing |
| Playback.FlushedAsWritten | src/components/WebSocketProvider.tsx:69 | as written, a flush empties the queue and stops the source but leaves the drain guard set |
| Playback.Flushed | src/components/WebSocketProvider.tsx:69 | the corrected flush returns to the idle state |
| Playback.InterruptDuringPlaybackStrands | src/components/WebSocketProvider.tsx:69 | an interrupt during playback, as written, leaves the queue stuck and breaks the invariant |
| Playback.StepKeepsValid | src/components/WebSocketProvider.tsx:210 | every corrected event keeps the queue invariant |
| Playback.StuckForever | src/components/WebSocketProvider.tsx:69 | once stuck, as written, no later event ever drains audio |
| Playback.InterruptCounterexample | src/components/WebSocketProvider.tsx:196 | push, drain, interrupt, push, drain: the second fragment is never played as written, and is played when corrected |
| Playback.StepKeepsOrder | src/components/WebSocketProvider.tsx:210 | one corrected event keeps the queued-plus-pushed fragments equal to the played-plus-queued ones |
| Playback.FragmentsKeepOrder | src/components/WebSocketProvider.tsx:197 | over any corrected run without interrupts, fragments are played in the order they were pushed, with none lost or duplicated (an interrupt discards what is queued, by design) |
| Playback.DrainAfterEnd | src/components/WebSocketProvider.tsx:210 | after playback ends, the next drain takes everything queued meanwhile |
| Playback.PlaysAfterFlushed | src/components/WebSocketProvider.tsx:69 | after a corrected flush, a new fragment is drained and played |
| Playback.PlaybackQueue.constructor | src/components/WebSocketProvider.tsx:52 | the queue starts idle |
| Playback.PlaybackQueue.Push | src/components/WebSocketProvider.tsx:197 | the object performs `Enqueue` |
| Playback.PlaybackQueue.ProcessQueue | src/components/WebSocketProvider.tsx:210 | the object performs `TakeQueue` and returns the batch and its decoded samples |
| Playback.PlaybackQueue.PlaybackEnded | src/components/WebSocketProvider.tsx:70 | the object performs `FinishPlayback` |
| Playback.PlaybackQueue.MeterTick | src/components/WebSocketProvider.tsx:68 | the object performs `MeterLevel` |
| Playback.PlaybackQueue.Flush | src/components/WebSocketProvider.tsx:69 | the object performs the corrected flush |
| Provider.FindById | src/components/WebSocketProvider.tsx:72 | `find(s => s.id === id)` gives the first session with the id, and none iff no session has it |
| Provider.SendSpec | src/components/WebSocketProvider.tsx:78 | at most one frame goes out and nothing else changes; nothing goes out on a closed socket; a sent frame carries a non-empty id, the active one when set; a session-independent frame is never dropped on an open socket |
| Provider.RequestsKeepFlags | src/components/WebSocketProvider.tsx:87-100 | submitting a key or requesting a toggle never changes a flag, and a blank key does nothing |
| Provider.OpenedSpec | src/components/WebSocketProvider.tsx:115-140 | an open resets the counter and marks the provider connected; it sends `config` and then `load_sessions_request` under one non-empty id, the stored one when present, which also becomes active |
| Provider.ClosedSpec | src/components/WebSocketProvider.tsx:141 | a close marks the provider disconnected and drops its own socket; only an abnormal close schedules a reconnect, one attempt later, after 5-30 s |
| Provider.RetriesBackOff | src/components/WebSocketProvider.tsx:207 | two refused attempts in a row: the counter grows by two and the second delay is at least the first |
| Provider.LifeCycleKeepsConnectedOnlyWhileLive | src/components/WebSocketProvider.tsx:106-141 | connect, open, the start of the closing handshake, close and both timers keep `isConnected` only while the socket is open or closing |
| Provider.ConnectedWhileClosing | src/components/WebSocketProvider.tsx:141 | once the closing handshake starts the provider still reports itself connected until `onclose`, while every `sendMessage` is dropped and nothing else changes |
| Provider.SetActiveKeepsSessions | src/components/WebSocketProvider.tsx:72 | activating a session sets the active id and changes neither the list nor the flags |
| Provider.CreateNewSpec | src/components/WebSocketProvider.tsx:73 | creating a session adds exactly it to the sorted list and keeps the active id |
| Provider.ActivateKeepsSessions | src/components/WebSocketProvider.tsx:150 | the follow-up of a list activates the chosen id, or only loads it when already active |
| Provider.SessionsListSpec | src/components/WebSocketProvider.tsx:150 | a list frame merges; with listed ids all non-empty some listed session is active, and the stored id wins; an empty list with no valid active id creates and activates a fresh session; an empty list with a valid active id empties the list and leaves that id dangling |
| Provider.DeletedSpec | src/components/WebSocketProvider.tsx:153 | a delete ack keeps every other session in order; the active id stays unless it was the deleted one, in which case the new active id names a session in the list |
| Provider.TextStepSpec | src/components/WebSocketProvider.tsx:199-200 | a text frame with a context session updates only that session; an info or error frame appends one System context message unless the context is missing or temporary; anything else changes nothing |
| Provider.WebSocketProvider.constructor | src/components/WebSocketProvider.tsx:33-45 | the provider starts disconnected and empty, with the stored id active and the stored key hint |
| Provider.WebSocketProvider.SetActiveSessionId | src/components/WebSocketProvider.tsx:72 | the object performs `SetActive`: store the id, and request its messages if unloaded and the socket is open |
| Provider.WebSocketProvider.CreateNewSession | src/components/WebSocketProvider.tsx:73 | the object performs `CreateNew` and returns the fresh id |
| Provider.WebSocketProvider.AddMessageToActiveSession | src/components/WebSocketProvider.tsx:74 | the object performs `AddMessage`: nothing without a target |
| Provider.WebSocketProvider.RenameSession | src/components/WebSocketProvider.tsx:75 | a rename request with the trimmed name, only on an open socket with an id and a non-blank name |
| Provider.WebSocketProvider.DeleteSession | src/components/WebSocketProvider.tsx:76 | a delete request, only on an open socket with an id |
| Provider.WebSocketProvider.SendMessage | src/components/WebSocketProvider.tsx:78 | the object performs `Send` |
| Provider.WebSocketProvider.RequestApiKeyModal | src/components/WebSocketProvider.tsx:82-85 | the prompt opens |
| Provider.WebSocketProvider.CloseApiKeyModal | src/components/WebSocketProvider.tsx:237 | the prompt closes |
| Provider.WebSocketProvider.SubmitApiKey | src/components/WebSocketProvider.tsx:87-92 | a non-blank key is sent trimmed as `set_api_key`, and a blank one sends nothing |
| Provider.WebSocketProvider.UpdateToggleState | src/components/WebSocketProvider.tsx:94-100 | one `update_toggle_state` request; the flags wait for the ack |
| Provider.WebSocketProvider.Connect | src/components/WebSocketProvider.tsx:106-113 | only without a socket or with a closed one: a new connecting socket and an armed connection timer |
| Provider.WebSocketProvider.Reconnect | src/components/WebSocketProvider.tsx:207 | the object performs `ReconnectStep` |
| Provider.WebSocketProvider.OnOpen | src/components/WebSocketProvider.tsx:115-140 | the object performs `Opened` |
| Provider.WebSocketProvider.OnClose | src/components/WebSocketProvider.tsx:141 | the object performs `ClosedStep` |
| Provider.WebSocketProvider.OnReconnectTimer | src/components/WebSocketProvider.tsx:207 | the timer is cleared, and it connects only under the connect guard |
| Provider.WebSocketProvider.OnClosingHandshake | src/components/WebSocketProvider.tsx:141 | the object performs `ClosingStarted`: an open socket turns to closing and `isConnected` is left as it is |
| Provider.WebSocketProvider.OnConnectionTimeout | src/components/WebSocketProvider.tsx:113 | a socket not yet open starts closing |
| Provider.WebSocketProvider.ActivateOrLoad | src/components/WebSocketProvider.tsx:150 | the object performs `Activate` |
| Provider.WebSocketProvider.OnSessionsList | src/components/WebSocketProvider.tsx:150 | the object performs `SessionsListStep` and keeps the list sorted |
| Provider.WebSocketProvider.OnSessionMessagesData | src/components/WebSocketProvider.tsx:151 | the object performs `ApplyMessagesData` |
| Provider.WebSocketProvider.OnSessionRenamedAck | src/components/WebSocketProvider.tsx:152 | the object performs `ApplyRename` |
| Provider.WebSocketProvider.OnSessionDeletedAck | src/components/WebSocketProvider.tsx:153 | the object performs `DeletedStep` |
| Provider.WebSocketProvider.OnToggleAck | src/components/WebSocketProvider.tsx:156-167 | the object performs `ApplyToggleAck` |
| Provider.WebSocketProvider.OnApiKeySetAck | src/components/WebSocketProvider.tsx:168-184 | the object performs `ApplyApiKeyAck` |
| Provider.WebSocketProvider.OnCredentialRequired | src/components/WebSocketProvider.tsx:185-193 | the object performs `ApplyCredentialRequired` |
| Provider.WebSocketProvider.OnLegacyFrame | src/components/WebSocketProvider.tsx:196-200 | an interrupt flushes the audio and changes nothing else; otherwise audio is queued and the text or system part is applied |
| MainChat.ToggleDecision | src/components/MainChatView.tsx:212-224 | asking for a key happens iff Gemini or Eval is being enabled without a confirmed key; otherwise the exact request is forwarded |
| MainChat.ToggleGateSpec | src/components/MainChatView.tsx:215-223 | a gated flip sends nothing and opens the prompt; any frame sent is the one requested update; an ungated flip on an open socket always sends; toggles never move |
| MainChat.ComposeText | src/components/MainChatView.tsx:79-92 | aborts iff there is no active session, or the text is blank and no image is attached; the display text is the typed text whenever it is non-empty (even if blank), else `[Image attached]` when the image has a non-empty part after its first comma, else nothing; a frame is sent iff something was typed or that image part is non-empty; the sent text is trimmed and the image is the part after the first comma |
| MainChat.SendTextSpec | src/components/MainChatView.tsx:84-89 | an abort changes nothing; otherwise the display text is appended once to the active session, and on an open socket the frame goes out under the active id |
| MainChat.ActiveMessages | src/components/MainChatView.tsx:67-71 | nothing without an active id; else the first matching session's messages, or nothing |
| MainChat.MainChatView.constructor | src/components/MainChatView.tsx:45-51 | empty text and no image |
| MainChat.MainChatView.HandleInputChange | src/components/MainChatView.tsx:77 | the typed text is replaced |
| MainChat.MainChatView.AttachImage | src/components/MainChatView.tsx:187 | a captured data URL is kept for the next send |
| MainChat.MainChatView.HandleToggleChange | src/components/MainChatView.tsx:212-224 | the provider performs `ToggleEffect` |
| MainChat.MainChatView.HandleSendTextMessage | src/components/MainChatView.tsx:79-92 | the provider performs `SendTextEffect`; both fields are cleared unless the send was aborted |
| MainChat.MainChatView.HandleKeyPress | src/components/MainChatView.tsx:94-96 | Enter without Shift sends and clears both fields unless the send was aborted; any other key changes nothing |
| Chat.ActiveMessages | src/components/Chat.tsx:23-31 | without an active id, the messages of the first session of the list (or none); else the first matching session's messages, or none |
| Chat.ViewsAgreeWhenActive | src/components/Chat.tsx:23-31 | both views show the same messages when a session is active; without one only this view falls back to the first session of the list |
| Chat.SendSpec | src/components/Chat.tsx:37-50 | a failed gate changes nothing; a passed gate appends one optimistic User message with the untrimmed text; the `text_input` with the same text goes out under the active id when the socket is open and is dropped otherwise |
| Chat.Visible | src/components/Chat.tsx:68 | exactly the messages with non-blank text are drawn |
| Chat.VisibleAppend | src/components/Chat.tsx:68 | the filter distributes over concatenation, so drawn messages keep their order |
| Chat.SendWhileClosingIsLost | src/components/Chat.tsx:38-43 | during the closing handshake the gate still passes on `isConnected`, the message is shown as pending, and no frame goes out |
| Chat.SentMessageIsShown | src/components/Chat.tsx:38-43 | a message that passed the gate is drawn in the active session |
| Chat.ChatView.constructor | src/components/Chat.tsx:12 | the input starts empty |
| Chat.ChatView.HandleInputChange | src/components/Chat.tsx:33-35 | the input is replaced |
| Chat.ChatView.HandleSendMessage | src/components/Chat.tsx:37-50 | the provider performs `SendEffect`; the input is cleared iff the gate passed |
| Chat.ChatView.HandleKeyPress | src/components/Chat.tsx:52-56 | Enter sends whatever the Shift key, clearing the input iff the gate passed; other keys change nothing |
| Sidebar.ConfirmCall | src/components/Sidebar.tsx:26-46 | a rename is called iff a session is being edited, the trimmed name is non-blank and differs from its current name; the call carries the trimmed name |
| Sidebar.ConfirmRenameSpec | src/components/Sidebar.tsx:28-37 | a confirm sends at most one frame, a rename of the edited session to a non-blank new name; blank, unedited or unchanged names send nothing |
| Sidebar.BlurSpec | src/components/Sidebar.tsx:75-85 | a blur to this session's confirm or cancel button keeps the editor; a blur to nowhere or to another session's buttons cancels |
| Sidebar.CreateActivatesNew | src/components/Sidebar.tsx:68-72 | the returned id is activated and stored, and it names a session of the sorted list |
| Sidebar.SidebarView.constructor | src/components/Sidebar.tsx:17-18 | nothing is being renamed |
| Sidebar.SidebarView.StartRename | src/components/Sidebar.tsx:20-24 | the editor opens on the session with its current name |
| Sidebar.SidebarView.EditName | src/components/Sidebar.tsx:114 | the field text is replaced |
| Sidebar.SidebarView.ConfirmRename | src/components/Sidebar.tsx:26-46 | the provider performs `ConfirmEffect` and the editor always closes |
| Sidebar.SidebarView.OnRenameKeyDown | src/components/Sidebar.tsx:115-123 | Enter confirms, Escape cancels, other keys change nothing |
| Sidebar.SidebarView.CancelRename | src/components/Sidebar.tsx:48-52 | the editor closes |
| Sidebar.SidebarView.OnRenameInputBlur | src/components/Sidebar.tsx:75-85 | the editor stays open iff `BlurKeepsEditing`, otherwise it closes |
| Sidebar.SidebarView.DeleteSession | src/components/Sidebar.tsx:54-66 | a delete request only after the user confirms |
| Sidebar.SidebarView.CreateNewSession | src/components/Sidebar.tsx:68-72 | the provider performs `CreateEffect` |
| ApiKeyModal.SubmittedKey | src/components/ApiKeyModal.tsx:17-25 | a key is submitted iff its trimmed text is non-blank; it is the trimmed text, with no white space at either end |
| ApiKeyModal.SubmitSpec | src/components/ApiKeyModal.tsx:17-19 | going through the dialog equals handing the raw text to `submitApiKey`; the flags never change, and a blank key does nothing |
| ApiKeyModal.Render | src/components/ApiKeyModal.tsx:27 | a closed dialog renders nothing |
| ApiKeyModal.ApiKeyModalView.constructor | src/components/ApiKeyModal.tsx:15 | the field starts empty |
| ApiKeyModal.ApiKeyModalView.OnChange | src/components/ApiKeyModal.tsx:44 | the field text is replaced |
| ApiKeyModal.ApiKeyModalView.HandleSubmit | src/components/ApiKeyModal.tsx:17-25 | the provider performs `SubmitEffect`; submitting never closes the prompt |
| ApiKeyModal.ApiKeyModalView.Close | src/components/ApiKeyModal.tsx:51 | the prompt closes |

## Left out

- Web Audio plumbing is not modelled: creating and resuming the `AudioContext`, starting and stopping buffer sources, and the analyser (lines 59-70). Playback is an abstract "play batch" step that ends with an explicit `Ended` event.
- Playback.MeterLevel: takes the rounded analyser reading as a parameter. The floating-point average and `Math.round` of line 68 are not modelled.
- Playback.FillChannel: keeps the integer samples. The int16-to-float scaling of line 70 is floating point and is left out. Samples are read little-endian, as `Int16Array` does on common hardware.
- Socket I/O, JSON parsing and the `try`/`catch` around message handling (lines 144-202) are not modelled. Frames arrive already parsed, with audio already decoded from base64.
- Timers, `requestAnimationFrame` and promises are explicit events (`OnReconnectTimer`, `OnConnectionTimeout`, `MeterTick`, `PlaybackEnded`, the queue's fallback tick as `ProcessQueue`). The deferred follow-up of a delete ack runs in the same transition as the ack.
- `sendMediaChunk` (line 79) is not modelled. It only forwards device data under `activeSessionId || sessions[0].id`.
- The socket's `onerror` logging (line 142) and the handler for unknown frame types (line 201) only log, and are left out.
- The instantiation error path of `connect()` (line 204) is not modelled: constructing the socket cannot fail here.
- The unmount cleanup of the main effect (line 211) is not modelled.
- `alert`, logging and `toLocaleTimeString` are left out. Generated session names are parameters.
- Negotiator.ApplyToggleAck: a toggle ack without `isEnabled` would set the toggle to `undefined`. The model takes a boolean.
- MainChat.ComposeText: the model does not distinguish `image_data: null` from an absent field.
- Chat.Visible: a message whose `data.text` is `undefined` makes the real render throw. The model has only present or null text.
- Device capture in the main chat view is left out: microphone, worklet, camera, canvas and file reading (src/components/MainChatView.tsx lines 98-207). `AttachImage` stands for their result.
- React batching and stale closures are not modelled. Each handler is one atomic transition on the current state.
- `src/App.tsx`, `vite.config.ts` and `src/hooks/useWebSocket.ts` only wire components together; `src/types.ts` becomes the datatypes of `types.dfy`.
- Playback.FragmentsKeepOrder: covers only runs without interrupts. An interrupt discards the queued fragments by design, and `Playback.StepKeepsValid` and `Playback.PlaysAfterFlushed` cover it.
- The browser's reasons for starting the closing handshake (a close frame from the server, a network failure) are not modelled. The start of the handshake is the event `OnClosingHandshake`.
- Recency.SortByRecencySpec: states order and permutation but not stability. Stability still holds by construction, because the insertion sort places a session before the first one that is not newer.
- Provider.WebSocketProvider.Connect: keeps the reconnect counter instead of resetting it at line 109. This is the corrected rule of the second finding below.
- Provider.WebSocketProvider.OnLegacyFrame: flushes with the corrected `Playback.Flushed`, per the first finding below.

## Findings

| source | as written | input that shows it | evidently intended | confidence | as-written member | corrected member |
|---|---|---|---|---|---|---|
| src/components/WebSocketProvider.tsx:69 | `stopAndClearAudioPlayback` clears `onended` before stopping the source. The promise the drain awaits never settles, so the drain guard `isPlaybackActive` (line 210) stays set and no later audio is ever played. | push `[1,0]`, drain, `interrupt`, push `[2,0]`, drain: the second fragment stays queued for ever | an interrupt flushes the queue and the next speech plays normally | medium (not executed) | Playback.FlushedAsWritten | Playback.Flushed |
| src/components/WebSocketProvider.tsx:109 | `connect()` sets the attempt counter to 0, and each reconnect calls `connect()`, so the counter is back at 1 on every retry | three refused connections wait 5 s, 5 s, 5 s | exponential backoff across consecutive failures, reset only by a successful open (lines 118 and 212): 5 s, 7.5 s, 11.25 s | high (not executed) | Connection.ConnectAttemptsAsWritten | Connection.ConnectAttempts |

For the first finding:
- `Playback.InterruptCounterexample` runs the input above through both versions.
- `Playback.InterruptDuringPlaybackStrands` and `Playback.StuckForever` show that the written flush leaves the queue stuck for ever.
- `Playback.PlaysAfterFlushed` and `Playback.StepKeepsValid` prove the corrected flush.

For the second finding:
- `Connection.BackoffNeverGrowsAsWritten` and `Connection.BackoffCounterexample` exhibit the constant delay.
- `Connection.DelaysFollowBackoff` and `Provider.RetriesBackOff` prove the growing delay of the corrected rule.

The provider uses the corrected members, as listed under "## Left out".
