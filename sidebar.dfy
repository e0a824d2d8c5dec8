/** The rename-editing state of `Sidebar.tsx` and its create/delete buttons.
    The component holds which session is being renamed and the text of the
    name field; confirming asks the provider for a rename, and every confirm
    or cancel closes the editor. */
module Sidebar {
  import opened JsString
  import opened Types
  import opened Recency
  import opened SessionStore
  import opened Connection
  import opened Provider

  /** The arguments of one `renameSession` call. */
  datatype RenameCall = RenameCall(id: string, newName: string)

  /** The trimmed name is already the session's name. */
  predicate SameName(ss: seq<Session>, id: string, name: string) {
    var s := FindById(ss, id); s.Some? && s.value.name == name
  }

  /** `handleConfirmRename` (lines 26-46): the rename call it makes, if any. */
  function ConfirmCall(ss: seq<Session>, renaming: Option<string>, name: string): (r: Option<RenameCall>)
    ensures r.Some? <==> Truthy(renaming) && Trim(name) != "" && !SameName(ss, renaming.value, Trim(name))
    ensures r.Some? ==> r.value.id == renaming.value && r.value.newName == Trim(name)
  {
    if Truthy(renaming) && Trim(name) != "" then
      if SameName(ss, renaming.value, Trim(name)) then None
      else Some(RenameCall(renaming.value, Trim(name)))
    else None
  }

  /** The provider after a confirm. */
  function ConfirmEffect(st: ProviderState, renaming: Option<string>, name: string): ProviderState {
    match ConfirmCall(st.sessions, renaming, name)
    case None => st
    case Some(c) => RenameRequest(st, c.id, c.newName)
  }

  /** A confirm sends at most one frame and changes nothing else: a
      `rename_session_request` for the edited session carrying the trimmed
      name, which is never blank and never the session's current name. A
      blank name, no session under edit, or an unchanged name sends nothing;
      otherwise an open socket always sends. */
  lemma ConfirmRenameSpec(st: ProviderState, renaming: Option<string>, name: string)
    ensures var r := ConfirmEffect(st, renaming, name);
            r == st.(outbox := r.outbox) &&
            (r.outbox != st.outbox ==>
               r.outbox == st.outbox + [Envelope(RenameSessionRequest(renaming.value, Trim(name)),
                                                 ActiveOr(st.activeSessionId, renaming.value))] &&
               Trim(name) != "" && !SameName(st.sessions, renaming.value, Trim(name))) &&
            (!Truthy(renaming) || Trim(name) == "" ==> r == st) &&
            (Truthy(renaming) && SameName(st.sessions, renaming.value, Trim(name)) ==> r == st) &&
            (ConfirmCall(st.sessions, renaming, name).Some? && SocketOpen(st) ==> r.outbox != st.outbox)
  {
    TrimIdempotent(name);
  }

  /** How a template literal prints a possibly-null id. */
  function Show(id: Option<string>): string {
    if id.Some? then id.value else "null"
  }

  /** `onRenameInputBlur` (lines 75-85): focus moving to this editor's own
      confirm or cancel button keeps the editor open; any other blur,
      including one with no target, cancels. */
  predicate BlurKeepsEditing(target: Option<string>, renaming: Option<string>) {
    target.Some? &&
    (target.value == "confirm-rename-" + Show(renaming) || target.value == "cancel-rename-" + Show(renaming))
  }

  lemma PrefixCancels(p: string, a: string, b: string)
    requires p + a == p + b
    ensures a == b
  {
    assert a == (p + a)[|p|..];
    assert b == (p + b)[|p|..];
  }

  /** Focus moving to another session's confirm or cancel button, or to
      nowhere, cancels the edit; only this session's own buttons keep it. */
  lemma BlurSpec(id: string, other: string)
    requires other != id
    ensures BlurKeepsEditing(Some("confirm-rename-" + id), Some(id))
    ensures BlurKeepsEditing(Some("cancel-rename-" + id), Some(id))
    ensures !BlurKeepsEditing(None, Some(id))
    ensures !BlurKeepsEditing(Some("confirm-rename-" + other), Some(id))
    ensures !BlurKeepsEditing(Some("cancel-rename-" + other), Some(id))
  {
    if "confirm-rename-" + other == "confirm-rename-" + id {
      PrefixCancels("confirm-rename-", other, id);
    }
    if "cancel-rename-" + other == "cancel-rename-" + id {
      PrefixCancels("cancel-rename-", other, id);
    }
    assert ("confirm-rename-" + other)[1] == 'o';
    assert ("cancel-rename-" + id)[1] == 'a';
    assert ("cancel-rename-" + other)[1] == 'a';
    assert ("confirm-rename-" + id)[1] == 'o';
  }

  /** `handleCreateNewSession` (lines 68-72): the new session becomes active. */
  function CreateEffect(st: ProviderState, freshId: string, name: string, now: int): ProviderState {
    SetActive(CreateNew(st, freshId, name, now), Some(freshId))
  }

  /** The id that `createNewSession` returned is the one activated and
      remembered, it names a session of the list, and the list keeps its
      recency order. */
  lemma CreateActivatesNew(st: ProviderState, freshId: string, name: string, now: int)
    requires freshId != ""
    ensures var r := CreateEffect(st, freshId, name, now);
            r.activeSessionId == Some(freshId) && r.storedSessionId == Some(freshId) &&
            HasSession(r.sessions, freshId) && SortedByRecency(r.sessions) &&
            forall s :: s in st.sessions ==> s in r.sessions
  {
    var st1 := CreateNew(st, freshId, name, now);
    CreateNewSpec(st, freshId, name, now);
    SetActiveKeepsSessions(st1, Some(freshId));
    assert NewSession(freshId, name, now) in st1.sessions;
  }

  class SidebarView {
    var renamingSessionId: Option<string>
    var newSessionName: string
    const ws: WebSocketProvider

    constructor (ws: WebSocketProvider)
      ensures this.ws == ws && renamingSessionId == None && newSessionName == ""
    {
      this.ws := ws;
      renamingSessionId := None;
      newSessionName := "";
    }

    /** `handleStartRename` (lines 20-24). */
    method StartRename(s: Session)
      modifies this
      ensures renamingSessionId == Some(s.id) && newSessionName == s.name
    {
      renamingSessionId := Some(s.id);
      newSessionName := s.name;
    }

    /** Typing in the name field. */
    method EditName(value: string)
      modifies this
      ensures newSessionName == value && renamingSessionId == old(renamingSessionId)
    {
      newSessionName := value;
    }

    method ConfirmRename()
      requires ws.Valid()
      modifies this, ws
      ensures ws.Valid()
      ensures ws.State() == ConfirmEffect(old(ws.State()), old(renamingSessionId), old(newSessionName))
      ensures renamingSessionId == None && newSessionName == ""
    {
      if Truthy(renamingSessionId) && Trim(newSessionName) != "" {
        var sessionToRename := FindById(ws.sessions, renamingSessionId.value);
        if sessionToRename.Some? && sessionToRename.value.name == Trim(newSessionName) {
          renamingSessionId := None;
          newSessionName := "";
          return;
        }
        ws.RenameSession(renamingSessionId.value, Trim(newSessionName));
      }
      renamingSessionId := None;
      newSessionName := "";
    }

    /** The name field's `onKeyDown` (lines 115-123): Enter confirms, Escape
        cancels, any other key leaves the editor as it is. */
    method OnRenameKeyDown(key: string)
      requires ws.Valid()
      modifies this, ws
      ensures ws.Valid()
      ensures key == "Enter" ==>
                ws.State() == ConfirmEffect(old(ws.State()), old(renamingSessionId), old(newSessionName)) &&
                renamingSessionId == None && newSessionName == ""
      ensures key == "Escape" ==> ws.State() == old(ws.State()) && renamingSessionId == None && newSessionName == ""
      ensures key != "Enter" && key != "Escape" ==>
                ws.State() == old(ws.State()) && renamingSessionId == old(renamingSessionId) &&
                newSessionName == old(newSessionName)
    {
      if key == "Enter" {
        ConfirmRename();
      }
      if key == "Escape" {
        CancelRename();
      }
    }

    /** `handleCancelRename` (lines 48-52). */
    method CancelRename()
      modifies this
      ensures renamingSessionId == None && newSessionName == ""
    {
      renamingSessionId := None;
      newSessionName := "";
    }

    method OnRenameInputBlur(target: Option<string>)
      modifies this
      ensures BlurKeepsEditing(target, old(renamingSessionId)) ==>
                renamingSessionId == old(renamingSessionId) && newSessionName == old(newSessionName)
      ensures !BlurKeepsEditing(target, old(renamingSessionId)) ==>
                renamingSessionId == None && newSessionName == ""
    {
      if target.Some? &&
         (target.value == "confirm-rename-" + Show(renamingSessionId) ||
          target.value == "cancel-rename-" + Show(renamingSessionId)) {
        return;
      }
      CancelRename();
    }

    /** `handleDeleteSession` (lines 54-66); `confirmed` is the answer to the
        confirmation dialog. */
    method DeleteSession(id: string, confirmed: bool)
      requires ws.Valid()
      modifies ws
      ensures ws.Valid()
      ensures ws.State() == if confirmed then DeleteRequest(old(ws.State()), id) else old(ws.State())
    {
      if confirmed {
        ws.DeleteSession(id);
      }
    }

    method CreateNewSession(freshId: string, name: string, now: int)
      requires ws.Valid()
      modifies ws
      ensures ws.Valid()
      ensures ws.State() == CreateEffect(old(ws.State()), freshId, name, now)
    {
      var newId := ws.CreateNewSession(freshId, name, now);
      ws.SetActiveSessionId(Some(newId));
    }
  }
}
