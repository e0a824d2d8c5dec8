/** The toggle/credential negotiator of `WebSocketProvider.tsx`: three feature
    flags, the "key confirmed by the server" flag, the open state of the key
    prompt, and the locally stored "key entered" hint. The flags follow the
    server: they change only on its acknowledgements and errors, never on the
    client's own requests. */
module Negotiator {
  import opened JsString

  datatype ToggleName = Gemini | Eval | Grounding

  datatype Flags = Flags(
    useGemini: bool,
    evalMode: bool,
    groundingMode: bool,
    keyConfirmed: bool,
    promptOpen: bool,
    keyHint: bool)

  /** The provider's initial flags: everything off, the prompt closed; the
      hint is whatever local storage holds. */
  function InitialFlags(keyHint: bool): (f: Flags)
    ensures !f.useGemini && !f.evalMode && !f.groundingMode && !f.keyConfirmed && !f.promptOpen
    ensures f.keyHint == keyHint
  {
    Flags(false, false, false, false, false, keyHint)
  }

  /** The wire name of a toggle. */
  function NameOf(t: ToggleName): string {
    match t
    case Gemini => "gemini"
    case Eval => "eval"
    case Grounding => "grounding"
  }

  /** Reads a toggle name as the ack handler compares it; any other string
      names no toggle. */
  function ParseToggle(s: string): (r: Option<ToggleName>)
    ensures r.Some? <==> s == "gemini" || s == "eval" || s == "grounding"
    ensures r.Some? ==> NameOf(r.value) == s
  {
    if s == "gemini" then Some(Gemini)
    else if s == "eval" then Some(Eval)
    else if s == "grounding" then Some(Grounding)
    else None
  }

  function Get(f: Flags, t: ToggleName): bool {
    match t
    case Gemini => f.useGemini
    case Eval => f.evalMode
    case Grounding => f.groundingMode
  }

  /** Sets one toggle and nothing else. */
  function Set(f: Flags, t: ToggleName, v: bool): (r: Flags)
    ensures Get(r, t) == v
    ensures forall u :: u != t ==> Get(r, u) == Get(f, u)
    ensures SameCredential(r, f)
  {
    match t
    case Gemini => f.(useGemini := v)
    case Eval => f.(evalMode := v)
    case Grounding => f.(groundingMode := v)
  }

  /** The key-related part of the flags is the same in both. */
  predicate SameCredential(a: Flags, b: Flags) {
    a.keyConfirmed == b.keyConfirmed && a.promptOpen == b.promptOpen && a.keyHint == b.keyHint
  }

  predicate SameToggles(a: Flags, b: Flags) {
    a.useGemini == b.useGemini && a.evalMode == b.evalMode && a.groundingMode == b.groundingMode
  }

  /** `toggle_state_update_ack` (lines 156-167): the named toggle takes the
      server's value; an unknown name changes nothing; an error status only
      raises an alert. */
  function ApplyToggleAck(f: Flags, toggleName: string, isEnabled: bool): (r: Flags)
    ensures ParseToggle(toggleName).Some? ==> Get(r, ParseToggle(toggleName).value) == isEnabled
    ensures forall u :: Some(u) != ParseToggle(toggleName) ==> Get(r, u) == Get(f, u)
    ensures SameCredential(r, f)
    ensures ParseToggle(toggleName).None? ==> r == f
  {
    match ParseToggle(toggleName)
    case None => f
    case Some(t) => Set(f, t, isEnabled)
  }

  /** `api_key_set_ack` (lines 168-184). */
  function ApplyApiKeyAck(f: Flags, service: string, status: string): (r: Flags)
    ensures SameToggles(r, f)
    ensures status == "success" && service == "gemini" ==> r.keyConfirmed && r.keyHint && !r.promptOpen
    ensures status == "error" ==> !r.keyConfirmed && !r.keyHint && r.promptOpen == f.promptOpen
    ensures status != "error" && !(status == "success" && service == "gemini") ==> r == f
  {
    if status == "success" && service == "gemini" then
      f.(keyConfirmed := true, keyHint := true, promptOpen := false)
    else if status == "error" then
      f.(keyConfirmed := false, keyHint := false)
    else f
  }

  /** An `error` frame whose `action_required` is `set_gemini_api_key`
      (lines 185-193): the key is unconfirmed, the prompt opens, and the
      rejected toggle, if it is `gemini` or `eval`, is switched off. */
  function ApplyCredentialRequired(f: Flags, rejectedToggle: Option<string>): (r: Flags)
    ensures !r.keyConfirmed && r.promptOpen && r.keyHint == f.keyHint
    ensures r.useGemini == (f.useGemini && rejectedToggle != Some("gemini"))
    ensures r.evalMode == (f.evalMode && rejectedToggle != Some("eval"))
    ensures r.groundingMode == f.groundingMode
  {
    f.(keyConfirmed := false, promptOpen := true,
       useGemini := if rejectedToggle == Some("gemini") then false else f.useGemini,
       evalMode := if rejectedToggle == Some("eval") then false else f.evalMode)
  }

  /** `requestApiKeyModal` (line 82) and the dialog's `onClose` (line 237). */
  function OpenPrompt(f: Flags): (r: Flags)
    ensures r.promptOpen && SameToggles(r, f) && r.keyConfirmed == f.keyConfirmed && r.keyHint == f.keyHint
  {
    f.(promptOpen := true)
  }

  function ClosePrompt(f: Flags): (r: Flags)
    ensures !r.promptOpen && SameToggles(r, f) && r.keyConfirmed == f.keyConfirmed && r.keyHint == f.keyHint
  {
    f.(promptOpen := false)
  }

  /** The server's verdicts the client obeys. */
  datatype ServerEvent =
    | ToggleAck(toggleName: string, isEnabled: bool)
    | ApiKeyAck(service: string, status: string)
    | CredentialRequired(rejectedToggle: Option<string>)

  function Apply(f: Flags, e: ServerEvent): Flags {
    match e
    case ToggleAck(n, v) => ApplyToggleAck(f, n, v)
    case ApiKeyAck(s, st) => ApplyApiKeyAck(f, s, st)
    case CredentialRequired(rt) => ApplyCredentialRequired(f, rt)
  }

  function ApplyAll(f: Flags, es: seq<ServerEvent>): Flags
    decreases |es|
  {
    if es == [] then f else ApplyAll(Apply(f, es[0]), es[1..])
  }

  /** Only a toggle ack can switch a toggle on, and only to the value the
      server acknowledged: a toggle that is on after any run of server events
      was on before, or was the subject of an ack that enabled it. */
  lemma {:induction false} OnlyAcksEnable(f: Flags, es: seq<ServerEvent>, t: ToggleName)
    requires Get(ApplyAll(f, es), t)
    ensures Get(f, t) || exists i :: 0 <= i < |es| && es[i] == ToggleAck(NameOf(t), true)
    decreases |es|
  {
    if es != [] {
      var g := Apply(f, es[0]);
      OnlyAcksEnable(g, es[1..], t);
      if !Get(f, t) && Get(g, t) {
        match es[0]
        case ToggleAck(n, v) =>
          assert ParseToggle(n) == Some(t);
        case ApiKeyAck(_, _) =>
        case CredentialRequired(_) =>
      }
      if !Get(f, t) && Get(g, t) {
        assert es[0] == ToggleAck(NameOf(t), true);
      } else if !Get(f, t) {
        var i :| 0 <= i < |es[1..]| && es[1..][i] == ToggleAck(NameOf(t), true);
        assert es[i + 1] == es[1..][i];
      }
    }
  }

  /** The key is confirmed after a run of server events exactly when the last
      event that spoke about the key was a successful Gemini ack (or, if
      none spoke, when it was confirmed before). */
  function LastKeyVerdict(f: Flags, es: seq<ServerEvent>): bool
    decreases |es|
  {
    if es == [] then f.keyConfirmed
    else
      var e := es[|es| - 1];
      if e.ApiKeyAck? && e.status == "success" && e.service == "gemini" then true
      else if e.ApiKeyAck? && e.status == "error" then false
      else if e.CredentialRequired? then false
      else LastKeyVerdict(f, es[..|es| - 1])
  }

  lemma {:induction false} ApplyAllSnoc(f: Flags, es: seq<ServerEvent>, e: ServerEvent)
    ensures ApplyAll(f, es + [e]) == Apply(ApplyAll(f, es), e)
    decreases |es|
  {
    if es != [] {
      assert (es + [e])[1..] == es[1..] + [e];
      ApplyAllSnoc(Apply(f, es[0]), es[1..], e);
    }
  }

  lemma {:induction false} KeyConfirmedFollowsLastVerdict(f: Flags, es: seq<ServerEvent>)
    ensures ApplyAll(f, es).keyConfirmed == LastKeyVerdict(f, es)
    decreases |es|
  {
    if es != [] {
      var init := es[..|es| - 1];
      assert es == init + [es[|es| - 1]];
      ApplyAllSnoc(f, init, es[|es| - 1]);
      KeyConfirmedFollowsLastVerdict(f, init);
    }
  }
}
