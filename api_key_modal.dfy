/** `ApiKeyModal.tsx`: the dialog that collects a Gemini key. Its own state is
    the text of the key field; submitting hands the trimmed key to the
    provider's `submitApiKey` (its `onSubmit`) and leaves closing to the
    provider. */
module ApiKeyModal {
  import opened JsString
  import opened Provider
  import N = Negotiator

  /** `handleSubmit` (lines 17-25): the key passed to `onSubmit`, or `None`
      when the field is blank and only an alert is raised. */
  function SubmittedKey(apiKey: string): (r: Option<string>)
    ensures r.Some? <==> Trim(apiKey) != ""
    ensures r.Some? ==> r.value == Trim(apiKey) && Trim(r.value) == r.value
    ensures r.Some? ==> !IsSpace(r.value[0]) && !IsSpace(r.value[|r.value| - 1])
  {
    if Trim(apiKey) != "" then
      TrimIdempotent(apiKey);
      TrimSpec(apiKey);
      Some(Trim(apiKey))
    else None
  }

  /** The provider after a submit. */
  function SubmitEffect(st: ProviderState, apiKey: string, suffix: string): ProviderState {
    match SubmittedKey(apiKey)
    case None => st
    case Some(k) => SubmitKey(st, k, suffix)
  }

  /** The modal's trim and the provider's trim agree: submitting through the
      dialog is the same as handing the raw text to `submitApiKey`. A submit
      never closes the prompt or moves a toggle, and a blank key sends
      nothing. */
  lemma SubmitSpec(st: ProviderState, apiKey: string, suffix: string)
    ensures SubmitEffect(st, apiKey, suffix) == SubmitKey(st, apiKey, suffix)
    ensures SubmitEffect(st, apiKey, suffix).flags == st.flags
    ensures Trim(apiKey) == "" ==> SubmitEffect(st, apiKey, suffix) == st
  {
    TrimIdempotent(apiKey);
  }

  /** What the component renders: nothing when closed (line 27), else the
      dialog titled for the service with the field's current text. */
  datatype Dialog = Dialog(title: string, value: string)

  function Render(isOpen: bool, currentService: string, apiKey: string): (r: Option<Dialog>)
    ensures r.None? <==> !isOpen
    ensures r.Some? ==> r.value.value == apiKey
  {
    if !isOpen then None else Some(Dialog("Set " + currentService + " API Key", apiKey))
  }

  class ApiKeyModalView {
    var apiKey: string
    const ws: WebSocketProvider

    constructor (ws: WebSocketProvider)
      ensures this.ws == ws && apiKey == ""
    {
      this.ws := ws;
      apiKey := "";
    }

    /** The field's `onChange` (line 44). */
    method OnChange(value: string)
      modifies this
      ensures apiKey == value
    {
      apiKey := value;
    }

    method HandleSubmit(suffix: string)
      requires ws.Valid()
      modifies ws
      ensures ws.Valid()
      ensures ws.State() == SubmitEffect(old(ws.State()), apiKey, suffix)
      ensures ws.flags.promptOpen == old(ws.flags.promptOpen)
    {
      if Trim(apiKey) != "" {
        ws.SubmitApiKey(Trim(apiKey), suffix);
      }
    }

    /** The dialog's `onClose` (provider line 237). */
    method Close()
      requires ws.Valid()
      modifies ws
      ensures ws.Valid()
      ensures ws.State() == old(ws.State()).(flags := N.ClosePrompt(old(ws.flags)))
    {
      ws.CloseApiKeyModal();
    }
  }
}
