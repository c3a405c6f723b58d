/**
 * The XSS-scan API route (app/api/tools/xss-scan/route.ts): `POST` reads the multipart form,
 * checks the mode and the inputs the mode needs, forwards the fields that are present to the
 * backend and passes its stream back with the session id.
 */
module XssScanRoute {
  import opened Wrappers
  import opened Routes
  import opened ToolModals
  import opened XssScanModal

  /** The fields `POST` reads with `formData.get`: the first value posted under each name. */
  datatype ScanForm = ScanForm(mode: Option<string>, targetUrl: Option<string>,
                               targetFile: Option<SelectedFile>, customPayload: Option<SelectedFile>)

  /** What `formData.get` sees in a posted list of fields. */
  function Received(fields: seq<FormField>): (form: ScanForm)
    ensures form.mode.Some? ==> ModeField(form.mode.value) in fields
    ensures form.targetUrl.Some? ==> TargetUrlField(form.targetUrl.value) in fields
    ensures form.targetFile.Some? ==> TargetFileField(form.targetFile.value) in fields
    ensures form.customPayload.Some? ==> CustomPayloadField(form.customPayload.value) in fields
  {
    if |fields| == 0 then ScanForm(None, None, None, None)
    else
      var rest := Received(fields[1..]);
      match fields[0]
      case ModeField(m) => rest.(mode := Some(m))
      case TargetUrlField(u) => rest.(targetUrl := Some(u))
      case TargetFileField(f) => rest.(targetFile := Some(f))
      case CustomPayloadField(f) => rest.(customPayload := Some(f))
  }

  /** The checks of `POST` in order; `Some` holds the text of the 400 response. */
  function Check(form: ScanForm): (r: Option<string>)
    ensures r.None? <==>
      Truthy(form.mode)
      && (UrlMode(form.mode.value) ==> Truthy(form.targetUrl))
      && (FileMode(form.mode.value) ==> form.targetFile.Some?)
      && (PayloadMode(form.mode.value) ==> form.customPayload.Some?)
    ensures !Truthy(form.mode) ==> r == Some("Scan mode is required")
  {
    if !Truthy(form.mode) then Some("Scan mode is required")
    else if UrlMode(form.mode.value) && !Truthy(form.targetUrl) then Some("Target URL is required for this mode")
    else if FileMode(form.mode.value) && form.targetFile.None? then Some("Target file is required for this mode")
    else if PayloadMode(form.mode.value) && form.customPayload.None? then Some("Custom payload file is required for this mode")
    else None
  }

  /** The form forwarded to the backend: the mode, then each of the URL, the target file and the
      payload file that is present, whatever the mode. */
  function Forwarded(form: ScanForm): (fields: seq<FormField>)
    requires form.mode.Some?
    ensures |fields| >= 1 && fields[0] == ModeField(form.mode.value)
    ensures Truthy(form.targetUrl) ==> TargetUrlField(form.targetUrl.value) in fields
    ensures form.targetFile.Some? ==> TargetFileField(form.targetFile.value) in fields
    ensures form.customPayload.Some? ==> CustomPayloadField(form.customPayload.value) in fields
    ensures forall k :: 1 <= k < |fields| ==> match fields[k]
      case ModeField(_) => false
      case TargetUrlField(u) => Truthy(form.targetUrl) && u == form.targetUrl.value
      case TargetFileField(f) => form.targetFile == Some(f)
      case CustomPayloadField(f) => form.customPayload == Some(f)
  {
    [ModeField(form.mode.value)]
    + (if Truthy(form.targetUrl) then [TargetUrlField(form.targetUrl.value)] else [])
    + (if form.targetFile.Some? then [TargetFileField(form.targetFile.value)] else [])
    + (if form.customPayload.Some? then [CustomPayloadField(form.customPayload.value)] else [])
  }

  /** `POST` with the backend's answer (the `X-Session-ID` header of an ok response). */
  function Post(form: ScanForm, upstream: Upstream<Option<string>>): (r: Response<()>)
    ensures Check(form).Some? ==> r == Response(400, Text(Check(form).value))
    ensures Check(form).None? ==> match upstream
      case Failed(status, text) => r == Response(status, Text(OrElse(text, "Failed to start XSS scan")))
      case Ok(sessionId) => r == Response(200, Streamed(if sessionId.Some? then sessionId.value else ""))
      case Threw(e) => r.status == (if IsAbort(e) then 499 else 500)
  {
    match Check(form)
    case Some(message) => Response(400, Text(message))
    case None =>
      match upstream
      case Failed(status, text) => Response(status, Text(OrElse(text, "Failed to start XSS scan")))
      case Ok(sessionId) => Response(200, Streamed(if sessionId.Some? then sessionId.value else ""))
      case Threw(e) =>
        if IsAbort(e) then Response(499, Text("Scan aborted by client"))
        else Response(500, Text(ThrownMessage(e, "Internal server error")))
  }

  /** A mode the UI never offers is not refused: with the inputs absent it is forwarded alone. */
  lemma UnknownModeForwarded(mode: string)
    requires mode != "" && !KnownMode(mode)
    ensures Check(ScanForm(Some(mode), None, None, None)).None?
    ensures Forwarded(ScanForm(Some(mode), None, None, None)) == [ModeField(mode)]
  {
  }

  /** For a mode the UI offers, the route refuses with the message the modal itself would show
      for the same inputs. */
  lemma CheckAgreesWithModal(mode: string, targetUrl: string, targetFile: Option<SelectedFile>,
                             payloadFile: Option<SelectedFile>)
    requires KnownMode(mode)
    ensures Check(ScanForm(Some(mode), Some(targetUrl), targetFile, payloadFile))
      == GuardError(mode, targetUrl, targetFile, payloadFile)
  {
  }

  /** Whatever the modal sends passes the route's checks and reaches the backend unchanged. */
  lemma ModalFormPassesThrough(mode: string, targetUrl: string, targetFile: Option<SelectedFile>,
                               payloadFile: Option<SelectedFile>)
    requires KnownMode(mode)
    requires GuardError(mode, targetUrl, targetFile, payloadFile).None?
    ensures var sent := FormFields(mode, targetUrl, targetFile, payloadFile);
      Check(Received(sent)).None? && Received(sent).mode.Some? && Forwarded(Received(sent)) == sent
  {
    var sent := FormFields(mode, targetUrl, targetFile, payloadFile);
    SentFormHasWhatTheModeNeeds(mode, targetUrl, targetFile, payloadFile);
    var target := if UrlMode(mode) then [TargetUrlField(targetUrl)] else [TargetFileField(targetFile.value)];
    var payload := if PayloadMode(mode) then [CustomPayloadField(payloadFile.value)] else [];
    assert sent == [ModeField(mode)] + target + payload;
    var got := Received(sent);
    ReceivedOfSent(mode, target, payload);
    if UrlMode(mode) {
      assert got == ScanForm(Some(mode), Some(targetUrl), None, if PayloadMode(mode) then payloadFile else None);
    } else {
      assert got == ScanForm(Some(mode), None, targetFile, if PayloadMode(mode) then payloadFile else None);
    }
  }

  /** Reading back a form of the mode, one target field and at most one payload field. */
  lemma ReceivedOfSent(mode: string, target: seq<FormField>, payload: seq<FormField>)
    requires |target| == 1 && (target[0].TargetUrlField? || target[0].TargetFileField?)
    requires |payload| <= 1 && forall k :: 0 <= k < |payload| ==> payload[k].CustomPayloadField?
    ensures var got := Received([ModeField(mode)] + target + payload);
      got.mode == Some(mode)
      && got.targetUrl == (if target[0].TargetUrlField? then Some(target[0].url) else None)
      && got.targetFile == (if target[0].TargetFileField? then Some(target[0].file) else None)
      && got.customPayload == (if |payload| == 1 then Some(payload[0].file) else None)
  {
    var sent := [ModeField(mode)] + target + payload;
    var last := Received(payload);
    if |payload| == 1 {
      assert payload == [payload[0]] + [];
      assert last == Received([]).(customPayload := Some(payload[0].file));
    }
    var middle := Received(target + payload);
    assert (target + payload)[1..] == payload;
    assert (target + payload)[0] == target[0];
    assert sent[1..] == target + payload;
  }
}
