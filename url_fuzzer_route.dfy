/**
 * The URL-fuzzer API route (app/api/tools/url-fuzzer/route.ts): `POST` checks the target and the
 * wordlist, forwards both to the backend and passes its stream back with the session id; `PUT`
 * asks the backend to stop a session.
 */
module UrlFuzzerRoute {
  import opened Wrappers
  import opened Strings
  import opened Routes
  import opened ToolModals
  import UrlFuzzerModal

  /** The two fields `POST` reads from the multipart form. */
  datatype FuzzForm = FuzzForm(target: Option<string>, file: Option<SelectedFile>)

  const TargetRequired := "Target URL is required"
  const PlaceholderMissing := "Target URL must contain \"FUZZ\" placeholder"
  const WordlistRequired := "Wordlist file is required"

  /** The checks of `POST`: the target, then its placeholder, then the file. `Some` holds the text
      of the 400 response. */
  function Check(form: FuzzForm): (r: Option<string>)
    ensures r.None? <==> Truthy(form.target) && Contains(form.target.value, "FUZZ") && form.file.Some?
    ensures !Truthy(form.target) ==> r == Some(TargetRequired)
    ensures Truthy(form.target) && !Contains(form.target.value, "FUZZ") ==> r == Some(PlaceholderMissing)
    ensures r.Some? && r != Some(TargetRequired) && r != Some(PlaceholderMissing) ==>
      r == Some(WordlistRequired) && form.file.None? && Contains(form.target.value, "FUZZ")
  {
    if !Truthy(form.target) then Some(TargetRequired)
    else if !Contains(form.target.value, "FUZZ") then Some(PlaceholderMissing)
    else if form.file.None? then Some(WordlistRequired)
    else None
  }

  /** `POST` with the backend's answer (the `X-Session-ID` header of an ok response). Every thrown
      value, an aborted request included, gives 500. */
  function Post(form: FuzzForm, upstream: Upstream<Option<string>>): (r: Response<()>)
    ensures Check(form).Some? ==> r == Response(400, Text(Check(form).value))
    ensures Check(form).None? && upstream.Failed? ==> r.status == upstream.status && r.body.Text? && r.body.text != ""
    ensures Check(form).None? && upstream.Ok? ==>
      r.status == 200 && r.body.Streamed?
      && (upstream.value.Some? ==> r.body.sessionId == upstream.value.value)
      && (upstream.value.None? ==> r.body.sessionId == "")
    ensures Check(form).None? && upstream.Threw? ==> r.status == 500
  {
    match Check(form)
    case Some(message) => Response(400, Text(message))
    case None =>
      match upstream
      case Failed(status, text) => Response(status, Text(OrElse(text, "Failed to start fuzzing")))
      case Ok(sessionId) => Response(200, Streamed(if sessionId.Some? then sessionId.value else ""))
      case Threw(e) => Response(500, Text(ThrownMessage(e, "Internal server error")))
  }

  /** The JSON `{ status: 'stopped' }` of a stopped session. */
  datatype StopReply = Stopped

  /** `PUT` with the `session_id` of the JSON body and the backend's answer to the stop request;
      the text of a failed answer is the `error` field of its JSON body (`""` when it has none). */
  function Put(sessionId: Option<string>, upstream: Upstream<()>): (r: Response<StopReply>)
    ensures !Truthy(sessionId) ==> r == Response(400, Text("session_id is required"))
    ensures Truthy(sessionId) && upstream.Ok? ==> r == Response(200, Json(Stopped))
    ensures Truthy(sessionId) && upstream.Failed? ==>
      r.status == upstream.status && r.body == ErrorJson(OrElse(upstream.text, "Failed to stop fuzzing"))
    ensures Truthy(sessionId) && upstream.Threw? ==> r.status == 500 && r.body.Text?
    ensures r.body.Json? <==> Truthy(sessionId) && upstream.Ok?
  {
    if !Truthy(sessionId) then Response(400, Text("session_id is required"))
    else
      match upstream
      case Failed(status, error) => Response(status, ErrorJson(OrElse(error, "Failed to stop fuzzing")))
      case Ok(_) => Response(200, Json(Stopped))
      case Threw(e) => Response(500, Text(ThrownMessage(e, "Internal server error")))
  }

  /** For the target and the named wordlist the modal sends, the route accepts exactly what the
      modal's own guard accepts. */
  lemma AcceptsWhatModalAccepts(targetUrl: string, file: SelectedFile)
    requires file.name != ""
    ensures Check(FuzzForm(Some(targetUrl), Some(file))).None?
        <==> UrlFuzzerModal.GuardError(targetUrl, file.name).None?
  {
  }

  /** The route and the modal check the same things in different orders: a target without the
      placeholder and no wordlist is refused for the placeholder here and for the file there. */
  lemma OrderDiffersFromModal()
    ensures Check(FuzzForm(Some("x"), None)) == Some(PlaceholderMissing)
    ensures UrlFuzzerModal.GuardError("x", "") == Some(WordlistRequired)
  {
  }
}
