/**
 * The fuzz API route (app/api/tools/fuzz/route.ts): the same request as the URL-fuzzer route,
 * checked in another order and with other messages, and with a client abort told apart from
 * other failures.
 */
module FuzzRoute {
  import opened Wrappers
  import opened Strings
  import opened Routes
  import UrlFuzzerRoute

  type FuzzForm = UrlFuzzerRoute.FuzzForm

  const PlaceholderMissing := "Target URL must contain FUZZ placeholder"

  /** The checks of `POST`: the target, then the file, then the placeholder. */
  function Check(form: FuzzForm): (r: Option<string>)
    ensures r.None? <==> Truthy(form.target) && form.file.Some? && Contains(form.target.value, "FUZZ")
    ensures !Truthy(form.target) ==> r == Some(UrlFuzzerRoute.TargetRequired)
    ensures Truthy(form.target) && form.file.None? ==> r == Some(UrlFuzzerRoute.WordlistRequired)
    ensures r.Some? && r != Some(UrlFuzzerRoute.TargetRequired) && r != Some(UrlFuzzerRoute.WordlistRequired) ==>
      r == Some(PlaceholderMissing) && form.file.Some? && !Contains(form.target.value, "FUZZ")
  {
    if !Truthy(form.target) then Some(UrlFuzzerRoute.TargetRequired)
    else if form.file.None? then Some(UrlFuzzerRoute.WordlistRequired)
    else if !Contains(form.target.value, "FUZZ") then Some(PlaceholderMissing)
    else None
  }

  /** `POST` with the backend's answer: an abort gives 499, any other thrown value 500. */
  function Post(form: FuzzForm, upstream: Upstream<Option<string>>): (r: Response<()>)
    ensures Check(form).Some? ==> r == Response(400, Text(Check(form).value))
    ensures Check(form).None? && upstream.Failed? ==>
      r.status == upstream.status && r.body.Text? && r.body.text != ""
    ensures Check(form).None? && upstream.Ok? ==>
      r.status == 200 && r.body.Streamed?
      && (upstream.value.Some? ==> r.body.sessionId == upstream.value.value)
      && (upstream.value.None? ==> r.body.sessionId == "")
    ensures Check(form).None? && upstream.Threw? ==>
      (r.status == 499 <==> IsAbort(upstream.error)) && (r.status == 500 <==> !IsAbort(upstream.error))
  {
    match Check(form)
    case Some(message) => Response(400, Text(message))
    case None =>
      match upstream
      case Failed(status, text) => Response(status, Text(OrElse(text, "Failed to start URL fuzzing")))
      case Ok(sessionId) => Response(200, Streamed(if sessionId.Some? then sessionId.value else ""))
      case Threw(e) =>
        if IsAbort(e) then Response(499, Text("Fuzzing aborted by client"))
        else Response(500, Text(ThrownMessage(e, "Internal server error")))
  }

  /** Both fuzzing routes accept the same requests. Their answers to a request differ exactly when
      the target is present without the placeholder: the order of the checks or the wording of the
      placeholder message tells them apart. */
  lemma SameRequestsAccepted(form: FuzzForm)
    ensures Check(form).None? <==> UrlFuzzerRoute.Check(form).None?
    ensures Check(form) == UrlFuzzerRoute.Check(form)
      <==> !Truthy(form.target) || Contains(form.target.value, "FUZZ")
  {
  }

  /** An aborted request and one that failed otherwise get different statuses from the fuzz route
      and the same response from the URL-fuzzer route. */
  lemma AbortTellsApart(form: FuzzForm, name: string, message: string)
    requires Check(form).None?
    requires name != "AbortError"
    ensures Post(form, Threw(ErrorObject("AbortError", message))).status == 499
    ensures Post(form, Threw(ErrorObject(name, message))).status == 500
    ensures UrlFuzzerRoute.Post(form, Threw(ErrorObject("AbortError", message)))
      == UrlFuzzerRoute.Post(form, Threw(ErrorObject(name, message)))
  {
    SameRequestsAccepted(form);
  }
}
