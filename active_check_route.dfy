/**
 * The active-subdomain API route (app/api/tools/subdomain/active-check/route.ts): `POST` takes a
 * wordlist file or a domain from a multipart form, forwards one of them to the backend and
 * returns its results with defaults filled in.
 */
module ActiveCheckRoute {
  import opened Wrappers
  import opened Routes
  import opened ToolModals

  /** The two fields `POST` reads with `formData.get`. */
  datatype ActiveForm = ActiveForm(domain: Option<string>, file: Option<SelectedFile>)

  /** The one field forwarded to the backend. */
  datatype ActiveField = FileField(file: SelectedFile) | DomainField(domain: string)

  /** The fields of the backend's JSON answer that the route reads; `None` is an absent field. */
  datatype ActiveResult<U> = ActiveResult(results: Option<seq<U>>, count: Option<int>)

  /** The JSON `{ success: true, activeUrls, count }` sent back. */
  datatype ActiveReply<U> = ActiveReply(success: bool, activeUrls: seq<U>, count: int)

  const NothingToCheck := "Either domain or file must be provided"

  /** The field forwarded: the file whenever there is one, else a non-empty domain; `None` when
      the request is refused. */
  function Forwarded(form: ActiveForm): (f: Option<ActiveField>)
    ensures f.None? <==> form.file.None? && !Truthy(form.domain)
    ensures form.file.Some? ==> f == Some(FileField(form.file.value))
    ensures f.Some? && f.value.DomainField? ==> form.file.None? && form.domain == Some(f.value.domain)
    ensures f.Some? && f.value.DomainField? ==> f.value.domain != ""
  {
    if form.file.Some? then Some(FileField(form.file.value))
    else if Truthy(form.domain) then Some(DomainField(form.domain.value))
    else None
  }

  /** The reply built from an ok answer: `results || []` and `count || 0`. */
  function Reply<U>(result: ActiveResult<U>): (reply: ActiveReply<U>)
    ensures reply.success
    ensures result.results.Some? ==> reply.activeUrls == result.results.value
    ensures result.results.None? ==> reply.activeUrls == []
    ensures result.count.Some? ==> reply.count == result.count.value
    ensures result.count.None? ==> reply.count == 0
  {
    ActiveReply(true, result.results.GetOr([]), result.count.GetOr(0))
  }

  /** `POST` with the backend's answer. */
  function Post<U>(form: ActiveForm, upstream: Upstream<ActiveResult<U>>): (r: Response<ActiveReply<U>>)
    ensures Forwarded(form).None? ==> r == Response(400, ErrorJson(NothingToCheck))
    ensures Forwarded(form).Some? && upstream.Failed? ==>
      r.status == upstream.status && r.body.ErrorJson? && r.body.error != ""
    ensures Forwarded(form).Some? && upstream.Ok? ==> r == Response(200, Json(Reply(upstream.value)))
    ensures Forwarded(form).Some? && upstream.Threw? ==> r.status == 500 && r.body.ErrorJson?
  {
    if Forwarded(form).None? then Response(400, ErrorJson(NothingToCheck))
    else
      match upstream
      case Failed(status, text) => Response(status, ErrorJson(OrElse(text, "Failed to check active subdomains")))
      case Ok(result) => Response(200, Json(Reply(result)))
      case Threw(e) => Response(500, ErrorJson(ThrownMessage(e, "Internal server error")))
  }

  /** With a file present, the domain makes no difference to the request or to the answer. */
  lemma DomainIgnoredBesideFile<U>(file: SelectedFile, d1: Option<string>, d2: Option<string>,
                                   upstream: Upstream<ActiveResult<U>>)
    ensures Forwarded(ActiveForm(d1, Some(file))) == Forwarded(ActiveForm(d2, Some(file)))
    ensures Post(ActiveForm(d1, Some(file)), upstream) == Post(ActiveForm(d2, Some(file)), upstream)
  {
  }

  /** An answer without results or count reads as an empty success. */
  lemma EmptyAnswerDefaults<U>(form: ActiveForm)
    requires Forwarded(form).Some?
    ensures Post<U>(form, Ok(ActiveResult(None, None))) == Response(200, Json(ActiveReply(true, [], 0)))
  {
  }
}
