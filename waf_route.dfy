/**
 * The WAF API route (app/api/tools/waf/route.ts): `POST` takes a `domain`, or else derives one
 * from a `url`, forwards only that domain to the backend and returns its JSON answer. A failed
 * answer is rethrown, so the client sees 500 whatever the backend's status.
 */
module WafRoute {
  import opened Wrappers
  import opened Strings
  import opened Routes

  /** The two fields of the JSON body; `None` is an absent field. */
  datatype WafRequest = WafRequest(domain: Option<string>, url: Option<string>)

  /** `url.replace(/^https?:\/\//i, '').split('/')[0]`: the host part of a URL. */
  function HostOf(url: string): (host: string)
    ensures '/' !in host
    ensures StartsWith(StripScheme(url), host)
    ensures |host| < |StripScheme(url)| ==> StripScheme(url)[|host|] == '/'
  {
    BeforeFirst(StripScheme(url), '/')
  }

  /** `domain || (url ? HostOf(url) : null)` */
  function TargetDomain(req: WafRequest): (d: Option<string>)
    ensures Truthy(req.domain) ==> d == req.domain
    ensures !Truthy(req.domain) && Truthy(req.url) ==> d == Some(HostOf(req.url.value))
    ensures !Truthy(req.domain) && !Truthy(req.url) ==> d.None?
  {
    if Truthy(req.domain) then req.domain
    else if Truthy(req.url) then Some(HostOf(req.url.value))
    else None
  }

  const DomainRequired := "Domain is required (provide either 'domain' or 'url' parameter)"

  /** The `{ domain }` forwarded to the backend, for a request that is not refused. */
  function Forwarded(req: WafRequest): (domain: Option<string>)
    ensures domain.Some? ==> domain.value != ""
    ensures domain.None? <==> !Truthy(TargetDomain(req))
    ensures domain.Some? && !Truthy(req.domain) ==> '/' !in domain.value
  {
    if Truthy(TargetDomain(req)) then TargetDomain(req) else None
  }

  /** `POST` with the backend's answer, whose JSON an ok answer passes through. */
  function Post<J>(req: WafRequest, upstream: Upstream<J>): (r: Response<J>)
    ensures Forwarded(req).None? ==> r == Response(400, ErrorJson(DomainRequired))
    ensures Forwarded(req).Some? && upstream.Failed? ==> r == Response(500, ErrorJson(upstream.text))
    ensures Forwarded(req).Some? && upstream.Ok? ==> r == Response(200, Json(upstream.value))
    ensures Forwarded(req).Some? && upstream.Threw? ==> r.status == 500 && r.body.ErrorJson?
  {
    if Forwarded(req).None? then Response(400, ErrorJson(DomainRequired))
    else
      match upstream
      // `throw new Error(text)` lands in the `catch`, whose message is that text.
      case Failed(_, text) => Response(500, ErrorJson(ThrownMessage(ErrorObject("Error", text), "WAF detection failed")))
      case Ok(result) => Response(200, Json(result))
      case Threw(e) => Response(500, ErrorJson(ThrownMessage(e, "WAF detection failed")))
  }

  /** Only a missing domain gives 400: a refusal of the backend, whatever its status, gives 500
      with the backend's text, even an empty one. */
  lemma BackendStatusDropped<J>(req: WafRequest, status: nat, text: string)
    requires Forwarded(req).Some?
    ensures Post<J>(req, Failed(status, text)).status == 500
    ensures Post<J>(req, Failed(status, text)) == Post<J>(req, Failed(200, text))
  {
  }

  /** A request carrying only a URL is refused exactly when that URL has no host part, as for
      `https://` or `/path`. */
  lemma UrlOnlyRefusedIffNoHost<J>(url: string, upstream: Upstream<J>)
    ensures Post(WafRequest(None, Some(url)), upstream).status == 400 <==> HostOf(url) == ""
  {
  }

  /** A bare scheme leaves no host. */
  lemma SchemeOnlyHasNoHost()
    ensures HostOf("https://") == ""
  {
    assert StartsWithIgnoringCase("https://", "https://");
  }
}
