/**
 * The Nmap API route (app/api/tools/nmap-scan/route.ts): `POST` reads `target` and `scan_type`
 * from a JSON body, checks them, forwards both to the backend and returns its JSON answer.
 */
module NmapScanRoute {
  import opened Wrappers
  import opened Routes

  /** The two fields of the JSON body; `None` is an absent field. */
  datatype NmapRequest = NmapRequest(target: Option<string>, scanType: Option<string>)

  /** The JSON `{ target, scan_type }` sent to the backend. */
  datatype NmapForward = NmapForward(target: string, scanType: string)

  /** The scan types the route lets through. */
  predicate ScanTypeAllowed(scanType: string) {
    scanType in ["1", "2", "3", "4", "5"]
  }

  const TargetRequired := "Target is required"
  const InvalidScanType := "Invalid scan type"

  /** The checks of `POST`: the target first, the scan type only once there is one. */
  function Check(req: NmapRequest): (r: Option<string>)
    ensures r.None? <==> Truthy(req.target) && req.scanType.Some? && ScanTypeAllowed(req.scanType.value)
    ensures !Truthy(req.target) ==> r == Some(TargetRequired)
    ensures Truthy(req.target) && r.Some? ==> r == Some(InvalidScanType)
  {
    if !Truthy(req.target) then Some(TargetRequired)
    else if !(req.scanType.Some? && ScanTypeAllowed(req.scanType.value)) then Some(InvalidScanType)
    else None
  }

  /** What reaches the backend: both fields unchanged, and only for a request that passes. */
  function Forwarded(req: NmapRequest): (f: Option<NmapForward>)
    ensures f.Some? <==> Check(req).None?
    ensures f.Some? ==> req.target == Some(f.value.target) && req.scanType == Some(f.value.scanType)
    ensures f.Some? ==> f.value.target != "" && ScanTypeAllowed(f.value.scanType)
  {
    if Check(req).None? then Some(NmapForward(req.target.value, req.scanType.value)) else None
  }

  /** `POST` with the backend's answer, whose JSON an ok answer passes through. */
  function Post<J>(req: NmapRequest, upstream: Upstream<J>): (r: Response<J>)
    ensures Check(req).Some? ==> r == Response(400, ErrorJson(Check(req).value))
    ensures Check(req).None? && upstream.Failed? ==>
      r.status == upstream.status && r.body.ErrorJson? && r.body.error != ""
    ensures Check(req).None? && upstream.Ok? ==> r == Response(200, Json(upstream.value))
    ensures Check(req).None? && upstream.Threw? ==> r.status == 500 && r.body.ErrorJson?
    ensures r.body.Json? <==> Check(req).None? && upstream.Ok?
  {
    match Check(req)
    case Some(message) => Response(400, ErrorJson(message))
    case None =>
      match upstream
      case Failed(status, text) => Response(status, ErrorJson(OrElse(text, "Failed to run Nmap scan")))
      case Ok(result) => Response(200, Json(result))
      case Threw(e) => Response(500, ErrorJson(ThrownMessage(e, "Internal server error")))
  }

  /** A bad scan type goes unnoticed while the target is missing. */
  lemma TargetCheckedFirst(scanType: Option<string>)
    ensures Check(NmapRequest(None, scanType)) == Some(TargetRequired)
    ensures Check(NmapRequest(Some(""), scanType)) == Some(TargetRequired)
  {
  }

  /** A scan type is compared as a string: the empty one and one with padding are refused. */
  lemma ScanTypeIsExact(target: string)
    requires target != ""
    ensures Check(NmapRequest(Some(target), Some(" 1"))) == Some(InvalidScanType)
    ensures Check(NmapRequest(Some(target), Some(""))) == Some(InvalidScanType)
    ensures Check(NmapRequest(Some(target), Some("3"))).None?
  {
  }
}
