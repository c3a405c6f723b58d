/**
 * The subdomain tools' modal (components/tools/subdomain-modal.tsx): an enumeration tab that
 * posts a domain and lists the subdomains found, and an active-check tab that posts a wordlist
 * file or a domain and lists the URLs that answered, which can be downloaded as plain text.
 */
module SubdomainModal {
  import opened Wrappers
  import opened Strings
  import opened Routes
  import opened ToolModals
  import EnumerationRoute
  import ActiveCheckRoute

  /** One active URL of the backend's answer; `finalUrl` is the address a redirect ended at. */
  datatype ActiveUrlResult = ActiveUrlResult(url: string, statusCode: int, finalUrl: Option<string>)

  /** The fields of the active-check answer the modal reads. */
  datatype ActiveAnswer = ActiveAnswer(activeUrls: Option<seq<ActiveUrlResult>>)

  datatype Tab = Enumeration | ActiveCheck

  const DomainRequired := "Domain is required"
  const NothingToCheck := "Either domain or file must be provided"
  const EnumerationFailed := "Failed to enumerate subdomains"
  const ActiveCheckFailed := "Failed to check active subdomains"
  const UnknownError := "Unknown error occurred"

  // ---------------------------------------------------------------------------------------------
  // Reports

  const EnumerationHeading := "SUBDOMAIN ENUMERATION RESULTS"
  const ActiveHeading := "ACTIVE SUBDOMAIN RESULTS"

  /** `formatEnumerationResults`: a fixed message for no subdomains, else a heading, one bullet per
      subdomain and a count. */
  function EnumerationReport(subdomains: seq<string>): string {
    if |subdomains| == 0 then "No subdomains found"
    else Listing(EnumerationHeading, Bullets(subdomains)) + "\n\n" + Footer(|subdomains|, " subdomains")
  }

  /** The last line of a non-empty report: `Found ${n}` and what was found. */
  function Footer(n: nat, found: string): string {
    "Found " + NatToString(n) + found
  }

  /** The line of one active URL: its address and status, and where it redirected to when the
      answer names a non-empty final URL. */
  function ActiveLine(r: ActiveUrlResult): (line: string)
    ensures StartsWith(line, "\U{2022} " + r.url + " (Status: " + IntToString(r.statusCode) + ")")
    ensures Truthy(r.finalUrl) ==> EndsWith(line, " \U{2192} " + r.finalUrl.value)
    ensures !Truthy(r.finalUrl) ==> EndsWith(line, ")") && |line| == |"\U{2022} " + r.url + " (Status: " + IntToString(r.statusCode) + ")"|
  {
    var head := "\U{2022} " + r.url + " (Status: " + IntToString(r.statusCode) + ")";
    var tail := if Truthy(r.finalUrl) then " \U{2192} " + r.finalUrl.value else "";
    assert (head + tail)[..|head|] == head;
    head + tail
  }

  /** The lines of the active URLs, in order. */
  function ActiveLines(results: seq<ActiveUrlResult>): (lines: seq<string>)
    ensures |lines| == |results| && forall k :: 0 <= k < |results| ==> lines[k] == ActiveLine(results[k])
  {
    if |results| == 0 then [] else [ActiveLine(results[0])] + ActiveLines(results[1..])
  }

  /** `formatActiveCheckResults` */
  function ActiveReport(results: seq<ActiveUrlResult>): string {
    if |results| == 0 then "No active subdomains found"
    else Listing(ActiveHeading, ActiveLines(results)) + "\n\n" + Footer(|results|, " active subdomains")
  }

  /** The footer holds one line, and its number reads back as the count it was given. */
  lemma FooterCounts(n: nat, found: string)
    requires '\n' !in found
    ensures '\n' !in Footer(n, found)
    ensures var digits := Footer(n, found)[|"Found "|..|"Found "| + |NatToString(n)|];
      AllDigits(digits) && DigitsValue(digits) == n
  {
    NatToStringValue(n);
    var f := Footer(n, found);
    assert f[|"Found "|..|"Found "| + |NatToString(n)|] == NatToString(n);
  }

  lemma EnumerationTextsOneLine()
    ensures '\n' !in EnumerationHeading && '\n' !in " subdomains"
  {
  }

  /** With at least one subdomain, none holding a newline, the report's lines are the heading, a
      blank line, `• s` for each subdomain in order, a blank line and a footer whose number is the
      count of subdomains. */
  lemma EnumerationReportLines(subdomains: seq<string>)
    requires forall k :: 0 <= k < |subdomains| ==> '\n' !in subdomains[k]
    ensures |subdomains| == 0 ==> EnumerationReport(subdomains) == "No subdomains found"
    ensures |subdomains| > 0 ==>
      Split(EnumerationReport(subdomains), '\n')
        == [EnumerationHeading, ""] + Bullets(subdomains) + ["", Footer(|subdomains|, " subdomains")]
  {
    if |subdomains| > 0 {
      var bullets := Bullets(subdomains);
      assert forall k :: 0 <= k < |bullets| ==> '\n' !in bullets[k] by {
        forall k | 0 <= k < |bullets| ensures '\n' !in bullets[k] {
          assert bullets[k] == "\U{2022} " + subdomains[k];
        }
      }
      var footer := Footer(|subdomains|, " subdomains");
      assert '\n' !in footer && '\n' !in EnumerationHeading by {
        EnumerationTextsOneLine();
        FooterCounts(|subdomains|, " subdomains");
      }
      ListingWithFooterLines(EnumerationHeading, bullets, footer);
    }
  }

  /** The subdomains the enumeration route returns are listed one per line, whatever the output. */
  lemma RouteSubdomainsListed(output: string)
    requires |EnumerationRoute.Subdomains(output)| > 0
    ensures var subdomains := EnumerationRoute.Subdomains(output);
      Split(EnumerationReport(subdomains), '\n')
        == [EnumerationHeading, ""] + Bullets(subdomains) + ["", Footer(|subdomains|, " subdomains")]
  {
    EnumerationReportLines(EnumerationRoute.Subdomains(output));
  }

  lemma ActiveTextsOneLine()
    ensures '\n' !in ActiveHeading && '\n' !in " active subdomains"
  {
  }

  /** With at least one active URL, none of whose lines holds a newline, the report's lines are
      the heading, a blank line, one line per URL in order, a blank line and the count. */
  lemma ActiveReportLines(results: seq<ActiveUrlResult>)
    requires forall k :: 0 <= k < |results| ==> '\n' !in ActiveLine(results[k])
    ensures |results| == 0 ==> ActiveReport(results) == "No active subdomains found"
    ensures |results| > 0 ==>
      Split(ActiveReport(results), '\n')
        == [ActiveHeading, ""] + ActiveLines(results) + ["", Footer(|results|, " active subdomains")]
  {
    if |results| > 0 {
      var lines := ActiveLines(results);
      assert forall k :: 0 <= k < |lines| ==> '\n' !in lines[k] by {
        forall k | 0 <= k < |lines| ensures '\n' !in lines[k] {
          assert lines[k] == ActiveLine(results[k]);
        }
      }
      var footer := Footer(|results|, " active subdomains");
      assert '\n' !in footer && '\n' !in ActiveHeading by {
        ActiveTextsOneLine();
        FooterCounts(|results|, " active subdomains");
      }
      ListingWithFooterLines(ActiveHeading, lines, footer);
    }
  }

  // ---------------------------------------------------------------------------------------------
  // Download

  /** The address kept for one result: the final URL when there is one and it differs. */
  function CleanUrl(r: ActiveUrlResult): (url: string)
    ensures url == r.url || Some(url) == r.finalUrl
    ensures url != r.url <==> Truthy(r.finalUrl) && r.finalUrl.value != r.url
  {
    if Truthy(r.finalUrl) && r.finalUrl.value != r.url then r.finalUrl.value else r.url
  }

  /** `cleanUrls`: one address per result, in order. */
  function CleanUrls(results: seq<ActiveUrlResult>): (urls: seq<string>)
    ensures |urls| == |results| && forall k :: 0 <= k < |results| ==> urls[k] == CleanUrl(results[k])
  {
    if |results| == 0 then [] else [CleanUrl(results[0])] + CleanUrls(results[1..])
  }

  /** The file's name for the day `today` (`YYYY-MM-DD`). */
  function DownloadName(today: string): string {
    "active-urls-" + today + ".txt"
  }

  /** When no address holds a newline, the downloaded file's lines are the clean URLs. */
  lemma DownloadLinesAreCleanUrls(results: seq<ActiveUrlResult>)
    requires |results| > 0
    requires forall k :: 0 <= k < |results| ==> '\n' !in CleanUrl(results[k])
    ensures Split(Join(CleanUrls(results), "\n"), '\n') == CleanUrls(results)
  {
    JoinSplit(CleanUrls(results), '\n');
  }

  // ---------------------------------------------------------------------------------------------
  // The modal

  /** The form the active check posts for the field it forwards. */
  function FormSent(field: ActiveCheckRoute.ActiveField): ActiveCheckRoute.ActiveForm {
    match field
    case FileField(f) => ActiveCheckRoute.ActiveForm(None, Some(f))
    case DomainField(d) => ActiveCheckRoute.ActiveForm(Some(d), None)
  }

  /** The route forwards to the backend exactly the field the modal sent. */
  lemma RouteForwardsWhatWasSent(field: ActiveCheckRoute.ActiveField)
    requires field.DomainField? ==> field.domain != ""
    ensures ActiveCheckRoute.Forwarded(FormSent(field)) == Some(field)
  {
  }

  class SubdomainModal {
    var activeTab: Tab
    var isLoading: bool
    var enumerationResults: seq<string>
    var activeCheckResults: seq<ActiveUrlResult>
    var error: Option<string>
    var domain: string
    var activeCheckDomain: string
    var file: Option<SelectedFile>

    constructor ()
      ensures activeTab == Enumeration && !isLoading && enumerationResults == [] && activeCheckResults == []
      ensures error.None? && domain == "" && activeCheckDomain == "" && file.None?
    {
      activeTab := Enumeration;
      isLoading := false;
      enumerationResults := [];
      activeCheckResults := [];
      error := None;
      domain := "";
      activeCheckDomain := "";
      file := None;
    }

    /** Switching tabs clears the error. */
    method SetTab(tab: Tab)
      modifies this
      ensures activeTab == tab && error.None?
      ensures enumerationResults == old(enumerationResults) && activeCheckResults == old(activeCheckResults)
      ensures domain == old(domain) && activeCheckDomain == old(activeCheckDomain) && file == old(file)
      ensures isLoading == old(isLoading)
    {
      activeTab := tab;
      error := None;
    }

    /** The enumeration input keeps the trimmed text. */
    method SetDomain(value: string)
      modifies this
      ensures domain == Trim(value)
      ensures activeCheckDomain == old(activeCheckDomain) && file == old(file) && error == old(error)
      ensures enumerationResults == old(enumerationResults) && activeCheckResults == old(activeCheckResults)
      ensures activeTab == old(activeTab) && isLoading == old(isLoading)
    {
      domain := Trim(value);
    }

    /** The active-check input keeps the trimmed text and drops the chosen file. */
    method SetActiveCheckDomain(value: string)
      modifies this
      ensures activeCheckDomain == Trim(value) && file.None?
      ensures domain == old(domain) && error == old(error)
      ensures enumerationResults == old(enumerationResults) && activeCheckResults == old(activeCheckResults)
      ensures activeTab == old(activeTab) && isLoading == old(isLoading)
    {
      activeCheckDomain := Trim(value);
      file := None;
    }

    /** The remove button beside the chosen file. */
    method ClearFile()
      modifies this
      ensures file.None?
      ensures domain == old(domain) && activeCheckDomain == old(activeCheckDomain) && error == old(error)
      ensures enumerationResults == old(enumerationResults) && activeCheckResults == old(activeCheckResults)
      ensures activeTab == old(activeTab) && isLoading == old(isLoading)
    {
      file := None;
    }

    /** `handleFileChange` with the files picked: the first one is taken when it is a text file;
        otherwise (or with no file) nothing changes. */
    method HandleFileChange(files: seq<SelectedFile>)
      modifies this
      ensures |files| > 0 && IsTextFile(files[0]) ==> file == Some(files[0])
      ensures !(|files| > 0 && IsTextFile(files[0])) ==> file == old(file)
      ensures domain == old(domain) && activeCheckDomain == old(activeCheckDomain) && error == old(error)
      ensures enumerationResults == old(enumerationResults) && activeCheckResults == old(activeCheckResults)
      ensures activeTab == old(activeTab) && isLoading == old(isLoading)
    {
      if |files| > 0 {
        var selectedFile := files[0];
        if IsTextFile(selectedFile) {
          file := Some(selectedFile);
        }
      }
    }

    /** `handleEnumeration` with the route's answer; `sent` is the domain posted, `None` when
        nothing is sent. */
    method HandleEnumeration(answer: Upstream<seq<string>>) returns (sent: Option<string>)
      modifies this
      ensures domain == old(domain) && activeCheckDomain == old(activeCheckDomain) && file == old(file)
      ensures activeTab == old(activeTab) && activeCheckResults == old(activeCheckResults)
      ensures old(domain) == "" ==>
        sent.None? && error == Some(DomainRequired) && enumerationResults == old(enumerationResults)
        && isLoading == old(isLoading)
      ensures old(domain) != "" ==> sent == Some(domain) && !isLoading
      ensures old(domain) != "" && answer.Ok? ==> error.None? && enumerationResults == answer.value
      ensures old(domain) != "" && answer.Failed? ==>
        error == Some(OrElse(answer.text, EnumerationFailed)) && enumerationResults == []
      ensures old(domain) != "" && answer.Threw? ==>
        error == Some(ThrownMessage(answer.error, UnknownError)) && enumerationResults == []
    {
      if domain == "" {
        error := Some(DomainRequired);
        return None;
      }
      isLoading := true;
      error := None;
      enumerationResults := [];
      sent := Some(domain);
      match answer {
        case Failed(_, text) =>
          error := Some(ThrownMessage(ErrorObject("Error", OrElse(text, EnumerationFailed)), UnknownError));
        case Ok(subdomains) =>
          enumerationResults := subdomains;
        case Threw(e) =>
          error := Some(ThrownMessage(e, UnknownError));
      }
      isLoading := false;
    }

    /** `handleActiveCheck` with the route's answer; `sent` is the field posted: the file when
        one is chosen, else the domain; `None` when neither is there. */
    method HandleActiveCheck(answer: Upstream<ActiveAnswer>) returns (sent: Option<ActiveCheckRoute.ActiveField>)
      modifies this
      ensures domain == old(domain) && activeCheckDomain == old(activeCheckDomain) && file == old(file)
      ensures activeTab == old(activeTab) && enumerationResults == old(enumerationResults)
      ensures sent.None? <==> old(file).None? && old(activeCheckDomain) == ""
      ensures sent.None? ==>
        error == Some(NothingToCheck) && activeCheckResults == old(activeCheckResults) && isLoading == old(isLoading)
      ensures old(file).Some? ==> sent == Some(ActiveCheckRoute.FileField(old(file).value))
      ensures old(file).None? && sent.Some? ==> sent == Some(ActiveCheckRoute.DomainField(old(activeCheckDomain)))
      ensures sent.Some? ==> !isLoading
      ensures sent.Some? && answer.Ok? ==>
        error.None? && activeCheckResults == answer.value.activeUrls.GetOr([])
      ensures sent.Some? && answer.Failed? ==>
        error == Some(OrElse(answer.text, ActiveCheckFailed)) && activeCheckResults == []
      ensures sent.Some? && answer.Threw? ==>
        error == Some(ThrownMessage(answer.error, UnknownError)) && activeCheckResults == []
    {
      if file.None? && activeCheckDomain == "" {
        error := Some(NothingToCheck);
        return None;
      }
      isLoading := true;
      error := None;
      activeCheckResults := [];
      if file.Some? {
        sent := Some(ActiveCheckRoute.FileField(file.value));
      } else {
        sent := Some(ActiveCheckRoute.DomainField(activeCheckDomain));
      }
      match answer {
        case Failed(_, text) =>
          error := Some(ThrownMessage(ErrorObject("Error", OrElse(text, ActiveCheckFailed)), UnknownError));
        case Ok(data) =>
          activeCheckResults := data.activeUrls.GetOr([]);
        case Threw(e) =>
          error := Some(ThrownMessage(e, UnknownError));
      }
      isLoading := false;
    }

    /** The text shown and sent to the chat: the report of the open tab. */
    function CurrentResults(): string
      reads this
    {
      if activeTab == Enumeration then EnumerationReport(enumerationResults) else ActiveReport(activeCheckResults)
    }

    /** `handleDownloadResults` on the day `today` (`YYYY-MM-DD`): nothing without active URLs;
        otherwise a file with one clean URL per line. */
    method HandleDownloadResults(today: string) returns (d: Option<Download>)
      ensures d.None? <==> activeCheckResults == []
      ensures d.Some? ==> d.value.fileName == DownloadName(today)
      ensures d.Some? ==> d.value.content == Join(CleanUrls(activeCheckResults), "\n")
    {
      if |activeCheckResults| == 0 {
        return None;
      }
      var cleanUrls := CleanUrls(activeCheckResults);
      d := Some(Download(DownloadName(today), Join(cleanUrls, "\n")));
    }
  }
}
