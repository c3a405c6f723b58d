/**
 * The URL crawler's modal (components/tools/url-crawler-modal.tsx): a single tab that posts one
 * domain as JSON and a batch tab that posts a wordlist file as a multipart form; the URLs found
 * are listed under a heading that counts them, and can be downloaded one per line.
 */
module UrlCrawlerModal {
  import opened Wrappers
  import opened Strings
  import opened Routes
  import opened ToolModals

  datatype Tab = Single | Batch

  /** The request body sent: a JSON `{ domain }` or a multipart form with the `file`. */
  datatype CrawlRequest = JsonDomain(domain: string) | MultipartFile(file: SelectedFile)

  /** The fields of the crawler route's answer the modal reads. */
  datatype CrawlAnswer = CrawlAnswer(results: Option<seq<string>>)

  const DomainRequired := "Domain is required"
  const FileRequired := "File is required"
  const CrawlFailed := "Failed to crawl URLs"
  const UnknownError := "Unknown error occurred"

  /** The error the guards of `handleRunCrawler` set, `None` when the request goes out. */
  function GuardError(tab: Tab, domain: string, file: Option<SelectedFile>): (r: Option<string>)
    ensures r.None? <==> if tab.Single? then domain != "" else file.Some?
    ensures r.Some? ==> r.value == (if tab == Single then DomainRequired else FileRequired)
  {
    if tab == Single && domain == "" then Some(DomainRequired)
    else if tab == Batch && file.None? then Some(FileRequired)
    else None
  }

  /** `formatResults` */
  function Report(results: seq<string>): string {
    UrlReport("CRAWLER RESULTS", "No URLs found", results)
  }

  /** The report names "No URLs found" when there are none; otherwise, when no URL holds a
      newline, its lines are the counting heading, a blank line and `• url` for each URL in
      order, and the heading's number reads back as the count. */
  lemma ReportLines(results: seq<string>)
    requires forall k :: 0 <= k < |results| ==> '\n' !in results[k]
    ensures |results| == 0 ==> Report(results) == "No URLs found"
    ensures |results| > 0 ==>
      Split(Report(results), '\n') == [CountHeading("CRAWLER RESULTS", |results|), ""] + Bullets(results)
    ensures var n := NatToString(|results|); DigitsValue(CountHeading("CRAWLER RESULTS", |results|)[17..17 + |n|]) == |results|
  {
    assert '\n' !in "CRAWLER RESULTS";
    UrlReportLines("CRAWLER RESULTS", "No URLs found", results);
    CountHeadingCounts("CRAWLER RESULTS", |results|);
  }

  /** The file's name for the day `today` (`YYYY-MM-DD`): it names the domain unless a file was
      crawled. */
  function DownloadName(file: Option<SelectedFile>, domain: string, today: string): string {
    if file.Some? then "crawled-urls-from-file-" + today + ".txt"
    else "crawled-urls-" + domain + "-" + today + ".txt"
  }

  class UrlCrawlerModal {
    var isLoading: bool
    var results: seq<string>
    var error: Option<string>
    var domain: string
    var file: Option<SelectedFile>
    var activeTab: Tab

    constructor ()
      ensures !isLoading && results == [] && error.None? && domain == "" && file.None? && activeTab == Single
    {
      isLoading := false;
      results := [];
      error := None;
      domain := "";
      file := None;
      activeTab := Single;
    }

    /** Switching tabs clears the error. */
    method SetTab(tab: Tab)
      modifies this
      ensures activeTab == tab && error.None?
      ensures results == old(results) && domain == old(domain) && file == old(file) && isLoading == old(isLoading)
    {
      activeTab := tab;
      error := None;
    }

    /** The domain input keeps the trimmed text and drops the chosen file. */
    method SetDomain(value: string)
      modifies this
      ensures domain == Trim(value) && file.None?
      ensures results == old(results) && error == old(error) && activeTab == old(activeTab)
      ensures isLoading == old(isLoading)
    {
      domain := Trim(value);
      file := None;
    }

    /** The remove button beside the chosen file. */
    method ClearFile()
      modifies this
      ensures file.None?
      ensures results == old(results) && error == old(error) && domain == old(domain)
      ensures activeTab == old(activeTab) && isLoading == old(isLoading)
    {
      file := None;
    }

    /** `handleFileChange` with the files picked: a text file is taken and clears the domain;
        anything else changes nothing. */
    method HandleFileChange(files: seq<SelectedFile>)
      modifies this
      ensures |files| > 0 && IsTextFile(files[0]) ==> file == Some(files[0]) && domain == ""
      ensures !(|files| > 0 && IsTextFile(files[0])) ==> file == old(file) && domain == old(domain)
      ensures results == old(results) && error == old(error) && activeTab == old(activeTab)
      ensures isLoading == old(isLoading)
    {
      if |files| > 0 {
        var selectedFile := files[0];
        if IsTextFile(selectedFile) {
          file := Some(selectedFile);
          domain := "";
        }
      }
    }

    /** `handleRunCrawler` with the route's answer; `sent` is the request body, `None` when a
        guard stops the run. */
    method HandleRunCrawler(answer: Upstream<CrawlAnswer>) returns (sent: Option<CrawlRequest>)
      modifies this
      ensures domain == old(domain) && file == old(file) && activeTab == old(activeTab)
      ensures sent.None? <==> GuardError(old(activeTab), old(domain), old(file)).Some?
      ensures sent.None? ==>
        error == GuardError(old(activeTab), old(domain), old(file)) && results == old(results)
        && isLoading == old(isLoading)
      ensures sent.Some? && old(activeTab) == Single ==> sent == Some(JsonDomain(old(domain)))
      ensures sent.Some? && old(activeTab) == Batch ==> sent == Some(MultipartFile(old(file).value))
      ensures sent.Some? ==> !isLoading
      ensures sent.Some? && answer.Ok? ==> error.None? && results == answer.value.results.GetOr([])
      ensures sent.Some? && answer.Failed? ==> error == Some(OrElse(answer.text, CrawlFailed)) && results == []
      ensures sent.Some? && answer.Threw? ==>
        error == Some(ThrownMessage(answer.error, UnknownError)) && results == []
    {
      if activeTab == Single && domain == "" {
        error := Some(DomainRequired);
        return None;
      }
      if activeTab == Batch && file.None? {
        error := Some(FileRequired);
        return None;
      }
      isLoading := true;
      error := None;
      results := [];
      if activeTab == Single {
        sent := Some(JsonDomain(domain));
      } else {
        sent := Some(MultipartFile(file.value));
      }
      match answer {
        case Failed(_, text) =>
          error := Some(ThrownMessage(ErrorObject("Error", OrElse(text, CrawlFailed)), UnknownError));
        case Ok(data) =>
          results := data.results.GetOr([]);
        case Threw(e) =>
          error := Some(ThrownMessage(e, UnknownError));
      }
      isLoading := false;
    }

    /** `handleDownloadResults` on the day `today` (`YYYY-MM-DD`): nothing without results;
        otherwise a file holding the results joined with newlines, so one URL per line when no
        result holds a newline itself. */
    method HandleDownloadResults(today: string) returns (d: Option<Download>)
      ensures d.None? <==> results == []
      ensures d.Some? ==> d.value.fileName == DownloadName(file, domain, today)
      ensures d.Some? ==> d.value.content == Join(results, "\n")
      ensures d.Some? && (forall k :: 0 <= k < |results| ==> '\n' !in results[k]) ==>
        Split(d.value.content, '\n') == results
    {
      if |results| == 0 {
        return None;
      }
      var fileContent := Join(results, "\n");
      if forall k :: 0 <= k < |results| ==> '\n' !in results[k] {
        JoinSplit(results, '\n');
      }
      d := Some(Download(DownloadName(file, domain, today), fileContent));
    }
  }
}
