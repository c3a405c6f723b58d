/**
 * The deep crawler's modal (components/tools/deep-crawler-modal.tsx): it posts one target to the
 * deep-crawler route, shows the URLs found under a heading that counts them, remembers when the
 * crawler found none, and downloads the URLs as a UTF-8 text file that starts with a byte order
 * mark and is named after the target with every UTF-16 code unit outside `[A-Za-z0-9]` made a `-`.
 */
module DeepCrawlerModal {
  import opened Wrappers
  import opened Strings
  import opened Routes
  import opened ToolModals
  import UriComponent

  /** The field of the route's JSON answer the modal stores. */
  datatype CrawlAnswer = CrawlAnswer(results: Option<seq<string>>)

  const TargetRequired := "Target URL is required"
  const CrawlFailed := "Failed to crawl URLs"
  const UnknownError := "Unknown error occurred"
  const Title := "DEEP CRAWLER RESULTS"
  const NoUrls := "No URLs found"

  /** The three bytes written in front of the text: the UTF-8 byte order mark. */
  const Bom: seq<UriComponent.Byte> := [0xEF, 0xBB, 0xBF]

  /** A file handed to the browser as raw bytes followed by text encoded as UTF-8. */
  datatype BlobDownload = BlobDownload(fileName: string, prefix: seq<UriComponent.Byte>, text: string)

  /** The characters a sanitised target is made of: those `[a-z0-9]` matches under the `i` flag,
      and `-`. */
  predicate FileSafe(s: string) {
    forall k :: 0 <= k < |s| ==> IsAsciiAlnum(s[k]) || s[k] == '-'
  }

  /** What one character becomes: itself when it is a letter or digit, otherwise one `-` per
      UTF-16 code unit, so two for a character outside the Basic Multilingual Plane. */
  function SanitizeChar(c: char): (r: string)
    ensures FileSafe(r) && |r| >= 1
    ensures IsAsciiAlnum(c) || c == '-' <==> r == [c]
  {
    if IsAsciiAlnum(c) then [c] else if c as int >= 0x10000 then "--" else "-"
  }

  /** `target.replace(/[^a-z0-9]/gi, '-')` */
  function Sanitize(target: string): (r: string)
    ensures FileSafe(r) && |r| >= |target|
  {
    if |target| == 0 then "" else SanitizeChar(target[0]) + Sanitize(target[1..])
  }

  /** Sanitising leaves a target unchanged exactly when it is already made of letters, digits
      and dashes; since its result is always made of those, sanitising twice changes nothing
      more. */
  lemma {:induction false} SanitizeFixesOnlyFileSafe(target: string)
    ensures Sanitize(target) == target <==> FileSafe(target)
    ensures Sanitize(Sanitize(target)) == Sanitize(target)
  {
    if |target| > 0 {
      var c := target[0];
      var rest := target[1..];
      SanitizeFixesOnlyFileSafe(rest);
      assert target == [c] + rest;
      if FileSafe(target) {
        assert FileSafe(rest) by {
          forall k | 0 <= k < |rest| ensures IsAsciiAlnum(rest[k]) || rest[k] == '-' {
            assert rest[k] == target[k + 1];
          }
        }
        assert SanitizeChar(c) == [c];
      } else if IsAsciiAlnum(c) || c == '-' {
        assert !FileSafe(rest) by {
          forall k | 0 <= k < |target| && k > 0 ensures target[k] == rest[k - 1] {
          }
        }
        assert Sanitize(target) == SanitizeChar(c) + Sanitize(rest);
        assert SanitizeChar(c) == [c];
        assert Sanitize(target)[1..] == Sanitize(rest);
      } else {
        assert Sanitize(target) == SanitizeChar(c) + Sanitize(rest);
        assert Sanitize(target)[0] == '-' && c != '-';
      }
    }
    SanitizedIsFixed(Sanitize(target));
  }

  /** Text made of letters, digits and dashes is left as it is. */
  lemma {:induction false} SanitizedIsFixed(s: string)
    requires FileSafe(s)
    ensures Sanitize(s) == s
  {
    if |s| > 0 {
      assert FileSafe(s[1..]) by {
        forall k | 0 <= k < |s[1..]| ensures IsAsciiAlnum(s[1..][k]) || s[1..][k] == '-' {
          assert s[1..][k] == s[k + 1];
        }
      }
      SanitizedIsFixed(s[1..]);
      assert SanitizeChar(s[0]) == [s[0]];
      assert s == [s[0]] + s[1..];
    }
  }

  /** The byte order mark is the UTF-8 encoding of U+FEFF. */
  lemma BomIsEncodedByteOrderMark()
    ensures UriComponent.Utf8('\U{FEFF}') == Bom
  {
    assert 0xFEFF / 4096 == 15 && (0xFEFF / 64) % 64 == 59 && 0xFEFF % 64 == 63;
  }

  /** The file's name for the day `today` (`YYYY-MM-DD`). */
  function DownloadName(target: string, today: string): string {
    "deep-crawled-urls-" + Sanitize(target) + "-" + today + ".txt"
  }

  /** `formatResults` */
  function Report(results: seq<string>): string {
    UrlReport(Title, NoUrls, results)
  }

  /** The report says "No URLs found" when there are none; otherwise, when no URL holds a newline,
      its lines are the counting heading, a blank line and `• url` for each URL in order, and the
      heading's number reads back as the count. */
  lemma ReportLines(results: seq<string>)
    requires forall k :: 0 <= k < |results| ==> '\n' !in results[k]
    ensures |results| == 0 ==> Report(results) == NoUrls
    ensures |results| > 0 ==> Split(Report(results), '\n') == [CountHeading(Title, |results|), ""] + Bullets(results)
    ensures var n := NatToString(|results|); DigitsValue(CountHeading(Title, |results|)[22..22 + |n|]) == |results|
  {
    assert '\n' !in Title;
    UrlReportLines(Title, NoUrls, results);
    CountHeadingCounts(Title, |results|);
  }

  class DeepCrawlerModal {
    var isLoading: bool
    var results: seq<string>
    var error: Option<string>
    var target: string
    var noResultsFound: bool

    /** The "no URLs found" flag is only ever set with the results cleared. */
    predicate Valid()
      reads this
    {
      noResultsFound ==> results == []
    }

    constructor ()
      ensures Valid()
      ensures !isLoading && results == [] && error.None? && target == "" && !noResultsFound
    {
      isLoading := false;
      results := [];
      error := None;
      target := "";
      noResultsFound := false;
    }

    /** The target input keeps the trimmed text. */
    method SetTarget(value: string)
      requires Valid()
      modifies this
      ensures Valid() && target == Trim(value)
      ensures results == old(results) && error == old(error) && noResultsFound == old(noResultsFound)
      ensures isLoading == old(isLoading)
    {
      target := Trim(value);
    }

    /** `handleRunCrawler` with the route's answer; `sent` is the target posted, `None` when the
        target is empty. */
    method HandleRunCrawler(answer: Upstream<CrawlAnswer>) returns (sent: Option<string>)
      requires Valid()
      modifies this
      ensures Valid() && target == old(target)
      ensures sent.None? <==> old(target) == ""
      ensures sent.None? ==>
        error == Some(TargetRequired) && results == old(results) && noResultsFound == old(noResultsFound)
        && isLoading == old(isLoading)
      ensures sent.Some? ==> sent.value == target && !isLoading
      ensures sent.Some? ==>
        (noResultsFound <==> answer.Ok? && (answer.value.results.None? || answer.value.results.value == []))
      ensures sent.Some? ==>
        results == if answer.Ok? && answer.value.results.Some? then answer.value.results.value else []
      ensures sent.Some? && answer.Ok? ==> error.None?
      ensures sent.Some? && answer.Failed? ==> error == Some(OrElse(answer.text, CrawlFailed))
      ensures sent.Some? && answer.Threw? ==> error == Some(ThrownMessage(answer.error, UnknownError))
    {
      if target == "" {
        error := Some(TargetRequired);
        return None;
      }
      isLoading := true;
      error := None;
      results := [];
      noResultsFound := false;
      sent := Some(target);
      match answer {
        case Failed(_, text) =>
          error := Some(ThrownMessage(ErrorObject("Error", OrElse(text, CrawlFailed)), UnknownError));
        case Ok(data) =>
          if data.results.None? || |data.results.value| == 0 {
            noResultsFound := true;
          } else {
            results := data.results.value;
          }
        case Threw(e) =>
          error := Some(ThrownMessage(e, UnknownError));
      }
      isLoading := false;
    }

    /** `handleDownloadResults` on the day `today` (`YYYY-MM-DD`): nothing without results;
        otherwise the byte order mark, then the URLs joined with newlines (one per line when no
        URL holds a newline itself). Because the flag is only set
        with no results, the download is refused exactly when there are no results. */
    method HandleDownloadResults(today: string) returns (d: Option<BlobDownload>)
      requires Valid()
      ensures d.None? <==> results == [] || noResultsFound
      ensures d.None? <==> results == []
      ensures d.Some? ==> d.value.fileName == DownloadName(target, today) && d.value.prefix == Bom
      ensures d.Some? ==> d.value.text == Join(results, "\n")
      ensures d.Some? && (forall k :: 0 <= k < |results| ==> '\n' !in results[k]) ==>
        Split(d.value.text, '\n') == results
    {
      if |results| == 0 || noResultsFound {
        return None;
      }
      var fileContent := Join(results, "\n");
      if forall k :: 0 <= k < |results| ==> '\n' !in results[k] {
        JoinSplit(results, '\n');
      }
      d := Some(BlobDownload(DownloadName(target, today), Bom, fileContent));
    }
  }
}
