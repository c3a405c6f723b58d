/**
 * The Wayback dorking modal (components/tools/wayback-dorking-modal.tsx): it posts a bare domain
 * to the wayback-dorking route and reads the streamed answer. After every chunk the list shown is
 * the whole text received so far split on newlines with the empty pieces dropped, so a line still
 * being received shows as it stands and is replaced once the rest of it arrives.
 */
module WaybackDorkingModal {
  import opened Wrappers
  import opened Strings
  import opened Routes
  import opened ToolModals
  import opened StreamLines

  const ProtocolGiven := "Please enter domain without protocol (http/https)"
  const TargetRequired := "Target domain is required"
  const FetchFailed := "Failed to fetch Wayback URLs"
  const NoReader := "No reader available"
  const UnknownError := "Unknown error occurred"
  const Title := "WAYBACK URL RESULTS"
  const NoUrls := "No historical URLs found"

  /** How the request went: a failed response with the `error` field of its JSON body, a
      response without a body to read, the text chunks read before the stream ended (normally
      or with an error), or an error thrown by `fetch` itself. */
  datatype Answer =
    | Rejected(errorField: Option<string>)
    | Unreadable
    | Streamed(chunks: seq<string>, failure: Option<Thrown>)
    | FetchThrew(thrown: Thrown)

  /** The error the checks of `handleRunTool` set, `None` when the request goes out. A target with
      a protocol is refused before the empty check. */
  function GuardError(target: string): (r: Option<string>)
    ensures r.None? <==> target != "" && !Contains(target, "://")
    ensures Contains(target, "://") ==> r == Some(ProtocolGiven)
    ensures target == "" ==> r == Some(TargetRequired)
  {
    if Contains(target, "://") then Some(ProtocolGiven)
    else if target == "" then Some(TargetRequired)
    else None
  }

  /** The target input's `onChange`: the typed text trimmed, then a leading `http://` or
      `https://` in any case removed. */
  function TypedTarget(value: string): string {
    StripScheme(Trim(value))
  }

  /** A protocol typed in any mix of cases in front of the domain is removed, and only that one
      prefix is: what follows it is kept as it is. */
  lemma TypedSchemeRemoved(scheme: string, domain: string)
    requires ToLower(scheme) == "http://" || ToLower(scheme) == "https://"
    ensures StripScheme(scheme + domain) == domain
  {
    var s := scheme + domain;
    assert forall i :: 0 <= i < |scheme| ==> s[i] == scheme[i];
    if ToLower(scheme) == "http://" {
      assert LowerChar(s[4]) == ':';
      assert !StartsWithIgnoringCase(s, "https://");
      assert StartsWithIgnoringCase(s, "http://");
    } else {
      assert StartsWithIgnoringCase(s, "https://");
    }
    assert s[|scheme|..] == domain;
  }

  /** The list shown once the text `text` has arrived. */
  function Shown(text: string): (r: seq<string>)
    ensures forall k :: 0 <= k < |r| ==> r[k] != "" && '\n' !in r[k]
  {
    SplitJoin(text, '\n');
    NonEmptyMembers(Split(text, '\n'));
    NonEmpty(Split(text, '\n'))
  }

  /** The list shown is the non-empty lines a newline has finished, then the text after the last
      newline when there is any: a line only partly received is shown as it stands. */
  lemma ShownEndsWithPartialLine(text: string)
    ensures Shown(text) == NonEmpty(FinishedLines(text)) + (if Pending(text) == "" then [] else [Pending(text)])
  {
    var pieces := Split(text, '\n');
    assert pieces == Complete(pieces) + [Last(pieces)];
    NonEmptyAppend(Complete(pieces), [Last(pieces)]);
  }

  /** Lines a newline has finished stay on the list, in place, whatever arrives next. */
  lemma FinishedLinesStay(text: string, chunk: string)
    ensures NonEmpty(FinishedLines(text)) <= Shown(text + chunk)
  {
    FeedStep(text, chunk);
    var pieces := Split(text + chunk, '\n');
    assert pieces == Complete(pieces) + [Last(pieces)];
    NonEmptyAppend(Complete(pieces), [Last(pieces)]);
    NonEmptyAppend(FinishedLines(text), FinishedLines(Pending(text) + chunk));
  }

  /** A partial line shown after one chunk is replaced by the whole line after the next: the list
      `["ab"]` does not stay on screen once `"c\n"` arrives. */
  lemma PartialLineReplaced()
    ensures Shown("ab") == ["ab"]
    ensures Shown("ab" + "c\n") == ["abc"]
  {
    assert '\n' !in "ab" && '\n' !in "abc";
    SplitNoSeparator("ab", '\n');
    SplitTerminated("abc", '\n');
    assert "ab" + "c\n" == "abc" + ['\n'];
    assert NonEmpty(["abc", ""]) == ["abc"] + NonEmpty([""]);
  }

  /** The stream loop of `handleRunTool`: the chunks are appended one by one to the text received,
      and after each one the list shown is recomputed from the whole text. */
  method ReadChunks(chunks: seq<string>) returns (results: seq<string>)
    ensures results == Shown(Concat(chunks))
  {
    var fullContent := "";
    results := [];
    assert Split(fullContent, '\n') == [""];
    for k := 0 to |chunks|
      invariant fullContent == Concat(chunks[..k])
      invariant results == Shown(fullContent)
    {
      assert chunks[..k + 1][..k] == chunks[..k];
      fullContent := fullContent + chunks[k];
      results := NonEmpty(Split(fullContent, '\n'));
    }
    assert chunks[..|chunks|] == chunks;
  }

  /** `formatResults` */
  function Report(results: seq<string>): string {
    UrlReport(Title, NoUrls, results)
  }

  /** The report says "No historical URLs found" when there are none; otherwise, when no URL
      holds a newline, its lines are the counting heading, a blank line and `• url` for each URL
      in order, and the heading's number reads back as the count. */
  lemma ReportLines(results: seq<string>)
    requires forall k :: 0 <= k < |results| ==> '\n' !in results[k]
    ensures |results| == 0 ==> Report(results) == NoUrls
    ensures |results| > 0 ==> Split(Report(results), '\n') == [CountHeading(Title, |results|), ""] + Bullets(results)
    ensures var n := NatToString(|results|); DigitsValue(CountHeading(Title, |results|)[21..21 + |n|]) == |results|
  {
    assert '\n' !in Title;
    UrlReportLines(Title, NoUrls, results);
    CountHeadingCounts(Title, |results|);
  }

  /** The file's name for the day `today` (`YYYY-MM-DD`). */
  function DownloadName(target: string, today: string): string {
    "wayback-urls-" + target + "-" + today + ".txt"
  }

  class WaybackDorkingModal {
    var isLoading: bool
    var results: seq<string>
    var error: Option<string>
    var target: string

    /** Every URL shown is a non-empty line of the streamed text. */
    predicate Valid()
      reads this
    {
      forall k :: 0 <= k < |results| ==> results[k] != "" && '\n' !in results[k]
    }

    constructor ()
      ensures Valid() && !isLoading && results == [] && error.None? && target == ""
    {
      isLoading := false;
      results := [];
      error := None;
      target := "";
    }

    /** The target input's `onChange`. */
    method SetTarget(value: string)
      requires Valid()
      modifies this
      ensures Valid() && target == TypedTarget(value)
      ensures results == old(results) && error == old(error) && isLoading == old(isLoading)
    {
      target := StripScheme(Trim(value));
    }

    /** `handleRunTool` with the way the request went; `sent` is the target posted, `None` when a
        check stops the run. */
    method HandleRunTool(answer: Answer) returns (sent: Option<string>)
      requires Valid()
      modifies this
      ensures Valid() && target == old(target)
      ensures sent.None? <==> GuardError(target).Some?
      ensures sent.None? ==> error == GuardError(target) && results == old(results) && isLoading == old(isLoading)
      ensures sent.Some? ==> sent.value == target && !isLoading
      ensures sent.Some? ==> results == if answer.Streamed? then Shown(Concat(answer.chunks)) else []
      ensures sent.Some? ==> error == match answer
        case Rejected(field) => Some(ErrorMessage(field, FetchFailed))
        case Unreadable => Some(NoReader)
        case Streamed(_, failure) => if failure.Some? then Some(ThrownMessage(failure.value, UnknownError)) else None
        case FetchThrew(e) => Some(ThrownMessage(e, UnknownError))
    {
      var guard := GuardError(target);
      if guard.Some? {
        error := guard;
        return None;
      }
      isLoading := true;
      error := None;
      results := [];
      sent := Some(target);
      match answer {
        case Rejected(field) =>
          error := Some(ThrownMessage(ErrorObject("Error", ErrorMessage(field, FetchFailed)), UnknownError));
        case Unreadable =>
          error := Some(ThrownMessage(ErrorObject("Error", NoReader), UnknownError));
        case Streamed(chunks, failure) =>
          results := ReadChunks(chunks);
          if failure.Some? {
            error := Some(ThrownMessage(failure.value, UnknownError));
          }
        case FetchThrew(e) =>
          error := Some(ThrownMessage(e, UnknownError));
      }
      isLoading := false;
    }

    /** `handleDownloadResults` on the day `today` (`YYYY-MM-DD`): nothing without results;
        otherwise a file whose lines are the results. */
    method HandleDownloadResults(today: string) returns (d: Option<Download>)
      requires Valid()
      ensures d.None? <==> results == []
      ensures d.Some? ==> d.value.fileName == DownloadName(target, today)
      ensures d.Some? ==> Split(d.value.content, '\n') == results
    {
      if |results| == 0 {
        return None;
      }
      JoinSplit(results, '\n');
      d := Some(Download(DownloadName(target, today), Join(results, "\n")));
    }
  }
}
