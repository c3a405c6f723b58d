/**
 * The open-redirect scanner's modal (components/tools/open-redirect-modal.tsx): it posts one URL
 * to the open-redirect route, stores the text answer with ANSI escape sequences removed, and
 * shows it as HTML in which every `http://` or `https://` run of non-space characters becomes a
 * link. The text around the links is copied as it is, without HTML escaping.
 */
module OpenRedirectModal {
  import opened Wrappers
  import opened Strings
  import opened Routes
  import opened ToolModals
  import Ansi

  const UrlRequired := "URL is required"
  const ScanFailed := "Failed to scan for open redirect"
  const UnknownError := "Unknown error occurred"

  predicate NotSpace(c: char) { !IsSpace(c) }

  /** The length of the scheme `t` starts with: 8 for `https://`, 7 for `http://`, 0 for none. */
  function SchemeLen(t: string): (n: nat)
    ensures n <= |t|
    ensures n == 8 <==> StartsWith(t, "https://")
    ensures n == 7 <==> StartsWith(t, "http://")
    ensures n == 0 <==> !StartsWith(t, "https://") && !StartsWith(t, "http://")
  {
    SchemesExclusive(t);
    if StartsWith(t, "https://") then 8 else if StartsWith(t, "http://") then 7 else 0
  }

  /** No text starts with both schemes: they differ at their fifth character. */
  lemma SchemesExclusive(t: string)
    ensures !(StartsWith(t, "https://") && StartsWith(t, "http://"))
  {
    assert "https://"[4] == 's' && "http://"[4] == ':';
    if StartsWith(t, "https://") {
      assert t[..7][4] == t[..8][4];
    }
  }

  /** Where `https?:\/\/[^\s]+` can match at the front of `t`: a scheme followed by at least one
      non-space character. */
  predicate UrlAt(t: string) {
    (StartsWith(t, "http://") && |t| > 7 && !IsSpace(t[7]))
    || (StartsWith(t, "https://") && |t| > 8 && !IsSpace(t[8]))
  }

  /** A text the pattern matches as a whole: a scheme, then one or more characters, none of them
      white space. */
  predicate IsUrlRun(u: string) {
    SchemeLen(u) > 0 && |u| > SchemeLen(u) && forall i :: SchemeLen(u) <= i < |u| ==> !IsSpace(u[i])
  }

  /** A scheme can only start with `h`, so a match never starts at white space. */
  lemma NoUrlAtSpace(t: string)
    requires |t| > 0 && IsSpace(t[0])
    ensures !UrlAt(t) && SchemeLen(t) == 0
  {
    assert "https://"[0] == 'h' && "http://"[0] == 'h' && t[0] != 'h';
    forall p | |p| > 0 && StartsWith(t, p) ensures t[0] == p[0] {
      assert t[..|p|][0] == t[0];
    }
  }

  /** The length of the match at the front of `t` (0 when none): the greedy `[^\s]+` takes every
      character up to the next white space. */
  function UrlRunLen(t: string): (n: nat)
    ensures n <= |t|
    ensures n > 0 <==> UrlAt(t)
    ensures n > 0 ==> IsUrlRun(t[..n]) && (n == |t| || IsSpace(t[n]))
  {
    var scheme := SchemeLen(t);
    if scheme == 0 || scheme == |t| || IsSpace(t[scheme]) then 0
    else
      RunEndFacts(t, scheme, NotSpace);
      var e := RunEnd(t, scheme, NotSpace);
      assert SchemeLen(t[..e]) == scheme by {
        assert t[..e][..scheme] == t[..scheme];
        SchemesExclusive(t[..e]);
      }
      e
  }

  /** A piece of the text: a character copied as it is, or a matched URL run. */
  datatype Segment = Char(c: char) | Link(url: string)

  /** The text a segment stands for. */
  function RawOf(s: Segment): string {
    match s
    case Char(c) => [c]
    case Link(url) => url
  }

  function Raw(segs: seq<Segment>): string {
    if |segs| == 0 then "" else RawOf(segs[0]) + Raw(segs[1..])
  }

  /** How the global `replace` cuts `t`: scanning from the left, a match is taken wherever one
      starts, and any other character is copied. */
  function Segments(t: string): seq<Segment>
    decreases |t|
  {
    if |t| == 0 then []
    else
      var n := UrlRunLen(t);
      if n > 0 then [Link(t[..n])] + Segments(t[n..]) else [Char(t[0])] + Segments(t[1..])
  }

  /** What any cut of `t` by the global `replace` must be: the pieces give back `t`, every link is
      a whole match followed by white space or the end, and no match starts at a copied
      character. */
  predicate IsMatchCut(t: string, segs: seq<Segment>) {
    Raw(segs) == t
    && (forall k :: 0 <= k < |segs| && segs[k].Link? ==>
          IsUrlRun(segs[k].url) && (k + 1 == |segs| || (segs[k + 1].Char? && IsSpace(segs[k + 1].c))))
    && (forall k :: 0 <= k < |segs| && segs[k].Char? ==> !UrlAt(Raw(segs[k..])))
  }

  /** A cut stays a cut without its first segment. */
  lemma MatchCutTail(t: string, segs: seq<Segment>)
    requires |segs| > 0 && IsMatchCut(t, segs)
    ensures IsMatchCut(Raw(segs[1..]), segs[1..])
  {
    var rest := segs[1..];
    forall k | 0 <= k < |rest| && rest[k].Char? ensures !UrlAt(Raw(rest[k..])) {
      assert rest[k..] == segs[k + 1..];
    }
  }

  /** What a cut says about its first segment. */
  lemma MatchCutHead(t: string, segs: seq<Segment>)
    requires |segs| > 0 && IsMatchCut(t, segs)
    ensures t == RawOf(segs[0]) + Raw(segs[1..])
    ensures segs[0].Char? ==> !UrlAt(t)
    ensures segs[0].Link? ==> IsUrlRun(segs[0].url)
    ensures segs[0].Link? ==> Raw(segs[1..]) == "" || IsSpace(Raw(segs[1..])[0])
  {
    assert segs[0..] == segs;
    if |segs| > 1 && segs[0].Link? {
      assert Raw(segs[1..]) == [segs[1].c] + Raw(segs[2..]) by {
        assert segs[1..][1..] == segs[2..];
      }
    }
  }

  /** Copying a character at which no match starts, in front of a cut, gives a cut. */
  lemma CutConsChar(c: char, rest: string, segs: seq<Segment>)
    requires IsMatchCut(rest, segs) && !UrlAt([c] + rest)
    ensures IsMatchCut([c] + rest, [Char(c)] + segs)
  {
    var all := [Char(c)] + segs;
    assert all[1..] == segs;
    forall k | 1 <= k < |all| ensures all[k..] == segs[k - 1..] && all[k] == segs[k - 1] {
    }
    assert all[0..] == all;
  }

  /** A whole match followed by white space (or by nothing), in front of a cut, gives a cut. */
  lemma CutConsLink(u: string, rest: string, segs: seq<Segment>)
    requires IsMatchCut(rest, segs) && IsUrlRun(u)
    requires segs == [] || (segs[0].Char? && IsSpace(segs[0].c))
    ensures IsMatchCut(u + rest, [Link(u)] + segs)
  {
    var all := [Link(u)] + segs;
    assert all[1..] == segs;
    forall k | 1 <= k < |all| ensures all[k..] == segs[k - 1..] && all[k] == segs[k - 1] {
    }
  }

  /** The scanner's cut is a match cut. */
  lemma {:induction false} SegmentsAreMatchCut(t: string)
    ensures IsMatchCut(t, Segments(t))
    decreases |t|
  {
    if |t| > 0 {
      var n := UrlRunLen(t);
      if n > 0 {
        var rest := t[n..];
        assert t[..n] + rest == t;
        SegmentsAreMatchCut(rest);
        if |rest| > 0 {
          NoUrlAtSpace(rest);
          assert Segments(rest) == [Char(rest[0])] + Segments(rest[1..]);
        }
        assert Segments(t) == [Link(t[..n])] + Segments(rest);
        CutConsLink(t[..n], rest, Segments(rest));
      } else {
        assert [t[0]] + t[1..] == t;
        SegmentsAreMatchCut(t[1..]);
        assert Segments(t) == [Char(t[0])] + Segments(t[1..]);
        CutConsChar(t[0], t[1..], Segments(t[1..]));
      }
    }
  }

  /** A match cut is unique: any cut with those properties is the scanner's. */
  lemma {:induction false} MatchCutIsSegments(t: string, segs: seq<Segment>)
    requires IsMatchCut(t, segs)
    ensures segs == Segments(t)
    decreases |segs|
  {
    if |segs| > 0 {
      MatchCutTail(t, segs);
      MatchCutHead(t, segs);
      var rest := Raw(segs[1..]);
      MatchCutIsSegments(rest, segs[1..]);
      assert segs == [segs[0]] + segs[1..];
      if segs[0].Char? {
        assert t[1..] == rest;
      } else {
        var u := segs[0].url;
        assert t[..|u|] == u && t[|u|..] == rest;
        LinkLength(t, u);
      }
    }
  }

  /** A whole match at the front of `t` that ends at white space or at the end is what the scanner
      takes there. */
  lemma LinkLength(t: string, u: string)
    requires IsUrlRun(u) && StartsWith(t, u)
    requires |u| == |t| || IsSpace(t[|u|])
    ensures UrlRunLen(t) == |u|
  {
    var scheme := SchemeLen(u);
    assert t[..|u|] == u;
    assert SchemeLen(t) == scheme by {
      assert t[..scheme] == u[..scheme];
      SchemesExclusive(t);
    }
    assert forall i :: scheme <= i < |u| ==> t[i] == u[i];
    RunEndIs(t, scheme, |u|, NotSpace);
  }

  const AnchorOpen := "<a href=\""
  const AnchorMiddle := "\" target=\"_blank\" rel=\"noopener noreferrer\" class=\"text-blue-400 hover:underline\">"
  const AnchorClose := "</a>"

  /** The replacement `<a href="$1" …>$1</a>`: the run is both the link's target and its text. */
  function Anchor(url: string): string {
    AnchorOpen + url + AnchorMiddle + url + AnchorClose
  }

  function RenderOf(s: Segment): string {
    match s
    case Char(c) => [c]
    case Link(url) => Anchor(url)
  }

  function Render(segs: seq<Segment>): string {
    if |segs| == 0 then "" else RenderOf(segs[0]) + Render(segs[1..])
  }

  /** `formatResultWithLinks` */
  function FormatResultWithLinks(text: string): string {
    Render(Segments(text))
  }

  /** Text in which no match starts anywhere comes out exactly as it went in: nothing is escaped,
      so markup in the scanner's output reaches the page as markup. */
  lemma {:induction false} NoUrlNoChange(text: string)
    requires forall i :: 0 <= i <= |text| ==> !UrlAt(text[i..])
    ensures FormatResultWithLinks(text) == text
    decreases |text|
  {
    if |text| > 0 {
      assert text[0..] == text;
      var rest := text[1..];
      forall i | 0 <= i <= |rest| ensures !UrlAt(rest[i..]) {
        assert rest[i..] == text[i + 1..];
      }
      NoUrlNoChange(rest);
      assert Segments(text) == [Char(text[0])] + Segments(rest);
      assert Segments(text)[1..] == Segments(rest);
      assert [text[0]] + rest == text;
    }
  }

  /** A tag in the output is copied into the page's HTML as it is. */
  lemma MarkupNotEscaped()
    ensures FormatResultWithLinks("<b>") == "<b>"
  {
    forall i | 0 <= i <= |"<b>"| ensures !UrlAt("<b>"[i..]) {
    }
    NoUrlNoChange("<b>");
  }

  /** A match at the front of the text becomes one link whose target and text are the whole
      run, up to the next white space, and the rendering carries on after the run. */
  lemma FirstUrlLinked(text: string)
    requires UrlAt(text)
    ensures var n := UrlRunLen(text);
      FormatResultWithLinks(text) == Anchor(text[..n]) + FormatResultWithLinks(text[n..])
  {
    var n := UrlRunLen(text);
    assert Segments(text) == [Link(text[..n])] + Segments(text[n..]);
    assert Segments(text)[1..] == Segments(text[n..]);
  }

  /** The file's name for the day `today` (`YYYY-MM-DD`). */
  function DownloadName(today: string): string {
    "open-redirect-scan-" + today + ".txt"
  }

  class OpenRedirectModal {
    var isLoading: bool
    var result: string
    var error: Option<string>
    var url: string

    constructor ()
      ensures !isLoading && result == "" && error.None? && url == ""
    {
      isLoading := false;
      result := "";
      error := None;
      url := "";
    }

    /** The URL input keeps the trimmed text. */
    method SetUrl(value: string)
      modifies this
      ensures url == Trim(value)
      ensures result == old(result) && error == old(error) && isLoading == old(isLoading)
    {
      url := Trim(value);
    }

    /** The HTML the result panel shows. */
    function Html(): string
      reads this
    {
      FormatResultWithLinks(result)
    }

    /** `handleRunTool` with the route's text answer; `sent` is the URL posted, `None` when the URL
        is empty. */
    method HandleRunTool(answer: Upstream<string>) returns (sent: Option<string>)
      modifies this
      ensures url == old(url)
      ensures sent.None? <==> url == ""
      ensures sent.None? ==> error == Some(UrlRequired) && result == old(result) && isLoading == old(isLoading)
      ensures sent.Some? ==> sent.value == url && !isLoading
      ensures sent.Some? ==> result == if answer.Ok? then Ansi.Strip(answer.value) else ""
      ensures sent.Some? && answer.Ok? ==> error.None?
      ensures sent.Some? && answer.Failed? ==> error == Some(OrElse(answer.text, ScanFailed))
      ensures sent.Some? && answer.Threw? ==> error == Some(ThrownMessage(answer.error, UnknownError))
    {
      if url == "" {
        error := Some(UrlRequired);
        return None;
      }
      isLoading := true;
      error := None;
      result := "";
      sent := Some(url);
      match answer {
        case Failed(_, text) =>
          error := Some(ThrownMessage(ErrorObject("Error", OrElse(text, ScanFailed)), UnknownError));
        case Ok(rawResult) =>
          result := Ansi.Strip(rawResult);
        case Threw(e) =>
          error := Some(ThrownMessage(e, UnknownError));
      }
      isLoading := false;
    }

    /** `handleDownloadResults` on the day `today` (`YYYY-MM-DD`): nothing without a result;
        otherwise the stored text, without the links. */
    method HandleDownloadResults(today: string) returns (d: Option<Download>)
      ensures d.None? <==> result == ""
      ensures d.Some? ==> d.value == Download(DownloadName(today), result)
    {
      if result == "" {
        return None;
      }
      d := Some(Download(DownloadName(today), result));
    }
  }
}
