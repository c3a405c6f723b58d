/**
 * The XSS-scan modal (components/tools/xss-scan-modal.tsx), which runs Dalfox through the
 * backend: the per-mode validation of the form, the multipart fields it sends, the streamed
 * output loop with its final flush, how each output line is shown (a `[POC]` finding with its
 * severity and URL, or the cleaned text) and the findings count shown above the results.
 *
 * Scan modes are the strings "1" to "6": 1-3 scan one URL, 4-6 a file of URLs; 1 and 4 use the
 * default payloads, 2 and 5 PortSwigger's, 3 and 6 a custom payload file.
 */
module XssScanModal {
  import opened Wrappers
  import opened Strings
  import Ansi
  import opened StreamLines
  import opened ToolModals

  // ---------------------------------------------------------------------------------------------
  // Modes, validation and the form sent

  /** The values the tabs and the two payload selects can give the mode. */
  predicate KnownMode(mode: string) {
    mode in {"1", "2", "3", "4", "5", "6"}
  }

  /** `['1', '2', '3'].includes(scanMode)`: the single-URL modes. */
  predicate UrlMode(mode: string) { mode in {"1", "2", "3"} }

  /** `['4', '5', '6'].includes(scanMode)`: the batch modes. */
  predicate FileMode(mode: string) { mode in {"4", "5", "6"} }

  /** `['3', '6'].includes(scanMode)`: the custom-payload modes. */
  predicate PayloadMode(mode: string) { mode in {"3", "6"} }

  /** Each check `handleRunTool` makes before sending, in its order: the first one that fails
      gives the error shown; `None` when the form may be sent. */
  function GuardError(mode: string, targetUrl: string, targetFile: Option<SelectedFile>,
                      payloadFile: Option<SelectedFile>): (r: Option<string>)
    ensures r.None? <==>
      (UrlMode(mode) ==> targetUrl != "") && (FileMode(mode) ==> targetFile.Some?)
      && (PayloadMode(mode) ==> payloadFile.Some?)
    ensures r == Some("Target URL is required for this mode") <==> UrlMode(mode) && targetUrl == ""
    ensures r == Some("Target file is required for this mode") <==>
      !(UrlMode(mode) && targetUrl == "") && FileMode(mode) && targetFile.None?
    ensures r == Some("Custom payload file is required for this mode") <==>
      !(UrlMode(mode) && targetUrl == "") && !(FileMode(mode) && targetFile.None?)
      && PayloadMode(mode) && payloadFile.None?
  {
    if UrlMode(mode) && targetUrl == "" then Some("Target URL is required for this mode")
    else if FileMode(mode) && targetFile.None? then Some("Target file is required for this mode")
    else if PayloadMode(mode) && payloadFile.None? then Some("Custom payload file is required for this mode")
    else None
  }

  /** The Start button's `disabled`: loading, or one of the checks would fail. */
  predicate StartDisabled(isLoading: bool, mode: string, targetUrl: string,
                          targetFile: Option<SelectedFile>, payloadFile: Option<SelectedFile>)
  {
    isLoading
    || (UrlMode(mode) && targetUrl == "")
    || (FileMode(mode) && targetFile.None?)
    || (PayloadMode(mode) && payloadFile.None?)
  }

  /** The button is enabled exactly when not loading and `handleRunTool` would send the form. */
  lemma StartDisabledIffGuardFails(isLoading: bool, mode: string, targetUrl: string,
                                   targetFile: Option<SelectedFile>, payloadFile: Option<SelectedFile>)
    ensures StartDisabled(isLoading, mode, targetUrl, targetFile, payloadFile)
      <==> isLoading || GuardError(mode, targetUrl, targetFile, payloadFile).Some?
  {
  }

  /** One field of the multipart form posted to the scan route. */
  datatype FormField =
    | ModeField(mode: string)
    | TargetUrlField(url: string)
    | TargetFileField(file: SelectedFile)
    | CustomPayloadField(file: SelectedFile)

  /** The fields `handleRunTool` appends, in order: the mode; the URL in the single-URL modes,
      else the target file if one is chosen; the payload file in the custom modes if chosen. */
  function FormFields(mode: string, targetUrl: string, targetFile: Option<SelectedFile>,
                      payloadFile: Option<SelectedFile>): (form: seq<FormField>)
    ensures |form| >= 1 && form[0] == ModeField(mode)
    ensures TargetUrlField(targetUrl) in form <==> UrlMode(mode)
    ensures forall k :: 0 <= k < |form| && form[k].TargetFileField? ==>
      !UrlMode(mode) && targetFile == Some(form[k].file)
    ensures forall k :: 0 <= k < |form| && form[k].CustomPayloadField? ==>
      PayloadMode(mode) && payloadFile == Some(form[k].file)
  {
    var target :=
      if UrlMode(mode) then [TargetUrlField(targetUrl)]
      else if targetFile.Some? then [TargetFileField(targetFile.value)]
      else [];
    var payload := if PayloadMode(mode) && payloadFile.Some? then [CustomPayloadField(payloadFile.value)] else [];
    [ModeField(mode)] + target + payload
  }

  /** Once the checks pass in a mode the UI offers, the form names exactly one target — the URL in
      modes 1-3, the file in modes 4-6 — and the payload file whenever the mode needs one. */
  lemma SentFormHasWhatTheModeNeeds(mode: string, targetUrl: string, targetFile: Option<SelectedFile>,
                                    payloadFile: Option<SelectedFile>)
    requires KnownMode(mode)
    requires GuardError(mode, targetUrl, targetFile, payloadFile).None?
    ensures var form := FormFields(mode, targetUrl, targetFile, payloadFile);
      (UrlMode(mode) ==> targetUrl != "" && form[1] == TargetUrlField(targetUrl))
      && (FileMode(mode) ==> targetFile.Some? && form[1] == TargetFileField(targetFile.value))
      && (PayloadMode(mode) <==> |form| == 3)
      && (PayloadMode(mode) ==> form[2] == CustomPayloadField(payloadFile.value))
  {
  }

  // ---------------------------------------------------------------------------------------------
  // What formatResultLine recognises: /\[POC\]\[(\w+)\]\[(\w+)\]\[([^\]]+)\]\s+(http.+)/

  predicate NotCloseBracket(c: char) { c != ']' }
  predicate NotLineTerminator(c: char) { !IsLineTerminator(c) }

  /** Every character of `s[i..j]` is a `member`. */
  predicate RunOf(s: string, i: nat, j: nat, member: char -> bool) {
    i <= j <= |s| && forall k :: i <= k < j ==> member(s[k])
  }

  /** A finding as Dalfox prints it: its severity, request method, injection kind and the URL
      that demonstrates it. */
  datatype Poc = Poc(severity: string, requestMethod: string, kind: string, url: string)

  /** The pattern's shape in `s` at `i`, with its pieces' boundaries: `[POC][` at `i`, then the
      rest as `MethodShape` says, the severity starting at `i + 6`. */
  predicate PocShape(s: string, i: nat, b: nat, d: nat, f: nat, h: nat, t: nat) {
    OccursAt(s, "[POC][", i) && MethodShape(s, i + 6, b, d, f, h, t)
  }

  /** A word run `s[a..b]` (the severity), `][`, then the rest as `KindShape` says. */
  predicate MethodShape(s: string, a: nat, b: nat, d: nat, f: nat, h: nat, t: nat) {
    a < b && RunOf(s, a, b, IsWordChar) && OccursAt(s, "][", b) && KindShape(s, b, d, f, h, t)
  }

  /** A word run `s[b + 2..d]` (the request method), `][`, then the rest as `UrlShape` says. */
  predicate KindShape(s: string, b: nat, d: nat, f: nat, h: nat, t: nat) {
    b + 2 < d && RunOf(s, b + 2, d, IsWordChar) && OccursAt(s, "][", d) && UrlShape(s, d, f, h, t)
  }

  /** A run without `]` (the injection kind) `s[d + 2..f]`, `]` at `f`, then `HttpShape`. */
  predicate UrlShape(s: string, d: nat, f: nat, h: nat, t: nat) {
    d + 2 < f && RunOf(s, d + 2, f, NotCloseBracket) && f < |s| && s[f] == ']' && HttpShape(s, f, h, t)
  }

  /** White space `s[f + 1..h]`, then `http` and at least one more character up to `t`, none of
      them a line terminator. */
  predicate HttpShape(s: string, f: nat, h: nat, t: nat) {
    f + 1 < h && RunOf(s, f + 1, h, IsSpace) && OccursAt(s, "http", h)
    && h + 4 < t && RunOf(s, h + 4, t, NotLineTerminator)
  }

  /** The match the regular expression finds starting at `i`. Each `+` before a literal is
      forced to take its whole run (the literal that follows is never a member), and the final
      `.+` is greedy. */
  function PocAt(s: string, i: nat): (r: Option<Poc>)
    requires i <= |s|
  {
    if !OccursAt(s, "[POC][", i) then None
    else MethodAt(s, i + 6, RunEnd(s, i + 6, IsWordChar))
  }

  /** After the severity `s[a..b]`. */
  function MethodAt(s: string, a: nat, b: nat): (r: Option<Poc>)
    requires a <= b <= |s|
  {
    if a == b || !OccursAt(s, "][", b) then None
    else KindAt(s, a, b, RunEnd(s, b + 2, IsWordChar))
  }

  /** After the request method `s[b + 2..d]`. */
  function KindAt(s: string, a: nat, b: nat, d: nat): (r: Option<Poc>)
    requires a <= b && b + 2 <= d <= |s|
  {
    if b + 2 == d || !OccursAt(s, "][", d) then None
    else UrlAt(s, a, b, d, RunEnd(s, d + 2, NotCloseBracket))
  }

  /** After the injection kind `s[d + 2..f]`, which ends at a `]` unless it reaches the end. */
  function UrlAt(s: string, a: nat, b: nat, d: nat, f: nat): (r: Option<Poc>)
    requires a <= b && b + 2 <= d && d + 2 <= f <= |s|
  {
    if d + 2 == f || f == |s| then None
    else HttpAt(s, a, b, d, f, RunEnd(s, f + 1, IsSpace))
  }

  /** After the white space `s[f + 1..h]`. */
  function HttpAt(s: string, a: nat, b: nat, d: nat, f: nat, h: nat): (r: Option<Poc>)
    requires a <= b && b + 2 <= d && d + 2 <= f && f + 1 <= h <= |s|
  {
    if f + 1 == h || !OccursAt(s, "http", h) then None
    else
      var t := RunEnd(s, h + 4, NotLineTerminator);
      if t == h + 4 then None
      else Some(Poc(s[a..b], s[b + 2..d], s[d + 2..f], s[h..t]))
  }

  /** `String.prototype.match` without the `g` flag: the match at the leftmost position from `i`
      where there is one. */
  function FirstPoc(s: string, i: nat): (r: Option<Poc>)
    requires i <= |s|
    decreases |s| - i
  {
    if PocAt(s, i).Some? then PocAt(s, i)
    else if i < |s| then FirstPoc(s, i + 1)
    else None
  }

  /** How a result line is shown: a finding's severity and link, or the cleaned, trimmed text. */
  datatype FormattedLine = PocLine(severity: string, url: string) | TextLine(text: string)

  /** `formatResultLine` */
  function FormatResultLine(line: string): (r: FormattedLine) {
    var clean := Ansi.Strip(line);
    match FirstPoc(clean, 0)
    case Some(poc) => PocLine(poc.severity, poc.url)
    case None => TextLine(Trim(clean))
  }

  // -- PocAt is the pattern: every match has the shape, every shape is matched

  /** What `PocAt` finds has the pattern's shape, and the shape's link runs to the end of the
      line; `PocAtComplete` then says which match it is. */
  lemma PocAtSound(s: string, i: nat)
    requires i <= |s|
    requires PocAt(s, i).Some?
    ensures exists b: nat, d: nat, f: nat, h: nat, t: nat ::
      PocShape(s, i, b, d, f, h, t) && (t == |s| || IsLineTerminator(s[t]))
  {
    var b, d, f, h, t := PocAtShape(s, i);
    RunEndFacts(s, h + 4, NotLineTerminator);
  }

  /** The boundaries of what `PocAt` finds. */
  lemma PocAtShape(s: string, i: nat) returns (b: nat, d: nat, f: nat, h: nat, t: nat)
    requires i <= |s|
    requires PocAt(s, i).Some?
    ensures PocShape(s, i, b, d, f, h, t) && t == RunEnd(s, h + 4, NotLineTerminator)
  {
    b := RunEnd(s, i + 6, IsWordChar);
    RunEndFacts(s, i + 6, IsWordChar);
    assert PocAt(s, i) == MethodAt(s, i + 6, b);
    d, f, h, t := MethodAtShape(s, i + 6, b);
  }

  lemma MethodAtShape(s: string, a: nat, b: nat) returns (d: nat, f: nat, h: nat, t: nat)
    requires a <= b <= |s| && RunOf(s, a, b, IsWordChar)
    requires MethodAt(s, a, b).Some?
    ensures MethodShape(s, a, b, d, f, h, t) && t == RunEnd(s, h + 4, NotLineTerminator)
  {
    d := RunEnd(s, b + 2, IsWordChar);
    RunEndFacts(s, b + 2, IsWordChar);
    assert MethodAt(s, a, b) == KindAt(s, a, b, d);
    f, h, t := KindAtShape(s, a, b, d);
  }

  lemma KindAtShape(s: string, a: nat, b: nat, d: nat) returns (f: nat, h: nat, t: nat)
    requires a <= b && b + 2 <= d <= |s| && RunOf(s, b + 2, d, IsWordChar)
    requires KindAt(s, a, b, d).Some?
    ensures KindShape(s, b, d, f, h, t) && t == RunEnd(s, h + 4, NotLineTerminator)
  {
    f := RunEnd(s, d + 2, NotCloseBracket);
    RunEndFacts(s, d + 2, NotCloseBracket);
    assert KindAt(s, a, b, d) == UrlAt(s, a, b, d, f);
    h, t := UrlAtShape(s, a, b, d, f);
  }

  lemma UrlAtShape(s: string, a: nat, b: nat, d: nat, f: nat) returns (h: nat, t: nat)
    requires a <= b && b + 2 <= d && d + 2 <= f <= |s| && RunOf(s, d + 2, f, NotCloseBracket)
    requires f == |s| || !NotCloseBracket(s[f])
    requires UrlAt(s, a, b, d, f).Some?
    ensures UrlShape(s, d, f, h, t) && t == RunEnd(s, h + 4, NotLineTerminator)
  {
    h := RunEnd(s, f + 1, IsSpace);
    RunEndFacts(s, f + 1, IsSpace);
    assert UrlAt(s, a, b, d, f) == HttpAt(s, a, b, d, f, h);
    t := RunEnd(s, h + 4, NotLineTerminator);
    RunEndFacts(s, h + 4, NotLineTerminator);
  }

  /** Wherever the shape occurs, `PocAt` matches, with the boundaries the shape gives and the URL
      taking the whole rest of the line. */
  lemma PocAtComplete(s: string, i: nat, b: nat, d: nat, f: nat, h: nat, t: nat)
    requires PocShape(s, i, b, d, f, h, t)
    ensures t <= RunEnd(s, h + 4, NotLineTerminator)
    ensures PocAt(s, i) == Some(Poc(s[i + 6..b], s[b + 2..d], s[d + 2..f], s[h..RunEnd(s, h + 4, NotLineTerminator)]))
  {
    RunEndIs(s, i + 6, b, IsWordChar);
    assert PocAt(s, i) == MethodAt(s, i + 6, b);
    MethodAtComplete(s, i + 6, b, d, f, h, t);
  }

  lemma MethodAtComplete(s: string, a: nat, b: nat, d: nat, f: nat, h: nat, t: nat)
    requires MethodShape(s, a, b, d, f, h, t)
    ensures t <= RunEnd(s, h + 4, NotLineTerminator)
    ensures MethodAt(s, a, b) == Some(Poc(s[a..b], s[b + 2..d], s[d + 2..f], s[h..RunEnd(s, h + 4, NotLineTerminator)]))
  {
    RunEndIs(s, b + 2, d, IsWordChar);
    assert MethodAt(s, a, b) == KindAt(s, a, b, d);
    KindAtComplete(s, a, b, d, f, h, t);
  }

  lemma KindAtComplete(s: string, a: nat, b: nat, d: nat, f: nat, h: nat, t: nat)
    requires a <= b && KindShape(s, b, d, f, h, t)
    ensures t <= RunEnd(s, h + 4, NotLineTerminator)
    ensures KindAt(s, a, b, d) == Some(Poc(s[a..b], s[b + 2..d], s[d + 2..f], s[h..RunEnd(s, h + 4, NotLineTerminator)]))
  {
    RunEndIs(s, d + 2, f, NotCloseBracket);
    assert KindAt(s, a, b, d) == UrlAt(s, a, b, d, f);
    UrlAtComplete(s, a, b, d, f, h, t);
  }

  lemma UrlAtComplete(s: string, a: nat, b: nat, d: nat, f: nat, h: nat, t: nat)
    requires a <= b && b + 2 <= d && UrlShape(s, d, f, h, t)
    ensures t <= RunEnd(s, h + 4, NotLineTerminator)
    ensures UrlAt(s, a, b, d, f) == Some(Poc(s[a..b], s[b + 2..d], s[d + 2..f], s[h..RunEnd(s, h + 4, NotLineTerminator)]))
  {
    assert !IsSpace(s[h]) by { assert s[h] == s[h..h + 4][0] == "http"[0]; }
    RunEndIs(s, f + 1, h, IsSpace);
    assert UrlAt(s, a, b, d, f) == HttpAt(s, a, b, d, f, h);
    RunEndAtLeast(s, h + 4, t, NotLineTerminator);
  }

  /** A run of members reaching `j` makes the longest run reach at least `j`. */
  lemma {:induction false} RunEndAtLeast(s: string, i: nat, j: nat, member: char -> bool)
    requires RunOf(s, i, j, member)
    ensures j <= RunEnd(s, i, member)
    decreases j - i
  {
    if i < j {
      RunEndAtLeast(s, i + 1, j, member);
    }
  }

  /** `FirstPoc` finds the leftmost position with a match, and none when there is none. */
  lemma FirstPocIsLeftmost(s: string, i: nat)
    requires i <= |s|
    ensures FirstPoc(s, i).Some? ==>
      exists p :: i <= p <= |s| && PocAt(s, p) == FirstPoc(s, i) && forall q :: i <= q < p ==> PocAt(s, q).None?
    ensures FirstPoc(s, i).None? ==> forall p :: i <= p <= |s| ==> PocAt(s, p).None?
  {
    if FirstPoc(s, i).Some? {
      var p := FirstPocFound(s, i);
    } else {
      FirstPocMissed(s, i);
    }
  }

  /** Where `FirstPoc` found its match. */
  lemma {:induction false} FirstPocFound(s: string, i: nat) returns (p: nat)
    requires i <= |s| && FirstPoc(s, i).Some?
    ensures i <= p <= |s| && PocAt(s, p) == FirstPoc(s, i) && forall q :: i <= q < p ==> PocAt(s, q).None?
    decreases |s| - i
  {
    if PocAt(s, i).Some? {
      p := i;
    } else {
      assert FirstPoc(s, i) == FirstPoc(s, i + 1);
      p := FirstPocFound(s, i + 1);
    }
  }

  lemma {:induction false} FirstPocMissed(s: string, i: nat)
    requires i <= |s| && FirstPoc(s, i).None?
    ensures forall p :: i <= p <= |s| ==> PocAt(s, p).None?
    decreases |s| - i
  {
    if i < |s| {
      FirstPocMissed(s, i + 1);
    }
  }

  /** What a match holds: the marker, a word severity and a link that starts with `http`, has
      more after it and no line terminator. */
  lemma PocAtFacts(s: string, i: nat)
    requires i <= |s| && PocAt(s, i).Some?
    ensures var poc := PocAt(s, i).value;
      Contains(s, "[POC][") && poc.severity != "" && RunOf(poc.severity, 0, |poc.severity|, IsWordChar)
      && Contains(s, poc.url) && StartsWith(poc.url, "http") && |poc.url| > 4 && NoLineTerminator(poc.url)
  {
    var b, d, f, h, t := PocAtShape(s, i);
    PocAtComplete(s, i, b, d, f, h, t);
    ContainsAt(s, "[POC][", i);
    ContainsAt(s, s[h..t], h);
    RunOfSlice(s, i + 6, b, IsWordChar);
    UrlFacts(s, h, t);
  }

  /** A run read out of its string is a run on its own. */
  lemma RunOfSlice(s: string, i: nat, j: nat, member: char -> bool)
    requires RunOf(s, i, j, member)
    ensures RunOf(s[i..j], 0, j - i, member)
  {
    forall k | 0 <= k < j - i ensures member(s[i..j][k]) {
      assert s[i..j][k] == s[i + k];
    }
  }

  lemma UrlFacts(s: string, h: nat, t: nat)
    requires OccursAt(s, "http", h) && h + 4 < t && RunOf(s, h + 4, t, NotLineTerminator)
    ensures StartsWith(s[h..t], "http") && NoLineTerminator(s[h..t])
  {
    assert s[h..t][..4] == s[h..h + 4];
    forall k | 0 <= k < t - h ensures !IsLineTerminator(s[h..t][k]) {
      assert s[h..t][k] == s[h + k];
      if k < 4 {
        assert s[h + k] == "http"[k];
      } else {
        assert NotLineTerminator(s[h + k]);
      }
    }
  }

  /** A line shown as a finding holds `[POC][`; its severity is a word and its link is a piece
      of the cleaned line that starts with `http`, has more after it and no line terminator. */
  lemma PocLineHasMarker(line: string)
    requires FormatResultLine(line).PocLine?
    ensures var clean := Ansi.Strip(line); var shown := FormatResultLine(line);
      Contains(clean, "[POC][") && shown.severity != "" && RunOf(shown.severity, 0, |shown.severity|, IsWordChar)
      && Contains(clean, shown.url) && StartsWith(shown.url, "http") && |shown.url| > 4 && NoLineTerminator(shown.url)
  {
    var clean := Ansi.Strip(line);
    FirstPocIsLeftmost(clean, 0);
    var p :| 0 <= p <= |clean| && PocAt(clean, p) == FirstPoc(clean, 0);
    PocAtFacts(clean, p);
  }

  // -- A finding line as Dalfox prints it

  /** `[POC][<severity>][<method>][<kind>]<gap><url>`, the form of Dalfox's finding lines. */
  function DalfoxFinding(severity: string, requestMethod: string, kind: string, gap: string, url: string): string {
    "[POC][" + (severity + ("][" + (requestMethod + ("][" + (kind + ("]" + (gap + url)))))))
  }

  /** A Dalfox finding line is shown as its severity and its link. */
  lemma DalfoxFindingShown(severity: string, requestMethod: string, kind: string, gap: string, url: string)
    requires severity != "" && RunOf(severity, 0, |severity|, IsWordChar)
    requires requestMethod != "" && RunOf(requestMethod, 0, |requestMethod|, IsWordChar)
    requires kind != "" && RunOf(kind, 0, |kind|, NotCloseBracket) && Ansi.Plain(kind)
    requires gap != "" && Blank(gap)
    requires StartsWith(url, "http") && |url| > 4 && NoLineTerminator(url) && Ansi.Plain(url)
    ensures FormatResultLine(DalfoxFinding(severity, requestMethod, kind, gap, url)) == PocLine(severity, url)
  {
    var line := DalfoxFinding(severity, requestMethod, kind, gap, url);
    DalfoxFindingPlain(severity, requestMethod, kind, gap, url);
    Ansi.StripWithoutIntroducer(line);
    DalfoxFindingMatched(severity, requestMethod, kind, gap, url);
    assert FirstPoc(line, 0) == PocAt(line, 0);
  }

  /** The pattern matches a Dalfox finding line at its start, with its severity and link. */
  lemma DalfoxFindingMatched(severity: string, requestMethod: string, kind: string, gap: string, url: string)
    requires severity != "" && RunOf(severity, 0, |severity|, IsWordChar)
    requires requestMethod != "" && RunOf(requestMethod, 0, |requestMethod|, IsWordChar)
    requires kind != "" && RunOf(kind, 0, |kind|, NotCloseBracket)
    requires gap != "" && Blank(gap)
    requires StartsWith(url, "http") && |url| > 4 && NoLineTerminator(url)
    ensures var line := DalfoxFinding(severity, requestMethod, kind, gap, url);
      PocAt(line, 0).Some? && PocAt(line, 0).value.severity == severity && PocAt(line, 0).value.url == url
  {
    var line := DalfoxFinding(severity, requestMethod, kind, gap, url);
    var b, d, f, h := DalfoxFindingShape(severity, requestMethod, kind, gap, url);
    WholeLineMatched(line, b, d, f, h);
  }

  /** A line that has the shape from its start to its end is matched at its start, its link
      taking the rest of the line. */
  lemma WholeLineMatched(line: string, b: nat, d: nat, f: nat, h: nat)
    requires PocShape(line, 0, b, d, f, h, |line|)
    ensures PocAt(line, 0) == Some(Poc(line[6..b], line[b + 2..d], line[d + 2..f], line[h..]))
  {
    RunEndIs(line, h + 4, |line|, NotLineTerminator);
    PocAtComplete(line, 0, b, d, f, h, |line|);
    assert line[h..RunEnd(line, h + 4, NotLineTerminator)] == line[h..];
  }

  /** Where the pieces of a Dalfox finding line are. */
  lemma DalfoxFindingShape(severity: string, requestMethod: string, kind: string, gap: string, url: string)
    returns (b: nat, d: nat, f: nat, h: nat)
    requires severity != "" && RunOf(severity, 0, |severity|, IsWordChar)
    requires requestMethod != "" && RunOf(requestMethod, 0, |requestMethod|, IsWordChar)
    requires kind != "" && RunOf(kind, 0, |kind|, NotCloseBracket)
    requires gap != "" && Blank(gap)
    requires StartsWith(url, "http") && |url| > 4 && NoLineTerminator(url)
    ensures var line := DalfoxFinding(severity, requestMethod, kind, gap, url);
      PocShape(line, 0, b, d, f, h, |line|)
      && line[6..b] == severity && line[h..] == url
  {
    var line := DalfoxFinding(severity, requestMethod, kind, gap, url);
    var rest := "][" + (requestMethod + ("][" + (kind + ("]" + (gap + url)))));
    assert line[0..] == "[POC][" + (severity + rest);
    SuffixLiteral(line, 0, "[POC][", severity + rest);
    b := 6 + |severity|;
    SuffixRun(line, 6, severity, rest, IsWordChar);
    d, f, h := MethodPart(line, b, requestMethod, kind, gap, url);
  }

  /** From the `][` after the severity on. */
  lemma MethodPart(line: string, b: nat, requestMethod: string, kind: string, gap: string, url: string)
    returns (d: nat, f: nat, h: nat)
    requires b <= |line| && line[b..] == "][" + (requestMethod + ("][" + (kind + ("]" + (gap + url)))))
    requires requestMethod != "" && RunOf(requestMethod, 0, |requestMethod|, IsWordChar)
    requires kind != "" && RunOf(kind, 0, |kind|, NotCloseBracket)
    requires gap != "" && Blank(gap)
    requires StartsWith(url, "http") && |url| > 4 && NoLineTerminator(url)
    ensures OccursAt(line, "][", b) && KindShape(line, b, d, f, h, |line|) && line[h..] == url
  {
    var rest := "][" + (kind + ("]" + (gap + url)));
    SuffixLiteral(line, b, "][", requestMethod + rest);
    d := b + 2 + |requestMethod|;
    SuffixRun(line, b + 2, requestMethod, rest, IsWordChar);
    f, h := KindPart(line, d, kind, gap, url);
  }

  /** From the `][` after the request method on. */
  lemma KindPart(line: string, d: nat, kind: string, gap: string, url: string) returns (f: nat, h: nat)
    requires d <= |line| && line[d..] == "][" + (kind + ("]" + (gap + url)))
    requires kind != "" && RunOf(kind, 0, |kind|, NotCloseBracket)
    requires gap != "" && Blank(gap)
    requires StartsWith(url, "http") && |url| > 4 && NoLineTerminator(url)
    ensures OccursAt(line, "][", d) && UrlShape(line, d, f, h, |line|) && line[h..] == url
  {
    SuffixLiteral(line, d, "][", kind + ("]" + (gap + url)));
    f := d + 2 + |kind|;
    SuffixRun(line, d + 2, kind, "]" + (gap + url), NotCloseBracket);
    h := HttpPart(line, f, gap, url);
  }

  /** From the `]` after the injection kind on. */
  lemma HttpPart(line: string, f: nat, gap: string, url: string) returns (h: nat)
    requires f <= |line| && line[f..] == "]" + (gap + url)
    requires gap != "" && Blank(gap)
    requires StartsWith(url, "http") && |url| > 4 && NoLineTerminator(url)
    ensures f < |line| && line[f] == ']' && HttpShape(line, f, h, |line|) && line[h..] == url
  {
    SuffixLiteral(line, f, "]", gap + url);
    assert line[f] == line[f..][0];
    h := f + 1 + |gap|;
    assert RunOf(gap, 0, |gap|, IsSpace);
    SuffixRun(line, f + 1, gap, url, IsSpace);
    LinkAt(line, h, url);
  }

  /** A link running to the end of the line. */
  lemma LinkAt(line: string, h: nat, url: string)
    requires h <= |line| && line[h..] == url
    requires StartsWith(url, "http") && |url| > 4 && NoLineTerminator(url)
    ensures OccursAt(line, "http", h) && RunOf(line, h + 4, |line|, NotLineTerminator)
  {
    assert url == url[..4] + url[4..];
    SuffixLiteral(line, h, "http", url[4..]);
    forall k | h + 4 <= k < |line| ensures NotLineTerminator(line[k]) {
      assert line[k] == url[k - h];
    }
  }

  /** `s[i..]` opening with `x` holds `x` at `i`, and what follows starts after it. */
  lemma SuffixLiteral(s: string, i: nat, x: string, rest: string)
    requires i <= |s| && s[i..] == x + rest
    ensures OccursAt(s, x, i) && s[i + |x|..] == rest
  {
    assert s[i..i + |x|] == (x + rest)[..|x|];
    assert s[i + |x|..] == (x + rest)[|x|..];
  }

  /** `s[i..]` opening with a run `x` of members has that run at `i`. */
  lemma SuffixRun(s: string, i: nat, x: string, rest: string, member: char -> bool)
    requires i <= |s| && s[i..] == x + rest
    requires RunOf(x, 0, |x|, member)
    ensures RunOf(s, i, i + |x|, member) && s[i..i + |x|] == x && s[i + |x|..] == rest
  {
    SuffixLiteral(s, i, x, rest);
    forall k | i <= k < i + |x| ensures member(s[k]) {
      assert s[k] == s[i..][k - i] == x[k - i];
    }
  }

  /** Dalfox's finding lines hold no escape sequence, so cleaning leaves them alone. */
  lemma DalfoxFindingPlain(severity: string, requestMethod: string, kind: string, gap: string, url: string)
    requires RunOf(severity, 0, |severity|, IsWordChar) && RunOf(requestMethod, 0, |requestMethod|, IsWordChar)
    requires Ansi.Plain(kind) && Blank(gap) && Ansi.Plain(url)
    ensures Ansi.Plain(DalfoxFinding(severity, requestMethod, kind, gap, url))
  {
    assert Ansi.Plain(severity) && Ansi.Plain(requestMethod) && Ansi.Plain(gap);
    assert Ansi.Plain("[POC][") && Ansi.Plain("][") && Ansi.Plain("]");
    Ansi.PlainConcat(gap, url);
    Ansi.PlainConcat("]", gap + url);
    Ansi.PlainConcat(kind, "]" + (gap + url));
    Ansi.PlainConcat("][", kind + ("]" + (gap + url)));
    Ansi.PlainConcat(requestMethod, "][" + (kind + ("]" + (gap + url))));
    Ansi.PlainConcat("][", requestMethod + ("][" + (kind + ("]" + (gap + url)))));
    Ansi.PlainConcat(severity, "][" + (requestMethod + ("][" + (kind + ("]" + (gap + url))))));
    Ansi.PlainConcat("[POC][", severity + ("][" + (requestMethod + ("][" + (kind + ("]" + (gap + url)))))));
  }

  // ---------------------------------------------------------------------------------------------
  // The findings count above the results

  /** `results.filter(line => line.includes('[POC]')).length` */
  function PocCount(results: seq<string>): (n: nat)
    ensures n <= |results|
  {
    if |results| == 0 then 0
    else (if Contains(results[0], "[POC]") then 1 else 0) + PocCount(results[1..])
  }

  /** The count is zero exactly when no result line holds `[POC]`. */
  lemma {:induction false} PocCountZeroIff(results: seq<string>)
    ensures PocCount(results) == 0 <==> forall k :: 0 <= k < |results| ==> !Contains(results[k], "[POC]")
  {
    if |results| > 0 {
      PocCountZeroIff(results[1..]);
      assert forall k :: 1 <= k < |results| ==> results[k] == results[1..][k - 1];
    }
  }

  /** The card description above the results. */
  function ResultsSummary(results: seq<string>): (r: string) {
    if exists k :: 0 <= k < |results| && Contains(results[k], "[POC]")
    then "Found " + NatToString(PocCount(results)) + " potential vulnerabilities"
    else "No vulnerabilities found"
  }

  /** The summary reports the number of `[POC]` lines, and "No vulnerabilities found" exactly
      when there are none. */
  lemma SummaryCountsFindings(results: seq<string>)
    ensures ResultsSummary(results) == "No vulnerabilities found" <==> PocCount(results) == 0
    ensures PocCount(results) > 0 ==>
      ResultsSummary(results) == "Found " + NatToString(PocCount(results)) + " potential vulnerabilities"
  {
    PocCountZeroIff(results);
    if PocCount(results) > 0 {
      var found := "Found " + NatToString(PocCount(results)) + " potential vulnerabilities";
      assert found[..5] == "Found";
      assert found != "No vulnerabilities found" by { assert found[0] == 'F'; }
    }
  }

  // ---------------------------------------------------------------------------------------------
  // The modal's state

  /** The error `handleRunTool` falls back to when a failed response has no text. */
  const StartFailed := "Failed to start XSS scan"

  /** The stream loop of `handleRunTool` and, when the reader finishes, the final flush of a
      non-blank remainder: the lines shown and whether the scan completed. An error or a
      cancellation ends the loop without the flush. */
  method ReadStream(stream: Stream) returns (lines: seq<string>, completed: bool)
    ensures completed <==> stream.end.Finished?
    ensures completed ==> lines == KeepNonBlank(Split(Concat(stream.chunks), '\n'))
    ensures !completed ==> lines == KeepNonBlank(FinishedLines(Concat(stream.chunks)))
    ensures forall k :: 0 <= k < |lines| ==> '\n' !in lines[k]
  {
    var text := Concat(stream.chunks);
    var buffer;
    lines, buffer := PumpLines(stream.chunks, []);
    KeptLinesHaveNoNewline(text);
    completed := stream.end.Finished?;
    if completed {
      TrimEmptyIffBlank(buffer);
      PendingAfterLastNewline(text);
      FlushKeepsEveryLine(text);
      if Trim(buffer) != "" {
        lines := lines + [buffer];
      }
    }
  }

  class XssScanModal {
    var targetUrl: string
    var targetFile: Option<SelectedFile>
    var customPayloadFile: Option<SelectedFile>
    var scanMode: string
    var results: seq<string>
    var error: Option<string>
    var isLoading: bool
    var scanCompleted: bool

    /** The mode is one the UI offers, and every result is a whole line of the tool's output. */
    predicate Valid()
      reads this
    {
      KnownMode(scanMode) && forall k :: 0 <= k < |results| ==> '\n' !in results[k]
    }

    constructor ()
      ensures targetUrl == "" && targetFile == None && customPayloadFile == None && scanMode == "1"
      ensures results == [] && error == None && !isLoading && !scanCompleted
      ensures Valid()
    {
      targetUrl, targetFile, customPayloadFile, scanMode := "", None, None, "1";
      results, error, isLoading, scanCompleted := [], None, false, false;
    }

    /** The tabs' `onClick` and the payload selects' `onValueChange`. */
    method SetScanMode(mode: string)
      requires Valid() && KnownMode(mode)
      modifies this
      ensures Valid() && scanMode == mode
      ensures targetUrl == old(targetUrl) && targetFile == old(targetFile)
      ensures customPayloadFile == old(customPayloadFile) && results == old(results)
      ensures error == old(error) && isLoading == old(isLoading) && scanCompleted == old(scanCompleted)
    {
      scanMode := mode;
    }

    /** The file inputs' `onChange`: `e.target.files?.[0] || null`. */
    method SetFiles(target: Option<SelectedFile>, payload: Option<SelectedFile>)
      requires Valid()
      modifies this
      ensures Valid() && targetFile == target && customPayloadFile == payload
      ensures targetUrl == old(targetUrl) && scanMode == old(scanMode) && results == old(results)
      ensures error == old(error) && isLoading == old(isLoading) && scanCompleted == old(scanCompleted)
    {
      targetFile, customPayloadFile := target, payload;
    }

    /** The URL input's `onChange`. */
    method SetTargetUrl(url: string)
      requires Valid()
      modifies this
      ensures Valid() && targetUrl == url
      ensures targetFile == old(targetFile) && customPayloadFile == old(customPayloadFile)
      ensures scanMode == old(scanMode) && results == old(results)
      ensures error == old(error) && isLoading == old(isLoading) && scanCompleted == old(scanCompleted)
    {
      targetUrl := url;
    }

    /** `handleRunTool`, run to its end with the backend's `reply`: the checks, then the form
        that goes out (`None` when a check failed) and the stream loop with its final flush. */
    method HandleRunTool(reply: Reply<Stream>) returns (form: Option<seq<FormField>>)
      requires Valid()
      modifies this
      ensures Valid()
      ensures targetUrl == old(targetUrl) && targetFile == old(targetFile)
      ensures customPayloadFile == old(customPayloadFile) && scanMode == old(scanMode)
      ensures form.None? <==> GuardError(scanMode, targetUrl, targetFile, customPayloadFile).Some?
      ensures form.None? ==>
        error == GuardError(scanMode, targetUrl, targetFile, customPayloadFile) && results == old(results)
        && isLoading == old(isLoading) && scanCompleted == old(scanCompleted)
      ensures form.Some? ==> form.value == FormFields(scanMode, targetUrl, targetFile, customPayloadFile)
      ensures form.Some? ==> !isLoading && error == StreamError(reply, StartFailed)
      ensures form.Some? ==> (scanCompleted <==> reply.Answered? && reply.data.end.Finished?)
      ensures form.Some? && reply.Rejected? ==> results == []
      ensures form.Some? && reply.Answered? && reply.data.end.Finished? ==>
        results == KeepNonBlank(Split(Concat(reply.data.chunks), '\n'))
      ensures form.Some? && reply.Answered? && !reply.data.end.Finished? ==>
        results == KeepNonBlank(FinishedLines(Concat(reply.data.chunks)))
    {
      var guard := GuardError(scanMode, targetUrl, targetFile, customPayloadFile);
      if guard.Some? {
        error := guard;
        return None;
      }
      isLoading, error, results, scanCompleted := true, None, [], false;
      form := Some(FormFields(scanMode, targetUrl, targetFile, customPayloadFile));
      match reply {
        case Rejected(body) =>
          error := Some(ErrorMessage(body, StartFailed));
        case Answered(stream) =>
          var completed;
          results, completed := ReadStream(stream);
          scanCompleted := completed;
          if stream.end.Broken? {
            error := Some(stream.end.message);
          }
      }
      isLoading := false;
    }

    /** `handleDownloadResults` on the day `today` (`YYYY-MM-DD`): nothing without results;
        otherwise a file whose lines are the results. */
    method HandleDownloadResults(today: string) returns (d: Option<Download>)
      requires Valid()
      ensures d.None? <==> results == []
      ensures d.Some? ==> d.value.fileName == "xss-scan-results-" + today + ".txt"
      ensures d.Some? ==> Split(d.value.content, '\n') == results
    {
      if |results| == 0 {
        return None;
      }
      JoinSplit(results, '\n');
      d := Some(Download("xss-scan-results-" + today + ".txt", Join(results, "\n")));
    }
  }
}
