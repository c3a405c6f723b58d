/**
 * The WAF detector's modal (components/tools/waf-modal.tsx): it sends the host part of the typed
 * target to the WAF route and turns the wafw00f output it gets back into a short report.
 *
 * The report is built by a loop over the tagged lines of the output; `Fold` states what that loop
 * computes, one line at a time, and the lemmas say what the verdict means: the last line that
 * decides protection wins, and the WAF name comes from the last line that names one.
 */
module WafModal {
  import opened Wrappers
  import opened Strings
  import Ansi
  import opened Routes
  import WafRoute

  // ---------------------------------------------------------------------------------------------
  // Selecting the lines

  /** The tags of the wafw00f lines that carry information. */
  predicate Tagged(line: string) {
    StartsWith(line, "[*]") || StartsWith(line, "[+]") || StartsWith(line, "[-]") || StartsWith(line, "[~]")
  }

  /** What one piece of the output contributes: its trimmed text, when that is tagged. */
  function Kept(piece: string): (kept: seq<string>)
    ensures |kept| <= 1 && forall k :: 0 <= k < |kept| ==> kept[k] == Trim(piece) && Tagged(kept[k])
  {
    if Tagged(Trim(piece)) then [Trim(piece)] else []
  }

  /** The pieces each of `pieces` contributes, in order. */
  function Gather(f: string -> seq<string>, pieces: seq<string>): seq<string> {
    if |pieces| == 0 then [] else f(pieces[0]) + Gather(f, pieces[1..])
  }

  lemma {:induction false} GatherAppend(f: string -> seq<string>, a: seq<string>, b: seq<string>)
    ensures Gather(f, a + b) == Gather(f, a) + Gather(f, b)
  {
    if |a| == 0 {
      assert a + b == b;
    } else {
      assert (a + b)[1..] == a[1..] + b;
      GatherAppend(f, a[1..], b);
    }
  }

  /** `lines.map(line => line.trim()).filter(Tagged)` */
  function TaggedLines(pieces: seq<string>): seq<string> {
    Gather(Kept, pieces)
  }

  /** Every line examined is tagged, and comes from one piece. */
  lemma {:induction false} TaggedLinesAreTagged(pieces: seq<string>)
    ensures |TaggedLines(pieces)| <= |pieces|
    ensures forall k :: 0 <= k < |TaggedLines(pieces)| ==> Tagged(TaggedLines(pieces)[k])
  {
    if |pieces| > 0 {
      TaggedLinesAreTagged(pieces[1..]);
      var rest := TaggedLines(pieces[1..]);
      assert TaggedLines(pieces) == Kept(pieces[0]) + rest;
    }
  }

  lemma TaggedLinesAppend(a: seq<string>, b: seq<string>)
    ensures TaggedLines(a + b) == TaggedLines(a) + TaggedLines(b)
  {
    GatherAppend(Kept, a, b);
  }

  /** A line whose trimmed text carries no tag has no effect on the lines examined. */
  lemma UntaggedLineIgnored(a: seq<string>, x: string, b: seq<string>)
    requires !Tagged(Trim(x))
    ensures TaggedLines(a + [x] + b) == TaggedLines(a + b)
  {
    var ax := a + [x];
    var ta := TaggedLines(a);
    var tb := TaggedLines(b);
    assert TaggedLines(ax) == ta by {
      TaggedLinesAppend(a, [x]);
      assert TaggedLines([x]) == [] by {
        assert [x][1..] == [];
        assert Kept(x) == [];
        assert TaggedLines([x]) == Kept(x) + TaggedLines([]);
      }
      assert ta + [] == ta;
    }
    assert TaggedLines(ax + b) == ta + tb by {
      TaggedLinesAppend(ax, b);
    }
    assert TaggedLines(a + b) == ta + tb by {
      TaggedLinesAppend(a, b);
    }
  }

  // ---------------------------------------------------------------------------------------------
  // `/behind (.+?) WAF/i`

  /** `p` occurs in `s` at `i`, ASCII letters compared without case. */
  predicate OccursAtIgnoringCase(s: string, p: string, i: nat) {
    i + |p| <= |s| && forall k :: 0 <= k < |p| ==> SameLetterIgnoringCase(s[i + k], p[k])
  }

  /** Where the lazy group that starts at `from` can end, trying `j` first: the first end whose
      group (at least one character, none a line terminator) is followed by ` WAF`. */
  function GapEnd(s: string, from: nat, j: nat): (r: Option<nat>)
    requires from < j
    requires forall m :: from <= m < j - 1 && m < |s| ==> !IsLineTerminator(s[m])
    ensures r.Some? ==> j <= r.value && OccursAtIgnoringCase(s, " WAF", r.value)
    ensures r.Some? ==> forall m :: from <= m < r.value ==> !IsLineTerminator(s[m])
    ensures r.Some? ==> forall m :: j <= m < r.value ==> !OccursAtIgnoringCase(s, " WAF", m)
    decreases |s| - j
  {
    if j > |s| || IsLineTerminator(s[j - 1]) then None
    else if OccursAtIgnoringCase(s, " WAF", j) then Some(j)
    else GapEnd(s, from, j + 1)
  }

  /** The capture of the leftmost match at or after `i`. */
  function CaptureFrom(s: string, i: nat): (r: Option<string>)
    ensures r.Some? ==> |r.value| >= 1 && NoLineTerminator(r.value)
    decreases |s| - i
  {
    if i + 7 > |s| then None
    else if OccursAtIgnoringCase(s, "behind ", i) && GapEnd(s, i + 7, i + 8).Some? then
      var end := GapEnd(s, i + 7, i + 8).value;
      Some(s[i + 7..end])
    else CaptureFrom(s, i + 1)
  }

  /** `line.match(/behind (.+?) WAF/i)?.[1]` */
  function NameCapture(line: string): Option<string> {
    CaptureFrom(line, 0)
  }

  // ---------------------------------------------------------------------------------------------
  // The verdict

  /** The five variables of `formatWafResults`' loop. */
  datatype Verdict = Verdict(isProtected: bool, wafName: string, explanation: string,
                             reason: string, requests: string)

  const Initial := Verdict(false, "Unknown", "", "", "")

  /** A line that declares the site unprotected. */
  predicate Clears(line: string) {
    Contains(line, "No WAF detected") || Contains(line, "seems to be behind")
  }

  /** A line that declares the site protected and is not overruled within itself. */
  predicate Confirms(line: string) {
    Contains(line, "is behind") && !Clears(line)
  }

  /** A line that names the WAF. */
  predicate Named(line: string) {
    Contains(line, "is behind") && NameCapture(line).Some?
  }

  const SignatureMatch := "Confirmed by signature match"
  const GenericNoWaf := "No WAF detected by the generic detection"
  const Seemingly := "Seemingly behind a WAF or some sort of security solution"

  /** What a line says about protection. */
  datatype Decision = Clear | Confirm | Keep

  function DecisionOf(line: string): (d: Decision)
    ensures d == Clear <==> Clears(line)
    ensures d == Confirm <==> Confirms(line)
  {
    if Clears(line) then Clear else if Contains(line, "is behind") then Confirm else Keep
  }

  /** Whether the site counts as protected after `line`: a clearing phrase wins over `is behind`
      within one line, and a line with neither leaves the verdict as it was. */
  function ProtectionAfter(wasProtected: bool, line: string): bool {
    match DecisionOf(line)
    case Clear => false
    case Confirm => true
    case Keep => wasProtected
  }

  /** The explanation after `line`: the last of the three phrases the line contains decides. */
  function ExplanationAfter(previous: string, line: string): string {
    if Contains(line, "seems to be behind") then Seemingly
    else if Contains(line, "No WAF detected") then GenericNoWaf
    else if Contains(line, "is behind") then SignatureMatch
    else previous
  }

  /** The WAF name after `line`: the trimmed capture of a naming line, else unchanged. */
  function NameAfter(previous: string, line: string): string {
    if Named(line) then Trim(NameCapture(line).value) else previous
  }

  /** `line.replace(prefix, '').trim()` */
  function AfterPrefix(line: string, prefix: string): string {
    Trim(ReplaceFirst(line, prefix, ""))
  }

  function ReasonAfter(previous: string, line: string): string {
    if StartsWith(line, "[~] Reason:") then AfterPrefix(line, "[~] Reason: ") else previous
  }

  function RequestsAfter(previous: string, line: string): string {
    if Contains(line, "Number of requests:") then AfterPrefix(line, "[~] Number of requests: ") else previous
  }

  /** The first check of the loop body: a line with `is behind` marks the site protected, takes
      the WAF name from the line when the pattern matches, and sets the explanation. */
  function BehindStep(v: Verdict, line: string): Verdict {
    if Contains(line, "is behind") then
      var name := if NameCapture(line).Some? then Trim(NameCapture(line).value) else v.wafName;
      v.(isProtected := true, wafName := name, explanation := SignatureMatch)
    else v
  }

  /** The second check: `No WAF detected`. */
  function NoWafStep(v: Verdict, line: string): Verdict {
    if Contains(line, "No WAF detected") then v.(isProtected := false, explanation := GenericNoWaf) else v
  }

  /** The third check: `seems to be behind`. */
  function SeemsStep(v: Verdict, line: string): Verdict {
    if Contains(line, "seems to be behind") then v.(isProtected := false, explanation := Seemingly) else v
  }

  /** The fourth check: the reason line. */
  function ReasonStep(v: Verdict, line: string): Verdict {
    if StartsWith(line, "[~] Reason:") then v.(reason := AfterPrefix(line, "[~] Reason: ")) else v
  }

  /** The fifth check: the number of requests. */
  function RequestsStep(v: Verdict, line: string): Verdict {
    if Contains(line, "Number of requests:") then
      v.(requests := AfterPrefix(line, "[~] Number of requests: "))
    else v
  }

  /** One pass of the loop body: the five checks in order. */
  function Step(v: Verdict, line: string): Verdict {
    RequestsStep(ReasonStep(SeemsStep(NoWafStep(BehindStep(v, line), line), line), line), line)
  }

  /** What one pass does to each variable, whatever the order of the checks. */
  lemma StepFields(v: Verdict, line: string)
    ensures Step(v, line) == Verdict(ProtectionAfter(v.isProtected, line), NameAfter(v.wafName, line),
                                     ExplanationAfter(v.explanation, line), ReasonAfter(v.reason, line),
                                     RequestsAfter(v.requests, line))
  {
    var v1 := BehindStep(v, line);
    var v2 := NoWafStep(v1, line);
    var v3 := SeemsStep(v2, line);
    var v4 := ReasonStep(v3, line);
    var v5 := RequestsStep(v4, line);
    assert v5.isProtected == v3.isProtected && v5.wafName == v3.wafName && v5.explanation == v3.explanation;
    assert v3.isProtected == ProtectionAfter(v.isProtected, line) by {
      assert DecisionOf(line) == Clear <==> Clears(line);
    }
    assert v3.wafName == NameAfter(v.wafName, line);
    assert v3.explanation == ExplanationAfter(v.explanation, line);
    assert v4.reason == ReasonAfter(v.reason, line);
    assert v5.requests == RequestsAfter(v.requests, line);
  }

  /** The verdict after the loop has examined `lines`, in order. */
  function Fold(lines: seq<string>): Verdict
    decreases |lines|
  {
    if |lines| == 0 then Initial else Step(Fold(lines[..|lines| - 1]), lines[|lines| - 1])
  }

  /** One more line examined is one more step. */
  lemma FoldStep(lines: seq<string>, k: nat)
    requires k < |lines|
    ensures Fold(lines[..k + 1]) == Step(Fold(lines[..k]), lines[k])
  {
    assert lines[..k + 1][..k] == lines[..k];
  }

  /** The verdict for the backend's `output` (anything but a string reads as no output). */
  function Summary(rawOutput: Option<string>): Verdict {
    Fold(TaggedLines(Split(Ansi.StripAnsiCodes(rawOutput), '\n')))
  }

  /** The protection verdict over the decisions of the lines examined, in order. */
  ghost function LastProtection(ds: seq<Decision>): bool
    decreases |ds|
  {
    if |ds| == 0 then false
    else
      match ds[|ds| - 1]
      case Clear => false
      case Confirm => true
      case Keep => LastProtection(ds[..|ds| - 1])
  }

  /** Some decision confirms and no later one clears. */
  ghost predicate LastDecidingConfirms(ds: seq<Decision>) {
    exists k :: 0 <= k < |ds| && ds[k] == Confirm && Clear !in ds[k + 1..]
  }

  lemma {:induction false} LastProtectionIffConfirmed(ds: seq<Decision>)
    ensures LastProtection(ds) <==> LastDecidingConfirms(ds)
  {
    if |ds| > 0 {
      var n := |ds| - 1;
      var init := ds[..n];
      LastProtectionIffConfirmed(init);
      match ds[n]
      case Clear =>
      case Confirm =>
        assert ds[n] == Confirm && ds[n + 1..] == [];
      case Keep =>
        if LastDecidingConfirms(ds) {
          var k :| 0 <= k < |ds| && ds[k] == Confirm && Clear !in ds[k + 1..];
          assert k < n && ds[k + 1..] == init[k + 1..] + [Keep];
          assert init[k] == Confirm && Clear !in init[k + 1..];
        }
        if LastDecidingConfirms(init) {
          var k :| 0 <= k < |init| && init[k] == Confirm && Clear !in init[k + 1..];
          assert ds[k + 1..] == init[k + 1..] + [Keep];
          assert ds[k] == Confirm && Clear !in ds[k + 1..];
        }
    }
  }

  /** The decision of each line. */
  ghost function Decisions(lines: seq<string>): (ds: seq<Decision>)
    ensures |ds| == |lines| && forall k :: 0 <= k < |lines| ==> ds[k] == DecisionOf(lines[k])
  {
    seq(|lines|, k requires 0 <= k < |lines| => DecisionOf(lines[k]))
  }

  lemma {:induction false} ProtectionFollowsDecisions(lines: seq<string>)
    ensures Fold(lines).isProtected == LastProtection(Decisions(lines))
  {
    if |lines| > 0 {
      var n := |lines| - 1;
      ProtectionFollowsDecisions(lines[..n]);
      StepFields(Fold(lines[..n]), lines[n]);
      assert Decisions(lines)[..n] == Decisions(lines[..n]);
    }
  }

  /** The site is reported protected exactly when some line confirms protection and no later
      line clears it: the last deciding line wins. */
  lemma ProtectedIffLastDecision(lines: seq<string>)
    ensures Fold(lines).isProtected <==>
      exists k :: 0 <= k < |lines| && Confirms(lines[k]) && NoClearAfter(lines, k)
  {
    var ds := Decisions(lines);
    ProtectionFollowsDecisions(lines);
    LastProtectionIffConfirmed(ds);
    if LastDecidingConfirms(ds) {
      var k :| 0 <= k < |ds| && ds[k] == Confirm && Clear !in ds[k + 1..];
      NoClearAfterIffNoClear(lines, k);
      assert Confirms(lines[k]) && NoClearAfter(lines, k);
    }
    if exists k :: 0 <= k < |lines| && Confirms(lines[k]) && NoClearAfter(lines, k) {
      var k :| 0 <= k < |lines| && Confirms(lines[k]) && NoClearAfter(lines, k);
      NoClearAfterIffNoClear(lines, k);
      assert ds[k] == Confirm && Clear !in ds[k + 1..];
    }
  }

  lemma NoClearAfterIffNoClear(lines: seq<string>, k: nat)
    requires k < |lines|
    ensures NoClearAfter(lines, k) <==> Clear !in Decisions(lines)[k + 1..]
  {
    var ds := Decisions(lines);
    var after := ds[k + 1..];
    if !NoClearAfter(lines, k) {
      var j :| k < j < |lines| && Clears(lines[j]);
      assert after[j - k - 1] == Clear;
    }
    if Clear in after {
      var i :| 0 <= i < |after| && after[i] == Clear;
      assert Clears(lines[k + 1 + i]) by {
        assert ds[k + 1 + i] == Clear;
      }
    }
  }

  /** No line after the `k`-th clears protection. */
  predicate NoClearAfter(lines: seq<string>, k: nat) {
    forall j :: k < j < |lines| ==> !Clears(lines[j])
  }

  /** The WAF name stays `Unknown` while no line names one. */
  lemma {:induction false} UnknownUntilNamed(lines: seq<string>)
    requires forall k :: 0 <= k < |lines| ==> !Named(lines[k])
    ensures Fold(lines).wafName == "Unknown"
  {
    if |lines| > 0 {
      UnknownUntilNamed(lines[..|lines| - 1]);
      StepFields(Fold(lines[..|lines| - 1]), lines[|lines| - 1]);
    }
  }

  /** Once a line names the WAF, the name stays until a later line names another: lines that
      clear protection do not reset it. */
  lemma {:induction false} NameFromLastNamedLine(lines: seq<string>, k: nat)
    requires k < |lines| && Named(lines[k])
    requires forall j :: k < j < |lines| ==> !Named(lines[j])
    ensures Fold(lines).wafName == Trim(NameCapture(lines[k]).value)
  {
    var n := |lines| - 1;
    StepFields(Fold(lines[..n]), lines[n]);
    if k < n {
      NameFromLastNamedLine(lines[..n], k);
    }
  }

  // ---------------------------------------------------------------------------------------------
  // The report

  /** The Protected field: a tick, or a cross with the explanation. */
  function ProtectionText(v: Verdict): string {
    if v.isProtected then "\U{2705} Yes" else "\U{274C} No (" + v.explanation + ")"
  }

  function TargetLine(target: string): string { "\U{2022} Target: " + target }
  function ProtectedLine(v: Verdict): string { "\U{2022} Protected: " + ProtectionText(v) }
  function NameLine(v: Verdict): string { "\U{2022} WAF Name: " + v.wafName }
  function RequestsLine(v: Verdict): string { "\U{2022} Requests: " + OrElse(v.requests, "N/A") }
  function ReasonLine(v: Verdict): string { "\U{2022} Reason: " + v.reason }

  /** The lines of the report: a heading, a blank line, then Target, Protected, WAF Name and
      Requests, and a Reason line only when a reason was found. */
  function ReportLines(target: string, v: Verdict): (lines: seq<string>)
    ensures |lines| == (if v.reason == "" then 6 else 7)
    ensures lines[2] == "\U{2022} Target: " + target
    ensures lines[4] == "\U{2022} WAF Name: " + v.wafName
    ensures lines[5] == "\U{2022} Requests: " + (if v.requests == "" then "N/A" else v.requests)
    ensures v.reason != "" ==> lines[6] == "\U{2022} Reason: " + v.reason
  {
    ["WAF DETECTION RESULTS", "", TargetLine(target), ProtectedLine(v), NameLine(v), RequestsLine(v)]
    + (if v.reason != "" then [ReasonLine(v)] else [])
  }

  /** The optional last line of the template, with its leading newline. */
  function ReasonTail(v: Verdict): string {
    if v.reason != "" then "\n" + ReasonLine(v) else ""
  }

  /** The template literal `formatWafResults` returns. */
  function Report(target: string, v: Verdict): string {
    "WAF DETECTION RESULTS\n\n"
    + (TargetLine(target) + "\n"
    + (ProtectedLine(v) + "\n"
    + (NameLine(v) + "\n"
    + (RequestsLine(v) + ReasonTail(v)))))
  }

  /** Six lines and an optional seventh, joined with newlines. */
  lemma JoinSix(a: string, b: string, c: string, d: string, e: string, f: string, r: seq<string>, tail: string)
    requires |r| == 0 ==> tail == ""
    requires |r| == 1 ==> tail == "\n" + r[0]
    requires |r| <= 1
    ensures Join([a, b, c, d, e, f] + r, "\n")
      == a + "\n" + (b + "\n" + (c + "\n" + (d + "\n" + (e + "\n" + (f + tail)))))
  {
    var l5 := [f] + r;
    assert Join(l5, "\n") == f + tail by {
      if |r| == 1 {
        JoinCons(f, r, "\n");
      }
    }
    var l4 := [e] + l5;
    assert Join(l4, "\n") == e + "\n" + (f + tail) by {
      JoinCons(e, l5, "\n");
    }
    var l3 := [d] + l4;
    assert Join(l3, "\n") == d + "\n" + (e + "\n" + (f + tail)) by {
      JoinCons(d, l4, "\n");
    }
    var l2 := [c] + l3;
    assert Join(l2, "\n") == c + "\n" + (d + "\n" + (e + "\n" + (f + tail))) by {
      JoinCons(c, l3, "\n");
    }
    var l1 := [b] + l2;
    assert Join(l1, "\n") == b + "\n" + (c + "\n" + (d + "\n" + (e + "\n" + (f + tail)))) by {
      JoinCons(b, l2, "\n");
    }
    assert Join([a] + l1, "\n") == a + "\n" + Join(l1, "\n") by {
      JoinCons(a, l1, "\n");
    }
    assert [a] + l1 == [a, b, c, d, e, f] + r;
  }

  lemma JoinReportLines(target: string, v: Verdict)
    ensures Join(ReportLines(target, v), "\n") == Report(target, v)
  {
    var r := if v.reason != "" then [ReasonLine(v)] else [];
    JoinSix("WAF DETECTION RESULTS", "", TargetLine(target), ProtectedLine(v), NameLine(v), RequestsLine(v),
            r, ReasonTail(v));
    var rest := TargetLine(target) + "\n" + (ProtectedLine(v) + "\n" + (NameLine(v) + "\n" + (RequestsLine(v) + ReasonTail(v))));
    assert "WAF DETECTION RESULTS" + "\n" + ("" + "\n" + rest) == "WAF DETECTION RESULTS\n\n" + rest;
  }

  /** The loop of `formatWafResults` over the tagged lines of the cleaned output, and the report
      built from what it found. */
  method FormatWafResults(rawOutput: Option<string>, target: string) returns (report: string)
    ensures report == Report(target, Summary(rawOutput))
  {
    var cleanOutput := Ansi.StripAnsiCodes(rawOutput);
    var lines := TaggedLines(Split(cleanOutput, '\n'));
    var isProtected := false;
    var wafName := "Unknown";
    var protectedExplanation := "";
    var reason := "";
    var requests := "";
    for k := 0 to |lines|
      invariant Verdict(isProtected, wafName, protectedExplanation, reason, requests) == Fold(lines[..k])
    {
      var line := lines[k];
      ghost var before := Verdict(isProtected, wafName, protectedExplanation, reason, requests);
      if Contains(line, "is behind") {
        isProtected := true;
        var wafMatch := NameCapture(line);
        if wafMatch.Some? {
          wafName := Trim(wafMatch.value);
        }
        protectedExplanation := SignatureMatch;
      }
      ghost var v1 := Verdict(isProtected, wafName, protectedExplanation, reason, requests);
      assert v1 == BehindStep(before, line);
      if Contains(line, "No WAF detected") {
        isProtected := false;
        protectedExplanation := GenericNoWaf;
      }
      ghost var v2 := Verdict(isProtected, wafName, protectedExplanation, reason, requests);
      assert v2 == NoWafStep(v1, line);
      if Contains(line, "seems to be behind") {
        isProtected := false;
        protectedExplanation := Seemingly;
      }
      ghost var v3 := Verdict(isProtected, wafName, protectedExplanation, reason, requests);
      assert v3 == SeemsStep(v2, line);
      if StartsWith(line, "[~] Reason:") {
        reason := Trim(ReplaceFirst(line, "[~] Reason: ", ""));
      }
      ghost var v4 := Verdict(isProtected, wafName, protectedExplanation, reason, requests);
      assert v4 == ReasonStep(v3, line);
      if Contains(line, "Number of requests:") {
        requests := Trim(ReplaceFirst(line, "[~] Number of requests: ", ""));
      }
      assert Verdict(isProtected, wafName, protectedExplanation, reason, requests) == RequestsStep(v4, line);
      FoldStep(lines, k);
    }
    assert lines[..|lines|] == lines;
    report := Report(target, Verdict(isProtected, wafName, protectedExplanation, reason, requests));
  }

  // ---------------------------------------------------------------------------------------------
  // The modal

  const TargetRequired := "Target website is required"

  /** The state of the WAF detector's modal. */
  class WafModal {
    var target: string
    var results: Option<string>
    var error: Option<string>
    var isLoading: bool

    constructor ()
      ensures target == "" && results.None? && error.None? && !isLoading
    {
      target := "";
      results := None;
      error := None;
      isLoading := false;
    }

    /** The target input keeps the trimmed text. */
    method SetTarget(value: string)
      modifies this
      ensures target == Trim(value) && results == old(results) && error == old(error) && isLoading == old(isLoading)
    {
      target := Trim(value);
    }

    /** `handleRunTool` with the route's answer; `sent` is the `domain` posted, `None` when
        nothing is sent. A refused answer shows the body text; an ok one is reported. */
    method HandleRunTool(answer: Upstream<Option<string>>) returns (sent: Option<string>)
      modifies this
      ensures target == old(target)
      ensures old(target) == "" ==>
        sent.None? && error == Some(TargetRequired) && results == old(results) && isLoading == old(isLoading)
      ensures old(target) != "" ==> sent == Some(WafRoute.HostOf(target)) && !isLoading
      ensures old(target) != "" && answer.Failed? ==> error == Some(answer.text) && results.None?
      ensures old(target) != "" && answer.Ok? ==>
        error.None? && results == Some(Report(target, Summary(answer.value)))
      ensures old(target) != "" && answer.Threw? ==>
        error == Some(ThrownMessage(answer.error, "Unknown error")) && results.None?
    {
      if target == "" {
        error := Some(TargetRequired);
        return None;
      }
      isLoading := true;
      error := None;
      results := None;
      sent := Some(WafRoute.HostOf(target));
      match answer {
        case Failed(_, text) =>
          error := Some(text);
        case Ok(output) =>
          var formatted := FormatWafResults(output, target);
          results := Some(formatted);
        case Threw(e) =>
          error := Some(ThrownMessage(e, "Unknown error"));
      }
      isLoading := false;
    }
  }

  /** The route refuses what the modal sends exactly when the target has no host part, as for
      `https://`, which the modal's own check lets through. */
  lemma RouteRefusesHostlessTarget<J>(target: string, upstream: Upstream<J>)
    requires target != ""
    ensures WafRoute.Post(WafRoute.WafRequest(Some(WafRoute.HostOf(target)), None), upstream).status == 400
        <==> WafRoute.HostOf(target) == ""
  {
  }
}
