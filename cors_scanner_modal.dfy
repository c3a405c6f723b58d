/**
 * The CORS scanner's modal (components/tools/cors-scanner-modal.tsx): it posts the typed URL to
 * the scanner route and turns the scanner's output into a short report of five key-value fields.
 *
 * `formatCorsResults` walks the non-blank lines of the output and, for each line, looks for the
 * five keys in a fixed order; the first key found names the field the line sets, and the field's
 * value is the text between that key and its next occurrence, trimmed. `Fold` states what that
 * loop computes, line by line; the lemmas say which line sets each field in the end.
 */
module CorsScannerModal {
  import opened Wrappers
  import opened Strings
  import Ansi
  import opened Routes
  import StreamLines

  // ---------------------------------------------------------------------------------------------
  // Keys and values

  /** The five fields of the report, in the order the loop tests their keys. */
  datatype Field = Severity | Description | Exploitation | AcaoHeader | AcacHeader

  /** The position of a field's test in the `else if` chain. */
  function Rank(f: Field): (r: nat)
    ensures r < 5
  {
    match f
    case Severity => 0
    case Description => 1
    case Exploitation => 2
    case AcaoHeader => 3
    case AcacHeader => 4
  }

  /** The key the scanner prints before a field's value. */
  function Key(f: Field): (key: string)
    ensures key != "" && key[|key| - 1] == ':'
  {
    match f
    case Severity => "Severity:"
    case Description => "Description:"
    case Exploitation => "Exploitation:"
    case AcaoHeader => "ACAO Header:"
    case AcacHeader => "ACAC Header:"
  }

  /** The field a line sets: the first of the five keys, in test order, that the line contains. */
  function FieldOf(line: string): Option<Field> {
    if Contains(line, Key(Severity)) then Some(Severity)
    else if Contains(line, Key(Description)) then Some(Description)
    else if Contains(line, Key(Exploitation)) then Some(Exploitation)
    else if Contains(line, Key(AcaoHeader)) then Some(AcaoHeader)
    else if Contains(line, Key(AcacHeader)) then Some(AcacHeader)
    else None
  }

  /** A line sets field `f` exactly when it contains `f`'s key and none of the keys checked before
      it; a line sets no field exactly when it contains none of the keys. */
  lemma FieldOfIsFirstKey(line: string, f: Field)
    ensures FieldOf(line) == Some(f) <==>
      Contains(line, Key(f)) && forall g :: Rank(g) < Rank(f) ==> !Contains(line, Key(g))
    ensures FieldOf(line).None? <==> forall g :: !Contains(line, Key(g))
  {
    forall g | FieldOf(line).None? || (FieldOf(line) == Some(f) && Rank(g) < Rank(f))
      ensures !Contains(line, Key(g))
    {
      match g
      case Severity =>
      case Description =>
      case Exploitation =>
      case AcaoHeader =>
      case AcacHeader =>
    }
    if Contains(line, Key(f)) && forall g :: Rank(g) < Rank(f) ==> !Contains(line, Key(g)) {
      match f
      case Severity =>
      case Description =>
        assert Rank(Severity) < Rank(f);
      case Exploitation =>
        assert Rank(Severity) < Rank(f) && Rank(Description) < Rank(f);
      case AcaoHeader =>
        assert Rank(Severity) < Rank(f) && Rank(Description) < Rank(f) && Rank(Exploitation) < Rank(f);
      case AcacHeader =>
        assert Rank(Severity) < Rank(f) && Rank(Description) < Rank(f) && Rank(Exploitation) < Rank(f);
        assert Rank(AcaoHeader) < Rank(f);
    }
  }

  /** `line.split(key)[1]`: the text after the first occurrence of `key`, up to its next
      occurrence or the end of the line; `None` when `key` does not occur, where the element does
      not exist. */
  function SecondPiece(line: string, key: string): (piece: Option<string>)
    ensures piece.Some? <==> IndexOf(line, key).Some?
  {
    match IndexOf(line, key)
    case None => None
    case Some(i) =>
      var rest := line[i + |key|..];
      match IndexOf(rest, key)
      case None => Some(rest)
      case Some(j) => Some(rest[..j])
  }

  /** No occurrence of `key` starts before `n` in `s`, so none lies inside `s[..n]`. */
  lemma NoOccurrenceInPrefix(s: string, key: string, n: nat)
    requires n <= |s| && key != ""
    requires forall j :: 0 <= j < n ==> !OccursAt(s, key, j)
    ensures !Contains(s[..n], key)
  {
    forall m | 0 <= m <= n - |key| ensures !OccursAt(s[..n], key, m) {
      assert !OccursAt(s, key, m);
      assert s[..n][m..m + |key|] == s[m..m + |key|];
    }
  }

  /** An occurrence in a suffix is an occurrence in the whole string, shifted. */
  lemma OccursInSuffix(s: string, p: nat, j: nat, key: string)
    requires p <= |s| && OccursAt(s[p..], key, j)
    ensures OccursAt(s, key, p + j)
  {
    assert s[p..][j..j + |key|] == s[p + j..p + j + |key|];
  }

  /** The second piece starts right after the first occurrence `i` of `key`, holds no
      occurrence of `key`, and ends at the end of the line or where `key` occurs again. */
  lemma SecondPieceBetweenOccurrences(line: string, key: string) returns (i: nat)
    requires key != "" && Contains(line, key)
    ensures OccursAt(line, key, i) && forall j :: 0 <= j < i ==> !OccursAt(line, key, j)
    ensures SecondPiece(line, key).Some?
    ensures StartsWith(line[i + |key|..], SecondPiece(line, key).value)
    ensures !Contains(SecondPiece(line, key).value, key)
    ensures var end := i + |key| + |SecondPiece(line, key).value|;
      end == |line| || OccursAt(line, key, end)
  {
    ContainsIffFound(line, key);
    i := IndexOf(line, key).value;
    var rest := line[i + |key|..];
    var piece := SecondPiece(line, key).value;
    match IndexOf(rest, key)
    case None =>
      assert piece == rest[..|rest|];
      NoOccurrenceInPrefix(rest, key, |rest|);
    case Some(j) =>
      assert piece == rest[..j];
      NoOccurrenceInPrefix(rest, key, j);
      OccursInSuffix(line, i + |key|, j, key);
  }

  /** `line.split(key)[1].trim()`, the value a line gives the field whose key it contains. */
  function Value(line: string, key: string): string {
    match SecondPiece(line, key)
    case None => ""
    case Some(piece) => Trim(piece)
  }

  // ---------------------------------------------------------------------------------------------
  // The loop

  /** The five variables of `formatCorsResults`. */
  datatype Findings = Findings(severity: string, description: string, exploitation: string,
                               acaoHeader: string, acacHeader: string)

  /** The values before any line is examined. */
  const Initial := Findings("Unknown", "", "", "", "")

  /** A field of the findings. */
  function Get(fs: Findings, f: Field): string {
    match f
    case Severity => fs.severity
    case Description => fs.description
    case Exploitation => fs.exploitation
    case AcaoHeader => fs.acaoHeader
    case AcacHeader => fs.acacHeader
  }

  /** The findings with field `f` set to `value`. */
  function Set(fs: Findings, f: Field, value: string): (r: Findings)
    ensures Get(r, f) == value
    ensures forall g :: g != f ==> Get(r, g) == Get(fs, g)
  {
    match f
    case Severity => fs.(severity := value)
    case Description => fs.(description := value)
    case Exploitation => fs.(exploitation := value)
    case AcaoHeader => fs.(acaoHeader := value)
    case AcacHeader => fs.(acacHeader := value)
  }

  /** One pass of the loop body: the line sets the field it names to its value. */
  function Step(fs: Findings, line: string): Findings {
    match FieldOf(line)
    case None => fs
    case Some(f) => Set(fs, f, Value(line, Key(f)))
  }

  /** Field `f` of the findings, as a function. */
  function Getter(f: Field): Findings -> string { fs => Get(fs, f) }

  /** Whether a line names `f`, as a function. */
  function Names(f: Field): string -> bool { line => FieldOf(line) == Some(f) }

  /** The value a line gives `f`, as a function. */
  function ValueFor(f: Field): string -> string { line => Value(line, Key(f)) }

  /** One pass changes field `f` only when the line names `f`. */
  lemma StepGet(fs: Findings, line: string, f: Field)
    ensures Get(Step(fs, line), f) == if FieldOf(line) == Some(f) then Value(line, Key(f)) else Get(fs, f)
  {
  }

  /** The state after a loop that applies `step` to each of `lines`, in order, from `init`. */
  function FoldLines<S>(step: (S, string) -> S, init: S, lines: seq<string>): S
    decreases |lines|
  {
    if |lines| == 0 then init else step(FoldLines(step, init, lines[..|lines| - 1]), lines[|lines| - 1])
  }

  /** One more line examined is one more step. */
  lemma FoldLinesStep<S>(step: (S, string) -> S, init: S, lines: seq<string>, k: nat)
    requires k < |lines|
    ensures FoldLines(step, init, lines[..k + 1]) == step(FoldLines(step, init, lines[..k]), lines[k])
  {
    assert lines[..k + 1][..k] == lines[..k];
  }

  /** A part of the state that each step either sets from the line or leaves alone ends up as the
      start value when no line sets it... */
  lemma {:induction false} NeverSetKeepsStart<S>(step: (S, string) -> S, init: S, lines: seq<string>,
                                                 get: S -> string, sets: string -> bool, value: string -> string)
    requires forall st, line :: get(step(st, line)) == if sets(line) then value(line) else get(st)
    requires forall j :: 0 <= j < |lines| ==> !sets(lines[j])
    ensures get(FoldLines(step, init, lines)) == get(init)
  {
    if |lines| > 0 {
      var n := |lines| - 1;
      NeverSetKeepsStart(step, init, lines[..n], get, sets, value);
    }
  }

  /** ...and as the value of the last line that sets it otherwise. */
  lemma {:induction false} LastSetWins<S>(step: (S, string) -> S, init: S, lines: seq<string>, k: nat,
                                          get: S -> string, sets: string -> bool, value: string -> string)
    requires forall st, line :: get(step(st, line)) == if sets(line) then value(line) else get(st)
    requires k < |lines| && sets(lines[k])
    requires forall j :: k < j < |lines| ==> !sets(lines[j])
    ensures get(FoldLines(step, init, lines)) == value(lines[k])
    decreases |lines|
  {
    var n := |lines| - 1;
    if k < n {
      LastSetWins(step, init, lines[..n], k, get, sets, value);
    }
  }

  /** The findings after the loop of `formatCorsResults` has examined `lines`, in order. */
  function Fold(lines: seq<string>): Findings {
    FoldLines(Step, Initial, lines)
  }

  /** `split('\n').filter(line => line.trim())`: the non-blank lines of the cleaned output. */
  function ExaminedLines(rawOutput: Option<string>): seq<string> {
    StreamLines.KeepNonBlank(Split(Ansi.StripAnsiCodes(rawOutput), '\n'))
  }

  /** The findings for the scanner's `raw_output` (anything but a string reads as no output). */
  function Summary(rawOutput: Option<string>): Findings {
    Fold(ExaminedLines(rawOutput))
  }

  /** A field no line names keeps its starting value. */
  lemma UnnamedFieldKeepsDefault(lines: seq<string>, f: Field)
    requires forall j :: 0 <= j < |lines| ==> FieldOf(lines[j]) != Some(f)
    ensures Get(Fold(lines), f) == Get(Initial, f)
  {
    var get, sets, value := Getter(f), Names(f), ValueFor(f);
    forall st, line ensures get(Step(st, line)) == if sets(line) then value(line) else get(st) {
      StepGet(st, line, f);
    }
    NeverSetKeepsStart(Step, Initial, lines, get, sets, value);
  }

  /** The last line that names `f` decides its value: later lines that name other fields do not
      touch it. */
  lemma LastNamingLineWins(lines: seq<string>, f: Field, k: nat)
    requires k < |lines| && FieldOf(lines[k]) == Some(f)
    requires forall j :: k < j < |lines| ==> FieldOf(lines[j]) != Some(f)
    ensures Get(Fold(lines), f) == Value(lines[k], Key(f))
  {
    var get, sets, value := Getter(f), Names(f), ValueFor(f);
    forall st, line ensures get(Step(st, line)) == if sets(line) then value(line) else get(st) {
      StepGet(st, line, f);
    }
    LastSetWins(Step, Initial, lines, k, get, sets, value);
  }

  /** Blank lines name no field, so dropping them does not change the findings. */
  lemma BlankLineNamesNothing(line: string)
    requires Blank(line)
    ensures FieldOf(line).None?
  {
    forall g ensures !Contains(line, Key(g)) {
      var key := Key(g);
      forall i | 0 <= i <= |line| - |key| ensures !OccursAt(line, key, i) {
        assert line[i..i + |key|][|key| - 1] == line[i + |key| - 1];
      }
    }
    FieldOfIsFirstKey(line, Severity);
  }

  // ---------------------------------------------------------------------------------------------
  // The report

  /** `${x}` for a field of the response that may be missing. */
  function Interpolated(x: Option<string>): string {
    match x
    case None => "undefined"
    case Some(s) => s
  }

  const Heading := "CORS MISCONFIGURATION SCAN RESULTS"

  function TargetLine(target: Option<string>): string { "\U{2022} Target: " + Interpolated(target) }
  function SeverityLine(fs: Findings): string { "\U{2022} Severity: " + fs.severity }
  function DescriptionLine(fs: Findings): string { "\U{2022} Description: " + fs.description }
  function ExploitationLine(fs: Findings): string { "\U{2022} Exploitation: " + fs.exploitation }
  function AcaoLine(fs: Findings): string { "\U{2022} ACAO Header: " + OrElse(fs.acaoHeader, "None") }
  function AcacLine(fs: Findings): string { "\U{2022} ACAC Header: " + OrElse(fs.acacHeader, "None") }

  /** The template literal `formatCorsResults` returns. */
  function Report(target: Option<string>, fs: Findings): string {
    Heading + "\n\n"
    + (TargetLine(target) + "\n"
    + (SeverityLine(fs) + "\n"
    + (DescriptionLine(fs) + "\n"
    + (ExploitationLine(fs) + "\n"
    + (AcaoLine(fs) + "\n"
    + (AcacLine(fs) + "\n\n"))))))
  }

  /** The lines of the report: a heading, a blank line, six bulleted lines and a blank line
      (the last element is what follows the final newline). Empty header values show as `None`. */
  function ReportLines(target: Option<string>, fs: Findings): (lines: seq<string>)
    ensures |lines| == 10 && lines[0] == Heading && lines[1] == "" && lines[8] == "" && lines[9] == ""
    ensures lines[3] == "\U{2022} Severity: " + fs.severity
    ensures fs.acaoHeader == "" ==> lines[6] == "\U{2022} ACAO Header: None"
    ensures fs.acacHeader == "" ==> lines[7] == "\U{2022} ACAC Header: None"
    ensures fs.acaoHeader != "" ==> lines[6] == "\U{2022} ACAO Header: " + fs.acaoHeader
    ensures fs.acacHeader != "" ==> lines[7] == "\U{2022} ACAC Header: " + fs.acacHeader
  {
    [Heading, "", TargetLine(target), SeverityLine(fs), DescriptionLine(fs), ExploitationLine(fs),
     AcaoLine(fs), AcacLine(fs), "", ""]
  }

  /** Joining a part in front of parts that join to `tail`. */
  lemma JoinStep(p: string, rest: seq<string>, tail: string, sep: string)
    requires |rest| >= 1 && Join(rest, sep) == tail
    ensures Join([p] + rest, sep) == p + sep + tail
  {
    JoinCons(p, rest, sep);
  }

  /** The last four lines of the report, a blank line and an empty last piece, joined with the
      separator `nl`. */
  lemma JoinTemplateEnd(d: string, e: string, f: string, g: string, nl: string)
    ensures Join([d, e, f, g, "", ""], nl) == d + nl + (e + nl + (f + nl + (g + (nl + nl))))
  {
    var l8 := ["", ""];
    assert Join(l8, nl) == nl by { JoinStep("", [""], "", nl); }
    var l7 := [g] + l8;
    var t7 := g + (nl + nl);
    assert Join(l7, nl) == t7 by {
      JoinStep(g, l8, nl, nl);
      ConcatAssoc(g, nl, nl);
    }
    var l6 := [f] + l7;
    var t6 := f + nl + t7;
    assert Join(l6, nl) == t6 by { JoinStep(f, l7, t7, nl); }
    var l5 := [e] + l6;
    var t5 := e + nl + t6;
    assert Join(l5, nl) == t5 by { JoinStep(e, l6, t6, nl); }
    assert [d] + l5 == [d, e, f, g, "", ""];
    JoinStep(d, l5, t5, nl);
  }

  /** With no output at all (or a `raw_output` that is not a string) no line is examined: the
      report shows the starting values, `Unknown` severity and `None` for both headers. */
  lemma MissingOutputGivesDefaults(target: Option<string>)
    ensures Summary(None) == Initial
    ensures ReportLines(target, Summary(None))[3] == "\U{2022} Severity: Unknown"
    ensures ReportLines(target, Summary(None))[6] == "\U{2022} ACAO Header: None"
    ensures ReportLines(target, Summary(None))[7] == "\U{2022} ACAC Header: None"
  {
    assert ExaminedLines(None) == [] by {
      assert Split("", '\n') == [""];
      assert Blank("");
    }
  }

  /** A heading, a blank line, six lines, then a blank line and an empty last piece, joined with
      the separator `nl`. */
  lemma JoinTemplate(h: string, a: string, c: string, d: string, e: string, f: string, g: string, nl: string)
    ensures Join([h, "", a, c, d, e, f, g, "", ""], nl)
      == h + (nl + nl) + (a + nl + (c + nl + (d + nl + (e + nl + (f + nl + (g + (nl + nl)))))))
  {
    var l4 := [d, e, f, g, "", ""];
    var t4 := d + nl + (e + nl + (f + nl + (g + (nl + nl))));
    assert Join(l4, nl) == t4 by { JoinTemplateEnd(d, e, f, g, nl); }
    var l3 := [c] + l4;
    var t3 := c + nl + t4;
    assert Join(l3, nl) == t3 by { JoinStep(c, l4, t4, nl); }
    var l2 := [a] + l3;
    var t2 := a + nl + t3;
    assert Join(l2, nl) == t2 by { JoinStep(a, l3, t3, nl); }
    var l1 := [""] + l2;
    assert Join(l1, nl) == nl + t2 by { JoinStep("", l2, t2, nl); }
    assert [h] + l1 == [h, "", a, c, d, e, f, g, "", ""];
    assert Join([h] + l1, nl) == h + nl + (nl + t2) by { JoinStep(h, l1, nl + t2, nl); }
    assert h + nl + (nl + t2) == h + (nl + nl) + t2 by {
      ConcatAssoc(h + nl, nl, t2);
      ConcatAssoc(h, nl, nl);
    }
  }

  /** The report is its lines joined with newlines: it ends in a blank line. */
  lemma JoinReportLines(target: Option<string>, fs: Findings)
    ensures Join(ReportLines(target, fs), "\n") == Report(target, fs)
  {
    JoinTemplate(Heading, TargetLine(target), SeverityLine(fs), DescriptionLine(fs), ExploitationLine(fs),
                 AcaoLine(fs), AcacLine(fs), "\n");
    assert "\n" + "\n" == "\n\n";
  }

  /** `formatCorsResults`: the loop over the non-blank lines of the cleaned output, and the
      report built from what it found. */
  method FormatCorsResults(rawOutput: Option<string>, target: Option<string>) returns (report: string)
    ensures report == Report(target, Summary(rawOutput))
  {
    var cleanOutput := Ansi.StripAnsiCodes(rawOutput);
    var lines := StreamLines.KeepNonBlank(Split(cleanOutput, '\n'));
    var severity := "Unknown";
    var description := "";
    var exploitation := "";
    var acaoHeader := "";
    var acacHeader := "";
    for k := 0 to |lines|
      invariant Findings(severity, description, exploitation, acaoHeader, acacHeader) == Fold(lines[..k])
    {
      var line := lines[k];
      FoldLinesStep(Step, Initial, lines, k);
      if Contains(line, "Severity:") {
        severity := Value(line, "Severity:");
      } else if Contains(line, "Description:") {
        description := Value(line, "Description:");
      } else if Contains(line, "Exploitation:") {
        exploitation := Value(line, "Exploitation:");
      } else if Contains(line, "ACAO Header:") {
        acaoHeader := Value(line, "ACAO Header:");
      } else if Contains(line, "ACAC Header:") {
        acacHeader := Value(line, "ACAC Header:");
      }
    }
    assert lines[..|lines|] == lines;
    report := Report(target, Findings(severity, description, exploitation, acaoHeader, acacHeader));
  }

  // ---------------------------------------------------------------------------------------------
  // The modal

  const UrlRequired := "URL is required"
  const ScanFailed := "Failed to scan for CORS misconfigurations"
  const UnknownError := "Unknown error occurred"

  /** The fields of the scanner route's answer the modal reads. */
  datatype ScanAnswer = ScanAnswer(rawOutput: Option<string>, target: Option<string>)

  class CorsScannerModal {
    var url: string
    var results: string
    var error: Option<string>
    var isLoading: bool

    constructor ()
      ensures url == "" && results == "" && error.None? && !isLoading
    {
      url := "";
      results := "";
      error := None;
      isLoading := false;
    }

    /** The URL input keeps the trimmed text. */
    method SetUrl(value: string)
      modifies this
      ensures url == Trim(value) && results == old(results) && error == old(error) && isLoading == old(isLoading)
    {
      url := Trim(value);
    }

    /** `handleRunScan` with the route's answer; `sent` is the `url` posted, `None` when nothing
        is sent. A refused answer shows its `error` field or a fallback; an ok one is reported. */
    method HandleRunScan(answer: Upstream<ScanAnswer>) returns (sent: Option<string>)
      modifies this
      ensures url == old(url)
      ensures old(url) == "" ==>
        sent.None? && error == Some(UrlRequired) && results == old(results) && isLoading == old(isLoading)
      ensures old(url) != "" ==> sent == Some(url) && !isLoading
      ensures old(url) != "" && answer.Failed? ==> error == Some(OrElse(answer.text, ScanFailed)) && results == ""
      ensures old(url) != "" && answer.Ok? ==>
        error.None? && results == Report(answer.value.target, Summary(answer.value.rawOutput))
      ensures old(url) != "" && answer.Threw? ==>
        error == Some(ThrownMessage(answer.error, UnknownError)) && results == ""
    {
      if url == "" {
        error := Some(UrlRequired);
        return None;
      }
      isLoading := true;
      error := None;
      results := "";
      sent := Some(url);
      match answer {
        case Failed(_, text) =>
          error := Some(ThrownMessage(ErrorObject("Error", OrElse(text, ScanFailed)), UnknownError));
        case Ok(data) =>
          var formatted := FormatCorsResults(data.rawOutput, data.target);
          results := formatted;
        case Threw(e) =>
          error := Some(ThrownMessage(e, UnknownError));
      }
      isLoading := false;
    }
  }
}
