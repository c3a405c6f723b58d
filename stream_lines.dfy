/**
 * The streamed-output line assembler shared by the URL-fuzzer and XSS-scan modals
 * (components/tools/url-fuzzer-modal.tsx, components/tools/xss-scan-modal.tsx): each chunk is
 * appended to a text buffer, the buffer is split on `'\n'`, every piece but the last is a finished
 * line and is kept when it is not blank, and the last piece goes back into the buffer.
 *
 * The specification is stated on the whole text received so far; `PumpLines` is the loop both
 * modals run, proved against it.
 */
module StreamLines {
  import opened Strings

  /** The lines a newline has finished in `text`, in order. */
  function FinishedLines(text: string): seq<string> {
    Complete(Split(text, '\n'))
  }

  /** The text after the last newline of `text` (all of it when there is none). */
  function Pending(text: string): string {
    Last(Split(text, '\n'))
  }

  /** `lines.filter(line => line.trim())` */
  function KeepNonBlank(lines: seq<string>): (r: seq<string>)
    ensures |r| <= |lines|
  {
    if |lines| == 0 then []
    else if Blank(lines[0]) then KeepNonBlank(lines[1..])
    else [lines[0]] + KeepNonBlank(lines[1..])
  }

  /** The kept lines are exactly the non-blank ones. */
  lemma {:induction false} KeepNonBlankMembers(lines: seq<string>)
    ensures forall k :: 0 <= k < |KeepNonBlank(lines)| ==> !Blank(KeepNonBlank(lines)[k])
    ensures forall k :: 0 <= k < |lines| && !Blank(lines[k]) ==> lines[k] in KeepNonBlank(lines)
    ensures forall k :: 0 <= k < |KeepNonBlank(lines)| ==> KeepNonBlank(lines)[k] in lines
  {
    if |lines| > 0 {
      KeepNonBlankMembers(lines[1..]);
      var r := KeepNonBlank(lines);
      var r' := KeepNonBlank(lines[1..]);
      forall k | 0 <= k < |lines| && !Blank(lines[k]) ensures lines[k] in r {
        if k > 0 { assert lines[1..][k - 1] == lines[k]; }
      }
      forall k | 0 <= k < |r| ensures r[k] in lines {
        if !Blank(lines[0]) && k > 0 { assert r[k] == r'[k - 1]; }
        if Blank(lines[0]) { assert r[k] == r'[k]; }
        assert r[k] in lines[1..] ==> r[k] in lines;
      }
    }
  }

  lemma {:induction false} KeepNonBlankAppend(a: seq<string>, b: seq<string>)
    ensures KeepNonBlank(a + b) == KeepNonBlank(a) + KeepNonBlank(b)
  {
    if |a| == 0 {
      assert a + b == b;
    } else {
      assert (a + b)[1..] == a[1..] + b;
      KeepNonBlankAppend(a[1..], b);
    }
  }

  /** No kept line holds a newline: each is one whole line of the text. */
  lemma KeptLinesHaveNoNewline(text: string)
    ensures forall k :: 0 <= k < |KeepNonBlank(FinishedLines(text))| ==> '\n' !in KeepNonBlank(FinishedLines(text))[k]
  {
    var pieces := Split(text, '\n');
    SplitJoin(text, '\n');
    var lines := FinishedLines(text);
    assert forall j :: 0 <= j < |lines| ==> lines[j] == pieces[j];
    KeepNonBlankMembers(lines);
  }

  /** Flushing a non-blank pending line after the stream ends keeps every non-blank piece of the
      text, the unfinished last one included. */
  lemma FlushKeepsEveryLine(text: string)
    ensures KeepNonBlank(FinishedLines(text)) + (if Blank(Pending(text)) then [] else [Pending(text)])
      == KeepNonBlank(Split(text, '\n'))
  {
    var pieces := Split(text, '\n');
    assert pieces == FinishedLines(text) + [Pending(text)];
    KeepNonBlankAppend(FinishedLines(text), [Pending(text)]);
    assert [Pending(text)][1..] == [];
  }

  /** The concatenation of the chunks received. */
  function Concat(chunks: seq<string>): string {
    if |chunks| == 0 then "" else Concat(chunks[..|chunks| - 1]) + chunks[|chunks| - 1]
  }

  /** Splitting after one more chunk only needs the pending text: the finished lines stay
      finished, and the new ones come from the pending text followed by the chunk. */
  lemma FeedStep(text: string, chunk: string)
    ensures FinishedLines(text + chunk) == FinishedLines(text) + FinishedLines(Pending(text) + chunk)
    ensures Pending(text + chunk) == Pending(Pending(text) + chunk)
  {
    SplitAppend(text, chunk, '\n');
    var a := Complete(Split(text, '\n'));
    var b := Split(Pending(text) + chunk, '\n');
    assert Split(text + chunk, '\n') == a + b;
    assert (a + b)[..|a + b| - 1] == a + b[..|b| - 1];
  }

  /** The pending text holds no newline: it is exactly what follows the last one received. */
  lemma PendingAfterLastNewline(text: string)
    ensures '\n' !in Pending(text)
    ensures EndsWith(text, Pending(text))
    ensures |Pending(text)| < |text| ==> text[|text| - |Pending(text)| - 1] == '\n'
  {
    LastPiece(text, '\n');
  }

  /** Text that ends with a newline leaves nothing pending. */
  lemma NewlineFlushes(text: string)
    ensures Pending(text + "\n") == ""
    ensures FinishedLines(text + "\n") == FinishedLines(text) + [Pending(text)]
  {
    FeedStep(text, "\n");
    var p := Pending(text);
    SplitTerminated(p, '\n') by { PendingAfterLastNewline(text); }
  }

  /** The inner loop: `for (const line of lines) if (line.trim()) results.push(line)`. */
  method AppendNonBlank(results0: seq<string>, lines: seq<string>) returns (results: seq<string>)
    ensures results == results0 + KeepNonBlank(lines)
  {
    results := results0;
    for k := 0 to |lines|
      invariant results == results0 + KeepNonBlank(lines[..k])
    {
      assert lines[..k + 1] == lines[..k] + [lines[k]];
      KeepNonBlankAppend(lines[..k], [lines[k]]);
      if !Blank(lines[k]) {
        results := results + [lines[k]];
      }
    }
    assert lines[..|lines|] == lines;
  }

  /** The loop both modals run over the chunks of a response: `results` gains the non-blank
      finished lines in arrival order and `buffer` keeps the unfinished tail. */
  method PumpLines(chunks: seq<string>, results0: seq<string>) returns (results: seq<string>, buffer: string)
    ensures buffer == Pending(Concat(chunks))
    ensures results == results0 + KeepNonBlank(FinishedLines(Concat(chunks)))
  {
    results := results0;
    buffer := "";
    for i := 0 to |chunks|
      invariant buffer == Pending(Concat(chunks[..i]))
      invariant results == results0 + KeepNonBlank(FinishedLines(Concat(chunks[..i])))
    {
      PumpStep(chunks, i, results0, results, buffer);
      results, buffer := FeedChunk(results, buffer, chunks[i]);
    }
    assert chunks[..|chunks|] == chunks;
  }

  /** One pass of the loop body: append the chunk, split, keep the last piece, push the others. */
  method FeedChunk(results0: seq<string>, buffer0: string, chunk: string)
    returns (results: seq<string>, buffer: string)
    ensures buffer == Pending(buffer0 + chunk)
    ensures results == results0 + KeepNonBlank(FinishedLines(buffer0 + chunk))
  {
    var accumulated := buffer0 + chunk;
    var lines := Split(accumulated, '\n');
    buffer := lines[|lines| - 1];
    results := AppendNonBlank(results0, lines[..|lines| - 1]);
  }

  lemma PumpStep(chunks: seq<string>, i: nat, results0: seq<string>, results: seq<string>, buffer: string)
    requires i < |chunks|
    requires buffer == Pending(Concat(chunks[..i]))
    requires results == results0 + KeepNonBlank(FinishedLines(Concat(chunks[..i])))
    ensures Pending(buffer + chunks[i]) == Pending(Concat(chunks[..i + 1]))
    ensures results + KeepNonBlank(FinishedLines(buffer + chunks[i]))
      == results0 + KeepNonBlank(FinishedLines(Concat(chunks[..i + 1])))
  {
    var received := Concat(chunks[..i]);
    assert Concat(chunks[..i + 1]) == received + chunks[i] by {
      assert chunks[..i + 1][..i] == chunks[..i];
    }
    FeedStep(received, chunks[i]);
    KeepStep(results0, FinishedLines(received), FinishedLines(buffer + chunks[i]),
      FinishedLines(Concat(chunks[..i + 1])));
  }

  lemma KeepStep(results0: seq<string>, a: seq<string>, b: seq<string>, ab: seq<string>)
    requires ab == a + b
    ensures results0 + KeepNonBlank(a) + KeepNonBlank(b) == results0 + KeepNonBlank(ab)
  {
    KeepNonBlankAppend(a, b);
  }

  /** Text after the last newline contributes no line: the finished lines are those of the text
      up to and including the last newline. */
  lemma PendingContributesNothing(text: string)
    ensures |Pending(text)| <= |text|
    ensures var cut := |text| - |Pending(text)|;
      FinishedLines(text) == FinishedLines(text[..cut])
  {
    PendingAfterLastNewline(text);
    var p := Pending(text);
    var prefix := text[..|text| - |p|];
    assert text == prefix + p;
    EmptyPendingAfterNewline(prefix);
    NoNewlineNoLine(p);
    FeedStep(prefix, p);
    assert Pending(prefix) + p == p;
  }

  /** Text that is empty or ends with a newline has nothing pending. */
  lemma EmptyPendingAfterNewline(prefix: string)
    requires |prefix| == 0 || prefix[|prefix| - 1] == '\n'
    ensures Pending(prefix) == ""
  {
    if |prefix| > 0 {
      NewlineFlushes(prefix[..|prefix| - 1]);
      assert prefix == prefix[..|prefix| - 1] + "\n";
    }
  }

  /** Text without a newline finishes no line. */
  lemma NoNewlineNoLine(p: string)
    requires '\n' !in p
    ensures FinishedLines(p) == []
  {
    SplitNoSeparator(p, '\n');
  }
}
