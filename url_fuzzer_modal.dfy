/**
 * components/tools/url-fuzzer-modal.tsx: the URL fuzzer's modal. The wordlist check of
 * `handleFileChange`, the guards and the stream loop of `handleRunTool`, the download guard, and
 * `formatResultLine`, which rewrites one line of ffuf output after `cleanAnsiCodes`.
 *
 * The two regular expressions of `formatResultLine` are written as scanners. The lazy `(.*?)`
 * becomes a search over the end position of the payload, from 0 upwards, that may not step over
 * a line terminator; `\s+` before `[` and each `\d+` take the longest run, because a shorter one
 * leaves a space or a digit where the pattern needs something else.
 */
module UrlFuzzerModal {
  import opened Wrappers
  import opened Strings
  import Ansi
  import opened StreamLines
  import opened ToolModals

  // ---------------------------------------------------------------------------------------------
  // Runs

  /** The end of the white-space run starting at `i`. */
  function SpaceRunEnd(s: string, i: nat): (j: nat)
    requires i <= |s|
    ensures i <= j <= |s|
    decreases |s| - i
  {
    if i < |s| && IsSpace(s[i]) then SpaceRunEnd(s, i + 1) else i
  }

  /** The end of the digit run starting at `i`. */
  function DigitRunEnd(s: string, i: nat): (j: nat)
    requires i <= |s|
    ensures i <= j <= |s|
    decreases |s| - i
  {
    if i < |s| && IsDigit(s[i]) then DigitRunEnd(s, i + 1) else i
  }

  lemma {:induction false} DigitRunIs(s: string, i: nat, j: nat)
    requires i <= j <= |s|
    requires forall k :: i <= k < j ==> IsDigit(s[k])
    requires j == |s| || !IsDigit(s[j])
    ensures DigitRunEnd(s, i) == j
    decreases j - i
  {
    if i < j {
      DigitRunIs(s, i + 1, j);
    }
  }

  lemma {:induction false} DigitRunFacts(s: string, i: nat)
    requires i <= |s|
    ensures AllDigits(s[i..DigitRunEnd(s, i)])
    ensures DigitRunEnd(s, i) == |s| || !IsDigit(s[DigitRunEnd(s, i)])
    decreases |s| - i
  {
    if i < |s| && IsDigit(s[i]) {
      DigitRunFacts(s, i + 1);
      var j := DigitRunEnd(s, i);
      assert s[i..j] == [s[i]] + s[i + 1..j];
    }
  }

  // ---------------------------------------------------------------------------------------------
  // The lazy `^(.*?)`

  /** The first position from `p` on at which `tail` matches, where the text skipped holds no
      line terminator: how `^(.*?)` followed by the rest of a pattern finds its match. */
  function LazySearch<T>(s: string, p: nat, tail: nat -> Option<T>): Option<T>
    decreases |s| - p
  {
    if tail(p).Some? then tail(p)
    else if p < |s| && !IsLineTerminator(s[p]) then LazySearch(s, p + 1, tail)
    else None
  }

  /** The search answers with the least matching position: every position it passes fails, and
      when it finds nothing, no position reachable without crossing a line terminator matches. */
  lemma {:induction false} LazySearchIsLeast<T>(s: string, i: nat, tail: nat -> Option<T>)
    ensures LazySearch(s, i, tail).Some? ==>
      exists e :: i <= e && LazySearch(s, i, tail) == tail(e) &&
        forall p :: i <= p < e ==> tail(p).None? && p < |s| && !IsLineTerminator(s[p])
    ensures LazySearch(s, i, tail).None? ==>
      forall p :: i <= p <= |s| && (forall k :: i <= k < p ==> !IsLineTerminator(s[k])) ==> tail(p).None?
    decreases |s| - i
  {
    if tail(i).None? && i < |s| && !IsLineTerminator(s[i]) {
      LazySearchIsLeast(s, i + 1, tail);
      assert LazySearch(s, i, tail) == LazySearch(s, i + 1, tail);
      if LazySearch(s, i, tail).Some? {
        var e := LazySearchFound(s, i, tail);
      }
    } else if tail(i).None? {
      forall p | i <= p <= |s| && (forall k :: i <= k < p ==> !IsLineTerminator(s[k]))
        ensures tail(p).None?
      {
        Blocked(s, i, p);
      }
    } else {
      assert LazySearch(s, i, tail) == tail(i);
    }
  }

  /** Where a successful search stopped: a matching position, with every position before it
      failing and free of line terminators. */
  lemma {:induction false} LazySearchFound<T>(s: string, i: nat, tail: nat -> Option<T>) returns (e: nat)
    requires LazySearch(s, i, tail).Some?
    ensures i <= e && LazySearch(s, i, tail) == tail(e)
    ensures forall p: nat :: i <= p < e ==> tail(p).None? && p < |s| && !IsLineTerminator(s[p])
    decreases |s| - i
  {
    e := i;
    if tail(i).None? {
      assert i < |s| && !IsLineTerminator(s[i]);
      assert LazySearch(s, i, tail) == LazySearch(s, i + 1, tail);
      e := LazySearchFound(s, i + 1, tail);
      forall p: nat | i <= p < e
        ensures tail(p).None? && p < |s| && !IsLineTerminator(s[p])
      {
      }
    }
  }

  /** A search that cannot step past `i` reaches no position beyond it. */
  lemma Blocked(s: string, i: nat, p: nat)
    requires i <= p <= |s| && (forall k :: i <= k < p ==> !IsLineTerminator(s[k]))
    requires i == |s| || IsLineTerminator(s[i])
    ensures p == i
  {
  }

  /** Positions at which `tail` fails and that hold no line terminator are passed over. */
  lemma {:induction false} LazySearchSkips<T>(s: string, i: nat, n: nat, tail: nat -> Option<T>)
    requires i <= n <= |s|
    requires forall k :: i <= k < n ==> tail(k).None? && !IsLineTerminator(s[k])
    ensures LazySearch(s, i, tail) == LazySearch(s, n, tail)
    decreases n - i
  {
    if i < n {
      LazySearchSkips(s, i + 1, n, tail);
    }
  }

  // ---------------------------------------------------------------------------------------------
  // /^(.*?)\s+\[Status: (\d+), Size: (\d+)(?:, Words: \d+)?(?:, Lines: \d+)?(?:, Duration: (\d+)ms)?/

  const StatusLabel := "[Status: "
  const SizeLabel := ", Size: "
  const WordsLabel := ", Words: "
  const LinesLabel := ", Lines: "
  const DurationLabel := ", Duration: "

  /** The captures of the full pattern. */
  datatype FullFields = FullFields(payload: string, status: string, size: string, duration: Option<string>)

  /** `(?:<group>\d+)?` at `i`: where the group ends, `i` when it is absent. */
  function OptionalCount(s: string, i: nat, group: string): (j: nat)
    requires i <= |s|
    ensures i <= j <= |s|
  {
    if OccursAt(s, group, i) && DigitRunEnd(s, i + |group|) > i + |group| then DigitRunEnd(s, i + |group|)
    else i
  }

  /** `(?:, Duration: (\d+)ms)?` at `i`: the captured digits, if the group is there. */
  function DurationGroup(s: string, i: nat): (r: Option<string>)
    requires i <= |s|
  {
    if OccursAt(s, DurationLabel, i) then
      var e := DigitRunEnd(s, i + |DurationLabel|);
      if e > i + |DurationLabel| && OccursAt(s, "ms", e) then Some(s[i + |DurationLabel|..e]) else None
    else None
  }

  /** The full pattern after `(.*?)`, with the payload ending at `p`: `\s+` then the rest. */
  function FullTail(s: string, p: nat): (r: Option<FullFields>)
    ensures r.Some? ==> p < |s| && r.value.payload == s[..p]
  {
    if p >= |s| || !IsSpace(s[p]) then None
    else StatusAt(s, p, SpaceRunEnd(s, p))
  }

  /** `\[Status: (\d+)` at `q`, then the rest. */
  function StatusAt(s: string, p: nat, q: nat): (r: Option<FullFields>)
    requires p <= q <= |s|
    ensures r.Some? ==> r.value.payload == s[..p]
  {
    if !OccursAt(s, StatusLabel, q) then None
    else SizeAt(s, p, q + |StatusLabel|, DigitRunEnd(s, q + |StatusLabel|))
  }

  /** The status digits are `s[a..b]`; `, Size: (\d+)` at `b`, then the rest. */
  function SizeAt(s: string, p: nat, a: nat, b: nat): (r: Option<FullFields>)
    requires p <= a <= b <= |s|
    ensures r.Some? ==> r.value.payload == s[..p]
  {
    if b == a || !OccursAt(s, SizeLabel, b) then None
    else FieldsAt(s, p, a, b, b + |SizeLabel|, DigitRunEnd(s, b + |SizeLabel|))
  }

  /** The size digits are `s[c..d]`; the optional groups follow. */
  function FieldsAt(s: string, p: nat, a: nat, b: nat, c: nat, d: nat): (r: Option<FullFields>)
    requires p <= a <= b <= c <= d <= |s|
    ensures r.Some? ==> r.value.payload == s[..p]
  {
    if d == c then None
    else
      var f := OptionalCount(s, OptionalCount(s, d, WordsLabel), LinesLabel);
      Some(FullFields(s[..p], s[a..b], s[c..d], DurationGroup(s, f)))
  }

  // ---------------------------------------------------------------------------------------------
  // /^(.*?)\s+\[.*?(\d+)ms\]/

  /** `.*?(\d+)ms\]` from `r`: the digit run right before the first `ms]` reached without
      stepping over a line terminator. */
  function AltDigitsFrom(s: string, r: nat): (d: Option<string>)
    requires r <= |s|
    decreases |s| - r
  {
    if r < |s| && IsDigit(s[r]) && OccursAt(s, "ms]", DigitRunEnd(s, r)) then Some(s[r..DigitRunEnd(s, r)])
    else if r < |s| && !IsLineTerminator(s[r]) then AltDigitsFrom(s, r + 1)
    else None
  }

  /** The fallback pattern after `(.*?)`: the payload and the duration digits. */
  function AltTail(s: string, p: nat): (r: Option<(string, string)>)
    ensures r.Some? ==> p < |s| && r.value.0 == s[..p]
  {
    if p >= |s| || !IsSpace(s[p]) then None
    else
      var q := SpaceRunEnd(s, p);
      if q == |s| || s[q] != '[' then None
      else
        match AltDigitsFrom(s, q + 1)
        case Some(d) => Some((s[..p], d))
        case None => None
  }

  // ---------------------------------------------------------------------------------------------
  // formatResultLine

  /** `targetUrl.replace("FUZZ", "")`: only the first `FUZZ` goes. */
  function BaseUrl(targetUrl: string): string {
    ReplaceFirst(targetUrl, "FUZZ", "")
  }

  /** The parts joined by `formatResultLine` for a full match. */
  function FullParts(base: string, f: FullFields): seq<string> {
    [base + f.payload, "[Status: " + f.status, "Size: " + f.size] +
    match f.duration
    case Some(d) => ["Duration: " + d + "ms"]
    case None => []
  }

  /** `cleanLine.match(/^(.*?)\s+\[Status: …/)` */
  function FullMatch(s: string): Option<FullFields> {
    LazySearch(s, 0, p => FullTail(s, p))
  }

  /** `cleanLine.match(/^(.*?)\s+\[.*?(\d+)ms\]/)` */
  function AltMatch(s: string): Option<(string, string)> {
    LazySearch(s, 0, p => AltTail(s, p))
  }

  /** `formatResultLine(line)` for the target URL typed in the modal. */
  function FormatResultLine(targetUrl: string, line: string): string {
    var clean := Ansi.Strip(line);
    var base := BaseUrl(targetUrl);
    match FullMatch(clean)
    case Some(f) => Join(NonEmpty(FullParts(base, f)), " ") + "]"
    case None =>
      match AltMatch(clean)
      case Some((payload, duration)) => base + payload + " [Duration: " + duration + "ms]"
      case None => if Trim(clean) != "" then base + Trim(clean) else ""
  }

  // ---------------------------------------------------------------------------------------------
  // What the scanners find

  /** Reading a known piece at a cursor. */
  lemma Cursor(s: string, i: nat, x: string, rest: string)
    requires i <= |s| && s[i..] == x + rest
    ensures OccursAt(s, x, i) && s[i + |x|..] == rest
  {
    assert s[i..i + |x|] == (x + rest)[..|x|];
  }

  /** Reading a digit run at a cursor. */
  lemma DigitsCursor(s: string, i: nat, ds: string, rest: string)
    requires i <= |s| && s[i..] == ds + rest
    requires AllDigits(ds) && (rest == "" || !IsDigit(rest[0]))
    ensures DigitRunEnd(s, i) == i + |ds| && s[i..i + |ds|] == ds && s[i + |ds|..] == rest
  {
    Cursor(s, i, ds, rest);
    forall k | i <= k < i + |ds| ensures IsDigit(s[k]) {
      assert s[k] == ds[k - i];
    }
    if rest != "" {
      assert s[i + |ds|] == rest[0];
    }
    DigitRunIs(s, i, i + |ds|);
  }

  /** A result line as ffuf prints it, with or without the duration. */
  function FfufLine(payload: string, status: string, size: string, words: string, lines: string,
    duration: Option<string>): string
  {
    payload + (" " + (StatusLabel + (status + (SizeLabel + (size + (WordsLabel + (words +
      (LinesLabel + (lines + DurationPart(duration, "]"))))))))))
  }

  /** `, Duration: <d>ms` when there is a duration, followed by `rest`. */
  function DurationPart(duration: Option<string>, rest: string): string {
    match duration
    case Some(d) => DurationLabel + (d + ("ms" + rest))
    case None => rest
  }

  predicate Number(s: string) { |s| > 0 && AllDigits(s) }

  /** The fields of an ffuf line are what the full pattern captures. */
  lemma FfufLineMatched(payload: string, status: string, size: string, words: string, lines: string,
    duration: Option<string>)
    requires forall k :: 0 <= k < |payload| ==> !IsSpace(payload[k])
    requires Number(status) && Number(size) && Number(words) && Number(lines)
    requires duration.Some? ==> Number(duration.value)
    ensures FullMatch(FfufLine(payload, status, size, words, lines, duration))
      == Some(FullFields(payload, status, size, duration))
  {
    var s := FfufLine(payload, status, size, words, lines, duration);
    var p := |payload|;
    var rest := " " + (StatusLabel + (status + (SizeLabel + (size + (WordsLabel + (words +
      (LinesLabel + (lines + DurationPart(duration, "]")))))))));
    assert s[0..] == payload + rest;
    Cursor(s, 0, payload, rest);
    var fullTail := (q: nat) => FullTail(s, q);
    forall k | 0 <= k < p ensures fullTail(k).None? && !IsLineTerminator(s[k]) {
      assert s[k] == payload[k];
    }
    LazySearchSkips(s, 0, p, fullTail);
    FullTailAt(s, p, status, size, words, lines, duration);
  }

  /** The full pattern after the payload, read piece by piece. */
  lemma FullTailAt(s: string, p: nat, status: string, size: string, words: string, lines: string,
    duration: Option<string>)
    requires p <= |s|
    requires s[p..] == " " + (StatusLabel + (status + (SizeLabel + (size + (WordsLabel + (words +
      (LinesLabel + (lines + DurationPart(duration, "]")))))))))
    requires Number(status) && Number(size) && Number(words) && Number(lines)
    requires duration.Some? ==> Number(duration.value)
    ensures FullTail(s, p) == Some(FullFields(s[..p], status, size, duration))
  {
    var r3 := SizeLabel + (size + (WordsLabel + (words + (LinesLabel + (lines + DurationPart(duration, "]"))))));
    SpaceRead(s, p, StatusLabel + (status + r3));
    StatusOnwards(s, p, status, size, words, lines, duration);
  }

  /** `\[Status: (\d+)` right after the one space that follows the payload, and the rest. */
  lemma StatusOnwards(s: string, p: nat, status: string, size: string, words: string, lines: string,
    duration: Option<string>)
    requires p + 1 <= |s|
    requires s[p + 1..] == StatusLabel + (status + (SizeLabel + (size + (WordsLabel + (words +
      (LinesLabel + (lines + DurationPart(duration, "]"))))))))
    requires Number(status) && Number(size) && Number(words) && Number(lines)
    requires duration.Some? ==> Number(duration.value)
    ensures StatusAt(s, p, p + 1) == Some(FullFields(s[..p], status, size, duration))
  {
    var r3 := SizeLabel + (size + (WordsLabel + (words + (LinesLabel + (lines + DurationPart(duration, "]"))))));
    var a := p + 1 + |StatusLabel|;
    var b := TaggedDigits(s, p + 1, StatusLabel, status, r3);
    assert SizeAt(s, p, a, b) == Some(FullFields(s[..p], status, size, duration)) by {
      SizeOnwards(s, p, a, b, size, words, lines, duration);
    }
    assert StatusAt(s, p, p + 1) == SizeAt(s, p, a, b);
  }

  /** `, Size: (\d+)` at `b` and the optional groups after it. */
  lemma SizeOnwards(s: string, p: nat, a: nat, b: nat, size: string, words: string, lines: string,
    duration: Option<string>)
    requires p <= a < b <= |s|
    requires s[b..] == SizeLabel + (size + (WordsLabel + (words + (LinesLabel + (lines + DurationPart(duration, "]"))))))
    requires Number(size) && Number(words) && Number(lines)
    requires duration.Some? ==> Number(duration.value)
    ensures SizeAt(s, p, a, b) == Some(FullFields(s[..p], s[a..b], size, duration))
  {
    var r4 := WordsLabel + (words + (LinesLabel + (lines + DurationPart(duration, "]"))));
    var c := b + |SizeLabel|;
    var d := TaggedDigits(s, b, SizeLabel, size, r4);
    FieldsRead(s, p, a, b, c, d, words, lines, duration);
    assert SizeAt(s, p, a, b) == FieldsAt(s, p, a, b, c, d);
  }

  /** One white-space character at `p` that is followed by no other. */
  lemma SpaceRead(s: string, p: nat, rest: string)
    requires p <= |s| && s[p..] == " " + rest
    requires rest != "" && !IsSpace(rest[0])
    ensures p + 1 <= |s| && IsSpace(s[p]) && SpaceRunEnd(s, p) == p + 1 && s[p + 1..] == rest
  {
    Cursor(s, p, " ", rest);
    assert s[p] == ' ' && s[p + 1] == rest[0];
  }

  /** `<tag>(\d+)` at `i`, followed by something that is not a digit. */
  lemma TaggedDigits(s: string, i: nat, tag: string, ds: string, rest: string) returns (j: nat)
    requires i <= |s| && s[i..] == tag + (ds + rest)
    requires Number(ds) && (rest == "" || !IsDigit(rest[0]))
    ensures j == i + |tag| + |ds| <= |s| && s[j..] == rest
    ensures OccursAt(s, tag, i)
    ensures DigitRunEnd(s, i + |tag|) == j && s[i + |tag|..j] == ds
  {
    Cursor(s, i, tag, ds + rest);
    DigitsCursor(s, i + |tag|, ds, rest);
    j := i + |tag| + |ds|;
  }

  /** The optional groups after the size, read piece by piece. */
  lemma FieldsRead(s: string, p: nat, a: nat, b: nat, c: nat, d: nat, words: string, lines: string,
    duration: Option<string>)
    requires p <= a <= b <= c < d <= |s|
    requires s[d..] == WordsLabel + (words + (LinesLabel + (lines + DurationPart(duration, "]"))))
    requires Number(words) && Number(lines)
    requires duration.Some? ==> Number(duration.value)
    ensures FieldsAt(s, p, a, b, c, d) == Some(FullFields(s[..p], s[a..b], s[c..d], duration))
  {
    var tail := DurationPart(duration, "]");
    var e := TaggedDigits(s, d, WordsLabel, words, LinesLabel + (lines + tail));
    var f := TaggedDigits(s, e, LinesLabel, lines, tail);
    DurationRead(s, f, duration);
    assert OptionalCount(s, d, WordsLabel) == e;
    assert OptionalCount(s, e, LinesLabel) == f;
  }

  lemma DurationRead(s: string, f: nat, duration: Option<string>)
    requires f <= |s| && s[f..] == DurationPart(duration, "]")
    requires duration.Some? ==> Number(duration.value)
    ensures DurationGroup(s, f) == duration
  {
    match duration
    case Some(dd) =>
      var g := TaggedDigits(s, f, DurationLabel, dd, "ms" + "]");
      Cursor(s, g, "ms", "]");
    case None =>
      assert |s| == f + 1;
  }

  // ---------------------------------------------------------------------------------------------
  // What formatResultLine shows

  lemma NumberPlain(s: string)
    requires Number(s)
    ensures Ansi.Plain(s)
  {
    forall i | 0 <= i < |s| ensures !Ansi.IsIntroducer(s[i]) {
      assert IsDigit(s[i]);
    }
  }

  /** An ffuf line with a plain payload holds no escape introducer. */
  lemma FfufLinePlain(payload: string, status: string, size: string, words: string, lines: string,
    duration: Option<string>)
    requires Ansi.Plain(payload)
    requires Number(status) && Number(size) && Number(words) && Number(lines)
    requires duration.Some? ==> Number(duration.value)
    ensures Ansi.Plain(FfufLine(payload, status, size, words, lines, duration))
  {
    NumberPlain(status);
    NumberPlain(size);
    NumberPlain(words);
    NumberPlain(lines);
    assert Ansi.Plain("]") && Ansi.Plain(StatusLabel) && Ansi.Plain(SizeLabel) && Ansi.Plain(WordsLabel) && Ansi.Plain(LinesLabel);
    var tail := DurationPart(duration, "]");
    if duration.Some? {
      NumberPlain(duration.value);
      assert Ansi.Plain("ms") && Ansi.Plain(DurationLabel);
      Ansi.PlainConcat("ms", "]");
      Ansi.PlainConcat(duration.value, "ms" + "]");
      Ansi.PlainConcat(DurationLabel, duration.value + ("ms" + "]"));
    }
    Ansi.PlainConcat(lines, tail);
    Ansi.PlainConcat(LinesLabel, lines + tail);
    var r5 := LinesLabel + (lines + tail);
    Ansi.PlainConcat(words, r5);
    Ansi.PlainConcat(WordsLabel, words + r5);
    var r4 := WordsLabel + (words + r5);
    Ansi.PlainConcat(size, r4);
    Ansi.PlainConcat(SizeLabel, size + r4);
    var r3 := SizeLabel + (size + r4);
    Ansi.PlainConcat(status, r3);
    Ansi.PlainConcat(StatusLabel, status + r3);
    Ansi.PlainConcat(" ", StatusLabel + (status + r3));
    Ansi.PlainConcat(payload, " " + (StatusLabel + (status + r3)));
  }

  /** ` Duration: <d>ms` when ffuf reported a duration. */
  function DurationText(duration: Option<string>): string {
    match duration
    case Some(d) => " Duration: " + d + "ms"
    case None => ""
  }

  /** How ffuf's own result line is shown: the fuzzed URL, then its status, size and (when ffuf
      printed it) duration; the word and line counts are dropped. */
  lemma FfufLineFormat(targetUrl: string, payload: string, status: string, size: string, words: string,
    lines: string, duration: Option<string>)
    requires forall k :: 0 <= k < |payload| ==> !IsSpace(payload[k])
    requires Ansi.Plain(payload)
    requires Number(status) && Number(size) && Number(words) && Number(lines)
    requires duration.Some? ==> Number(duration.value)
    requires BaseUrl(targetUrl) + payload != ""
    ensures FormatResultLine(targetUrl, FfufLine(payload, status, size, words, lines, duration))
      == BaseUrl(targetUrl) + payload + " [Status: " + status + " Size: " + size + DurationText(duration) + "]"
  {
    var line := FfufLine(payload, status, size, words, lines, duration);
    FfufLinePlain(payload, status, size, words, lines, duration);
    Ansi.StripWithoutIntroducer(line);
    FfufLineMatched(payload, status, size, words, lines, duration);
    var base := BaseUrl(targetUrl);
    var parts := FullParts(base, FullFields(payload, status, size, duration));
    NonEmptyKeepsAll(parts);
    JoinedParts(base, payload, status, size, duration);
  }

  /** The joined parts of a full match, spelled out. */
  lemma JoinedParts(base: string, payload: string, status: string, size: string, duration: Option<string>)
    ensures Join(FullParts(base, FullFields(payload, status, size, duration)), " ")
      == base + payload + " [Status: " + status + " Size: " + size + DurationText(duration)
  {
    var a, b, c := base + payload, "[Status: " + status, "Size: " + size;
    var parts := FullParts(base, FullFields(payload, status, size, duration));
    match duration
    case None =>
      assert parts == [a, b, c];
      JoinThree(a, b, c);
      ThreeParts(a, status, size);
    case Some(d) =>
      var e := "Duration: " + d + "ms";
      assert parts == [a, b, c, e];
      JoinThree(b, c, e);
      assert [a, b, c, e][1..] == [b, c, e];
      assert Join(parts, " ") == a + " " + (b + " " + (c + " " + e));
      FourParts(a, status, size, d);
  }

  lemma JoinThree(a: string, b: string, c: string)
    ensures Join([a, b, c], " ") == a + " " + (b + " " + c)
  {
    assert [a, b, c][1..] == [b, c] && [b, c][1..] == [c];
    assert Join([b, c], " ") == b + " " + c;
  }

  lemma ThreeParts(a: string, status: string, size: string)
    ensures a + " " + (("[Status: " + status) + " " + ("Size: " + size))
      == a + " [Status: " + status + " Size: " + size + ""
  {
  }

  lemma FourParts(a: string, status: string, size: string, d: string)
    ensures a + " " + (("[Status: " + status) + " " + (("Size: " + size) + " " + ("Duration: " + d + "ms")))
      == a + " [Status: " + status + " Size: " + size + (" Duration: " + d + "ms")
  {
  }

  /** Both patterns need a `[` after the payload. */
  lemma TailsNeedBracket(s: string, p: nat)
    ensures FullTail(s, p).Some? || AltTail(s, p).Some? ==> '[' in s
  {
    if p < |s| && IsSpace(s[p]) {
      var q := SpaceRunEnd(s, p);
      if OccursAt(s, StatusLabel, q) {
        assert s[q] == s[q..q + |StatusLabel|][0] == '[';
      }
      if q < |s| && s[q] == '[' {
        assert '[' in s;
      }
    }
  }

  /** A line without `[` matches neither pattern: it is shown as the base URL followed by the
      trimmed line, or as nothing when it is blank. */
  lemma UnmatchedLine(targetUrl: string, line: string)
    requires '[' !in Ansi.Strip(line)
    ensures FormatResultLine(targetUrl, line)
      == if Blank(Ansi.Strip(line)) then "" else BaseUrl(targetUrl) + Trim(Ansi.Strip(line))
  {
    var clean := Ansi.Strip(line);
    var fullTail := (q: nat) => FullTail(clean, q);
    var altTail := (q: nat) => AltTail(clean, q);
    forall q: nat ensures fullTail(q).None? && altTail(q).None? {
      TailsNeedBracket(clean, q);
    }
    LazySearchIsLeast(clean, 0, fullTail);
    LazySearchIsLeast(clean, 0, altTail);
    TrimEmptyIffBlank(clean);
  }

  // ---------------------------------------------------------------------------------------------
  // The modal

  /** The run button: `disabled={isLoading || !targetUrl || !fileName}`. */
  predicate RunDisabled(isLoading: bool, targetUrl: string, fileName: string) {
    isLoading || targetUrl == "" || fileName == ""
  }

  /** The error shown by a run's failed guard, if one fails, in the order they are checked. */
  function GuardError(targetUrl: string, fileName: string): (r: Option<string>)
    ensures r.None? <==> targetUrl != "" && fileName != "" && Contains(targetUrl, "FUZZ")
  {
    if targetUrl == "" then Some("Target URL is required")
    else if fileName == "" then Some("Wordlist file is required")
    else if !Contains(targetUrl, "FUZZ") then Some("Target URL must contain 'FUZZ' placeholder")
    else None
  }

  /** The state of the URL fuzzer's modal. */
  class UrlFuzzerModal {
    var targetUrl: string
    var fileName: string
    var results: seq<string>
    var error: Option<string>
    var isLoading: bool

    /** Every result is a whole line of the tool's output. */
    predicate Valid()
      reads this
    {
      forall k :: 0 <= k < |results| ==> '\n' !in results[k]
    }

    constructor ()
      ensures targetUrl == "" && fileName == "" && results == [] && error == None && !isLoading
      ensures Valid()
    {
      targetUrl, fileName, results, error, isLoading := "", "", [], None, false;
    }

    /** The target URL input's `onChange`. */
    method SetTargetUrl(url: string)
      modifies this
      ensures targetUrl == url
      ensures fileName == old(fileName) && results == old(results) && error == old(error)
      ensures isLoading == old(isLoading)
    {
      targetUrl := url;
    }

    /** `handleFileChange`: a text file is taken; any other file sets the error and clears the
        name; no file changes nothing. */
    method HandleFileChange(file: Option<SelectedFile>)
      modifies this
      ensures file.None? ==> fileName == old(fileName) && error == old(error)
      ensures file.Some? && IsTextFile(file.value) ==> fileName == file.value.name && error == old(error)
      ensures file.Some? && !IsTextFile(file.value) ==>
        fileName == "" && error == Some("Only .txt files are allowed")
      ensures targetUrl == old(targetUrl) && results == old(results) && isLoading == old(isLoading)
    {
      if file.Some? {
        if IsTextFile(file.value) {
          fileName := file.value.name;
        } else {
          error := Some("Only .txt files are allowed");
          fileName := "";
        }
      }
    }

    /** `handleRunTool`, run to its end with the backend's `reply`: the guards, then the stream
        loop. `sent` tells whether the request went out. */
    method HandleRunTool(reply: Reply<Stream>) returns (sent: bool)
      requires Valid()
      modifies this
      ensures Valid()
      ensures targetUrl == old(targetUrl) && fileName == old(fileName)
      ensures sent <==> GuardError(old(targetUrl), old(fileName)).None?
      ensures !sent ==>
        error == GuardError(old(targetUrl), old(fileName)) && results == old(results) && isLoading == old(isLoading)
      ensures sent ==> !isLoading && error == StreamError(reply, "Failed to perform URL fuzzing")
      ensures sent && reply.Rejected? ==> results == []
      ensures sent && reply.Answered? ==> results == KeepNonBlank(FinishedLines(Concat(reply.data.chunks)))
    {
      var guard := GuardError(targetUrl, fileName);
      if guard.Some? {
        error := guard;
        return false;
      }
      sent := true;
      isLoading := true;
      error := None;
      results := [];
      match reply {
        case Rejected(field) =>
          error := Some(ErrorMessage(field, "Failed to perform URL fuzzing"));
        case Answered(stream) =>
          var received, buffer := PumpLines(stream.chunks, []);
          KeptLinesHaveNoNewline(Concat(stream.chunks));
          results := received;
          if stream.end.Broken? {
            error := Some(stream.end.message);
          }
      }
      isLoading := false;
    }

    /** `handleDownloadResults` on the day `today` (`YYYY-MM-DD`): nothing without results;
        otherwise a file whose lines are the results. */
    method HandleDownloadResults(today: string) returns (d: Option<Download>)
      requires Valid()
      ensures d.None? <==> results == []
      ensures d.Some? ==> d.value.fileName == "url-fuzz-results-" + today + ".txt"
      ensures d.Some? ==> Split(d.value.content, '\n') == results
    {
      if |results| == 0 {
        return None;
      }
      JoinSplit(results, '\n');
      d := Some(Download("url-fuzz-results-" + today + ".txt", Join(results, "\n")));
    }
  }
}
