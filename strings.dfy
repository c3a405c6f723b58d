/**
 * The JavaScript string operations the front end relies on, written out over `seq<char>`:
 * `split` on one character, `join`, `trim`, `includes`, `startsWith`, `endsWith`, `replace` of a
 * string pattern, `filter(Boolean)`, ASCII case mapping, the `/^https?:\/\//i` scheme strip and
 * decimal rendering of numbers.
 */
module Strings {
  import opened Wrappers

  /** What JavaScript's `\s` matches and what `String.prototype.trim` removes: the WhiteSpace
      code points (TAB, VT, FF, SP, NBSP, ZWNBSP and the Zs category) and the LineTerminators. */
  predicate IsSpace(c: char) {
    c == ' ' || c == '\t' || c == '\n' || c == '\r' || c == '\U{B}' || c == '\U{C}'
    || c == '\U{A0}' || c == '\U{1680}' || ('\U{2000}' <= c <= '\U{200A}')
    || c == '\U{2028}' || c == '\U{2029}' || c == '\U{202F}' || c == '\U{205F}'
    || c == '\U{3000}' || c == '\U{FEFF}'
  }

  /** The characters a regular-expression `.` does not match. */
  predicate IsLineTerminator(c: char) {
    c == '\n' || c == '\r' || c == '\U{2028}' || c == '\U{2029}'
  }

  predicate IsDigit(c: char) { '0' <= c <= '9' }
  predicate IsAsciiLower(c: char) { 'a' <= c <= 'z' }
  predicate IsAsciiUpper(c: char) { 'A' <= c <= 'Z' }
  predicate IsAsciiLetter(c: char) { IsAsciiLower(c) || IsAsciiUpper(c) }
  predicate IsAsciiAlnum(c: char) { IsAsciiLetter(c) || IsDigit(c) }
  /** `\w` */
  predicate IsWordChar(c: char) { IsAsciiAlnum(c) || c == '_' }

  predicate AllDigits(s: string) { forall i :: 0 <= i < |s| ==> IsDigit(s[i]) }
  predicate NoLineTerminator(s: string) { forall i :: 0 <= i < |s| ==> !IsLineTerminator(s[i]) }
  predicate Blank(s: string) { forall i :: 0 <= i < |s| ==> IsSpace(s[i]) }

  /** Where the longest run of `member` characters starting at `i` ends: what a greedy `[…]+`
      consumes there. */
  function RunEnd(s: string, i: nat, member: char -> bool): (j: nat)
    requires i <= |s|
    ensures i <= j <= |s|
    decreases |s| - i
  {
    if i < |s| && member(s[i]) then RunEnd(s, i + 1, member) else i
  }

  /** The run holds only members and stops at a non-member or at the end. */
  lemma {:induction false} RunEndFacts(s: string, i: nat, member: char -> bool)
    requires i <= |s|
    ensures forall k :: i <= k < RunEnd(s, i, member) ==> member(s[k])
    ensures RunEnd(s, i, member) == |s| || !member(s[RunEnd(s, i, member)])
    decreases |s| - i
  {
    if i < |s| && member(s[i]) {
      RunEndFacts(s, i + 1, member);
    }
  }

  /** A run of members ending at a non-member (or at the end) is the longest run. */
  lemma {:induction false} RunEndIs(s: string, i: nat, j: nat, member: char -> bool)
    requires i <= j <= |s|
    requires forall k :: i <= k < j ==> member(s[k])
    requires j == |s| || !member(s[j])
    ensures RunEnd(s, i, member) == j
    decreases j - i
  {
    if i < j {
      RunEndIs(s, i + 1, j, member);
    }
  }

  // ---------------------------------------------------------------------------------------------
  // Prefixes, suffixes, searching

  predicate StartsWith(s: string, p: string) { |p| <= |s| && s[..|p|] == p }
  predicate EndsWith(s: string, p: string) { |p| <= |s| && s[|s| - |p|..] == p }

  /** `sub` occurs in `s` at position `i`. */
  predicate OccursAt(s: string, sub: string, i: int) {
    0 <= i && i + |sub| <= |s| && s[i..i + |sub|] == sub
  }

  /** `String.prototype.indexOf`: the first position at or after `from` where `sub` occurs. */
  function IndexOfFrom(s: string, sub: string, from: nat): (r: Option<nat>)
    ensures r.Some? ==> from <= r.value && OccursAt(s, sub, r.value)
    ensures r.Some? ==> forall j :: from <= j < r.value ==> !OccursAt(s, sub, j)
    ensures r.None? ==> forall j :: from <= j ==> !OccursAt(s, sub, j)
    decreases |s| - from
  {
    if from + |sub| > |s| then None
    else if s[from..from + |sub|] == sub then Some(from)
    else IndexOfFrom(s, sub, from + 1)
  }

  function IndexOf(s: string, sub: string): Option<nat> { IndexOfFrom(s, sub, 0) }

  /** The last position of the character `c` in `s`. */
  function LastIndexOfChar(s: string, c: char): (r: Option<nat>)
    ensures r.Some? ==> r.value < |s| && s[r.value] == c
    ensures r.Some? ==> forall j :: r.value < j < |s| ==> s[j] != c
    ensures r.None? ==> forall j :: 0 <= j < |s| ==> s[j] != c
  {
    if |s| == 0 then None
    else if s[|s| - 1] == c then Some(|s| - 1)
    else LastIndexOfChar(s[..|s| - 1], c)
  }

  /** `String.prototype.includes`: `sub` occurs somewhere in `s`. */
  predicate Contains(s: string, sub: string) {
    exists i | 0 <= i <= |s| - |sub| :: OccursAt(s, sub, i)
  }

  /** `includes` agrees with `indexOf` finding a position. */
  lemma ContainsIffFound(s: string, sub: string)
    ensures Contains(s, sub) <==> IndexOf(s, sub).Some?
  {
    if Contains(s, sub) {
      var i :| 0 <= i <= |s| - |sub| && OccursAt(s, sub, i);
      assert IndexOf(s, sub).Some?;
    }
  }

  lemma ContainsAt(s: string, sub: string, i: int)
    requires OccursAt(s, sub, i)
    ensures Contains(s, sub)
  {
  }

  lemma ContainsInPrefix(s: string, t: string, sub: string)
    requires Contains(s, sub)
    ensures Contains(s + t, sub)
  {
    var i :| 0 <= i <= |s| - |sub| && OccursAt(s, sub, i);
    assert (s + t)[i..i + |sub|] == s[i..i + |sub|];
    ContainsAt(s + t, sub, i);
  }

  lemma ContainsInSuffix(s: string, t: string, sub: string)
    requires Contains(t, sub)
    ensures Contains(s + t, sub)
  {
    var i :| 0 <= i <= |t| - |sub| && OccursAt(t, sub, i);
    assert (s + t)[|s| + i..|s| + i + |sub|] == t[i..i + |sub|];
    ContainsAt(s + t, sub, |s| + i);
  }

  /** `s.replace(pattern, replacement)` with a string pattern: only the first occurrence is
      replaced, and an empty pattern matches at position 0. */
  function ReplaceFirst(s: string, pattern: string, replacement: string): (r: string)
    ensures IndexOf(s, pattern).None? ==> r == s
    ensures IndexOf(s, pattern).Some? ==>
      var i := IndexOf(s, pattern).value;
      r == s[..i] + replacement + s[i + |pattern|..]
  {
    match IndexOf(s, pattern)
    case None => s
    case Some(i) => s[..i] + replacement + s[i + |pattern|..]
  }

  /** Regrouping a concatenation; stated once so that proofs can name the step. */
  lemma ConcatAssoc<T>(x: seq<T>, y: seq<T>, z: seq<T>)
    ensures x + (y + z) == (x + y) + z
  {
  }

  // ---------------------------------------------------------------------------------------------
  // split / join / filter

  /** `s.split(sep)` for a one-character separator. */
  function Split(s: string, sep: char): (r: seq<string>)
    ensures |r| >= 1
  {
    if |s| == 0 then [""]
    else
      var rest := Split(s[1..], sep);
      if s[0] == sep then [""] + rest else [[s[0]] + rest[0]] + rest[1..]
  }

  /** `parts.join(sep)` */
  function Join(parts: seq<string>, sep: string): string {
    if |parts| == 0 then ""
    else if |parts| == 1 then parts[0]
    else parts[0] + sep + Join(parts[1..], sep)
  }

  /** Joining one more part in front adds it and a separator. */
  lemma JoinCons(p: string, rest: seq<string>, sep: string)
    requires |rest| >= 1
    ensures Join([p] + rest, sep) == p + sep + Join(rest, sep)
  {
    assert ([p] + rest)[1..] == rest;
  }

  /** Joining two non-empty lists is joining each and putting a separator between. */
  lemma {:induction false} JoinAppend(a: seq<string>, b: seq<string>, sep: string)
    requires |a| >= 1 && |b| >= 1
    ensures Join(a + b, sep) == Join(a, sep) + sep + Join(b, sep)
  {
    if |a| == 1 {
      assert a + b == [a[0]] + b;
      JoinCons(a[0], b, sep);
    } else {
      var t := a[1..];
      assert a + b == [a[0]] + (t + b);
      assert a == [a[0]] + t;
      JoinAppend(t, b, sep);
      JoinCons(a[0], t + b, sep);
      JoinCons(a[0], t, sep);
      ConcatAssoc(a[0] + sep, Join(t, sep) + sep, Join(b, sep));
      ConcatAssoc(a[0] + sep, Join(t, sep), sep);
    }
  }

  /** The pieces `Split` returns contain no separator, and joining them back gives `s`. */
  lemma {:induction false} SplitJoin(s: string, sep: char)
    ensures Join(Split(s, sep), [sep]) == s
    ensures forall k :: 0 <= k < |Split(s, sep)| ==> sep !in Split(s, sep)[k]
  {
    if |s| > 0 {
      var rest := Split(s[1..], sep);
      SplitJoin(s[1..], sep);
      if s[0] == sep {
        assert Split(s, sep) == [""] + rest;
        assert Join([""] + rest, [sep]) == "" + [sep] + Join(rest, [sep]);
      } else {
        var r := Split(s, sep);
        assert r == [[s[0]] + rest[0]] + rest[1..];
        if |rest| == 1 {
          assert Join(r, [sep]) == [s[0]] + rest[0];
        } else {
          assert Join(rest, [sep]) == rest[0] + [sep] + Join(rest[1..], [sep]);
          assert r[1..] == rest[1..];
          assert Join(r, [sep]) == [s[0]] + rest[0] + [sep] + Join(rest[1..], [sep]);
        }
        forall k | 0 <= k < |r| ensures sep !in r[k] {
          if k > 0 { assert r[k] == rest[k]; }
        }
      }
    }
  }

  /** Joining separator-free pieces and splitting the result gives the pieces back. */
  lemma {:induction false} JoinSplit(parts: seq<string>, sep: char)
    requires |parts| >= 1
    requires forall k :: 0 <= k < |parts| ==> sep !in parts[k]
    ensures Split(Join(parts, [sep]), sep) == parts
  {
    if |parts| == 1 {
      SplitNoSeparator(parts[0], sep);
    } else {
      var x := parts[0] + [sep];
      var y := Join(parts[1..], [sep]);
      JoinSplit(parts[1..], sep);
      SplitTerminated(parts[0], sep);
      SplitAppend(x, y, sep);
      assert Complete(Split(x, sep)) == [parts[0]];
      assert Last(Split(x, sep)) + y == y;
      assert parts == [parts[0]] + parts[1..];
    }
  }

  /** A string without the separator splits into itself. */
  lemma {:induction false} SplitNoSeparator(s: string, sep: char)
    requires sep !in s
    ensures Split(s, sep) == [s]
  {
    if |s| > 0 {
      SplitNoSeparator(s[1..], sep);
      assert [s[0]] + s[1..] == s;
    }
  }

  /** A separator-free string followed by one separator splits into itself and an empty piece. */
  lemma {:induction false} SplitTerminated(p: string, sep: char)
    requires sep !in p
    ensures Split(p + [sep], sep) == [p, ""]
  {
    if |p| == 0 {
      assert Split([sep], sep) == [""] + Split([], sep);
    } else {
      SplitTerminated(p[1..], sep);
      assert (p + [sep])[1..] == p[1..] + [sep];
      assert [p[0]] + p[1..] == p;
    }
  }

  /** All pieces but the last: the lines that a separator has completed. */
  function Complete(pieces: seq<string>): seq<string>
    requires |pieces| >= 1
  {
    pieces[..|pieces| - 1]
  }

  function Last(pieces: seq<string>): string
    requires |pieces| >= 1
  {
    pieces[|pieces| - 1]
  }

  /** Glue character `c` to the front of the first piece. */
  function Prepend(c: char, pieces: seq<string>): (r: seq<string>)
    requires |pieces| >= 1
    ensures |r| == |pieces|
  {
    [[c] + pieces[0]] + pieces[1..]
  }

  /** The last piece is what follows the last separator (all of `s` when there is none). */
  lemma LastPiece(s: string, sep: char)
    ensures sep !in Last(Split(s, sep))
    ensures EndsWith(s, Last(Split(s, sep)))
    ensures |Split(s, sep)| == 1 <==> sep !in s
    ensures |Split(s, sep)| == 1 ==> Last(Split(s, sep)) == s
    ensures |Split(s, sep)| > 1 ==>
      |Last(Split(s, sep))| < |s| && s[|s| - |Last(Split(s, sep))| - 1] == sep
  {
    SplitJoin(s, sep);
    var pieces := Split(s, sep);
    if |pieces| > 1 {
      JoinLast(pieces, sep);
    } else {
      assert s == pieces[0];
    }
  }

  lemma {:induction false} JoinLast(pieces: seq<string>, sep: char)
    requires |pieces| > 1
    ensures Join(pieces, [sep]) == Join(pieces[..|pieces| - 1], [sep]) + [sep] + pieces[|pieces| - 1]
  {
    if |pieces| > 2 {
      JoinLast(pieces[1..], sep);
      assert pieces[1..][..|pieces| - 2] == pieces[..|pieces| - 1][1..];
    }
  }

  /** The same position found through `lastIndexOf`. */
  lemma LastPieceAfterLastIndex(s: string, sep: char)
    ensures LastIndexOfChar(s, sep).None? <==> |Split(s, sep)| == 1
    ensures LastIndexOfChar(s, sep).Some? ==>
      Last(Split(s, sep)) == s[LastIndexOfChar(s, sep).value + 1..]
  {
    LastPiece(s, sep);
    match LastIndexOfChar(s, sep)
    case None =>
    case Some(l) =>
      assert sep in s by { assert s[l] == sep; }
      SuffixAfterLast(s, sep, l, Last(Split(s, sep)));
  }

  /** A suffix without the separator, right behind a separator, starts after its last one. */
  lemma SuffixAfterLast(s: string, sep: char, l: nat, p: string)
    requires l < |s| && s[l] == sep && forall j :: l < j < |s| ==> s[j] != sep
    requires sep !in p && EndsWith(s, p) && |p| < |s| && s[|s| - |p| - 1] == sep
    ensures p == s[l + 1..]
  {
    var q := |s| - |p| - 1;
    assert s[q + 1..] == p;
  }

  /** One step of `Split`, stated for a string written as a first character and a rest. */
  lemma SplitCons(c: char, rest: string, sep: char)
    ensures Split([c] + rest, sep) == if c == sep then [""] + Split(rest, sep) else Prepend(c, Split(rest, sep))
  {
    assert ([c] + rest)[1..] == rest;
  }

  lemma PrependAppend(c: char, a: seq<string>, b: seq<string>)
    requires |a| >= 1
    ensures Prepend(c, a + b) == Prepend(c, a) + b
  {
    assert (a + b)[1..] == a[1..] + b;
  }

  /** Appending text never changes the pieces a separator has already completed: only the
      unfinished last piece grows and may split further. */
  lemma {:induction false} SplitAppend(x: string, y: string, sep: char)
    ensures Split(x + y, sep) == Complete(Split(x, sep)) + Split(Last(Split(x, sep)) + y, sep)
  {
    if |x| == 0 {
      assert x + y == y;
      assert Last(Split(x, sep)) + y == y;
    } else {
      var c, x' := x[0], x[1..];
      assert x == [c] + x';
      assert x + y == [c] + (x' + y);
      SplitAppend(x', y, sep);
      SplitAppendCons(c, x', y, sep);
    }
  }

  lemma SplitAppendCons(c: char, x: string, y: string, sep: char)
    requires Split(x + y, sep) == Complete(Split(x, sep)) + Split(Last(Split(x, sep)) + y, sep)
    ensures Split([c] + (x + y), sep) == Complete(Split([c] + x, sep)) + Split(Last(Split([c] + x, sep)) + y, sep)
  {
    SplitCons(c, x, sep);
    SplitCons(c, x + y, sep);
    var sx := Split(x, sep);
    var b := Split(Last(sx) + y, sep);
    if c == sep {
      SeparatorFirst(sx, b);
    } else if |sx| == 1 {
      SplitAppendSingle(c, Last(sx), y, sep);
    } else {
      PrependFirst(c, sx, b);
    }
  }

  lemma SeparatorFirst(sx: seq<string>, b: seq<string>)
    requires |sx| >= 1
    ensures [""] + (Complete(sx) + b) == Complete([""] + sx) + b
    ensures Last([""] + sx) == Last(sx)
  {
    assert Complete([""] + sx) == [""] + Complete(sx);
  }

  lemma PrependFirst(c: char, sx: seq<string>, b: seq<string>)
    requires |sx| >= 2
    ensures Prepend(c, Complete(sx) + b) == Complete(Prepend(c, sx)) + b
    ensures Last(Prepend(c, sx)) == Last(sx)
  {
    PrependAppend(c, Complete(sx), b);
    assert Complete(Prepend(c, sx)) == Prepend(c, Complete(sx));
  }

  lemma SplitAppendSingle(c: char, l: string, y: string, sep: char)
    requires c != sep
    ensures Split(([c] + l) + y, sep) == Prepend(c, Split(l + y, sep))
  {
    assert ([c] + l) + y == [c] + (l + y);
    SplitCons(c, l + y, sep);
  }

  /** `parts.filter(Boolean)` on strings: the non-empty ones, in order. */
  function NonEmpty(parts: seq<string>): (r: seq<string>)
    ensures |r| <= |parts|
    ensures forall k :: 0 <= k < |r| ==> r[k] != ""
  {
    if |parts| == 0 then []
    else if parts[0] == "" then NonEmpty(parts[1..])
    else [parts[0]] + NonEmpty(parts[1..])
  }

  lemma {:induction false} NonEmptyAppend(a: seq<string>, b: seq<string>)
    ensures NonEmpty(a + b) == NonEmpty(a) + NonEmpty(b)
  {
    if |a| > 0 {
      assert (a + b)[1..] == a[1..] + b;
      NonEmptyAppend(a[1..], b);
    } else {
      assert a + b == b;
    }
  }

  /** What is kept is non-empty and comes from the input, and every non-empty input is kept. */
  lemma {:induction false} NonEmptyMembers(parts: seq<string>)
    ensures forall k :: 0 <= k < |NonEmpty(parts)| ==> NonEmpty(parts)[k] in parts
    ensures forall k :: 0 <= k < |parts| && parts[k] != "" ==> parts[k] in NonEmpty(parts)
  {
    if |parts| > 0 {
      NonEmptyMembers(parts[1..]);
      var r := NonEmpty(parts);
      var r' := NonEmpty(parts[1..]);
      forall k | 0 <= k < |parts| && parts[k] != "" ensures parts[k] in r {
        if k > 0 { assert parts[k] == parts[1..][k - 1]; }
      }
      forall k | 0 <= k < |r| ensures r[k] in parts {
        if parts[0] != "" && k > 0 { assert r[k] == r'[k - 1]; }
      }
    }
  }

  /** A list without empty strings is kept whole. */
  lemma {:induction false} NonEmptyKeepsAll(parts: seq<string>)
    requires forall k :: 0 <= k < |parts| ==> parts[k] != ""
    ensures NonEmpty(parts) == parts
  {
    if |parts| > 0 {
      NonEmptyKeepsAll(parts[1..]);
      assert parts == [parts[0]] + parts[1..];
    }
  }

  /** Element-wise `prefix + x + suffix`, the `map(x => `…${x}…`)` of a template literal. */
  function Wrap(parts: seq<string>, prefix: string, suffix: string): (r: seq<string>)
    ensures |r| == |parts|
    ensures forall k :: 0 <= k < |r| ==> r[k] == prefix + parts[k] + suffix
  {
    if |parts| == 0 then [] else [prefix + parts[0] + suffix] + Wrap(parts[1..], prefix, suffix)
  }

  // ---------------------------------------------------------------------------------------------
  // trim

  function TrimStart(s: string): (r: string)
    ensures |r| <= |s| && r == s[|s| - |r|..]
    ensures Blank(s[..|s| - |r|])
    ensures |r| > 0 ==> !IsSpace(r[0])
  {
    if |s| > 0 && IsSpace(s[0]) then TrimStart(s[1..]) else s
  }

  function TrimEnd(s: string): (r: string)
    ensures |r| <= |s| && r == s[..|r|]
    ensures Blank(s[|r|..])
    ensures |r| > 0 ==> !IsSpace(r[|r| - 1])
  {
    if |s| > 0 && IsSpace(s[|s| - 1]) then TrimEnd(s[..|s| - 1]) else s
  }

  /** `String.prototype.trim`: the text between the leading and the trailing white space. */
  function Trim(s: string): (r: string)
    ensures |r| <= |s|
    ensures |r| > 0 ==> !IsSpace(r[0]) && !IsSpace(r[|r| - 1])
    ensures |r| <= |TrimStart(s)| && r == s[|s| - |TrimStart(s)|..][..|r|]
    ensures Blank(s[..|s| - |TrimStart(s)|]) && Blank(TrimStart(s)[|r|..])
  {
    TrimEnd(TrimStart(s))
  }

  /** Trimming leaves nothing exactly when the string is all white space. */
  lemma {:induction false} TrimEmptyIffBlank(s: string)
    ensures Trim(s) == "" <==> Blank(s)
  {
    var t := TrimStart(s);
    if !Blank(s) {
      var k :| 0 <= k < |s| && !IsSpace(s[k]);
      var r := TrimEnd(t);
    }
  }

  /** White space around a text whose ends are not white space is exactly what trimming
      removes, whatever white space the text holds inside. */
  lemma {:induction false} TrimOfPadded(x: string, m: string, y: string)
    requires Blank(x) && Blank(y)
    requires |m| > 0 && !IsSpace(m[0]) && !IsSpace(m[|m| - 1])
    ensures Trim(x + m + y) == m
    decreases |x|
  {
    if |x| > 0 {
      assert (x + m + y)[1..] == x[1..] + m + y;
      TrimOfPadded(x[1..], m, y);
    } else {
      assert x + m + y == m + y;
      TrimEndOfPadded(m, y);
    }
  }

  lemma {:induction false} TrimEndOfPadded(m: string, y: string)
    requires Blank(y)
    requires |m| > 0 && !IsSpace(m[0]) && !IsSpace(m[|m| - 1])
    ensures TrimStart(m + y) == m + y && TrimEnd(m + y) == m
    decreases |y|
  {
    if |y| > 0 {
      var y' := y[..|y| - 1];
      assert (m + y)[..|m + y| - 1] == m + y';
      TrimEndOfPadded(m, y');
    } else {
      assert m + y == m;
    }
  }

  lemma TrimOfNonSpaceEnds(s: string)
    requires |s| > 0 && !IsSpace(s[0]) && !IsSpace(s[|s| - 1])
    ensures Trim(s) == s
  {
  }

  // ---------------------------------------------------------------------------------------------
  // ASCII case mapping

  function LowerChar(c: char): (r: char)
    ensures IsAsciiUpper(c) ==> r as int == c as int + 32
    ensures !IsAsciiUpper(c) ==> r == c
    ensures !IsAsciiUpper(r)
  {
    if IsAsciiUpper(c) then (c as int + 32) as char else c
  }

  function UpperChar(c: char): (r: char)
    ensures IsAsciiLower(c) ==> r as int == c as int - 32
    ensures !IsAsciiLower(c) ==> r == c
    ensures !IsAsciiLower(r)
  {
    if IsAsciiLower(c) then (c as int - 32) as char else c
  }

  /** `toLowerCase`, restricted to the ASCII letters. */
  function ToLower(s: string): (r: string)
    ensures |r| == |s|
    ensures forall i :: 0 <= i < |s| ==> r[i] == LowerChar(s[i])
  {
    if |s| == 0 then "" else [LowerChar(s[0])] + ToLower(s[1..])
  }

  /** `toUpperCase`, restricted to the ASCII letters. */
  function ToUpper(s: string): (r: string)
    ensures |r| == |s|
    ensures forall i :: 0 <= i < |s| ==> r[i] == UpperChar(s[i])
  {
    if |s| == 0 then "" else [UpperChar(s[0])] + ToUpper(s[1..])
  }

  lemma ToLowerIdempotent(s: string)
    ensures ToLower(ToLower(s)) == ToLower(s)
  {
  }

  /** Character equality under the `i` flag of a regular expression whose pattern character `p`
      is ASCII: a non-ASCII input character never folds onto an ASCII one. */
  predicate SameLetterIgnoringCase(c: char, p: char) { LowerChar(c) == LowerChar(p) }

  /** `s` starts with `p`, comparing ASCII letters case-insensitively. */
  predicate StartsWithIgnoringCase(s: string, p: string) {
    |p| <= |s| && forall i :: 0 <= i < |p| ==> SameLetterIgnoringCase(s[i], p[i])
  }

  // ---------------------------------------------------------------------------------------------
  // URL-ish helpers shared by the modals and routes

  /** `s.replace(/^https?:\/\//i, '')` */
  function StripScheme(s: string): (r: string)
    ensures |r| <= |s| && r == s[|s| - |r|..]
    ensures StartsWithIgnoringCase(s, "https://") ==> r == s[8..]
    ensures !StartsWithIgnoringCase(s, "https://") && StartsWithIgnoringCase(s, "http://") ==> r == s[7..]
    ensures !StartsWithIgnoringCase(s, "https://") && !StartsWithIgnoringCase(s, "http://") ==> r == s
  {
    if StartsWithIgnoringCase(s, "https://") then s[8..]
    else if StartsWithIgnoringCase(s, "http://") then s[7..]
    else s
  }

  /** `s.split(c)[0]`: everything before the first `c`. */
  function BeforeFirst(s: string, c: char): (r: string)
    ensures c !in r
    ensures StartsWith(s, r)
    ensures |r| < |s| ==> s[|r|] == c
  {
    if |s| == 0 || s[0] == c then "" else [s[0]] + BeforeFirst(s[1..], c)
  }

  lemma {:induction false} BeforeFirstIsFirstPiece(s: string, c: char)
    ensures BeforeFirst(s, c) == Split(s, c)[0]
  {
    if |s| > 0 && s[0] != c {
      BeforeFirstIsFirstPiece(s[1..], c);
    }
  }

  // ---------------------------------------------------------------------------------------------
  // Numbers

  function DigitChar(d: nat): (c: char)
    requires d < 10
    ensures IsDigit(c) && (c as int) - ('0' as int) == d
  {
    (('0' as int) + d) as char
  }

  /** The decimal rendering of a natural number, as `${n}` gives it. */
  function NatToString(n: nat): (r: string)
    ensures |r| >= 1 && AllDigits(r)
    ensures n >= 10 ==> r[0] != '0'
    decreases n
  {
    if n < 10 then [DigitChar(n)] else NatToString(n / 10) + [DigitChar(n % 10)]
  }

  /** The decimal rendering of an integer, with a leading `-` for negatives. */
  function IntToString(n: int): (r: string)
    ensures |r| >= 1
    ensures n >= 0 ==> r == NatToString(n)
    ensures n < 0 ==> r == "-" + NatToString(-n)
  {
    if n >= 0 then NatToString(n) else "-" + NatToString(-n)
  }

  /** The value of a string of decimal digits. */
  function DigitsValue(s: string): (v: nat)
    requires AllDigits(s)
  {
    if |s| == 0 then 0
    else DigitsValue(s[..|s| - 1]) * 10 + ((s[|s| - 1] as int) - ('0' as int))
  }

  /** Reading the rendering back gives the number. */
  lemma {:induction false} NatToStringValue(n: nat)
    ensures DigitsValue(NatToString(n)) == n
    decreases n
  {
    if n >= 10 {
      NatToStringValue(n / 10);
      var s := NatToString(n);
      assert s[..|s| - 1] == NatToString(n / 10);
    }
  }

  lemma NatToStringInjective(m: nat, n: nat)
    requires NatToString(m) == NatToString(n)
    ensures m == n
  {
    NatToStringValue(m);
    NatToStringValue(n);
  }
}
