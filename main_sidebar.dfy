/**
 * `getInitials` of components/main-sidebar.tsx: the avatar initials shown for the signed-in user.
 */
module MainSidebar {
  import opened Wrappers
  import opened Strings

  /** `s.substring(0, 1).toUpperCase()` */
  function FirstUpper(s: string): (r: string)
    ensures |r| == if s == "" then 0 else 1
    ensures s != "" ==> r[0] == UpperChar(s[0])
  {
    ToUpper(s[..if s == "" then 0 else 1])
  }

  /** `getInitials(name)`: `US` for a missing or empty name; otherwise the pieces of the name
      split on single spaces give the upper-cased first character of the first piece and, when
      there is more than one piece, of the last. Stated without `split`: the first piece is the
      text before the first space and the last is the text after the last space. */
  function GetInitials(name: Option<string>): (r: string)
    ensures name.None? || name.value == "" ==> r == "US"
    ensures name.Some? && name.value != "" ==>
      var s := name.value;
      r == FirstUpper(BeforeFirst(s, ' ')) +
        match LastIndexOfChar(s, ' ')
        case None => ""
        case Some(l) => FirstUpper(s[l + 1..])
    ensures |r| <= 2
  {
    if name.None? || name.value == "" then "US"
    else
      var names := Split(name.value, ' ');
      var initials := FirstUpper(names[0]);
      BeforeFirstIsFirstPiece(name.value, ' ');
      LastPieceAfterLastIndex(name.value, ' ');
      if |names| > 1 then initials + FirstUpper(names[|names| - 1]) else initials
  }

  /** A name without a space gives its first character upper-cased. */
  lemma SingleWordName(s: string)
    requires s != "" && ' ' !in s
    ensures GetInitials(Some(s)) == [UpperChar(s[0])]
  {
    BeforeFirstWhole(s, ' ');
  }

  lemma {:induction false} BeforeFirstWhole(s: string, c: char)
    requires c !in s
    ensures BeforeFirst(s, c) == s
  {
    if |s| > 0 {
      BeforeFirstWhole(s[1..], c);
    }
  }

  lemma {:induction false} BeforeFirstConcat(x: string, rest: string, c: char)
    requires c !in x
    ensures BeforeFirst(x + [c] + rest, c) == x
  {
    if |x| > 0 {
      assert (x + [c] + rest)[1..] == x[1..] + [c] + rest;
      BeforeFirstConcat(x[1..], rest, c);
    }
  }

  lemma {:induction false} LastIndexBeforeTail(s: string, y: string, c: char)
    requires c !in y
    ensures LastIndexOfChar(s + [c] + y, c) == Some(|s|)
    decreases |y|
  {
    var t := s + [c] + y;
    if |y| == 0 {
      assert t == s + [c];
    } else {
      var y' := y[..|y| - 1];
      assert t[|t| - 1] == y[|y| - 1];
      assert t[..|t| - 1] == s + [c] + y';
      LastIndexBeforeTail(s, y', c);
    }
  }

  /** The initials of a name whose first piece is `x` and whose last space is at `l`. */
  lemma InitialsOf(s: string, x: string, l: nat)
    requires s != "" && BeforeFirst(s, ' ') == x && LastIndexOfChar(s, ' ') == Some(l)
    ensures GetInitials(Some(s)) == FirstUpper(x) + FirstUpper(s[l + 1..])
  {
  }

  /** A name that is `first`, a space and `rest`, and also `pre`, a space and `last`. */
  lemma InitialsOfSpaced(first: string, rest: string, pre: string, last: string)
    requires ' ' !in first && ' ' !in last
    requires first + [' '] + rest == pre + [' '] + last
    ensures GetInitials(Some(pre + [' '] + last)) == FirstUpper(first) + FirstUpper(last)
  {
    var s := pre + [' '] + last;
    BeforeFirstConcat(first, rest, ' ');
    LastIndexBeforeTail(pre, last, ' ');
    assert s[|pre| + 1..] == last;
    InitialsOf(s, first, |pre|);
  }

  /** Only the first and the last word count: middle names are ignored. */
  lemma MiddleNamesIgnored(first: string, middle: string, last: string)
    requires ' ' !in first && ' ' !in last
    ensures GetInitials(Some(first + " " + middle + " " + last)) == GetInitials(Some(first + " " + last))
  {
    var pre := first + " " + middle;
    var rest := middle + " " + last;
    assert first + [' '] + rest == pre + [' '] + last;
    InitialsOfSpaced(first, rest, pre, last);
    InitialsOfSpaced(first, last, first, last);
    assert first + " " + middle + " " + last == pre + [' '] + last;
    assert first + " " + last == first + [' '] + last;
  }

  /** A leading space makes the first piece empty, so only the last piece contributes. */
  lemma LeadingSpace(rest: string)
    requires ' ' !in rest && rest != ""
    ensures GetInitials(Some(" " + rest)) == [UpperChar(rest[0])]
  {
    assert " " + rest == "" + [' '] + rest;
    LastIndexBeforeTail("", rest, ' ');
    assert (" " + rest)[1..] == rest;
  }
}
