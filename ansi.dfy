/**
 * `stripAnsiCodes` of utils/ansi.ts (and its copies `cleanAnsiCodes` / `removeAnsiCodes` in the
 * fuzzer, XSS and open-redirect modals): a global `replace` of the pattern
 *
 *   introducer  [\u001b\u009b]
 *   prefixes    [[()#;?]*
 *   parameters  (?:[0-9]{1,4}(?:;[0-9]{0,4})*)?
 *   final       [0-9A-ORZcf-nqry=><]
 *
 * by the empty string. The regex engine is replaced by a deterministic scanner that, at each
 * position, finds the match the backtracking engine would pick (or none); the pattern itself is
 * stated declaratively as `IsAnsiSequence`, and the two are connected by lemmas: what the scanner
 * takes is a match (`MatchSound`), the longest one at its position (`MatchMaximal`), and where it
 * finds none there is none (`MatchComplete`).
 */
module Ansi {
  import opened Wrappers
  import opened Strings

  predicate IsIntroducer(c: char) { c == '\U{1B}' || c == '\U{9B}' }

  predicate IsPrefixChar(c: char) {
    c == '[' || c == '(' || c == ')' || c == '#' || c == ';' || c == '?'
  }

  predicate IsFinal(c: char) {
    IsDigit(c) || ('A' <= c <= 'O') || c == 'R' || c == 'Z' || c == 'c' || ('f' <= c <= 'n')
    || c == 'q' || c == 'r' || c == 'y' || c == '=' || c == '>' || c == '<'
  }

  // ---------------------------------------------------------------------------------------------
  // The pattern, declaratively: what one deleted run looks like.

  /** One match of the pattern, as a whole string. */
  predicate IsAnsiSequence(t: string) {
    |t| >= 2 && IsIntroducer(t[0]) && Tail(t[1..])
  }

  /** Prefix characters, then the parameters and the final character. */
  predicate Tail(u: string)
    decreases |u|
  {
    (|u| > 0 && IsPrefixChar(u[0]) && Tail(u[1..])) || ParamsFinal(u)
  }

  /** Either the final character alone, or 1-4 digits followed by the `;` groups and the final. */
  predicate ParamsFinal(u: string) {
    (|u| == 1 && IsFinal(u[0]))
    || (exists j :: 1 <= j <= 4 && j < |u| && AllDigits(u[..j]) && GroupsFinal(u[j..]))
  }

  /** Zero or more groups of `;` and 0-4 digits, then the final character (`e` is where the
      digits of the first group end). */
  predicate GroupsFinal(g: string)
    decreases |g|
  {
    (|g| == 1 && IsFinal(g[0]))
    || (|g| > 0 && g[0] == ';'
        && exists e :: 1 <= e <= 5 && e < |g| && AllDigits(g[1..e]) && GroupsFinal(g[e..]))
  }

  // ---------------------------------------------------------------------------------------------
  // The scanner: the match the regex engine finds at the start of `t`, as a length.

  /** Number of leading prefix characters of `u`. */
  function PrefixRun(u: string): (k: nat)
    ensures k <= |u|
    ensures forall i :: 0 <= i < k ==> IsPrefixChar(u[i])
    ensures k < |u| ==> !IsPrefixChar(u[k])
  {
    if |u| > 0 && IsPrefixChar(u[0]) then 1 + PrefixRun(u[1..]) else 0
  }

  /** Number of leading digits of `u`, at most `cap` (a greedy `[0-9]{0,cap}`). */
  function LeadingDigits(u: string, cap: nat): (n: nat)
    ensures n <= cap && n <= |u|
    ensures AllDigits(u[..n])
    ensures n < cap && n < |u| ==> !IsDigit(u[n])
  {
    if cap == 0 || |u| == 0 || !IsDigit(u[0]) then 0 else 1 + LeadingDigits(u[1..], cap - 1)
  }

  function FinalLen(g: string): (r: Option<nat>)
    ensures r.Some? <==> |g| > 0 && IsFinal(g[0])
    ensures r.Some? ==> r.value == 1
  {
    if |g| > 0 && IsFinal(g[0]) then Some(1) else None
  }

  /** The `(?:;[0-9]{0,4})*` loop and the final character, with the engine's backtracking: when
      the rest fails after `j >= 1` digits, giving back one digit lets it serve as the final. */
  function GroupsLen(g: string): (r: Option<nat>)
    ensures r.Some? ==> 1 <= r.value <= |g|
    decreases |g|
  {
    if |g| > 0 && g[0] == ';' then
      var j := LeadingDigits(g[1..], 4);
      match GroupsLen(g[1 + j..])
      case Some(n) => Some(1 + j + n)
      case None => if j >= 1 then Some(1 + j) else None
    else FinalLen(g)
  }

  /** The optional digit group and the final character. */
  function ParamsLen(u: string): (r: Option<nat>)
    ensures r.Some? ==> 1 <= r.value <= |u|
    ensures r.None? <==> LeadingDigits(u, 4) == 0 && !(|u| > 0 && IsFinal(u[0]))
  {
    var j := LeadingDigits(u, 4);
    if j == 0 then FinalLen(u)
    else
      match GroupsLen(u[j..])
      case Some(n) => Some(j + n)
      case None => Some(j)
  }

  /** Length of the match starting at the first character of `t`, if any. */
  function MatchLen(t: string): (r: Option<nat>)
    ensures r.Some? ==> 2 <= r.value <= |t|
  {
    if |t| == 0 || !IsIntroducer(t[0]) then None
    else
      var k := PrefixRun(t[1..]);
      match ParamsLen(t[1 + k..])
      case Some(n) => Some(1 + k + n)
      case None => None
  }

  /** What the global `replace` sees: kept characters and deleted runs, left to right. */
  datatype Piece = Kept(c: char) | Removed(run: string)

  function Scan(t: string): seq<Piece>
    decreases |t|
  {
    if |t| == 0 then []
    else
      match MatchLen(t)
      case Some(n) => [Removed(t[..n])] + Scan(t[n..])
      case None => [Kept(t[0])] + Scan(t[1..])
  }

  function Text(p: Piece): string {
    match p
    case Kept(c) => [c]
    case Removed(run) => run
  }

  /** The pieces put back together. */
  function Flatten(ps: seq<Piece>): string {
    if |ps| == 0 then "" else Text(ps[0]) + Flatten(ps[1..])
  }

  /** Only the kept characters. */
  function KeptText(ps: seq<Piece>): string {
    if |ps| == 0 then ""
    else (match ps[0] case Kept(c) => [c] case Removed(_) => "") + KeptText(ps[1..])
  }

  /** `str.replace(pattern, "")` on a string. */
  function Strip(t: string): string {
    KeptText(Scan(t))
  }

  /** `stripAnsiCodes(str)`: anything that is not a string (`null`, `undefined`) gives `""`. */
  function StripAnsiCodes(str: Option<string>): (r: string)
    ensures str.None? ==> r == ""
    ensures str.Some? ==> r == Strip(str.value)
  {
    match str
    case None => ""
    case Some(s) => Strip(s)
  }

  // ---------------------------------------------------------------------------------------------
  // The scanner against the pattern

  lemma {:induction false} GroupsSound(g: string)
    requires GroupsLen(g).Some?
    ensures GroupsFinal(g[..GroupsLen(g).value])
    decreases |g|
  {
    if |g| > 0 && g[0] == ';' {
      var j := LeadingDigits(g[1..], 4);
      match GroupsLen(g[1 + j..])
      case Some(m) =>
        GroupsSound(g[1 + j..]);
        GroupsLoopStep(g, j, m);
      case None =>
        GroupsGiveBack(g, j);
    }
  }

  /** A `;` group of `j` digits followed by further groups and the final. */
  lemma GroupsLoopStep(g: string, j: nat, m: nat)
    requires |g| > 0 && g[0] == ';' && j <= 4 && 1 <= m && 1 + j + m <= |g|
    requires AllDigits(g[1..][..j])
    requires GroupsFinal(g[1 + j..][..m])
    ensures GroupsFinal(g[..1 + j + m])
  {
    var h := g[..1 + j + m];
    assert h[1 + j..] == g[1 + j..][..m];
    assert h[1..1 + j] == g[1..][..j];
    assert 1 + j < |h| && AllDigits(h[1..1 + j]) && GroupsFinal(h[1 + j..]);
  }

  /** A `;` group of `j >= 1` digits after which no group or final follows: the engine gives the
      last digit back and it serves as the final character. */
  lemma GroupsGiveBack(g: string, j: nat)
    requires |g| > 0 && g[0] == ';' && 1 <= j <= 4 && 1 + j <= |g|
    requires AllDigits(g[1..][..j])
    ensures GroupsFinal(g[..1 + j])
  {
    var h := g[..1 + j];
    assert h[1..j] == g[1..][..j - 1];
    assert IsDigit(g[1..][j - 1]);
    assert h[j..] == [g[j]];
    assert GroupsFinal(h[j..]);
    assert j < |h| && AllDigits(h[1..j]) && GroupsFinal(h[j..]);
  }

  lemma ParamsSound(u: string)
    requires ParamsLen(u).Some?
    ensures ParamsFinal(u[..ParamsLen(u).value])
  {
    var n := ParamsLen(u).value;
    var h := u[..n];
    var j := LeadingDigits(u, 4);
    if j > 0 {
      match GroupsLen(u[j..])
      case Some(m) =>
        GroupsSound(u[j..]);
        assert h[j..] == u[j..][..m];
        assert h[..j] == u[..j];
      case None =>
        assert n == j;
        if j > 1 {
          assert h[..j - 1] == u[..j - 1];
          assert h[j - 1..] == [u[j - 1]];
          assert GroupsFinal(h[j - 1..]);
        }
    }
  }

  lemma TailSound(u: string, k: nat)
    requires k <= |u|
    requires forall i :: 0 <= i < k ==> IsPrefixChar(u[i])
    requires ParamsLen(u[k..]).Some?
    ensures Tail(u[..k + ParamsLen(u[k..]).value])
  {
    var n := ParamsLen(u[k..]).value;
    ParamsSound(u[k..]);
    assert u[k..][..n] == u[k..k + n];
    TailFrom(u, 0, k, n);
    assert u[0..k + n] == u[..k + n];
  }

  /** Prefix characters from position `i` to `k`, then parameters and final up to `k + n`. */
  lemma {:induction false} TailFrom(u: string, i: nat, k: nat, n: nat)
    requires i <= k && k + n <= |u|
    requires forall p :: i <= p < k ==> IsPrefixChar(u[p])
    requires ParamsFinal(u[k..k + n])
    ensures Tail(u[i..k + n])
    decreases k - i
  {
    if i < k {
      TailFrom(u, i + 1, k, n);
      assert u[i..k + n][1..] == u[i + 1..k + n];
    }
  }

  /** Every run the scanner deletes is one match of the pattern. */
  lemma MatchSound(t: string)
    requires MatchLen(t).Some?
    ensures IsAnsiSequence(t[..MatchLen(t).value])
  {
    var u := t[1..];
    var k := PrefixRun(u);
    assert u[k..] == t[1 + k..];
    TailSound(u, k);
    assert t[..MatchLen(t).value][1..] == u[..k + ParamsLen(u[k..]).value];
  }

  /** Parameters and final start with a digit, or are the final character alone. */
  lemma ParamsFinalStart(v: string)
    ensures ParamsFinal(v) ==> (|v| == 1 && IsFinal(v[0])) || (|v| > 0 && IsDigit(v[0]))
  {
    if exists j :: 1 <= j <= 4 && j < |v| && AllDigits(v[..j]) && GroupsFinal(v[j..]) {
      var j :| 1 <= j <= 4 && j < |v| && AllDigits(v[..j]) && GroupsFinal(v[j..]);
      assert v[..j][0] == v[0];
    }
  }

  lemma {:induction false} NoTail(u: string, v: string)
    requires LeadingDigits(u[PrefixRun(u)..], 4) == 0
    requires !(|u| > PrefixRun(u) && IsFinal(u[PrefixRun(u)]))
    requires |v| <= |u| && v == u[..|v|]
    ensures !Tail(v)
    decreases |v|
  {
    var k := PrefixRun(u);
    if |v| > 0 {
      var w := u[k..];
      if k > 0 {
        assert IsPrefixChar(v[0]);
        assert !(|v| == 1 && IsFinal(v[0]));
        assert !ParamsFinal(v);
        assert PrefixRun(u[1..]) == k - 1;
        assert u[1..][k - 1..] == w;
        NoTail(u[1..], v[1..]);
      } else {
        assert |w| > 0 ==> !IsDigit(w[0]);
        assert !(|v| > 0 && IsPrefixChar(v[0]));
        ParamsFinalStart(v);
      }
    }
  }

  /** Where the scanner finds no match, no prefix of the text is a match of the pattern: an
      introducer that is not followed by a complete sequence is kept. */
  lemma MatchComplete(t: string)
    requires MatchLen(t).None?
    ensures forall n :: 0 <= n <= |t| ==> !IsAnsiSequence(t[..n])
  {
    if |t| > 0 && IsIntroducer(t[0]) {
      var u := t[1..];
      assert u[PrefixRun(u)..] == t[1 + PrefixRun(u)..];
      forall n | 2 <= n <= |t|
        ensures !Tail(t[..n][1..])
      {
        assert t[..n][1..] == u[..n - 1];
        NoTail(u, u[..n - 1]);
      }
    }
  }

  /** A run of groups and final that starts with a digit is that digit alone. */
  lemma GroupsFinalAtDigit(x: string)
    requires GroupsFinal(x) && |x| > 0 && IsDigit(x[0])
    ensures |x| == 1
  {
  }

  /** Any groups-and-final run at the front of `g` is no longer than the one the scanner takes. */
  lemma {:induction false} GroupsMaximal(g: string, h: string)
    requires |h| <= |g| && h == g[..|h|] && GroupsFinal(h)
    ensures GroupsLen(g).Some? && |h| <= GroupsLen(g).value
    decreases |g|
  {
    if |h| == 1 && IsFinal(h[0]) {
      GroupsAtFinal(g, h[0]);
    } else {
      var e := GroupsFinalSplit(h);
      var j := LeadingDigits(g[1..], 4);
      PrefixSlices(g, h, e);
      LeadingDigitsCover(g[1..], h[1..e]);
      if e - 1 == j {
        GroupsMaximal(g[e..], h[e..]);
        GroupsWithRest(g, j, GroupsLen(g[e..]).value);
      } else {
        NextIsDigit(g[1..], e - 1);
        GroupsFinalAtDigit(h[e..]);
        GroupsCoverDigits(g);
      }
    }
  }

  /** Slices of a prefix `h` of `g` are prefixes of the same slices of `g`. */
  lemma PrefixSlices(g: string, h: string, e: nat)
    requires |h| <= |g| && h == g[..|h|] && 1 <= e < |h|
    ensures h[1..e] == g[1..][..e - 1]
    ensures h[e..] == g[e..][..|h| - e] && h[e..][0] == g[1..][e - 1]
  {
  }

  /** A position inside the leading digit run holds a digit. */
  lemma NextIsDigit(w: string, i: nat)
    requires i < LeadingDigits(w, 4)
    ensures i < |w| && IsDigit(w[i])
  {
    assert w[..LeadingDigits(w, 4)][i] == w[i];
  }

  /** The two shapes of a groups-and-final run: the final alone, or a `;` group first. */
  lemma GroupsFinalSplit(h: string) returns (e: nat)
    requires GroupsFinal(h) && !(|h| == 1 && IsFinal(h[0]))
    ensures |h| > 0 && h[0] == ';' && 1 <= e <= 5 && e < |h| && AllDigits(h[1..e]) && GroupsFinal(h[e..])
  {
    e :| 1 <= e <= 5 && e < |h| && AllDigits(h[1..e]) && GroupsFinal(h[e..]);
  }

  lemma GroupsAtFinal(g: string, c: char)
    requires |g| > 0 && g[0] == c && IsFinal(c)
    ensures GroupsLen(g) == Some(1)
  {
  }

  /** A `;` group of `j` digits followed by groups of length `n`. */
  lemma GroupsWithRest(g: string, j: nat, n: nat)
    requires |g| > 0 && g[0] == ';' && j == LeadingDigits(g[1..], 4)
    requires GroupsLen(g[1 + j..]) == Some(n)
    ensures GroupsLen(g) == Some(1 + j + n)
  {
    assert g[0] == ';';
  }

  /** A `;` group with digits is taken at least up to its last digit. */
  lemma GroupsCoverDigits(g: string)
    requires |g| > 0 && g[0] == ';' && LeadingDigits(g[1..], 4) >= 1
    ensures GroupsLen(g).Some? && 1 + LeadingDigits(g[1..], 4) <= GroupsLen(g).value
  {
  }

  /** A digit run at the front of `u` of at most 4 digits is no longer than the one taken. */
  lemma LeadingDigitsCover(u: string, d: string)
    requires |d| <= 4 && |d| <= |u| && d == u[..|d|] && AllDigits(d)
    ensures |d| <= LeadingDigits(u, 4)
  {
    LeadingDigitsAtLeast(u, d, 4);
  }

  lemma {:induction false} LeadingDigitsAtLeast(u: string, d: string, cap: nat)
    requires |d| <= cap && |d| <= |u| && d == u[..|d|] && AllDigits(d)
    ensures |d| <= LeadingDigits(u, cap)
    decreases |d|
  {
    if |d| > 0 {
      assert IsDigit(u[0]);
      assert d[1..] == u[1..][..|d| - 1];
      LeadingDigitsAtLeast(u[1..], d[1..], cap - 1);
    }
  }

  /** Any parameters-and-final run at the front of `u` is no longer than the one taken. */
  lemma ParamsMaximal(u: string, v: string)
    requires |v| <= |u| && v == u[..|v|] && ParamsFinal(v)
    ensures ParamsLen(u).Some? && |v| <= ParamsLen(u).value
  {
    if |v| == 1 && IsFinal(v[0]) {
      assert u[0] == v[0];
      ParamsAtLeastDigits(u);
    } else {
      var i :| 1 <= i <= 4 && i < |v| && AllDigits(v[..i]) && GroupsFinal(v[i..]);
      ParamsWithLeadingDigits(u, v, i);
    }
  }

  /** Whatever the scanner takes for the parameters covers the leading digits, and is at least
      one character when `u` starts with a final character. */
  lemma ParamsAtLeastDigits(u: string)
    requires LeadingDigits(u, 4) >= 1 || (|u| > 0 && IsFinal(u[0]))
    ensures ParamsLen(u).Some? && LeadingDigits(u, 4) <= ParamsLen(u).value
    ensures ParamsLen(u).value >= 1
  {
  }

  lemma ParamsWithLeadingDigits(u: string, v: string, i: nat)
    requires |v| <= |u| && v == u[..|v|]
    requires 1 <= i <= 4 && i < |v| && AllDigits(v[..i]) && GroupsFinal(v[i..])
    ensures ParamsLen(u).Some? && |v| <= ParamsLen(u).value
  {
    var j := LeadingDigits(u, 4);
    assert v[..i] == u[..i];
    LeadingDigitsCover(u, v[..i]);
    ParamsAtLeastDigits(u);
    if i == j {
      assert v[i..] == u[j..][..|v| - i];
      GroupsMaximal(u[j..], v[i..]);
      ParamsWithDigits(u, j, GroupsLen(u[j..]).value);
    } else {
      assert v[i..][0] == u[i];
      GroupsFinalAtDigit(v[i..]);
    }
  }

  /** Any tail at the front of `u` is no longer than the prefix run plus the parameters taken. */
  lemma {:induction false} TailMaximal(u: string, v: string)
    requires |v| <= |u| && v == u[..|v|] && Tail(v)
    ensures ParamsLen(u[PrefixRun(u)..]).Some?
    ensures |v| <= PrefixRun(u) + ParamsLen(u[PrefixRun(u)..]).value
    decreases |v|
  {
    if |v| > 0 && IsPrefixChar(v[0]) && Tail(v[1..]) {
      assert u[0] == v[0];
      assert v[1..] == u[1..][..|v| - 1];
      TailMaximal(u[1..], v[1..]);
      assert u[1..][PrefixRun(u[1..])..] == u[PrefixRun(u)..];
    } else {
      ParamsFinalStart(v);
      assert u[0] == v[0];
      assert PrefixRun(u) == 0;
      ParamsMaximal(u, v);
    }
  }

  /** The scanner takes the longest match at the front of `t`, which is the one the backtracking
      engine returns: its greedy choices only ever give back a digit that then serves as the
      final character. Any match at the front is at most that long. */
  lemma MatchMaximal(t: string, m: nat)
    requires m <= |t| && IsAnsiSequence(t[..m])
    ensures MatchLen(t).Some? && m <= MatchLen(t).value
  {
    var u := t[1..];
    assert t[..m][1..] == u[..m - 1];
    TailMaximal(u, u[..m - 1]);
    assert u[PrefixRun(u)..] == t[1 + PrefixRun(u)..];
  }

  /** With `MatchSound`: the run the scanner deletes at the front of `t` is a match, and no
      longer prefix of `t` is one (e.g. all of ESC [ ? 2 5 h, not just ESC [ ? 2). */
  lemma NoLongerMatch(t: string, m: nat)
    requires MatchLen(t).Some? && MatchLen(t).value < m <= |t|
    ensures !IsAnsiSequence(t[..m])
  {
    if IsAnsiSequence(t[..m]) {
      MatchMaximal(t, m);
    }
  }

  // ---------------------------------------------------------------------------------------------
  // Properties of the replacement

  lemma {:induction false} ScanCovers(t: string)
    ensures Flatten(Scan(t)) == t
    decreases |t|
  {
    if |t| > 0 {
      match MatchLen(t)
      case Some(n) =>
        ScanCovers(t[n..]);
        assert t == t[..n] + t[n..];
      case None =>
        ScanCovers(t[1..]);
        assert t == [t[0]] + t[1..];
    }
  }

  /** Every deleted run is a match of the pattern, and every kept character starts no match;
      `ScanTakesLongest` adds that no longer match starts where a deleted run does. */
  lemma {:induction false} ScanPieces(t: string)
    ensures forall k :: 0 <= k < |Scan(t)| && Scan(t)[k].Removed? ==> IsAnsiSequence(Scan(t)[k].run)
    ensures forall k :: 0 <= k < |Scan(t)| && Scan(t)[k].Kept? ==>
      var rest := Flatten(Scan(t)[k..]);
      forall n :: 0 <= n <= |rest| ==> !IsAnsiSequence(rest[..n])
    decreases |t|
  {
    if |t| > 0 {
      var ps := Scan(t);
      match MatchLen(t)
      case Some(n) =>
        MatchSound(t);
        ScanPieces(t[n..]);
        assert ps[1..] == Scan(t[n..]);
        forall k | 1 <= k < |ps| ensures ps[k..] == Scan(t[n..])[k - 1..] { }
      case None =>
        MatchComplete(t);
        ScanPieces(t[1..]);
        ScanCovers(t);
        assert ps[1..] == Scan(t[1..]);
        forall k | 1 <= k < |ps| ensures ps[k..] == Scan(t[1..])[k - 1..] { }
    }
  }

  /** Every deleted run is the longest match at its position: no longer stretch of what follows
      it is a match, so the run is the one the regex engine deletes there. */
  lemma {:induction false} ScanTakesLongest(t: string)
    ensures forall k :: 0 <= k < |Scan(t)| && Scan(t)[k].Removed? ==>
      var rest := Flatten(Scan(t)[k..]);
      forall m :: |Scan(t)[k].run| < m <= |rest| ==> !IsAnsiSequence(rest[..m])
    decreases |t|
  {
    if |t| > 0 {
      var ps := Scan(t);
      ScanCovers(t);
      match MatchLen(t)
      case Some(n) =>
        forall m | n < m <= |t| ensures !IsAnsiSequence(t[..m]) {
          NoLongerMatch(t, m);
        }
        ScanTakesLongest(t[n..]);
        assert ps[1..] == Scan(t[n..]);
        forall k | 1 <= k < |ps| ensures ps[k..] == Scan(t[n..])[k - 1..] { }
      case None =>
        ScanTakesLongest(t[1..]);
        assert ps[1..] == Scan(t[1..]);
        forall k | 1 <= k < |ps| ensures ps[k..] == Scan(t[1..])[k - 1..] { }
    }
  }

  predicate IsSubsequence(a: string, b: string)
    decreases |b|
  {
    |a| == 0 || (|b| > 0 && ((a[0] == b[0] && IsSubsequence(a[1..], b[1..])) || IsSubsequence(a, b[1..])))
  }

  lemma {:induction false} SubsequenceOfLonger(a: string, x: string, b: string)
    requires IsSubsequence(a, b)
    ensures IsSubsequence(a, x + b)
    decreases |x|
  {
    if |x| > 0 {
      SubsequenceOfLonger(a, x[1..], b);
      assert (x + b)[1..] == x[1..] + b;
    } else {
      assert x + b == b;
    }
  }

  lemma {:induction false} KeptIsSubsequence(ps: seq<Piece>)
    ensures IsSubsequence(KeptText(ps), Flatten(ps))
    ensures |KeptText(ps)| <= |Flatten(ps)|
  {
    if |ps| > 0 {
      KeptIsSubsequence(ps[1..]);
      match ps[0]
      case Kept(c) =>
        assert ([c] + KeptText(ps[1..]))[1..] == KeptText(ps[1..]);
        assert ([c] + Flatten(ps[1..]))[1..] == Flatten(ps[1..]);
      case Removed(run) =>
        assert KeptText(ps) == KeptText(ps[1..]);
        SubsequenceOfLonger(KeptText(ps[1..]), run, Flatten(ps[1..]));
    }
  }

  /** Characters are only deleted, never inserted or reordered. */
  lemma StripIsSubsequence(t: string)
    ensures IsSubsequence(Strip(t), t)
    ensures |Strip(t)| <= |t|
  {
    KeptIsSubsequence(Scan(t));
    ScanCovers(t);
  }

  /** Text without an escape introducer, which stripping leaves alone. */
  predicate Plain(s: string) {
    forall i :: 0 <= i < |s| ==> !IsIntroducer(s[i])
  }

  lemma PlainConcat(a: string, b: string)
    requires Plain(a) && Plain(b)
    ensures Plain(a + b)
  {
    forall i | 0 <= i < |a + b| ensures !IsIntroducer((a + b)[i]) {
      if i < |a| {
        assert (a + b)[i] == a[i];
      } else {
        assert (a + b)[i] == b[i - |a|];
      }
    }
  }

  /** Text without ESC and CSI comes back unchanged. */
  lemma {:induction false} StripWithoutIntroducer(t: string)
    requires forall i :: 0 <= i < |t| ==> !IsIntroducer(t[i])
    ensures Strip(t) == t
    decreases |t|
  {
    if |t| > 0 {
      StripWithoutIntroducer(t[1..]);
      assert t == [t[0]] + t[1..];
    }
  }

  /** A complete match at the start is deleted and scanning resumes right after it. */
  lemma StripAfterMatch(x: string, y: string)
    requires MatchLen(x + y) == Some(|x|)
    ensures Strip(x + y) == Strip(y)
  {
    assert (x + y)[|x|..] == y;
  }

  /** A text that does not start a match keeps its first character. */
  lemma StripKeepsFirst(c: char, y: string)
    requires MatchLen([c] + y).None?
    ensures Strip([c] + y) == [c] + Strip(y)
  {
    assert ([c] + y)[1..] == y;
  }

  /** Select Graphic Rendition with one parameter, ESC [ n m (section 8.3.117 of ECMA-48): the
      match at the ESC covers the whole sequence, whatever follows it (e.g. ESC [ 3 1 m), so
      `StripAfterMatch` deletes all of it. */
  lemma SgrOneParameterMatched(d: string, rest: string)
    requires 1 <= |d| <= 4 && AllDigits(d)
    ensures MatchLen("\U{1B}[" + d + "m" + rest) == Some(|d| + 3)
  {
    var tail := "m" + rest;
    var u := d + tail;
    LeadingDigitsOf(d, tail);
    assert u[|d|..] == tail;
    FinalOnly(tail);
    ParamsWithDigits(u, |d|, 1);
    MatchAfterBracket(u, |d| + 1);
    ConcatAssoc("\U{1B}[" + d, "m", rest);
    ConcatAssoc("\U{1B}[", d, tail);
  }

  /** The cursor-show sequence ESC [ ? 2 5 h is deleted whole, although ESC [ ? 2 alone is also
      a match (its `2` can serve as the final character). */
  lemma CursorShowMatched()
    ensures MatchLen("\U{1B}[?25h") == Some(6)
    ensures IsAnsiSequence("\U{1B}[?2")
  {
    var t := "\U{1B}[?25h";
    assert t[1..] == "[?25h" && "[?25h"[2..] == "25h";
    assert PrefixRun("25h") == 0 && PrefixRun("?25h") == 1 && PrefixRun("[?25h") == 2;
    assert LeadingDigits("h", 2) == 0;
    assert LeadingDigits("25h", 4) == 2 by {
      assert "25h"[1..] == "5h" && "5h"[1..] == "h";
    }
    assert "25h"[2..] == "h";
    assert GroupsLen("h") == Some(1);
    assert ParamsLen("25h") == Some(3);
    MatchSound("\U{1B}[?2");
    assert "\U{1B}[?2"[..4] == "\U{1B}[?2";
  }

  /** A final character alone ends the parameter groups. */
  lemma FinalOnly(g: string)
    requires |g| > 0 && g[0] == 'm'
    ensures GroupsLen(g) == Some(1)
  {
  }

  /** A leading digit group of `j` digits followed by groups of length `n`. */
  lemma ParamsWithDigits(u: string, j: nat, n: nat)
    requires j >= 1 && LeadingDigits(u, 4) == j && GroupsLen(u[j..]) == Some(n)
    ensures ParamsLen(u) == Some(j + n)
  {
  }

  /** ESC [ followed by parameters of length `n`. */
  lemma MatchAfterBracket(u: string, n: nat)
    requires ParamsLen(u) == Some(n)
    requires |u| > 0 && !IsPrefixChar(u[0])
    ensures MatchLen("\U{1B}[" + u) == Some(2 + n)
  {
    var t := "\U{1B}[" + u;
    assert t[1..] == "[" + u;
    assert t[1..][1..] == u;
    assert PrefixRun(t[1..]) == 1;
    assert t[2..] == u;
  }

  lemma {:induction false} LeadingDigitsOf(d: string, rest: string)
    requires |d| <= 4 && AllDigits(d)
    requires |rest| > 0 && !IsDigit(rest[0])
    ensures LeadingDigits(d + rest, 4) == |d|
  {
    var u := d + rest;
    assert forall i :: 0 <= i < |d| ==> u[i] == d[i];
    assert u[|d|] == rest[0];
  }
}
