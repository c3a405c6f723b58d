/**
 * app/api/tools/utils/validators.ts: `validateDomain`, `validateTarget` and `validateTargetUrl`.
 *
 * Each regular expression is given twice: as a ghost predicate that follows the pattern's
 * structure (with the existential choices a backtracking matcher makes), and as a deterministic
 * character-by-character decision that the validators use. Lemmas prove the two agree.
 */
module Validators {
  import opened Wrappers
  import opened Strings

  /** The `{ valid, message? }` object every validator returns. */
  datatype Verdict = Verdict(valid: bool, message: Option<string>)

  const Ok := Verdict(true, None)

  function Fail(message: string): Verdict { Verdict(false, Some(message)) }

  // ---------------------------------------------------------------------------------------------
  // validateDomain: /^(?!-)[A-Za-z0-9-]+([\-\.]{1}[a-z0-9]+)*\.[A-Za-z]{2,6}$/

  predicate IsHeadChar(c: char) { IsAsciiAlnum(c) || c == '-' }
  predicate IsLowerAlnum(c: char) { IsAsciiLower(c) || IsDigit(c) }
  predicate IsGroupSeparator(c: char) { c == '-' || c == '.' }

  predicate AllHead(s: string) { forall i :: 0 <= i < |s| ==> IsHeadChar(s[i]) }
  predicate AllLowerAlnum(s: string) { forall i :: 0 <= i < |s| ==> IsLowerAlnum(s[i]) }
  predicate AllLetters(s: string) { forall i :: 0 <= i < |s| ==> IsAsciiLetter(s[i]) }

  /** `[A-Za-z]{2,6}` */
  predicate IsTld(t: string) { 2 <= |t| <= 6 && AllLetters(t) }

  /** `([\-\.]{1}[a-z0-9]+)*`: `k` is where the first group ends. */
  ghost predicate InGroups(g: string)
    decreases |g|
  {
    |g| == 0
    || (IsGroupSeparator(g[0])
        && exists k :: 2 <= k <= |g| && AllLowerAlnum(g[1..k]) && InGroups(g[k..]))
  }

  /** `[A-Za-z0-9-]+([\-\.]{1}[a-z0-9]+)*`: `k` is where the first run ends. */
  ghost predicate InHost(a: string) {
    exists k :: 1 <= k <= |a| && AllHead(a[..k]) && InGroups(a[k..])
  }

  /** The whole pattern: no leading `-`, a host, a dot (`d`), a TLD. */
  ghost predicate MatchesDomainRegex(s: string) {
    |s| > 0 && s[0] != '-'
    && exists d :: 0 <= d < |s| && s[d] == '.' && InHost(s[..d]) && IsTld(s[d + 1..])
  }

  // The decision: an automaton with three states. In the first label any of [A-Za-z0-9-] may
  // follow; the first `.` moves to "after a separator", where one of [a-z0-9] must come; after
  // that, more [a-z0-9] or another separator.

  predicate HeadOk(r: string)
    decreases |r|
  {
    |r| == 0 || (IsHeadChar(r[0]) && HeadOk(r[1..])) || (r[0] == '.' && SepOk(r[1..]))
  }

  predicate SepOk(x: string)
    decreases |x|, 1
  {
    |x| > 0 && IsLowerAlnum(x[0]) && GroupOk(x[1..])
  }

  predicate GroupOk(x: string)
    decreases |x|, 0
  {
    |x| == 0 || (IsLowerAlnum(x[0]) && GroupOk(x[1..])) || (IsGroupSeparator(x[0]) && SepOk(x[1..]))
  }

  predicate HostOk(a: string) {
    |a| > 0 && IsHeadChar(a[0]) && HeadOk(a[1..])
  }

  /** `domainRegex.test(s)`: the TLD dot is the last dot of the string. */
  predicate DomainPatternOk(s: string) {
    |s| > 0 && s[0] != '-'
    && match LastIndexOfChar(s, '.')
       case None => false
       case Some(d) => IsTld(s[d + 1..]) && HostOk(s[..d])
  }

  /** `validateDomain(domain)`; `None` is a missing field (`undefined` / `null`). */
  function ValidateDomain(domain: Option<string>): (r: Verdict)
    ensures r.valid <==> r.message.None?
    ensures domain.None? || domain.value == "" ==> r == Fail("Domain is required")
    ensures domain.Some? && domain.value != "" ==>
      (r.valid <==> MatchesDomainRegex(domain.value))
      && (!r.valid ==> r == Fail("Invalid domain format"))
  {
    DomainDecision(domain.GetOr(""));
    if domain.None? || domain.value == "" then Fail("Domain is required")
    else if !DomainPatternOk(domain.value) then Fail("Invalid domain format")
    else Ok
  }

  // Forward direction: the pattern implies the decision.

  lemma {:induction false} GroupsHead(g: string)
    requires InGroups(g)
    ensures HeadOk(g)
    decreases |g|, 0
  {
    if |g| > 0 {
      var k :| 2 <= k <= |g| && AllLowerAlnum(g[1..k]) && InGroups(g[k..]);
      assert g[1..] == g[1..k] + g[k..];
      if g[0] == '-' {
        HeadConcat(g[1..k], g[k..]);
      } else {
        SepConcat(g[1..k], g[k..]);
      }
    }
  }

  lemma {:induction false} HeadConcat(h: string, g: string)
    requires AllHead(h) && InGroups(g)
    ensures HeadOk(h + g)
    decreases |h| + |g|, 1
  {
    if |h| == 0 {
      assert h + g == g;
      GroupsHead(g);
    } else {
      HeadConcat(h[1..], g);
      assert (h + g)[1..] == h[1..] + g;
    }
  }

  lemma {:induction false} GroupsGroup(g: string)
    requires InGroups(g)
    ensures GroupOk(g)
    decreases |g|, 0
  {
    if |g| > 0 {
      var k :| 2 <= k <= |g| && AllLowerAlnum(g[1..k]) && InGroups(g[k..]);
      assert g[1..] == g[1..k] + g[k..];
      SepConcat(g[1..k], g[k..]);
    }
  }

  lemma {:induction false} LowerConcat(r: string, x: string)
    requires AllLowerAlnum(r) && InGroups(x)
    ensures GroupOk(r + x)
    decreases |r| + |x|, 1
  {
    if |r| == 0 {
      assert r + x == x;
      GroupsGroup(x);
    } else {
      LowerConcat(r[1..], x);
      assert (r + x)[1..] == r[1..] + x;
    }
  }

  lemma {:induction false} SepConcat(r: string, x: string)
    requires |r| >= 1 && AllLowerAlnum(r) && InGroups(x)
    ensures SepOk(r + x)
    decreases |r| + |x|, 2
  {
    LowerConcat(r[1..], x);
    assert (r + x)[1..] == r[1..] + x;
  }

  // Backward direction: the decision implies the pattern.

  /** Number of leading [a-z0-9] characters. */
  function LowerRun(z: string): (m: nat)
    ensures m <= |z| && AllLowerAlnum(z[..m])
    ensures m < |z| ==> !IsLowerAlnum(z[m])
  {
    if |z| > 0 && IsLowerAlnum(z[0]) then 1 + LowerRun(z[1..]) else 0
  }

  /** Number of leading [A-Za-z0-9-] characters. */
  function HeadRun(z: string): (m: nat)
    ensures m <= |z| && AllHead(z[..m])
    ensures m < |z| ==> !IsHeadChar(z[m])
  {
    if |z| > 0 && IsHeadChar(z[0]) then 1 + HeadRun(z[1..]) else 0
  }

  lemma {:induction false} GroupShape(z: string)
    requires GroupOk(z)
    ensures var m := LowerRun(z);
      m == |z| || (IsGroupSeparator(z[m]) && SepOk(z[m + 1..]))
  {
    if |z| > 0 && IsLowerAlnum(z[0]) {
      GroupShape(z[1..]);
      var m := LowerRun(z[1..]);
      if m < |z| - 1 {
        assert z[1..][m + 1..] == z[m + 2..];
      }
    }
  }

  lemma {:induction false} SepGroups(c: char, x: string)
    requires IsGroupSeparator(c) && SepOk(x)
    ensures InGroups([c] + x)
    decreases |x|
  {
    var g := [c] + x;
    GroupShape(x[1..]);
    var k := 1 + LowerRun(x[1..]);
    assert x[..k] == [x[0]] + x[1..][..k - 1];
    assert g[1..k + 1] == x[..k];
    var y := x[k..];
    assert g[k + 1..] == y;
    if |y| > 0 {
      assert y[0] == x[1..][k - 1];
      assert y[1..] == x[1..][k..];
      SepGroups(y[0], y[1..]);
      assert [y[0]] + y[1..] == y;
    }
    assert AllLowerAlnum(g[1..k + 1]) && InGroups(g[k + 1..]);
  }

  lemma {:induction false} HeadShape(r: string)
    requires HeadOk(r)
    ensures InGroups(r[HeadRun(r)..])
  {
    if |r| > 0 {
      if IsHeadChar(r[0]) {
        HeadShape(r[1..]);
        assert r[1..][HeadRun(r[1..])..] == r[HeadRun(r)..];
      } else {
        SepGroups('.', r[1..]);
        assert ['.'] + r[1..] == r;
      }
    }
  }

  lemma HostDecision(a: string)
    ensures HostOk(a) <==> InHost(a)
  {
    if HostOk(a) {
      HeadShape(a[1..]);
      var k := 1 + HeadRun(a[1..]);
      assert a[..k] == [a[0]] + a[1..][..k - 1];
      assert a[k..] == a[1..][k - 1..];
      assert AllHead(a[..k]) && InGroups(a[k..]);
    }
    if InHost(a) {
      var k :| 1 <= k <= |a| && AllHead(a[..k]) && InGroups(a[k..]);
      assert a[1..] == a[1..k] + a[k..];
      HeadConcat(a[1..k], a[k..]);
    }
  }

  /** The decision used by `ValidateDomain` accepts exactly the strings the pattern matches. */
  lemma DomainDecision(s: string)
    ensures DomainPatternOk(s) <==> MatchesDomainRegex(s)
  {
    match LastIndexOfChar(s, '.')
    case None =>
    case Some(d) =>
      HostDecision(s[..d]);
      if MatchesDomainRegex(s) {
        var e :| 0 <= e < |s| && s[e] == '.' && InHost(s[..e]) && IsTld(s[e + 1..]);
        assert e == d;
      }
  }

  /** What an accepted domain looks like: no leading `-`, a last dot followed by 2-6 letters, and
      between the first and the last dot only [a-z0-9.-]: upper case appears only in the first
      label and the TLD. */
  lemma AcceptedDomainShape(s: string)
    requires ValidateDomain(Some(s)).valid
    ensures s[0] != '-'
    ensures exists d :: 0 <= d < |s| && s[d] == '.' && IsTld(s[d + 1..])
    ensures forall i, j :: 0 <= i < j < |s| && s[i] == '.' && s[j] == '.' ==>
      forall m :: i < m < j ==> IsLowerAlnum(s[m]) || IsGroupSeparator(s[m])
  {
    var d := LastIndexOfChar(s, '.').value;
    var a := s[..d];
    forall i, j | 0 <= i < j < |s| && s[i] == '.' && s[j] == '.'
      ensures forall m :: i < m < j ==> IsLowerAlnum(s[m]) || IsGroupSeparator(s[m])
    {
      assert j <= d;
      HeadAfterDot(a[1..], i - 1);
      forall m | i < m < j
        ensures IsLowerAlnum(s[m]) || IsGroupSeparator(s[m])
      {
        assert s[m] == a[1..][m - 1];
      }
    }
  }

  /** Once the first label has ended at a dot (`i`), only [a-z0-9.-] follow. */
  lemma {:induction false} HeadAfterDot(r: string, i: int)
    requires HeadOk(r) && 0 <= i < |r| && r[i] == '.'
    ensures forall m :: i < m < |r| ==> IsLowerAlnum(r[m]) || IsGroupSeparator(r[m])
  {
    if IsHeadChar(r[0]) {
      HeadAfterDot(r[1..], i - 1);
      forall m | i < m < |r|
        ensures IsLowerAlnum(r[m]) || IsGroupSeparator(r[m])
      {
        assert r[m] == r[1..][m - 1];
      }
    } else {
      SepLower(r[1..]);
      forall m | 0 < m < |r|
        ensures IsLowerAlnum(r[m]) || IsGroupSeparator(r[m])
      {
        assert r[m] == r[1..][m - 1];
      }
    }
  }

  lemma {:induction false} SepLower(x: string)
    requires SepOk(x) || GroupOk(x)
    ensures forall m :: 0 <= m < |x| ==> IsLowerAlnum(x[m]) || IsGroupSeparator(x[m])
    decreases |x|
  {
    if |x| > 0 {
      SepLower(x[1..]);
      forall m | 0 < m < |x|
        ensures IsLowerAlnum(x[m]) || IsGroupSeparator(x[m])
      {
        assert x[m] == x[1..][m - 1];
      }
    }
  }

  // ---------------------------------------------------------------------------------------------
  // validateTarget, non-URL branch:
  // /^(25[0-5]|2[0-4][0-9]|[01]?[0-9][0-9]?)\.(…)\.(…)\.(…)$/

  /** One alternative of the octet group matches the whole of `p`. */
  predicate OctetRegex(p: string) {
    (|p| == 3 && p[0] == '2' && p[1] == '5' && '0' <= p[2] <= '5')
    || (|p| == 3 && p[0] == '2' && '0' <= p[1] <= '4' && IsDigit(p[2]))
    || (1 <= |p| <= 2 && AllDigits(p))
    || (|p| == 3 && (p[0] == '0' || p[0] == '1') && IsDigit(p[1]) && IsDigit(p[2]))
  }

  /** Octets contain no `.`, so the four groups are exactly the four pieces between dots. */
  predicate IpPatternOk(s: string) {
    var parts := Split(s, '.');
    |parts| == 4 && forall k :: 0 <= k < 4 ==> OctetRegex(parts[k])
  }

  function DigitValue(c: char): int { c as int - '0' as int }

  /** The octet alternatives accept exactly the 1-3 digit strings whose value is at most 255
      (leading zeros allowed). */
  lemma OctetRange(p: string)
    ensures OctetRegex(p) <==> 1 <= |p| <= 3 && AllDigits(p) && DigitsValue(p) <= 255
  {
    if 1 <= |p| <= 3 && AllDigits(p) {
      assert DigitsValue(p[..1]) == DigitValue(p[0]) by {
        assert p[..1][..0] == [];
      }
      if |p| >= 2 {
        assert DigitsValue(p[..2]) == DigitValue(p[0]) * 10 + DigitValue(p[1]) by {
          assert p[..2][..1] == p[..1];
        }
      }
      if |p| == 3 {
        assert p[..2] == p[..|p| - 1];
        assert DigitsValue(p) == DigitValue(p[0]) * 100 + DigitValue(p[1]) * 10 + DigitValue(p[2]);
      } else if |p| == 2 {
        assert p[..1] == p[..|p| - 1];
        assert p == p[..2];
      } else {
        assert p == p[..1];
      }
    }
  }

  /** `validateTarget(target)`; whether `new URL(target)` succeeds is the parameter
      `parsesAsUrl`. */
  function ValidateTarget(target: string, parsesAsUrl: bool): (r: Verdict)
    ensures r.valid <==> r.message.None?
    ensures r.valid <==> parsesAsUrl || IpPatternOk(target)
    ensures !r.valid ==> r.message == Some("Target must be a valid URL or IP address")
  {
    if parsesAsUrl then Ok
    else if IpPatternOk(target) then Ok
    else Fail("Target must be a valid URL or IP address")
  }

  /** A string that is not a URL is accepted exactly when it is four dot-separated numbers of
      1-3 digits, each at most 255. */
  lemma DottedQuad(target: string)
    ensures ValidateTarget(target, false).valid <==>
      var parts := Split(target, '.');
      |parts| == 4 && forall k :: 0 <= k < 4 ==>
        1 <= |parts[k]| <= 3 && AllDigits(parts[k]) && DigitsValue(parts[k]) <= 255
  {
    var parts := Split(target, '.');
    forall k | 0 <= k < |parts| { OctetRange(parts[k]); }
  }

  // ---------------------------------------------------------------------------------------------
  // validateTargetUrl: trim, strip http(s)://, length, then /^[a-z0-9\-\.]+\.[a-z]{2,}$/i

  predicate IsHostChar(c: char) { IsAsciiAlnum(c) || c == '-' || c == '.' }

  /** The pattern (the `i` flag folds ASCII letters only): `d` is the dot before the letters. */
  ghost predicate MatchesUrlHostRegex(s: string) {
    exists d :: 1 <= d && d + 3 <= |s| && s[d] == '.'
      && (forall i :: 0 <= i < d ==> IsHostChar(s[i])) && AllLetters(s[d + 1..])
  }

  predicate UrlHostPatternOk(s: string) {
    (forall i :: 0 <= i < |s| ==> IsHostChar(s[i]))
    && match LastIndexOfChar(s, '.')
       case None => false
       case Some(d) => 1 <= d && d + 3 <= |s| && AllLetters(s[d + 1..])
  }

  lemma UrlHostDecision(s: string)
    ensures UrlHostPatternOk(s) <==> MatchesUrlHostRegex(s)
  {
    if MatchesUrlHostRegex(s) {
      var d :| 1 <= d && d + 3 <= |s| && s[d] == '.'
        && (forall i :: 0 <= i < d ==> IsHostChar(s[i])) && AllLetters(s[d + 1..]);
      assert LastIndexOfChar(s, '.') == Some(d);
      forall i | 0 <= i < |s|
        ensures IsHostChar(s[i])
      {
        if i > d { assert s[d + 1..][i - d - 1] == s[i]; }
      }
    }
  }

  /** `validateTargetUrl(input)`; `None` is a missing field. */
  function ValidateTargetUrl(input: Option<string>): (r: Verdict)
    ensures r.valid <==> r.message.None?
    ensures input.None? || input.value == "" ==> r == Fail("Input is required")
    ensures input.Some? && input.value != "" ==>
      var cleaned := StripScheme(Trim(input.value));
      (|cleaned| < 3 ==> r == Fail("Input too short"))
      && (|cleaned| >= 3 && !MatchesUrlHostRegex(cleaned) ==> r == Fail("Invalid domain format"))
      && (|cleaned| >= 3 && MatchesUrlHostRegex(cleaned) ==> r == Ok)
  {
    if input.None? || input.value == "" then Fail("Input is required")
    else
      var cleaned := StripScheme(Trim(input.value));
      UrlHostDecision(cleaned);
      if |cleaned| < 3 then Fail("Input too short")
      else if !UrlHostPatternOk(cleaned) then Fail("Invalid domain format")
      else Ok
  }

  /** An accepted input, once cleaned, is made of letters, digits, `-` and `.` only, and ends with
      a dot and at least two letters. */
  lemma AcceptedUrlShape(input: string)
    requires ValidateTargetUrl(Some(input)).valid
    ensures var cleaned := StripScheme(Trim(input));
      (forall i :: 0 <= i < |cleaned| ==> IsHostChar(cleaned[i]))
      && exists d :: 1 <= d && d + 3 <= |cleaned| && cleaned[d] == '.' && AllLetters(cleaned[d + 1..])
  {
    var cleaned := StripScheme(Trim(input));
    UrlHostDecision(cleaned);
  }
}
