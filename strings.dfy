/** The JavaScript string operations the app relies on, over `seq<char>`. */
module Strings {

  /** `s.startsWith(p)`. */
  predicate StartsWith(s: string, p: string) {
    |p| <= |s| && s[..|p|] == p
  }

  /** `s.endsWith(p)`. */
  predicate EndsWith(s: string, p: string) {
    |p| <= |s| && s[|s| - |p|..] == p
  }

  /** A string ending with `t` still ends with it once something is put in front. */
  lemma EndsWithAfter(a: string, s: string, t: string)
    requires EndsWith(s, t)
    ensures EndsWith(a + s, t)
  {
    assert (a + s)[|a + s| - |t|..] == s[|s| - |t|..];
  }

  /** `s.includes(sub)`: some suffix of `s` starts with `sub`. */
  predicate Contains(s: string, sub: string)
    decreases |s|
  {
    StartsWith(s, sub) || (|s| > 0 && Contains(s[1..], sub))
  }

  /** An occurrence at any index is found by `includes`. */
  lemma {:induction false} ContainsAt(s: string, sub: string, i: nat)
    requires i + |sub| <= |s| && s[i..i + |sub|] == sub
    ensures Contains(s, sub)
    decreases i
  {
    if i > 0 {
      assert s[1..][i - 1..i - 1 + |sub|] == s[i..i + |sub|];
      ContainsAt(s[1..], sub, i - 1);
    }
  }

  /** `sub` occurs in `s` at index `j`. */
  predicate MatchAt(s: string, sub: string, j: int) {
    0 <= j && j + |sub| <= |s| && s[j..j + |sub|] == sub
  }

  /** The first index at which `sub` occurs in `s`, when it occurs. */
  function IndexOf(s: string, sub: string): (r: int)
    ensures -1 <= r && (r >= 0 ==> r + |sub| <= |s|)
    ensures r >= 0 ==> s[r..r + |sub|] == sub
    ensures r >= 0 ==> forall j :: 0 <= j < r ==> !MatchAt(s, sub, j)
    ensures r >= 0 <==> Contains(s, sub)
    decreases |s|
  {
    if StartsWith(s, sub) then 0
    else if |s| == 0 then -1
    else
      var r := IndexOf(s[1..], sub);
      if r < 0 then -1
      else
        NoEarlierMatch(s, sub, r);
        r + 1
  }

  /** No match at `0`, and none in `s[1..]` before `r`, means none in `s` before `r + 1`. */
  lemma NoEarlierMatch(s: string, sub: string, r: nat)
    requires |s| > 0 && !StartsWith(s, sub) && r + |sub| < |s|
    requires forall j :: 0 <= j < r ==> !MatchAt(s[1..], sub, j)
    ensures forall j :: 0 <= j < r + 1 ==> !MatchAt(s, sub, j)
  {
    forall j | 0 <= j < r + 1 ensures !MatchAt(s, sub, j) {
      if j == 0 {
        assert s[0..|sub|] == s[..|sub|];
      } else {
        assert s[j..j + |sub|] == s[1..][j - 1..j - 1 + |sub|];
        assert !MatchAt(s[1..], sub, j - 1);
      }
    }
  }

  /** `s.substring(0, n)` for `n >= 0`. */
  function Prefix(s: string, n: nat): (r: string)
    ensures |r| == if n < |s| then n else |s|
    ensures StartsWith(s, r)
  {
    if n < |s| then s[..n] else s
  }

  /** `WhiteSpace` and `LineTerminator` of ECMAScript section 12.2 and 12.3, which `trim` removes. */
  predicate IsJsWhitespace(c: char) {
    c == '\t' || c == '\n' || c == '\U{000B}' || c == '\U{000C}' || c == '\r' || c == ' '
    || c == '\U{00A0}' || c == '\U{1680}' || ('\U{2000}' <= c <= '\U{200A}')
    || c == '\U{2028}' || c == '\U{2029}' || c == '\U{202F}' || c == '\U{205F}'
    || c == '\U{3000}' || c == '\U{FEFF}'
  }

  function TrimStart(s: string): (r: string)
    ensures |r| <= |s| && EndsWith(s, r)
    ensures r == [] || !IsJsWhitespace(r[0])
    decreases |s|
  {
    if |s| > 0 && IsJsWhitespace(s[0]) then TrimStart(s[1..]) else s
  }

  function TrimEnd(s: string): (r: string)
    ensures |r| <= |s| && StartsWith(s, r)
    ensures r == [] || !IsJsWhitespace(r[|r| - 1])
    decreases |s|
  {
    if |s| > 0 && IsJsWhitespace(s[|s| - 1]) then TrimEnd(s[..|s| - 1]) else s
  }

  /** `s.trim()`. */
  function Trim(s: string): string {
    TrimEnd(TrimStart(s))
  }

  /** `s.trim() === ''`: every character is white space. */
  lemma {:induction false} TrimEmptyIffBlank(s: string)
    ensures Trim(s) == [] <==> forall i :: 0 <= i < |s| ==> IsJsWhitespace(s[i])
    decreases |s|
  {
    if |s| > 0 && IsJsWhitespace(s[0]) {
      TrimEmptyIffBlank(s[1..]);
      assert forall i :: 1 <= i < |s| ==> s[i] == s[1..][i - 1];
    } else if |s| > 0 {
      assert TrimStart(s) == s;
      TrimEndKeepsFirst(s);
    }
  }

  /** Trimming the end of a string whose first character is not white space keeps that character. */
  lemma {:induction false} TrimEndKeepsFirst(s: string)
    requires |s| > 0 && !IsJsWhitespace(s[0])
    ensures |TrimEnd(s)| > 0 && TrimEnd(s)[0] == s[0]
    decreases |s|
  {
    if IsJsWhitespace(s[|s| - 1]) {
      TrimEndKeepsFirst(s[..|s| - 1]);
    }
  }

  /** `s.replace(pat, rep)` with a string pattern: only the first occurrence is replaced. */
  function ReplaceFirst(s: string, pat: string, rep: string): (r: string)
    ensures !Contains(s, pat) ==> r == s
    ensures Contains(s, pat) ==>
      exists i :: MatchAt(s, pat, i) && (forall j :: 0 <= j < i ==> !MatchAt(s, pat, j))
        && r == s[..i] + rep + s[i + |pat|..]
  {
    var i := IndexOf(s, pat);
    if i < 0 then s
    else
      assert MatchAt(s, pat, i);
      s[..i] + rep + s[i + |pat|..]
  }

  /** `s.replace(/suffix$/, '')` for a regular expression matching `suffix` literally at the end. */
  function StripSuffix(s: string, suffix: string): (r: string)
    ensures EndsWith(s, suffix) ==> r + suffix == s
    ensures !EndsWith(s, suffix) ==> r == s
  {
    if EndsWith(s, suffix) then s[..|s| - |suffix|] else s
  }

  /** The decimal digits of a natural number, as `String(n)` writes them. */
  function NatText(n: nat): (r: string)
    ensures |r| > 0
    ensures forall i :: 0 <= i < |r| ==> '0' <= r[i] <= '9'
  {
    var d := ['0' + (n % 10) as char];
    if n < 10 then d else NatText(n / 10) + d
  }

  /** Distinct numbers have distinct decimal texts, so index keys never collide. */
  lemma {:induction false} NatTextInjective(a: nat, b: nat)
    requires NatText(a) == NatText(b)
    ensures a == b
  {
    var ta, tb := NatText(a), NatText(b);
    assert ta[|ta| - 1] == '0' + (a % 10) as char;
    assert tb[|tb| - 1] == '0' + (b % 10) as char;
    assert a >= 10 <==> |ta| >= 2;
    assert b >= 10 <==> |tb| >= 2;
    if a >= 10 {
      assert NatText(a / 10) == ta[..|ta| - 1] == tb[..|tb| - 1] == NatText(b / 10);
      NatTextInjective(a / 10, b / 10);
    }
  }

  /** `String(n)` for an integer. */
  function IntText(n: int): string {
    if n < 0 then "-" + NatText(-n) else NatText(n)
  }
}
