/** The string operations of JavaScript the dashboard relies on: `trim` and `startsWith`. */
module Text {

  /** WhiteSpace and LineTerminator of ECMAScript, the characters `String.prototype.trim` removes. */
  predicate IsJsSpace(c: char)
  {
    c == 9 as char || c == 10 as char || c == 11 as char || c == 12 as char || c == 13 as char
    || c == ' ' || c == 0xA0 as char || c == 0x1680 as char
    || (0x2000 <= c as int <= 0x200A) || c == 0x2028 as char || c == 0x2029 as char
    || c == 0x202F as char || c == 0x205F as char || c == 0x3000 as char || c == 0xFEFF as char
  }

  predicate AllSpace(s: string)
  {
    forall i :: 0 <= i < |s| ==> IsJsSpace(s[i])
  }

  /** The first position at or after `i` that is not white space, or `|s|`. */
  function SkipSpace(s: string, i: nat): (n: nat)
    requires i <= |s|
    ensures i <= n <= |s|
    ensures forall k :: i <= k < n ==> IsJsSpace(s[k])
    ensures n == |s| || !IsJsSpace(s[n])
    decreases |s| - i
  {
    if i < |s| && IsJsSpace(s[i]) then SkipSpace(s, i + 1) else i
  }

  /** The end of `s[lo..j]` once the white space at its end is cut. */
  function BackSpace(s: string, lo: nat, j: nat): (n: nat)
    requires lo <= j <= |s|
    ensures lo <= n <= j
    ensures forall k :: n <= k < j ==> IsJsSpace(s[k])
    ensures n == lo || !IsJsSpace(s[n - 1])
    decreases j
  {
    if lo < j && IsJsSpace(s[j - 1]) then BackSpace(s, lo, j - 1) else j
  }

  /** How many white-space characters `trim` cuts from the front of `s`. */
  function Lead(s: string): (n: nat)
    ensures n <= |s| && forall k :: 0 <= k < n ==> IsJsSpace(s[k])
    ensures n == |s| || !IsJsSpace(s[n])
  {
    SkipSpace(s, 0)
  }

  /** `s.trim()`: the middle of `s` left once leading and trailing white space is cut. */
  function Trim(s: string): (r: string)
    ensures Lead(s) + |r| <= |s| && r == s[Lead(s)..Lead(s) + |r|]
    ensures forall k :: Lead(s) + |r| <= k < |s| ==> IsJsSpace(s[k])
    ensures |r| == 0 || (!IsJsSpace(r[0]) && !IsJsSpace(r[|r| - 1]))
  {
    var a := Lead(s);
    s[a..BackSpace(s, a, |s|)]
  }

  /** Trimming leaves nothing exactly when the text is all white space. */
  lemma TrimEmpty(s: string)
    ensures Trim(s) == "" <==> AllSpace(s)
  {
    var a := Lead(s);
    if Trim(s) == "" {
      assert a == |s|;
    } else {
      assert s[a] == Trim(s)[0];
    }
  }

  /** Text that neither starts nor ends with white space is left as it is. */
  lemma TrimKeeps(s: string)
    requires |s| == 0 || (!IsJsSpace(s[0]) && !IsJsSpace(s[|s| - 1]))
    ensures Trim(s) == s
  {
    assert Lead(s) == 0;
    assert BackSpace(s, 0, |s|) == |s|;
    assert s[0..|s|] == s;
  }

  /** Trimming twice is trimming once. */
  lemma TrimIdempotent(s: string)
    ensures Trim(Trim(s)) == Trim(s)
  {
    TrimKeeps(Trim(s));
  }

  /** `s.startsWith(p)`. */
  predicate StartsWith(s: string, p: string)
  {
    |p| <= |s| && s[..|p|] == p
  }

  /** `s.endsWith(p)`. */
  predicate EndsWith(s: string, p: string)
  {
    |p| <= |s| && s[|s| - |p|..] == p
  }
}
