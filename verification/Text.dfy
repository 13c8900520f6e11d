/**
  JavaScript's `String.prototype.trim`, as far as the view uses it: a draft
  title is rejected exactly when trimming leaves the empty string.
 */
module Text {

  /** ECMAScript's WhiteSpace and LineTerminator code points: tab, line feed,
      vertical tab, form feed, carriage return, space, no-break space, the
      byte-order mark, the line and paragraph separators, and the other
      Unicode space separators (Zs). */
  predicate IsWhitespace(c: char)
  {
    var n := c as int;
    || n == 0x09 || n == 0x0A || n == 0x0B || n == 0x0C || n == 0x0D
    || n == 0x20 || n == 0xA0 || n == 0x1680
    || (0x2000 <= n <= 0x200A)
    || n == 0x2028 || n == 0x2029 || n == 0x202F || n == 0x205F
    || n == 0x3000 || n == 0xFEFF
  }

  /** Every character of `s` is whitespace (the empty string included). */
  predicate IsBlank(s: string)
  {
    forall i :: 0 <= i < |s| ==> IsWhitespace(s[i])
  }

  /** Length of the longest all-whitespace prefix of `s`. */
  function LeadingSpace(s: string): (n: nat)
    ensures n <= |s|
    ensures IsBlank(s[..n])
    ensures n < |s| ==> !IsWhitespace(s[n])
  {
    if |s| == 0 || !IsWhitespace(s[0]) then 0
    else
      var m := LeadingSpace(s[1..]);
      assert s[1..][..m] == s[1..m + 1];
      1 + m
  }

  /** Length of the longest all-whitespace suffix of `s`. */
  function TrailingSpace(s: string): (n: nat)
    ensures n <= |s|
    ensures IsBlank(s[|s| - n..])
    ensures n < |s| ==> !IsWhitespace(s[|s| - n - 1])
  {
    if |s| == 0 || !IsWhitespace(s[|s| - 1]) then 0
    else
      var u := s[..|s| - 1];
      var m := TrailingSpace(u);
      assert u[|u| - m..] == s[|s| - 1 - m..|s| - 1];
      1 + m
  }

  /** `s` without its leading and trailing whitespace: the part of `s` that
      lies between a blank prefix and a blank suffix and neither starts nor
      ends with whitespace. */
  function Trim(s: string): (r: string)
    ensures |r| <= |s|
    ensures r == [] <==> IsBlank(s)
    ensures r != [] ==> !IsWhitespace(r[0]) && !IsWhitespace(r[|r| - 1])
    ensures exists a :: 0 <= a <= |s| - |r| && r == s[a..a + |r|] && IsBlank(s[..a]) && IsBlank(s[a + |r|..])
  {
    var a := LeadingSpace(s);
    var u := s[a..];
    var b := TrailingSpace(u);
    var r := u[..|u| - b];
    TrimSlice(s, a, u, b, r);
    TrimBlank(s, a, u, b, r);
    r
  }

  /** The slice Trim cuts out lies between a blank prefix and a blank
      suffix, and neither starts nor ends with whitespace. */
  lemma TrimSlice(s: string, a: nat, u: string, b: nat, r: string)
    requires a == LeadingSpace(s) && u == s[a..]
    requires b == TrailingSpace(u) && r == u[..|u| - b]
    ensures 0 <= a <= |s| - |r| && r == s[a..a + |r|] && IsBlank(s[..a]) && IsBlank(s[a + |r|..])
    ensures r != [] ==> !IsWhitespace(r[0]) && !IsWhitespace(r[|r| - 1])
  {
  }

  /** The slice Trim cuts out is empty exactly when `s` is blank. */
  lemma TrimBlank(s: string, a: nat, u: string, b: nat, r: string)
    requires a == LeadingSpace(s) && u == s[a..]
    requires b == TrailingSpace(u) && r == u[..|u| - b]
    ensures r == [] <==> IsBlank(s)
  {
    if a < |s| {
      assert !IsWhitespace(s[a]);
    }
    if r == [] {
      assert u[|u| - b..] == u;
      assert s == s[..a] + u;
      BlankConcat(s[..a], u);
    }
  }

  /** Two blank strings concatenate to a blank string. */
  lemma BlankConcat(x: string, y: string)
    requires IsBlank(x) && IsBlank(y)
    ensures IsBlank(x + y)
  {
  }
}
