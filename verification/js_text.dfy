/** The string operations of the JavaScript runtime that the launcher relies on:
    `String.prototype.trim`, which removes white space and line terminators from
    both ends of a string. */
module JsText {

  /** ECMAScript WhiteSpace and LineTerminator code points (the set `trim` strips). */
  predicate IsWhitespace(c: char) {
    || c == '\t' || c == '\n' || c == '\U{000B}' || c == '\U{000C}' || c == '\r'
    || c == ' ' || c == '\U{00A0}' || c == '\U{1680}'
    || ('\U{2000}' <= c <= '\U{200A}')
    || c == '\U{2028}' || c == '\U{2029}' || c == '\U{202F}' || c == '\U{205F}'
    || c == '\U{3000}' || c == '\U{FEFF}'
  }

  predicate AllWhitespace(s: string) {
    forall i :: 0 <= i < |s| ==> IsWhitespace(s[i])
  }

  /** The position of the first character at or after `i` that is not white space
      (`|s|` if there is none). */
  function FirstNonWhitespace(s: string, i: nat): (k: nat)
    requires i <= |s|
    ensures i <= k <= |s|
    ensures forall j :: i <= j < k ==> IsWhitespace(s[j])
    ensures k < |s| ==> !IsWhitespace(s[k])
    decreases |s| - i
  {
    if i < |s| && IsWhitespace(s[i]) then FirstNonWhitespace(s, i + 1) else i
  }

  /** The end of `s[lo..j]` once its trailing white space is dropped. */
  function EndOfNonWhitespace(s: string, lo: nat, j: nat): (k: nat)
    requires lo <= j <= |s|
    ensures lo <= k <= j
    ensures forall m :: k <= m < j ==> IsWhitespace(s[m])
    ensures k > lo ==> !IsWhitespace(s[k - 1])
    decreases j
  {
    if j > lo && IsWhitespace(s[j - 1]) then EndOfNonWhitespace(s, lo, j - 1) else j
  }

  /** `s.trim()`: neither starts nor ends with white space, and is empty exactly when
      `s` is all white space (`TrimInfix` says where it sits in `s`). */
  function Trim(s: string): (r: string)
    ensures r != [] ==> !IsWhitespace(r[0]) && !IsWhitespace(r[|r| - 1])
    ensures r == [] <==> AllWhitespace(s)
  {
    var a := FirstNonWhitespace(s, 0);
    var b := EndOfNonWhitespace(s, a, |s|);
    TrimBounds(s, a, b);
    TrimEmpty(s, a, b);
    s[a..b]
  }

  /** The trimmed text is an infix of `s` with only white space around it. */
  lemma TrimInfix(s: string)
    ensures var r := Trim(s);
            exists a :: 0 <= a <= |s| - |r| && r == s[a..a + |r|]
                        && AllWhitespace(s[..a]) && AllWhitespace(s[a + |r|..])
  {
    var a := FirstNonWhitespace(s, 0);
    var b := EndOfNonWhitespace(s, a, |s|);
    TrimBounds(s, a, b);
    assert Trim(s) == s[a..a + (b - a)];
  }

  lemma TrimBounds(s: string, a: nat, b: nat)
    requires a == FirstNonWhitespace(s, 0) && b == EndOfNonWhitespace(s, a, |s|)
    ensures AllWhitespace(s[..a]) && AllWhitespace(s[b..])
    ensures a < b ==> !IsWhitespace(s[a..b][0]) && !IsWhitespace(s[a..b][b - a - 1])
  {
    forall k | 0 <= k < a ensures IsWhitespace(s[..a][k]) {
      assert s[..a][k] == s[k];
    }
    forall k | 0 <= k < |s| - b ensures IsWhitespace(s[b..][k]) {
      assert s[b..][k] == s[b + k];
    }
  }

  lemma TrimEmpty(s: string, a: nat, b: nat)
    requires a == FirstNonWhitespace(s, 0) && b == EndOfNonWhitespace(s, a, |s|)
    ensures a == b <==> AllWhitespace(s)
  {
    if a == b {
      assert a == |s|;
    }
  }

  /** Trimming twice is trimming once. */
  lemma TrimIdempotent(s: string)
    ensures Trim(Trim(s)) == Trim(s)
  {
    var r := Trim(s);
    if r != [] {
      assert FirstNonWhitespace(r, 0) == 0;
      assert EndOfNonWhitespace(r, 0, |r|) == |r|;
      assert r[0..|r|] == r;
    }
  }
}
