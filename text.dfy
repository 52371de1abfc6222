/**
 * Text normalisation used for submitted words and guesses:
 * `s.toLowerCase().trim()` in project/server/index.js.
 */
module Text {

  /** The white space and line terminators removed by `String.prototype.trim`. */
  predicate IsSpace(c: char)
  {
    || c == ' ' || c == '\t' || c == '\n' || c == '\r'
    || c == '\U{000B}' || c == '\U{000C}' || c == '\U{00A0}' || c == '\U{1680}'
    || ('\U{2000}' <= c <= '\U{200A}')
    || c == '\U{2028}' || c == '\U{2029}' || c == '\U{202F}' || c == '\U{205F}'
    || c == '\U{3000}' || c == '\U{FEFF}'
  }

  predicate IsUpper(c: char)
  {
    'A' <= c <= 'Z'
  }

  /** An upper-case letter becomes its lower-case partner; every other character is kept. */
  function LowerChar(c: char): (d: char)
    ensures !IsUpper(d)
    ensures IsUpper(c) ==> 'a' <= d <= 'z' && d as int == c as int + 32
    ensures !IsUpper(c) ==> d == c
    ensures IsSpace(d) <==> IsSpace(c)
  {
    if IsUpper(c) then (c as int + 32) as char else c
  }

  /** `toLowerCase`, on the letters A to Z. */
  function Lower(s: string): string
  {
    seq(|s|, i requires 0 <= i < |s| => LowerChar(s[i]))
  }

  /** White space removed at the start. */
  function TrimStart(s: string): string
  {
    if |s| > 0 && IsSpace(s[0]) then TrimStart(s[1..]) else s
  }

  /** White space removed at the end. */
  function TrimEnd(s: string): string
  {
    if |s| > 0 && IsSpace(s[|s| - 1]) then TrimEnd(s[..|s| - 1]) else s
  }

  /** `TrimStart` drops a prefix made only of white space and stops at the first other character. */
  lemma {:induction false} TrimStartShape(s: string)
    ensures var r := TrimStart(s);
            && |r| <= |s| && r == s[|s| - |r|..]
            && (r != [] ==> !IsSpace(r[0]))
            && (forall i :: 0 <= i < |s| - |r| ==> IsSpace(s[i]))
  {
    if |s| > 0 && IsSpace(s[0]) {
      TrimStartShape(s[1..]);
    }
  }

  /** `TrimEnd` drops a suffix made only of white space and stops at the last other character. */
  lemma {:induction false} TrimEndShape(s: string)
    ensures var r := TrimEnd(s);
            && |r| <= |s| && r == s[..|r|]
            && (r != [] ==> !IsSpace(r[|r| - 1]))
            && (forall i :: |r| <= i < |s| ==> IsSpace(s[i]))
  {
    if |s| > 0 && IsSpace(s[|s| - 1]) {
      TrimEndShape(s[..|s| - 1]);
    }
  }

  /** `trim`: white space removed at both ends. */
  function Trim(s: string): (r: string)
  {
    TrimEnd(TrimStart(s))
  }

  /** What the server compares and stores: `s.toLowerCase().trim()`. */
  function Normalize(s: string): (r: string)
  {
    Trim(Lower(s))
  }

  /** A normalised word has no capital letter and no white space at either end. */
  lemma NormalizeShape(s: string)
    ensures var n := Normalize(s);
            && |n| <= |s|
            && (forall i :: 0 <= i < |n| ==> !IsUpper(n[i]))
            && (n != [] ==> !IsSpace(n[0]) && !IsSpace(n[|n| - 1]))
  {
    var l := Lower(s);
    var t := TrimStart(l);
    var r := TrimEnd(t);
    TrimStartShape(l);
    TrimEndShape(t);
    forall i | 0 <= i < |r| ensures !IsUpper(r[i]) {
      assert r[i] == t[i] == l[|l| - |t| + i];
    }
  }

  lemma LowerOfLower(s: string)
    requires forall i :: 0 <= i < |s| ==> !IsUpper(s[i])
    ensures Lower(s) == s
  {
  }

  lemma {:induction false} TrimStartTrimmed(s: string)
    requires s == [] || !IsSpace(s[0])
    ensures TrimStart(s) == s
  {
  }

  lemma {:induction false} TrimEndTrimmed(s: string)
    requires s == [] || !IsSpace(s[|s| - 1])
    ensures TrimEnd(s) == s
  {
  }

  /**
   * Normalising twice is normalising once; so a guess typed exactly as the
   * word-setter typed the word matches the stored word.
   */
  lemma NormalizeIdempotent(s: string)
    ensures Normalize(Normalize(s)) == Normalize(s)
  {
    var n := Normalize(s);
    NormalizeShape(s);
    LowerOfLower(n);
    TrimStartTrimmed(n);
    TrimEndTrimmed(n);
  }

  /** `x` and `y` differ at most in the case of the letters A to Z. */
  predicate SameUpToCase(x: string, y: string)
  {
    && |x| == |y|
    && forall i :: 0 <= i < |x| ==>
         || x[i] == y[i]
         || (IsUpper(x[i]) && y[i] as int == x[i] as int + 32)
         || (IsUpper(y[i]) && x[i] as int == y[i] as int + 32)
  }

  /**
   * The comparison of a guess with the stored word ignores case: strings
   * that differ only in the case of their letters normalise alike.
   */
  lemma NormalizeIgnoresCase(x: string, y: string)
    requires SameUpToCase(x, y)
    ensures Normalize(x) == Normalize(y)
  {
    assert Lower(x) == Lower(y);
  }
}
