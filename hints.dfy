/**
 * `getWordHint`: the hint shown with a scrambled word. The table of hints is
 * a parameter: project/server/index.js holds it as a literal inside the
 * function, keyed by lower-case words.
 */
module Hints {
  import opened Text

  function Digit(d: nat): (c: char)
    requires d < 10
    ensures '0' <= c <= '9' && c as int - '0' as int == d
  {
    ('0' as int + d) as char
  }

  predicate AllDigits(r: string)
  {
    forall i :: 0 <= i < |r| ==> '0' <= r[i] <= '9'
  }

  /** The decimal digits of `n`, as a template literal writes a length. */
  function Decimal(n: nat): (r: string)
    ensures |r| > 0 && AllDigits(r)
    decreases n
  {
    if n < 10 then [Digit(n)] else Decimal(n / 10) + [Digit(n % 10)]
  }

  /** The number a string of decimal digits denotes. */
  function ValueOf(r: string): nat
    requires AllDigits(r)
  {
    if |r| == 0 then 0 else ValueOf(r[..|r| - 1]) * 10 + (r[|r| - 1] as int - '0' as int)
  }

  /** Reading the digits back gives the number written. */
  lemma {:induction false} DecimalRoundTrip(n: nat)
    ensures ValueOf(Decimal(n)) == n
    decreases n
  {
    if n >= 10 {
      var r := Decimal(n);
      assert r[..|r| - 1] == Decimal(n / 10);
      DecimalRoundTrip(n / 10);
    }
  }

  /** The hint given for a word the table does not know. */
  function Fallback(word: string): string
  {
    "A word with " + Decimal(|word|) + " letters"
  }

  /**
   * The table's entry for the word in lower case; the fallback when there is
   * none or when the entry is the empty string (which `||` treats as absent).
   */
  function WordHint(word: string, table: map<string, string>): (h: string)
    ensures h != []
    ensures h == Fallback(word) || (Lower(word) in table && h == table[Lower(word)])
  {
    var key := Lower(word);
    if key in table && table[key] != [] then table[key] else Fallback(word)
  }

  /** A known word gets its entry, an unknown one the fallback. */
  lemma WordHintCases(word: string, table: map<string, string>)
    ensures Lower(word) in table && table[Lower(word)] != [] ==> WordHint(word, table) == table[Lower(word)]
    ensures Lower(word) !in table ==> WordHint(word, table) == Fallback(word)
  {
  }

  /** The fallback names the word's length, and the number can be read back from it. */
  lemma FallbackStatesLength(word: string)
    ensures var h := Fallback(word);
            && |h| > 20 && h[..12] == "A word with " && h[|h| - 8..] == " letters"
            && AllDigits(h[12..|h| - 8]) && ValueOf(h[12..|h| - 8]) == |word|
  {
    var h := Fallback(word);
    assert h[12..|h| - 8] == Decimal(|word|);
    DecimalRoundTrip(|word|);
  }

  /** The lookup ignores case: a word and its lower-case form get the same hint. */
  lemma WordHintIgnoresCase(word: string, table: map<string, string>)
    ensures WordHint(Lower(word), table) == WordHint(word, table)
  {
    var l := Lower(word);
    assert forall i :: 0 <= i < |l| ==> !IsUpper(l[i]);
    LowerOfLower(l);
  }
}
