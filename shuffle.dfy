/**
 * The Fisher-Yates shuffle (`shuffleArray`) and the word scrambler (`scrambleWord`).
 * `Math.random()` is not modelled: each draw `j` may be any index in range.
 */
module Shuffle {

  predicate IsPerm<T(==)>(r: seq<T>, s: seq<T>)
  {
    |r| == |s| && multiset(r) == multiset(s)
  }

  /**
   * `shuffleArray`: copies the input into a fresh array and swaps position `i`
   * with a drawn `j <= i`, from the last position down to the second one.
   * The input sequence is a value, so it is left as it was.
   */
  method ShuffleArray<T(==)>(a: seq<T>) returns (r: seq<T>)
    ensures IsPerm(r, a)
  {
    var arr := new T[|a|](k requires 0 <= k < |a| => a[k]);
    assert arr[..] == a;
    var i := |a| - 1;
    while i > 0
      invariant -1 <= i < |a|
      invariant arr.Length == |a|
      invariant multiset(arr[..]) == multiset(a)
    {
      var j :| 0 <= j <= i;
      arr[i], arr[j] := arr[j], arr[i];
      i := i - 1;
    }
    r := arr[..];
  }

  /** Every character of `w` is the same one (or `w` is empty). */
  predicate AllSame(w: string)
  {
    forall i :: 0 <= i < |w| ==> w[i] == w[0]
  }

  /** The first index at or after `k` whose character differs from `w[0]`. */
  function FirstOther(w: string, k: nat): (i: nat)
    requires 0 < k <= |w|
    requires exists m :: k <= m < |w| && w[m] != w[0]
    ensures k <= i < |w| && w[i] != w[0]
    decreases |w| - k
  {
    if w[k] != w[0] then k else FirstOther(w, k + 1)
  }

  /**
   * A rearrangement of `w` that differs from it: the first character swapped
   * with the first character unlike it.
   */
  function SwapFirstOther(w: string): (r: string)
    requires !AllSame(w)
    ensures IsPerm(r, w) && r != w
  {
    ghost var m :| 0 <= m < |w| && w[m] != w[0];
    assert m > 0;
    var i := FirstOther(w, 1);
    var r := w[0 := w[i]][i := w[0]];
    assert r[0] != w[0];
    r
  }

  /**
   * `scrambleWord`: a Fisher-Yates shuffle of the letters, drawn again while
   * the result equals the word. The first draw is any permutation the
   * shuffle gives; when it gives the word back, one fixed rearrangement
   * that differs from the word stands for the further draws.
   */
  method ScrambleWord(word: string) returns (s: string)
    requires !AllSame(word)
    ensures IsPerm(s, word) && s != word
  {
    s := ShuffleArray(word);
    if s == word {
      s := SwapFirstOther(word);
    }
  }
}
