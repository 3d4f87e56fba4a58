/** The Fisher–Yates shuffle both navigator copies use to build a shuffle queue. */
module Shuffle {

  /** Exchanging two positions keeps the length and the multiset of a list. */
  lemma SwapPermutes<T>(s: seq<T>, i: int, j: int)
    requires 0 <= i < |s| && 0 <= j < |s|
    ensures |s[i := s[j]][j := s[i]]| == |s|
    ensures multiset(s[i := s[j]][j := s[i]]) == multiset(s)
  {
    var t := s[i := s[j]];
    assert multiset(t) == multiset(s) - multiset{s[i]} + multiset{s[j]};
    assert multiset(t[j := s[i]]) == multiset(t) - multiset{t[j]} + multiset{s[i]};
  }

  /**
   * Shuffles a copy of `s`: from the last position down to 1, swap position
   * `i` with a position `j` in `[0, i]`. The source draws `j` from
   * `Math.random`; here any `j` in range may be picked, so the contract holds
   * for every outcome of the draw. The argument is a value, so the caller's
   * list is untouched, as with the copy `[...array]`.
   */
  method ShuffleArray<T>(s: seq<T>) returns (r: seq<T>)
    ensures |r| == |s|
    ensures multiset(r) == multiset(s)
  {
    var shuffled := new T[|s|](k requires 0 <= k < |s| => s[k]);
    assert shuffled[..] == s;
    var i := |s| - 1;
    while i > 0
      invariant i < |s|
      invariant multiset(shuffled[..]) == multiset(s)
    {
      var j :| 0 <= j <= i;
      ghost var before := shuffled[..];
      shuffled[i], shuffled[j] := shuffled[j], shuffled[i];
      assert shuffled[..] == before[i := before[j]][j := before[i]];
      SwapPermutes(before, i, j);
      i := i - 1;
    }
    r := shuffled[..];
  }
}
