/** Order-preserving sub-sequences, shared by the suggestion filter and the placeholder stripper. */
module Subsequence {

  /** `r` is `s` with some elements left out and the rest kept in their original order. */
  predicate IsSubsequence<T(==)>(r: seq<T>, s: seq<T>)
    decreases |s|
  {
    r == [] || (s != [] && (IsSubsequence(r, s[1..]) || (r[0] == s[0] && IsSubsequence(r[1..], s[1..]))))
  }

  lemma {:induction false} SubsequenceShorter<T>(r: seq<T>, s: seq<T>)
    requires IsSubsequence(r, s)
    ensures |r| <= |s|
    decreases |s|
  {
    if r != [] {
      if IsSubsequence(r, s[1..]) {
        SubsequenceShorter(r, s[1..]);
      } else {
        SubsequenceShorter(r[1..], s[1..]);
      }
    }
  }

  /** Anything is a sub-sequence of itself with one element more in front. */
  lemma {:induction false} SubsequenceCons<T>(x: T, r: seq<T>, s: seq<T>)
    requires IsSubsequence(r, s)
    ensures IsSubsequence([x] + r, [x] + s)
  {
    assert ([x] + r)[1..] == r;
    assert ([x] + s)[1..] == s;
  }

  /** Dropping a prefix of `s` keeps `r` a sub-sequence of it. */
  lemma {:induction false} SubsequenceDrop<T>(r: seq<T>, s: seq<T>, k: nat)
    requires k <= |s| && IsSubsequence(r, s[k..])
    ensures IsSubsequence(r, s)
    decreases k
  {
    if k > 0 {
      assert s[1..][k - 1..] == s[k..];
      SubsequenceDrop(r, s[1..], k - 1);
    }
  }
}
