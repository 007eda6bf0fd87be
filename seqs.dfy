/** Small facts about sequence prefixes used by the loops of the model. */
module Seqs {

  /** Extending a prefix by one element. */
  lemma {:induction false} PrefixStep<T>(s: seq<T>, i: nat)
    requires i < |s|
    ensures s[..i + 1] == s[..i] + [s[i]]
  {
  }

  /** Putting an element back in front of an insertion into the tail. */
  lemma {:induction false} InsertAfterHead<T>(s: seq<T>, y: T, k: nat)
    requires k < |s|
    ensures [s[0]] + (s[1..][..k] + [y] + s[1..][k..]) == s[..k + 1] + [y] + s[k + 1..]
  {
    assert s[..k + 1] == [s[0]] + s[1..][..k];
    assert s[k + 1..] == s[1..][k..];
  }

  /** An element missing from a slice is at none of its indices. */
  lemma {:induction false} NotInSlice<T>(s: seq<T>, c: T, a: nat, b: nat)
    requires a <= b <= |s| && c !in s[a..b]
    ensures forall m :: a <= m < b ==> s[m] != c
  {
    forall m | a <= m < b
      ensures s[m] != c
    {
      assert s[a..b][m - a] == s[m];
    }
  }
}
