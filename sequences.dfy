/** Facts about concatenation and prefixes used by the proofs. */
module Sequences {

  /** Cutting a concatenation back into its parts, when the tails have the same length. */
  lemma SplitAtEnd<T>(a: seq<T>, b: seq<T>, c: seq<T>, d: seq<T>)
    requires a + b == c + d && |b| == |d|
    ensures a == c && b == d
  {
    assert a == (a + b)[..|a|];
    assert c == (c + d)[..|c|];
  }

  /** Cutting a concatenation back into its parts, when the heads have the same length. */
  lemma SplitAtStart<T>(a: seq<T>, b: seq<T>, c: seq<T>, d: seq<T>)
    requires a + b == c + d && |a| == |c|
    ensures a == c && b == d
  {
    assert b == (a + b)[|a|..];
    assert d == (c + d)[|c|..];
  }

  lemma AppendAssoc<T>(a: seq<T>, b: seq<T>, c: seq<T>)
    ensures a + (b + c) == (a + b) + c
  {
  }

  /** A common head keeps a prefix a prefix. */
  lemma PrefixAppend<T>(a: seq<T>, x: seq<T>, y: seq<T>)
    requires x <= y
    ensures a + x <= a + y
  {
    assert (a + y)[..|a + x|] == a + x;
  }

  /** A prefix of the head is a prefix of the whole. */
  lemma PrefixOfAppend<T>(x: seq<T>, y: seq<T>, z: seq<T>)
    requires x <= y
    ensures x <= y + z
  {
    assert (y + z)[..|x|] == x;
  }
}
