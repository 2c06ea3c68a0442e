/** Facts about cutting sequences that the loops over a stand or a file use at every step. */
module Seqs {

  /** A non-empty sequence is its front followed by its last element. */
  lemma Snoc<T>(s: seq<T>)
    requires s != []
    ensures s == s[..|s| - 1] + [s[|s| - 1]]
  {
  }

  /** One more element of a prefix is the shorter prefix followed by that element. */
  lemma TakeSnoc<T>(s: seq<T>, i: nat)
    requires i < |s|
    ensures s[..i + 1] == s[..i] + [s[i]]
    ensures s[..i + 1][..i] == s[..i]
  {
  }

  /** The prefix of full length is the whole sequence. */
  lemma TakeAll<T>(s: seq<T>)
    ensures s[..|s|] == s
  {
  }

  /** Cutting `s + t` at the length of `s` gives `s` back. */
  lemma AppendTake<T>(s: seq<T>, t: seq<T>)
    ensures (s + t)[..|s|] == s
  {
  }
}
