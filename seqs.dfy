/** Small facts about sequences that the proofs use as single steps. */
module Seqs {

  /** Taking one more element of a sequence appends that element. */
  lemma TakeOneMore<T>(s: seq<T>, j: nat)
    requires j < |s|
    ensures s[..j + 1] == s[..j] + [s[j]]
  {
  }

  /** Appending an element leaves the earlier elements in front, and extends every suffix by it. */
  lemma Appended<T>(s: seq<T>, x: T, start: nat)
    requires start <= |s|
    ensures (s + [x])[..|s|] == s
    ensures (s + [x])[..start] == s[..start]
    ensures (s + [x])[start..] == s[start..] + [x]
  {
  }

  /** Concatenation regroups freely. */
  lemma AppendAssoc<T>(a: seq<T>, b: seq<T>, c: seq<T>)
    ensures a + (b + c) == (a + b) + c
  {
  }
}
