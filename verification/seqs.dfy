/** Small facts about sequences that the relay proofs share. */
module Seqs {
  lemma AppendEmpty<T>(x: seq<T>)
    ensures x + [] == x
  {
  }

  lemma AppendAssoc<T>(x: seq<T>, y: seq<T>, z: seq<T>)
    ensures x + (y + z) == (x + y) + z
  {
  }

  lemma PrefixOfAppend<T>(a: seq<T>, b: seq<T>)
    ensures a <= a + b
  {
    assert (a + b)[..|a|] == a;
  }

  lemma PrefixTrans<T>(a: seq<T>, b: seq<T>, c: seq<T>)
    requires a <= b && b <= c
    ensures a <= c
  {
  }

  lemma PrefixExtend<T>(p: seq<T>, a: seq<T>, b: seq<T>)
    requires a <= b
    ensures p + a <= p + b
  {
    assert (p + b)[..|p + a|] == p + a by {
      assert b[..|a|] == a;
    }
  }

  lemma NotInPrefix<T>(a: seq<T>, b: seq<T>, x: T)
    requires a <= b && x !in b
    ensures x !in a
  {
  }

  lemma NotInTail<T>(s: seq<T>, x: T)
    requires s != [] && s[0] != x && x !in s[1..]
    ensures x !in s
  {
    assert s == [s[0]] + s[1..];
  }
}
