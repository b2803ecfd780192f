/** Small facts about sequences, stated once for any element type, so that proofs about
    sequences of JSON values or records do not have to rediscover them. */
module Seqs {
  lemma Associative<T>(x: seq<T>, y: seq<T>, z: seq<T>)
    ensures x + (y + z) == (x + y) + z
  {
  }

  lemma Uncons<T>(x: seq<T>, y: seq<T>)
    requires x != []
    ensures x == [x[0]] + x[1..]
    ensures x + y == [x[0]] + (x[1..] + y)
  {
  }

  lemma ConsParts<T>(x: T, rest: seq<T>)
    ensures ([x] + rest)[0] == x && ([x] + rest)[1..] == rest
  {
  }

  lemma PrefixOfAppend<T>(x: seq<T>, y: seq<T>)
    ensures (x + y)[..|x|] == x
  {
  }

  lemma PrefixOfPrefix<T>(a: seq<T>, b: seq<T>, c: seq<T>)
    requires |a| <= |b| <= |c| && b[..|a|] == a && c[..|b|] == b
    ensures c[..|a|] == a
  {
    assert c[..|a|] == c[..|b|][..|a|];
  }

  lemma Cons2<T>(a: T, b: T, rest: seq<T>)
    ensures [a] + ([b] + rest) == [a, b] + rest
  {
  }

  lemma Cons4<T>(a: T, b: T, c: T, d: T, rest: seq<T>)
    ensures [a] + ([b] + ([c] + ([d] + rest))) == [a, b, c, d] + rest
  {
  }

  lemma SliceIndex<T>(s: seq<T>, a: nat, b: nat, k: nat)
    requires a + k < b <= |s|
    ensures s[a..b][k] == s[a + k]
  {
  }
}
