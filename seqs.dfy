/** Facts about sequences that the proofs use as single steps. */
module Seqs {

  lemma PrefixAppend<T>(a: seq<T>, b: seq<T>, c: seq<T>)
    requires b <= c
    ensures a + b <= a + c
  {
    assert (a + c)[..|a + b|] == a + b;
  }

  lemma PrefixExtend<T>(a: seq<T>, b: seq<T>, c: seq<T>)
    requires a <= b
    ensures a <= b + c
  {
    assert (b + c)[..|a|] == b[..|a|];
  }

  lemma SliceAround<T>(s: seq<T>, i: nat)
    requires i < |s|
    ensures s == s[..i] + [s[i]] + s[i + 1..]
  {
  }

  lemma Regroup<T>(p: seq<T>, t: seq<T>, b: seq<T>, x: T)
    ensures p + [x] + t + [x] + b == p + [x] + (t + [x] + b)
  {
  }

  lemma Regroup3<T>(a: seq<T>, b: seq<T>, c: seq<T>)
    ensures a + (b + c) == a + b + c
  {
  }

  /** Moving a step `t` from the remaining part of a log to the part already written. */
  lemma Advance<T>(log: seq<T>, rest: seq<T>, t: seq<T>, next: seq<T>, log': seq<T>, whole: seq<T>)
    requires log + rest == whole && rest == t + next && log' == log + t
    ensures log' + next == whole
  {
  }

  lemma SliceOfSlice<T>(s: seq<T>, i: nat, k: nat)
    requires i + k <= |s|
    ensures s[i..][..k] == s[i..i + k] && s[i..][k..] == s[i + k..]
  {
  }

  /** The log after two single writes. */
  lemma Chain2<T>(log: seq<T>, l1: seq<T>, l2: seq<T>, a: T, b: T)
    requires l1 == log + [a] && l2 == l1 + [b]
    ensures l2 == log + [a, b]
  {
  }

  /** The log after two single writes, a run of writes, and a tail. */
  lemma Chain4<T>(log: seq<T>, l1: seq<T>, l2: seq<T>, l3: seq<T>, l4: seq<T>, a: T, b: T, mid: seq<T>, tail: seq<T>)
    requires l1 == log + [a] && l2 == l1 + [b] && l3 == l2 + mid && l4 == l3 + tail
    ensures l4 == log + ([a, b] + mid + tail)
  {
  }
}
