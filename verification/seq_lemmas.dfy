/** Facts about sequences, proved once, in isolation. */
module SeqLemmas {
  lemma SplitLast<T>(s: seq<T>)
    requires |s| > 0
    ensures s == s[..|s| - 1] + [s[|s| - 1]]
  {
  }

  lemma TakeDrop<T>(s: seq<T>, n: nat)
    requires n <= |s|
    ensures s == s[..n] + s[n..]
  {
  }

  lemma ConcatAssoc<T>(a: seq<T>, b: seq<T>, c: seq<T>)
    ensures a + (b + c) == (a + b) + c
  {
  }

  /** Two ways of writing a sequence agree on its last `n` elements. */
  lemma SameSuffix<T>(a: seq<T>, b: seq<T>, c: seq<T>, d: seq<T>)
    requires a + b == c + d && |d| <= |b|
    ensures b[|b| - |d|..] == d
  {
    assert (a + b)[|a + b| - |d|..] == b[|b| - |d|..];
    assert (c + d)[|c + d| - |d|..] == d;
  }

  /** A prefix of `s` is a shorter prefix followed by a prefix of the rest. */
  lemma PrefixSplit<T>(s: seq<T>, i: nat, j: nat)
    requires i <= j <= |s|
    ensures s[..j] == s[..i] + s[i..][..j - i]
  {
  }
}
