/** Sequence identities, stated once so that proofs can cite them instead
    of re-deriving them by extensionality in a larger context. */
module Seqs {

  lemma SnocSplit<T>(a: seq<T>, b: seq<T>)
    requires b != []
    ensures a + b == (a + b[..|b| - 1]) + [b[|b| - 1]]
    ensures b == b[..|b| - 1] + [b[|b| - 1]]
  {
  }

  lemma AppendAssoc<T>(x: seq<T>, y: seq<T>, z: seq<T>)
    ensures (x + y) + z == x + (y + z)
  {
  }

  lemma AppendEmpty<T>(x: seq<T>)
    ensures x + [] == x && [] + x == x
  {
  }

  lemma PrefixSplit<T>(s: seq<T>, i: nat, e: nat)
    requires i <= e <= |s|
    ensures s[..i] + s[i..e] == s[..e]
  {
  }

  lemma PrefixSnoc<T>(s: seq<T>, i: nat)
    requires i < |s|
    ensures s[..i + 1] == s[..i] + [s[i]]
    ensures s[..i + 1][..i] == s[..i]
  {
  }

  lemma ConsSplit<T>(a: seq<T>, m: seq<T>, b: seq<T>)
    requires a != []
    ensures a + m + b == [a[0]] + (a[1..] + m + b)
    ensures a == [a[0]] + a[1..]
  {
  }

  lemma DropSplit<T>(a: seq<T>, k: nat, m: seq<T>, b: seq<T>)
    requires k <= |a|
    ensures a + m + b == a + (m + b)
    ensures (a + m + b)[k..] == a[k..] + m + b
    ensures a[|a|..] == []
  {
  }
}
