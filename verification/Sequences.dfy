/** Facts about sequences in general: how they split and join. */
module Sequences {
  lemma Assoc<T>(a: seq<T>, b: seq<T>, c: seq<T>)
    ensures (a + b) + c == a + (b + c)
  {
  }

  lemma Uncons<T>(s: seq<T>)
    requires |s| > 0
    ensures s == [s[0]] + s[1..]
  {
  }

  lemma Unsnoc<T>(s: seq<T>)
    requires |s| > 0
    ensures s == s[..|s| - 1] + [s[|s| - 1]]
  {
  }

  lemma Right<T>(s: seq<T>)
    ensures s + [] == s
  {
  }

  lemma TakeCons<T>(x: T, s: seq<T>, k: nat)
    requires k <= |s|
    ensures ([x] + s)[..k + 1] == [x] + s[..k] && ([x] + s)[k + 1..] == s[k..]
  {
  }

  lemma TakeNone<T>(s: seq<T>)
    ensures s[..0] == [] && s[0..] == s
  {
  }

  lemma Rejoin<T>(s: seq<T>, n: nat)
    requires n <= |s|
    ensures s[..n] + s[n..] == s
  {
  }

  lemma TakeAll<T>(s: seq<T>)
    ensures s[..|s|] == s
  {
  }

  lemma PrefixTrans<T>(a: seq<T>, b: seq<T>, c: seq<T>)
    requires a <= b <= c
    ensures a <= c
  {
  }
}
