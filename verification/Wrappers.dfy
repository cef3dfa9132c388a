/** The optional value the program returns where an operation may have nothing to give. */
module Wrappers {
  datatype Option<+T> = None | Some(value: T)

  /** Any element: hash-map iteration order is arbitrary. */
  method AnyOf<T>(s: set<T>) returns (x: T)
    requires s != {}
    ensures x in s
  {
    x :| x in s;
  }

  /** Every entry of `some` is an entry of `all`. */
  ghost predicate Among<K, V>(some: map<K, V>, all: map<K, V>) {
    forall k :: k in some ==> k in all && some[k] == all[k]
  }

  lemma FewerValues<K, V>(some: map<K, V>, all: map<K, V>)
    requires Among(some, all)
    ensures some.Values <= all.Values
  {
    forall v | v in some.Values
      ensures v in all.Values
    {
      var k :| k in some && some[k] == v;
      assert all[k] == v;
    }
  }

  lemma AmongShrinks<K, V>(some: map<K, V>, all: map<K, V>, k: K)
    requires Among(some, all)
    ensures Among(some - {k}, all)
  {
  }

  /** Moving one element from what is left to what is done. */
  lemma OneMoreDone<K>(all: set<K>, todo: set<K>, done: set<K>, k: K)
    requires done == all - todo && k in todo && todo <= all
    ensures done + {k} == all - (todo - {k}) && todo - {k} <= all
    ensures k !in done
  {
  }

  lemma OneMoreKey<K, V>(m: map<K, V>, k: K, v: V)
    ensures m[k := v].Keys == m.Keys + {k}
  {
  }

  lemma Overwritten<K, V>(m: map<K, V>, k: K, v: V, w: V)
    ensures m[k := v][k := w] == m[k := w]
  {
  }
}
