/** Python's `sorted(xs, key=...)`: a stable ascending sort on a numeric key. */
module StableSort {
  datatype Keyed<T> = Keyed(key: real, value: T)

  function Insert<T>(xs: seq<Keyed<T>>, x: Keyed<T>): seq<Keyed<T>> {
    if xs == [] || xs[|xs| - 1].key <= x.key then xs + [x]
    else Insert(xs[..|xs| - 1], x) + [xs[|xs| - 1]]
  }

  function Sort<T>(xs: seq<Keyed<T>>): seq<Keyed<T>> {
    if xs == [] then [] else Insert(Sort(xs[..|xs| - 1]), xs[|xs| - 1])
  }

  ghost predicate Ascending<T>(xs: seq<Keyed<T>>) {
    forall i, j :: 0 <= i < j < |xs| ==> xs[i].key <= xs[j].key
  }

  /** The elements carrying one key, in order. */
  function WithKey<T>(xs: seq<Keyed<T>>, key: real): seq<Keyed<T>> {
    if xs == [] then []
    else WithKey(xs[..|xs| - 1], key) + (if xs[|xs| - 1].key == key then [xs[|xs| - 1]] else [])
  }

  lemma {:induction false} InsertKeepsAll<T>(xs: seq<Keyed<T>>, x: Keyed<T>)
    ensures multiset(Insert(xs, x)) == multiset(xs) + multiset{x}
  {
    if xs != [] && xs[|xs| - 1].key > x.key {
      InsertKeepsAll(xs[..|xs| - 1], x);
      assert xs == xs[..|xs| - 1] + [xs[|xs| - 1]];
    }
  }

  lemma {:induction false} InsertAscends<T>(xs: seq<Keyed<T>>, x: Keyed<T>)
    requires Ascending(xs)
    ensures Ascending(Insert(xs, x))
  {
    if xs != [] && xs[|xs| - 1].key > x.key {
      var head, last := xs[..|xs| - 1], xs[|xs| - 1];
      InsertAscends(head, x);
      var r := Insert(head, x);
      forall i | 0 <= i < |r| ensures r[i].key <= last.key {
        InsertKeepsAll(head, x);
        assert r[i] in multiset(r);
        assert r[i] in head || r[i] == x;
      }
    }
  }

  lemma {:induction false} InsertIsStable<T>(xs: seq<Keyed<T>>, x: Keyed<T>, key: real)
    ensures WithKey(Insert(xs, x), key) == WithKey(xs, key) + (if x.key == key then [x] else [])
  {
    if xs == [] || xs[|xs| - 1].key <= x.key {
      assert (xs + [x])[..|xs|] == xs;
    } else {
      var head, last := xs[..|xs| - 1], xs[|xs| - 1];
      InsertIsStable(head, x, key);
      assert (Insert(head, x) + [last])[..|Insert(head, x)|] == Insert(head, x);
    }
  }

  lemma {:induction false} SortKeepsAll<T>(xs: seq<Keyed<T>>)
    ensures multiset(Sort(xs)) == multiset(xs)
  {
    hide Insert;
    if xs != [] {
      SortKeepsAll(xs[..|xs| - 1]);
      InsertKeepsAll(Sort(xs[..|xs| - 1]), xs[|xs| - 1]);
      assert xs == xs[..|xs| - 1] + [xs[|xs| - 1]];
    }
  }

  lemma {:induction false} SortAscends<T>(xs: seq<Keyed<T>>)
    ensures Ascending(Sort(xs))
  {
    hide Insert;
    if xs != [] {
      SortAscends(xs[..|xs| - 1]);
      InsertAscends(Sort(xs[..|xs| - 1]), xs[|xs| - 1]);
    }
  }

  lemma {:induction false} SortIsStable<T>(xs: seq<Keyed<T>>, key: real)
    ensures WithKey(Sort(xs), key) == WithKey(xs, key)
  {
    hide Insert;
    if xs != [] {
      SortIsStable(xs[..|xs| - 1], key);
      InsertIsStable(Sort(xs[..|xs| - 1]), xs[|xs| - 1], key);
    }
  }

  /** `Sort` is the stable sort: ascending, the same elements with the same
      multiplicities, and elements with equal keys stay in their input order. */
  lemma SortSpec<T>(xs: seq<Keyed<T>>, key: real)
    ensures Ascending(Sort(xs))
    ensures multiset(Sort(xs)) == multiset(xs)
    ensures WithKey(Sort(xs), key) == WithKey(xs, key)
  {
    SortAscends(xs);
    SortKeepsAll(xs);
    SortIsStable(xs, key);
  }

  lemma SortOfPair<T>(f: Keyed<T>, s: Keyed<T>)
    requires f.key <= s.key
    ensures Sort([f, s]) == [f, s]
  {
    assert [f, s][..1] == [f] && [f][..0] == [];
    assert Sort([f]) == Insert(Sort([f][..0]), f) == [f];
    assert Sort([f, s]) == Insert(Sort([f, s][..1]), s);
  }
}
