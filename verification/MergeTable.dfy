/** Insertion-ordered accumulation of patches by key, as the event mapper does it with a `Map`. */
module MergeTable {
  import opened Basics

  /** The keys in the order of their first patch, and what each has accumulated. */
  datatype Table<V> = Table(keys: seq<string>, at: map<string, V>)

  datatype Patch<V> = Patch(id: string, content: V)

  function Empty<V>(): Table<V> {
    Table([], map[])
  }

  function Put<V>(t: Table<V>, p: Patch<V>, merge: (V, V) -> V): Table<V> {
    if p.id in t.at then t.(at := t.at[p.id := merge(t.at[p.id], p.content)])
    else Table(t.keys + [p.id], t.at[p.id := p.content])
  }

  function Fold<V>(patches: seq<Patch<V>>, merge: (V, V) -> V): Table<V> {
    if patches == [] then Empty()
    else Put(Fold(patches[..|patches| - 1], merge), patches[|patches| - 1], merge)
  }

  /** Each key is listed once. */
  ghost predicate WellFormed<V>(t: Table<V>) {
    Distinct(t.keys) && t.at.Keys == set k | k in t.keys
  }

  lemma {:induction false} FoldIsWellFormed<V>(patches: seq<Patch<V>>, merge: (V, V) -> V)
    ensures WellFormed(Fold(patches, merge))
  {
    if patches != [] {
      FoldIsWellFormed(patches[..|patches| - 1], merge);
    }
  }

  ghost predicate Associative<V(!new)>(merge: (V, V) -> V) {
    forall x, y, z :: merge(merge(x, y), z) == merge(x, merge(y, z))
  }

  /** What two tables together hold for a key. */
  function Joined<V>(a: Table<V>, b: Table<V>, id: string, merge: (V, V) -> V): V
    requires id in a.at || id in b.at
  {
    if id !in b.at then a.at[id] else if id !in a.at then b.at[id] else merge(a.at[id], b.at[id])
  }

  ghost predicate IsJoin<V>(w: Table<V>, a: Table<V>, b: Table<V>, merge: (V, V) -> V) {
    && w.at.Keys == a.at.Keys + b.at.Keys
    && forall id | id in w.at :: w.at[id] == Joined(a, b, id, merge)
  }

  lemma {:induction false} PutJoins<V(!new)>(w: Table<V>, a: Table<V>, b: Table<V>, p: Patch<V>, merge: (V, V) -> V)
    requires Associative(merge) && IsJoin(w, a, b, merge)
    ensures IsJoin(Put(w, p, merge), a, Put(b, p, merge), merge)
  {
    var w', b' := Put(w, p, merge), Put(b, p, merge);
    forall id | id in w'.at ensures w'.at[id] == Joined(a, b', id, merge) {
      if id in w.at {
        assert w.at[id] == Joined(a, b, id, merge);
      }
      if id == p.id && id in a.at && id in b.at {
        assert merge(merge(a.at[id], b.at[id]), p.content) == merge(a.at[id], merge(b.at[id], p.content));
      }
    }
  }

  lemma {:induction false} EmptyJoins<V>(a: Table<V>, merge: (V, V) -> V)
    ensures IsJoin(a, a, Empty(), merge)
  {
  }

  /** Accumulating a list cut in two joins what the two parts accumulate. */
  lemma {:induction false} FoldConcat<V(!new)>(a: seq<Patch<V>>, b: seq<Patch<V>>, merge: (V, V) -> V)
    requires Associative(merge)
    ensures IsJoin(Fold(a + b, merge), Fold(a, merge), Fold(b, merge), merge)
    decreases |b|
  {
    hide Associative, IsJoin, Put;
    if b == [] {
      assert a + b == a;
      EmptyJoins(Fold(a, merge), merge);
    } else {
      var n := |b| - 1;
      FoldConcat(a, b[..n], merge);
      assert (a + b)[..|a + b| - 1] == a + b[..n];
      PutJoins(Fold(a + b[..n], merge), Fold(a, merge), Fold(b[..n], merge), b[n], merge);
    }
  }

  /** The patches of each event in turn. */
  function FlatMap<A, B>(f: A -> seq<B>, s: seq<A>): seq<B> {
    if s == [] then [] else f(s[0]) + FlatMap(f, s[1..])
  }

  lemma {:induction false} FlatMapConcat<A, B>(f: A -> seq<B>, a: seq<A>, b: seq<A>)
    ensures FlatMap(f, a + b) == FlatMap(f, a) + FlatMap(f, b)
  {
    if a == [] {
      assert a + b == b;
    } else {
      assert (a + b)[0] == a[0] && (a + b)[1..] == a[1..] + b;
      FlatMapConcat(f, a[1..], b);
      assert f(a[0]) + (FlatMap(f, a[1..]) + FlatMap(f, b)) == (f(a[0]) + FlatMap(f, a[1..])) + FlatMap(f, b);
    }
  }

  lemma {:induction false} FlatMapSnoc<A, B>(f: A -> seq<B>, s: seq<A>, x: A)
    ensures FlatMap(f, s + [x]) == FlatMap(f, s) + f(x)
  {
    FlatMapConcat(f, s, [x]);
    assert FlatMap(f, [x]) == f(x) + FlatMap(f, []) == f(x);
  }
}
