/** Python's `dict` keyed by strings: a map plus the order in which keys were first
    inserted. Assigning an existing key replaces its value and keeps its position. */
module Dicts {
  import opened Outcomes
  import opened PyText

  datatype Dict<V> = Dict(order: seq<string>, items: map<string, V>) {
    /** Every key appears exactly once in the insertion order. */
    predicate Valid() {
      Distinct(order) && Elements(order) == items.Keys
    }

    /** `d[k] = v`. */
    function Put(k: string, v: V): (d: Dict<V>)
      ensures d.items == items[k := v]
      ensures d.order == if k in items then order else order + [k]
      ensures Valid() ==> d.Valid()
    {
      if k in items then Dict(order, items[k := v]) else Dict(order + [k], items[k := v])
    }

    /** `list(d.values())`. */
    function Values(): (vs: seq<V>)
      requires Valid()
      ensures |vs| == |order|
      ensures forall i :: 0 <= i < |order| ==> vs[i] == items[order[i]]
    {
      seq(|order|, i requires 0 <= i < |order| => assert order[i] in Elements(order); items[order[i]])
    }
  }

  /** `{}`. */
  function Empty<V>(): (d: Dict<V>)
    ensures d.Valid() && d.items == map[]
  {
    Dict([], map[])
  }

  /** Assigning each pair of `pairs` in turn: `for k, v in pairs: d[k] = v`. */
  function PutAll<V>(d: Dict<V>, pairs: seq<(string, V)>): Dict<V> {
    if pairs == [] then d
    else
      var last := pairs[|pairs| - 1];
      PutAll(d, pairs[..|pairs| - 1]).Put(last.0, last.1)
  }

  /** The value of the last pair whose key is `k`. */
  function LastValue<V>(pairs: seq<(string, V)>, k: string): (r: Option<V>)
    ensures r.None? <==> forall i :: 0 <= i < |pairs| ==> pairs[i].0 != k
    ensures r.Some? ==> exists i :: 0 <= i < |pairs| && pairs[i] == (k, r.value)
  {
    if pairs == [] then None
    else if pairs[|pairs| - 1].0 == k then Some(pairs[|pairs| - 1].1)
    else LastValue(pairs[..|pairs| - 1], k)
  }

  /** After a run of assignments, a key maps to the value of its last assignment, and
      keys never assigned keep their old value; the order stays duplicate-free. */
  lemma {:induction false} PutAllContents<V>(d: Dict<V>, pairs: seq<(string, V)>)
    requires d.Valid()
    ensures PutAll(d, pairs).Valid()
    ensures forall k :: k in PutAll(d, pairs).items <==> k in d.items || LastValue(pairs, k).Some?
    ensures forall k :: LastValue(pairs, k).Some? ==> PutAll(d, pairs).items[k] == LastValue(pairs, k).value
    ensures forall k :: k in d.items && LastValue(pairs, k).None? ==> PutAll(d, pairs).items[k] == d.items[k]
  {
    if pairs != [] {
      PutAllContents(d, pairs[..|pairs| - 1]);
    }
  }

  /** Earlier keys keep their place: the old order is a prefix of the new one. */
  lemma {:induction false} PutAllOrder<V>(d: Dict<V>, pairs: seq<(string, V)>)
    ensures |d.order| <= |PutAll(d, pairs).order|
    ensures PutAll(d, pairs).order[..|d.order|] == d.order
  {
    if pairs != [] {
      PutAllOrder(d, pairs[..|pairs| - 1]);
    }
  }

  /** One more assignment after a run of them. */
  lemma PutAllSnoc<V>(d: Dict<V>, pairs: seq<(string, V)>, k: string, v: V)
    ensures PutAll(d, pairs + [(k, v)]) == PutAll(d, pairs).Put(k, v)
  {
    assert (pairs + [(k, v)])[..|pairs|] == pairs;
  }

  /** Two runs of assignments one after the other are one run. */
  lemma {:induction false} PutAllConcat<V>(d: Dict<V>, a: seq<(string, V)>, b: seq<(string, V)>)
    ensures PutAll(d, a + b) == PutAll(PutAll(d, a), b)
    decreases |b|
  {
    if b == [] {
      assert a + b == a;
    } else {
      var init, last := b[..|b| - 1], b[|b| - 1];
      assert a + b == (a + init) + [last];
      assert b == init + [last];
      PutAllSnoc(d, a + init, last.0, last.1);
      PutAllConcat(d, a, init);
      PutAllSnoc(PutAll(d, a), init, last.0, last.1);
    }
  }

  /** Some pair of `pairs` has the key `k`. */
  predicate HasKey<V>(pairs: seq<(string, V)>, k: string) {
    exists i :: 0 <= i < |pairs| && pairs[i].0 == k
  }

  lemma HasKeyConcat<V>(a: seq<(string, V)>, b: seq<(string, V)>, k: string)
    ensures HasKey(a + b, k) <==> HasKey(a, k) || HasKey(b, k)
  {
    var ab := a + b;
    if HasKey(ab, k) {
      var i :| 0 <= i < |ab| && ab[i].0 == k;
      if i < |a| { assert a[i] == ab[i]; } else { assert b[i - |a|] == ab[i]; }
    }
    if HasKey(a, k) {
      var i :| 0 <= i < |a| && a[i].0 == k;
      assert ab[i] == a[i];
    }
    if HasKey(b, k) {
      var i :| 0 <= i < |b| && b[i].0 == k;
      assert ab[|a| + i] == b[i];
    }
  }

  /** A table filled from empty holds exactly the keys assigned, each with the value of
      its last assignment. */
  lemma FilledKeys<V>(pairs: seq<(string, V)>, k: string)
    ensures PutAll(Empty(), pairs).Valid()
    ensures k in PutAll(Empty(), pairs).items <==> HasKey(pairs, k)
    ensures HasKey(pairs, k) ==> PutAll(Empty(), pairs).items[k] == LastValue(pairs, k).value
  {
    PutAllContents(Empty<V>(), pairs);
  }

  /** `for x in xs: d[key(x)] = x`, as the run of assignments it makes. */
  function Keyed<T>(xs: seq<T>, key: T -> string): (pairs: seq<(string, T)>)
    ensures |pairs| == |xs|
    ensures forall i :: 0 <= i < |xs| ==> pairs[i] == (key(xs[i]), xs[i])
  {
    seq(|xs|, i requires 0 <= i < |xs| => (key(xs[i]), xs[i]))
  }

  lemma KeyedSnoc<T>(xs: seq<T>, key: T -> string, i: nat)
    requires i < |xs|
    ensures Keyed(xs[..i + 1], key) == Keyed(xs[..i], key) + [(key(xs[i]), xs[i])]
  {
  }

  /** `for x in xs: if key(x) in keep: d[key(x)] = x`. */
  function KeyedIf<T>(xs: seq<T>, key: T -> string, keep: set<string>): seq<(string, T)> {
    if xs == [] then []
    else
      var x := xs[|xs| - 1];
      KeyedIf(xs[..|xs| - 1], key, keep) + (if key(x) in keep then [(key(x), x)] else [])
  }

  lemma KeyedIfSnoc<T>(xs: seq<T>, key: T -> string, keep: set<string>, i: nat)
    requires i < |xs|
    ensures KeyedIf(xs[..i + 1], key, keep) ==
      KeyedIf(xs[..i], key, keep) + (if key(xs[i]) in keep then [(key(xs[i]), xs[i])] else [])
  {
    assert xs[..i + 1][..i] == xs[..i];
  }

  /** `for x in xs: d[key(x)] = x`. */
  method PutEach<T>(d: Dict<T>, xs: seq<T>, key: T -> string) returns (r: Dict<T>)
    ensures r == PutAll(d, Keyed(xs, key))
    ensures d.Valid() ==> r.Valid()
  {
    r := d;
    var i := 0;
    while i < |xs|
      invariant 0 <= i <= |xs|
      invariant r == PutAll(d, Keyed(xs[..i], key))
      invariant d.Valid() ==> r.Valid()
    {
      KeyedSnoc(xs, key, i);
      PutAllSnoc(d, Keyed(xs[..i], key), key(xs[i]), xs[i]);
      r := r.Put(key(xs[i]), xs[i]);
      i := i + 1;
    }
    assert xs[..i] == xs;
  }

  /** `for x in xs: if key(x) in keep: d[key(x)] = x`. */
  method PutKept<T>(d: Dict<T>, xs: seq<T>, key: T -> string, keep: set<string>) returns (r: Dict<T>)
    ensures r == PutAll(d, KeyedIf(xs, key, keep))
    ensures d.Valid() ==> r.Valid()
  {
    r := d;
    var i := 0;
    while i < |xs|
      invariant 0 <= i <= |xs|
      invariant r == PutAll(d, KeyedIf(xs[..i], key, keep))
      invariant d.Valid() ==> r.Valid()
    {
      KeyedIfSnoc(xs, key, keep, i);
      if key(xs[i]) in keep {
        PutAllSnoc(d, KeyedIf(xs[..i], key, keep), key(xs[i]), xs[i]);
        r := r.Put(key(xs[i]), xs[i]);
      } else {
        assert KeyedIf(xs[..i + 1], key, keep) == KeyedIf(xs[..i], key, keep);
      }
      i := i + 1;
    }
    assert xs[..i] == xs;
  }

  /** The filtered run assigns exactly the kept keys that some element has. */
  lemma {:induction false} KeyedIfKeys<T>(xs: seq<T>, key: T -> string, keep: set<string>, k: string)
    ensures HasKey(KeyedIf(xs, key, keep), k) <==> k in keep && exists i :: 0 <= i < |xs| && key(xs[i]) == k
  {
    if xs != [] {
      var init, x := xs[..|xs| - 1], xs[|xs| - 1];
      var tail := if key(x) in keep then [(key(x), x)] else [];
      KeyedIfKeys(init, key, keep, k);
      HasKeyConcat(KeyedIf(init, key, keep), tail, k);
      assert HasKey(tail, k) <==> key(x) in keep && key(x) == k by {
        if key(x) in keep { assert tail[0] == (key(x), x); }
      }
      if exists i :: 0 <= i < |xs| && key(xs[i]) == k {
        var i :| 0 <= i < |xs| && key(xs[i]) == k;
        if i < |init| { assert init[i] == xs[i]; }
      }
      if exists i :: 0 <= i < |init| && key(init[i]) == k {
        var i :| 0 <= i < |init| && key(init[i]) == k;
        assert xs[i] == init[i];
      }
    }
  }
}
