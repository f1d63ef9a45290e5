/**
 * JavaScript's `Map`: a finite map that remembers the order in which its keys were first
 * set. Overwriting a key changes its value and keeps its position; iteration (`values()`,
 * `for..of`) follows that order.
 */
module OrderedMaps {
  import opened Wrappers
  import opened Seqs

  /** The keys in insertion order, and what each one maps to. */
  datatype OMap<K(==,!new), V> = OMap(keys: seq<K>, vals: map<K, V>) {

    /** Each key listed once, and exactly the keys of `vals` listed. */
    ghost predicate Valid() {
      && (forall i, j :: 0 <= i < j < |keys| ==> keys[i] != keys[j])
      && (forall k :: k in vals <==> k in keys)
    }

    /** `map.has(k)`. */
    predicate Has(k: K) {
      k in vals
    }

    /** `map.get(k)`, with `undefined` as `None`. */
    function Get(k: K): Option<V> {
      if k in vals then Some(vals[k]) else None
    }

    /** `map.set(k, v)`. */
    function Put(k: K, v: V): OMap<K, V> {
      OMap(if k in vals then keys else keys + [k], vals[k := v])
    }

    /** `Array.from(map.values())`. */
    function Values(): (r: seq<V>)
      requires forall i :: 0 <= i < |keys| ==> keys[i] in vals
      ensures |r| == |keys| && forall i :: 0 <= i < |keys| ==> r[i] == vals[keys[i]]
    {
      seq(|keys|, i requires 0 <= i < |keys| => vals[keys[i]])
    }
  }

  /** `new Map()`. */
  function Empty<K(==,!new), V>(): (m: OMap<K, V>)
    ensures m.Valid() && m.keys == []
  {
    OMap([], map[])
  }

  /** The map after the writes `ws`, in order. */
  function PutAll<K(==,!new), V>(m: OMap<K, V>, ws: seq<(K, V)>): OMap<K, V>
    decreases |ws|
  {
    if ws == [] then m else PutAll(m.Put(ws[0].0, ws[0].1), ws[1..])
  }

  /** The value of the last write to `k` in `ws`, if any. */
  function LastWrite<K(==,!new), V>(ws: seq<(K, V)>, k: K): Option<V> {
    if ws == [] then None
    else if ws[|ws| - 1].0 == k then Some(ws[|ws| - 1].1)
    else LastWrite(ws[..|ws| - 1], k)
  }

  /** The keys written by `ws`, in order, repeats included. */
  function WrittenKeys<K(==,!new), V>(ws: seq<(K, V)>): (r: seq<K>)
    ensures |r| == |ws| && forall i :: 0 <= i < |ws| ==> r[i] == ws[i].0
  {
    seq(|ws|, i requires 0 <= i < |ws| => ws[i].0)
  }

  /** `set` keeps a map well formed. */
  lemma PutKeepsValid<K(!new), V>(m: OMap<K, V>, k: K, v: V)
    requires m.Valid()
    ensures m.Put(k, v).Valid()
  {
  }

  /**
   * Setting a new key appends its value to the iteration order; overwriting a key
   * replaces its value in place.
   */
  lemma PutValues<K(!new), V>(m: OMap<K, V>, k: K, v: V)
    requires m.Valid()
    ensures !m.Has(k) ==> m.Put(k, v).Values() == m.Values() + [v]
    ensures m.Has(k) ==> |m.Put(k, v).Values()| == |m.Values()|
    ensures m.Has(k) ==> forall i :: 0 <= i < |m.keys| ==>
      m.Put(k, v).Values()[i] == if m.keys[i] == k then v else m.Values()[i]
  {
  }

  lemma {:induction false} PutAllKeepsValid<K(!new), V>(m: OMap<K, V>, ws: seq<(K, V)>)
    requires m.Valid()
    ensures PutAll(m, ws).Valid()
    decreases |ws|
  {
    if ws != [] {
      PutKeepsValid(m, ws[0].0, ws[0].1);
      PutAllKeepsValid(m.Put(ws[0].0, ws[0].1), ws[1..]);
    }
  }

  /** One more write at the end of a batch is one more `set` after it. */
  lemma {:induction false} PutAllSnoc<K(!new), V>(m: OMap<K, V>, ws: seq<(K, V)>, w: (K, V))
    ensures PutAll(m, ws + [w]) == PutAll(m, ws).Put(w.0, w.1)
    decreases |ws|
  {
    if ws == [] {
      assert [w][1..] == [];
    } else {
      assert (ws + [w])[1..] == ws[1..] + [w];
      PutAllSnoc(m.Put(ws[0].0, ws[0].1), ws[1..], w);
    }
  }

  /** Two batches of writes in a row are one batch of both. */
  lemma {:induction false} PutAllAppend<K(!new), V>(m: OMap<K, V>, a: seq<(K, V)>, b: seq<(K, V)>)
    ensures PutAll(m, a + b) == PutAll(PutAll(m, a), b)
    decreases |a|
  {
    if a == [] {
      assert a + b == b;
    } else {
      assert (a + b)[0] == a[0] && (a + b)[1..] == a[1..] + b;
      PutAllAppend(m.Put(a[0].0, a[0].1), a[1..], b);
    }
  }

  /** The last write to a key is one of the writes. */
  lemma {:induction false} LastWriteIsWritten<K(!new), V>(ws: seq<(K, V)>, k: K)
    ensures LastWrite(ws, k).Some? ==> (k, LastWrite(ws, k).value) in ws
    decreases |ws|
  {
    if ws != [] && ws[|ws| - 1].0 != k {
      LastWriteIsWritten(ws[..|ws| - 1], k);
    }
  }

  /** After a batch of writes, each key holds its last written value, or its old one if unwritten. */
  lemma {:induction false} LastWriteWins<K(!new), V>(m: OMap<K, V>, ws: seq<(K, V)>, k: K)
    ensures PutAll(m, ws).Get(k) == if LastWrite(ws, k).Some? then LastWrite(ws, k) else m.Get(k)
    decreases |ws|
  {
    if ws != [] {
      var init, w := ws[..|ws| - 1], ws[|ws| - 1];
      assert ws == init + [w];
      PutAllSnoc(m, init, w);
      LastWriteWins(m, init, k);
    }
  }

  /** A write sequence that writes `k` has a last write to `k`. */
  lemma {:induction false} WrittenKeyHasLastWrite<K(!new), V>(ws: seq<(K, V)>, k: K)
    ensures LastWrite(ws, k).Some? <==> k in WrittenKeys(ws)
    decreases |ws|
  {
    if ws != [] {
      var init := ws[..|ws| - 1];
      WrittenKeyHasLastWrite(init, k);
      assert WrittenKeys(ws) == WrittenKeys(init) + [ws[|ws| - 1].0];
    }
  }

  /**
   * The key order after a batch of writes is the old order followed by the newly written
   * keys in the order of their first writes: first-insertion order.
   */
  lemma {:induction false} PutAllKeyOrder<K(!new), V>(m: OMap<K, V>, ws: seq<(K, V)>)
    requires m.Valid()
    ensures PutAll(m, ws).keys == Distinct(m.keys + WrittenKeys(ws))
    decreases |ws|
  {
    if ws == [] {
      assert m.keys + WrittenKeys(ws) == m.keys;
      DistinctOfDistinct(m.keys);
    } else {
      var init, w := ws[..|ws| - 1], ws[|ws| - 1];
      assert ws == init + [w];
      PutAllSnoc(m, init, w);
      PutAllKeyOrder(m, init);
      PutAllKeepsValid(m, init);
      var s := m.keys + WrittenKeys(init);
      assert m.keys + WrittenKeys(ws) == s + [w.0];
      DedupByAppend(s, w.0, Id);
      var p := PutAll(m, init);
      HasKeyId(p.keys, w.0);
    }
  }

  /** De-duplicating a sequence without repeats gives it back. */
  lemma {:induction false} DistinctOfDistinct<T>(s: seq<T>)
    requires forall i, j :: 0 <= i < j < |s| ==> s[i] != s[j]
    ensures Distinct(s) == s
    decreases |s|
  {
    if s != [] {
      var init, last := s[..|s| - 1], s[|s| - 1];
      assert s == init + [last];
      DistinctOfDistinct(init);
      DedupByAppend(init, last, Id);
      HasKeyId(init, last);
    }
  }

  /** A `Map` object, for the places where two owners hold the same map and see each other's writes. */
  class MapObject<K(==,!new), V> {
    var contents: OMap<K, V>

    /** `new Map()`. */
    constructor()
      ensures contents == Empty()
    {
      contents := Empty();
    }

    /** `map.set(k, v)`. */
    method Set(k: K, v: V)
      modifies this
      ensures contents == old(contents).Put(k, v)
    {
      contents := contents.Put(k, v);
    }

    /** `map.get(k)`. */
    function Get(k: K): (r: Option<V>)
      reads this
      ensures r.Some? <==> contents.Has(k)
    {
      contents.Get(k)
    }
  }
}
