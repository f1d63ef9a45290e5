/**
 * First-occurrence de-duplication, the order a JavaScript `Set` or `Map` keeps when the
 * same key is added twice: the loader's path lists, the help listing's unique commands
 * and its categories all follow it.
 */
module Seqs {

  /** Whether some element of `s` has key `k`. */
  predicate HasKey<T, K(==)>(s: seq<T>, key: T -> K, k: K) {
    exists i :: 0 <= i < |s| && key(s[i]) == k
  }

  /** The position of the first element of `s` with key `k`. */
  function FirstIndex<T, K(==)>(s: seq<T>, key: T -> K, k: K): (i: nat)
    requires HasKey(s, key, k)
    ensures i < |s| && key(s[i]) == k
    ensures forall j :: 0 <= j < i ==> key(s[j]) != k
  {
    if key(s[0]) == k then 0 else FirstIndex(s[1..], key, k) + 1
  }

  /** The elements of `s` whose key was not seen before, in order: a scan that adds new keys. */
  function DedupBy<T, K(==)>(s: seq<T>, key: T -> K): seq<T>
  {
    if s == [] then []
    else
      var d := DedupBy(s[..|s| - 1], key);
      if HasKey(d, key, key(s[|s| - 1])) then d else d + [s[|s| - 1]]
  }

  function Id<T>(x: T): T {
    x
  }

  /** `Array.from(new Set(s))`. */
  function Distinct<T(==)>(s: seq<T>): seq<T> {
    DedupBy(s, Id)
  }

  predicate KeysDistinct<T, K(==)>(s: seq<T>, key: T -> K) {
    forall i, j :: 0 <= i < j < |s| ==> key(s[i]) != key(s[j])
  }

  /** The elements of `s` that `p` holds of, in order. */
  function Filter<T(==)>(s: seq<T>, p: T -> bool): (r: seq<T>)
    ensures |r| <= |s|
    ensures forall i :: 0 <= i < |r| ==> r[i] in s && p(r[i])
    ensures forall i :: 0 <= i < |s| && p(s[i]) ==> s[i] in r
  {
    if s == [] then [] else
      var f := Filter(s[..|s| - 1], p);
      assert s == s[..|s| - 1] + [s[|s| - 1]];
      if p(s[|s| - 1]) then f + [s[|s| - 1]] else f
  }

  /** Concatenation regroups freely. */
  lemma AppendAssoc<T>(a: seq<T>, b: seq<T>, c: seq<T>)
    ensures a + (b + c) == a + b + c
  {
  }

  lemma HasKeyAppend<T, K>(init: seq<T>, last: T, key: T -> K)
    ensures forall k :: HasKey(init + [last], key, k) <==> HasKey(init, key, k) || key(last) == k
  {
    var s := init + [last];
    assert s[|init|] == last;
    assert forall j :: 0 <= j < |init| ==> s[j] == init[j];
  }

  /** Under the identity key, having a key is membership. */
  lemma HasKeyId<T>(s: seq<T>, x: T)
    ensures HasKey(s, Id, x) <==> x in s
  {
    if x in s {
      var i :| 0 <= i < |s| && s[i] == x;
      assert Id(s[i]) == x;
    }
  }

  /** Extending a sequence does not move the first position of a key it already holds. */
  lemma FirstIndexOfExtension<T, K>(init: seq<T>, last: T, key: T -> K, k: K)
    requires HasKey(init + [last], key, k)
    ensures HasKey(init, key, k) ==> FirstIndex(init + [last], key, k) == FirstIndex(init, key, k)
    ensures !HasKey(init, key, k) ==> FirstIndex(init + [last], key, k) == |init| && key(last) == k
  {
    var s := init + [last];
    assert forall j :: 0 <= j < |init| ==> s[j] == init[j];
    HasKeyAppend(init, last, key);
  }

  /** The last step of `DedupBy`, spelled out for `init + [last]`. */
  lemma DedupByAppend<T, K>(init: seq<T>, last: T, key: T -> K)
    ensures var d0 := DedupBy(init, key);
      DedupBy(init + [last], key) == if HasKey(d0, key, key(last)) then d0 else d0 + [last]
  {
    assert (init + [last])[..|init|] == init;
  }

  /** De-duplication keeps exactly the keys of `s`. */
  lemma {:induction false} DedupByKeepsKeys<T, K>(s: seq<T>, key: T -> K)
    ensures forall k :: HasKey(DedupBy(s, key), key, k) <==> HasKey(s, key, k)
    decreases |s|
  {
    if s != [] {
      var init, last := s[..|s| - 1], s[|s| - 1];
      assert s == init + [last];
      DedupByKeepsKeys(init, key);
      DedupByAppend(init, last, key);
      HasKeyAppend(init, last, key);
      HasKeyAppend(DedupBy(init, key), last, key);
    }
  }

  /** De-duplication leaves no key twice. */
  lemma {:induction false} DedupByKeysDistinct<T, K>(s: seq<T>, key: T -> K)
    ensures KeysDistinct(DedupBy(s, key), key)
    decreases |s|
  {
    if s != [] {
      var init, last := s[..|s| - 1], s[|s| - 1];
      assert s == init + [last];
      DedupByKeysDistinct(init, key);
      DedupByAppend(init, last, key);
      var d0 := DedupBy(init, key);
      if !HasKey(d0, key, key(last)) {
        assert forall i :: 0 <= i < |d0| ==> HasKey(d0, key, key(d0[i]));
      }
    }
  }

  /** Every kept element is the first element of `s` with its key. */
  lemma {:induction false} DedupByKeepsFirsts<T, K>(s: seq<T>, key: T -> K)
    ensures var d := DedupBy(s, key);
      forall i :: 0 <= i < |d| ==> HasKey(s, key, key(d[i])) && d[i] == s[FirstIndex(s, key, key(d[i]))]
    decreases |s|
  {
    if s != [] {
      var init, last := s[..|s| - 1], s[|s| - 1];
      assert s == init + [last];
      DedupByKeepsFirsts(init, key);
      DedupByKeepsKeys(init, key);
      DedupByAppend(init, last, key);
      HasKeyAppend(init, last, key);
      var d0 := DedupBy(init, key);
      var d := DedupBy(s, key);
      assert forall i :: 0 <= i < |d0| ==> HasKey(d0, key, key(d0[i]));
      forall i | 0 <= i < |d|
        ensures HasKey(s, key, key(d[i])) && d[i] == s[FirstIndex(s, key, key(d[i]))]
      {
        if i < |d0| {
          assert d[i] == d0[i];
          var k := key(d0[i]);
          assert HasKey(init, key, k);
          FirstIndexOfExtension(init, last, key, k);
          assert s[FirstIndex(init, key, k)] == init[FirstIndex(init, key, k)];
        } else {
          assert d[i] == last;
          assert !HasKey(init, key, key(last));
          FirstIndexOfExtension(init, last, key, key(last));
        }
      }
    }
  }

  /** Kept elements appear in the order of the first positions of their keys in `s`. */
  lemma {:induction false} DedupByKeepsOrder<T, K>(s: seq<T>, key: T -> K)
    ensures var d := DedupBy(s, key);
      forall i, j :: 0 <= i < j < |d| ==>
        HasKey(s, key, key(d[i])) && HasKey(s, key, key(d[j])) &&
        FirstIndex(s, key, key(d[i])) < FirstIndex(s, key, key(d[j]))
    decreases |s|
  {
    DedupByKeepsFirsts(s, key);
    if s != [] {
      var init, last := s[..|s| - 1], s[|s| - 1];
      assert s == init + [last];
      DedupByKeepsOrder(init, key);
      DedupByKeepsFirsts(init, key);
      DedupByKeepsKeys(init, key);
      DedupByAppend(init, last, key);
      var d0 := DedupBy(init, key);
      var d := DedupBy(s, key);
      forall i, j | 0 <= i < j < |d|
        ensures FirstIndex(s, key, key(d[i])) < FirstIndex(s, key, key(d[j]))
      {
        assert d[i] == d0[i];
        var ki := key(d0[i]);
        assert HasKey(init, key, ki);
        FirstIndexOfExtension(init, last, key, ki);
        if j < |d0| {
          assert d[j] == d0[j];
          assert HasKey(init, key, key(d0[j]));
          assert FirstIndex(init, key, ki) < FirstIndex(init, key, key(d0[j]));
          FirstIndexOfExtension(init, last, key, key(d0[j]));
        } else {
          assert d[j] == last;
          assert !HasKey(init, key, key(last));
          FirstIndexOfExtension(init, last, key, key(last));
          assert FirstIndex(init, key, ki) < |init|;
        }
      }
    }
  }

  /** No element occurs twice. */
  predicate NoRepeats<T(==)>(s: seq<T>) {
    forall i, j :: 0 <= i < j < |s| ==> s[i] != s[j]
  }

  /** `Array.from(new Set(s))` holds exactly the elements of `s`, each once. */
  lemma DistinctMembers<T>(s: seq<T>)
    ensures forall x :: x in Distinct(s) <==> x in s
    ensures NoRepeats(Distinct(s))
  {
    DedupByKeepsKeys(s, Id);
    DedupByKeysDistinct(s, Id);
    forall x ensures x in Distinct(s) <==> x in s {
      HasKeyId(s, x);
      HasKeyId(Distinct(s), x);
    }
  }

  /** De-duplicating `a + b` starts with the de-duplication of `a`. */
  lemma {:induction false} DistinctPrefix<T>(a: seq<T>, b: seq<T>)
    ensures |Distinct(a)| <= |Distinct(a + b)| && Distinct(a + b)[..|Distinct(a)|] == Distinct(a)
    decreases |b|
  {
    if b == [] {
      assert a + b == a;
    } else {
      var init, last := b[..|b| - 1], b[|b| - 1];
      DistinctPrefix(a, init);
      assert a + b == (a + init) + [last];
      DedupByAppend(a + init, last, Id);
    }
  }
}
