/**
 * A Ruby `Hash` as the bots use one: key/value pairs kept in insertion
 * order, `h[k] = v` (Store), `h[k]` (Get), `each_value` (Values) and
 * `h1.merge(h2)` (Merge).
 */
module RubyHash {
  import opened Chat

  /** The pairs of a Hash in iteration order. */
  type Hash<K, V> = seq<(K, V)>

  function Keys<K, V>(h: Hash<K, V>): set<K> {
    set i | 0 <= i < |h| :: h[i].0
  }

  /** Ruby Hashes never hold a key twice. */
  predicate UniqueKeys<K(==), V>(h: Hash<K, V>) {
    forall i, j | 0 <= i < j < |h| :: h[i].0 != h[j].0
  }

  /** `h.each_value`: the values in iteration order. */
  function Values<K, V>(h: Hash<K, V>): (vs: seq<V>)
    ensures |vs| == |h|
    ensures forall i | 0 <= i < |h| :: vs[i] == h[i].1
  {
    seq(|h|, i requires 0 <= i < |h| => h[i].1)
  }

  /** `h[k]`: the value stored under `k`, nil when `k` is not a key. */
  function Get<K(==, !new), V>(h: Hash<K, V>, k: K): (r: Option<V>)
    ensures r.Some? <==> k in Keys(h)
    ensures UniqueKeys(h) ==> forall i | 0 <= i < |h| && h[i].0 == k :: r == Some(h[i].1)
  {
    if h == [] then None
    else if h[0].0 == k then Some(h[0].1)
    else
      var r := Get(h[1..], k);
      assert forall i | 1 <= i < |h| :: h[1..][i - 1] == h[i];
      assert Keys(h) == {h[0].0} + Keys(h[1..]) by { KeysOfTail(h); }
      r
  }

  /**
   * `h[k] = v`: an existing key keeps its position and gets the new value;
   * a new key is appended at the end.
   */
  function Store<K(==, !new), V>(h: Hash<K, V>, k: K, v: V): (r: Hash<K, V>)
    ensures Keys(r) == Keys(h) + {k}
    ensures k !in Keys(h) ==> r == h + [(k, v)]
    ensures k in Keys(h) ==> |r| == |h| && forall i | 0 <= i < |h| :: r[i].0 == h[i].0
  {
    if h == [] then
      assert Keys([(k, v)]) == {k} by { KeysOfTail([(k, v)]); }
      [(k, v)]
    else if h[0].0 == k then
      KeysOfTail(h);
      KeysOfTail([(k, v)] + h[1..]);
      assert ([(k, v)] + h[1..])[1..] == h[1..];
      [(k, v)] + h[1..]
    else
      var t := Store(h[1..], k, v);
      KeysOfTail(h);
      KeysOfTail([h[0]] + t);
      assert ([h[0]] + t)[1..] == t;
      assert h == [h[0]] + h[1..];
      [h[0]] + t
  }

  /** `h[k] = v` never duplicates a key. */
  lemma StoreKeepsUnique<K(!new), V>(h: Hash<K, V>, k: K, v: V)
    ensures UniqueKeys(h) ==> UniqueKeys(Store(h, k, v))
  {
  }

  /** After `h[k] = v`, `k` reads as `v` and every other key reads as before. */
  lemma {:induction false} StoreGet<K(!new), V>(h: Hash<K, V>, k: K, v: V)
    ensures forall k' :: Get(Store(h, k, v), k') == if k' == k then Some(v) else Get(h, k')
    decreases |h|
  {
    var r := Store(h, k, v);
    if h != [] && h[0].0 == k {
      assert r[1..] == h[1..];
    } else if h != [] {
      StoreGet(h[1..], k, v);
      assert r[1..] == Store(h[1..], k, v);
    }
  }

  /**
   * `h1.merge(h2)`: every pair of `h2`, in order, stored into `h1`. The keys
   * of both are kept, a value of `h2` replaces the value of `h1` under the
   * same key, and the keys of `h1` keep their positions at the front.
   */
  function Merge<K(==, !new), V>(h1: Hash<K, V>, h2: Hash<K, V>): (r: Hash<K, V>)
    ensures Keys(r) == Keys(h1) + Keys(h2)
    ensures UniqueKeys(h1) ==> UniqueKeys(r)
    ensures |h1| <= |r| && forall i | 0 <= i < |h1| :: r[i].0 == h1[i].0
    decreases |h2|
  {
    if h2 == [] then h1
    else
      KeysOfTail(h2);
      StoreKeepsUnique(h1, h2[0].0, h2[0].1);
      Merge(Store(h1, h2[0].0, h2[0].1), h2[1..])
  }

  /** After `h1.merge(h2)`, a key of `h2` reads as in `h2` and any other key as in `h1`. */
  lemma {:induction false} MergeGet<K(!new), V>(h1: Hash<K, V>, h2: Hash<K, V>)
    requires UniqueKeys(h2)
    ensures forall k :: Get(Merge(h1, h2), k) == if k in Keys(h2) then Get(h2, k) else Get(h1, k)
    decreases |h2|
  {
    if h2 != [] {
      KeysOfTail(h2);
      assert UniqueKeys(h2[1..]) && h2[0].0 !in Keys(h2[1..]);
      StoreGet(h1, h2[0].0, h2[0].1);
      MergeGet(Store(h1, h2[0].0, h2[0].1), h2[1..]);
    }
  }

  /**
   * `h1.merge(h2)` adds keys only after those of `h1`: every pair past the
   * front holds a key of `h2` that `h1` lacked.
   */
  lemma {:induction false} MergeAppendsNewKeys<K(!new), V>(h1: Hash<K, V>, h2: Hash<K, V>)
    ensures forall i | |h1| <= i < |Merge(h1, h2)| ::
              Merge(h1, h2)[i].0 !in Keys(h1) && Merge(h1, h2)[i].0 in Keys(h2)
    decreases |h2|
  {
    if h2 != [] {
      var s := Store(h1, h2[0].0, h2[0].1);
      var t := h2[1..];
      KeysOfTail(h2);
      MergeAppendsNewKeys(s, t);
      var r := Merge(h1, h2);
      assert r == Merge(s, t);
      forall i | |h1| <= i < |r| ensures r[i].0 !in Keys(h1) && r[i].0 in Keys(h2) {
        if i < |s| {
          assert s == h1 + [(h2[0].0, h2[0].1)];
          assert r[i].0 == s[i].0 == h2[0].0;
        }
      }
    }
  }

  /** The position of the first pair of `h` with key `k`, or `|h|` when there is none. */
  function FirstIndex<K(==), V>(h: Hash<K, V>, k: K): (n: nat)
    ensures n <= |h|
    ensures n < |h| <==> k in Keys(h)
    ensures n < |h| ==> h[n].0 == k
    ensures forall m | 0 <= m < n :: h[m].0 != k
  {
    if h == [] then 0
    else if h[0].0 == k then 0
    else
      KeysOfTail(h);
      var n := 1 + FirstIndex(h[1..], k);
      assert forall m | 1 <= m < n :: h[m] == h[1..][m - 1];
      n
  }

  /**
   * The pairs `h1.merge(h2)` appends stand in the order in which their keys
   * first occur in `h2`.
   */
  lemma {:induction false} MergeKeepsOrder<K(!new), V>(h1: Hash<K, V>, h2: Hash<K, V>)
    ensures forall i, j | |h1| <= i < j < |Merge(h1, h2)| ::
              FirstIndex(h2, Merge(h1, h2)[i].0) < FirstIndex(h2, Merge(h1, h2)[j].0) < |h2|
    decreases |h2|
  {
    if h2 != [] {
      var s := Store(h1, h2[0].0, h2[0].1);
      var t := h2[1..];
      var r := Merge(s, t);
      assert Merge(h1, h2) == r;
      MergeAppendsNewKeys(s, t);
      MergeKeepsOrder(s, t);
      // the pairs from `t` are one place further on in `h2`
      forall i | |s| <= i < |r| ensures FirstIndex(h2, r[i].0) == 1 + FirstIndex(t, r[i].0) < |h2| {
        assert h2[0].0 in Keys(s);
        FirstIndexOfTail(h2, r[i].0);
      }
      // the pair `h1` lacked, if any, is the first key of `h2`
      if |h1| < |s| {
        assert s == h1 + [(h2[0].0, h2[0].1)];
        assert r[|h1|].0 == s[|h1|].0 == h2[0].0;
      }
      forall i, j | |h1| <= i < j < |r| ensures FirstIndex(h2, r[i].0) < FirstIndex(h2, r[j].0) < |h2| {
        if i < |s| {
          assert i == |h1| && FirstIndex(h2, r[i].0) == 0;
        }
      }
    } else {
      assert Merge(h1, h2) == h1;
    }
  }

  /** Past a first pair with another key, the first position of `k` is one more than in the rest. */
  lemma FirstIndexOfTail<K, V>(h: Hash<K, V>, k: K)
    requires h != [] && h[0].0 != k
    ensures FirstIndex(h, k) == 1 + FirstIndex(h[1..], k)
  {
  }

  /** The keys of a non-empty Hash: its first key and the keys of the rest. */
  lemma KeysOfTail<K, V>(h: Hash<K, V>)
    requires h != []
    ensures Keys(h) == {h[0].0} + Keys(h[1..])
  {
    forall k | k in Keys(h) ensures k in {h[0].0} + Keys(h[1..]) {
      var i :| 0 <= i < |h| && h[i].0 == k;
      if i > 0 { assert h[1..][i - 1] == h[i]; }
    }
    forall k | k in Keys(h[1..]) ensures k in Keys(h) {
      var i :| 0 <= i < |h[1..]| && h[1..][i].0 == k;
      assert h[i + 1] == h[1..][i];
    }
  }
}
