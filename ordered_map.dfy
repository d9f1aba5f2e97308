/**
 * Python dictionaries as insertion-ordered association lists. Assigning to an
 * existing key keeps its position, assigning to a new key appends it, and
 * deleting a key keeps the order of the others.
 */
module OrderedMaps {
  import opened Wrappers

  type Dict<K, V> = seq<(K, V)>

  function Keys<K, V>(d: Dict<K, V>): (ks: seq<K>)
    ensures |ks| == |d|
    ensures forall i :: 0 <= i < |d| ==> ks[i] == d[i].0
  {
    if d == [] then [] else [d[0].0] + Keys(d[1..])
  }

  function Values<K, V>(d: Dict<K, V>): (vs: seq<V>)
    ensures |vs| == |d|
    ensures forall i :: 0 <= i < |d| ==> vs[i] == d[i].1
  {
    if d == [] then [] else [d[0].1] + Values(d[1..])
  }

  predicate HasKey<K(==), V>(d: Dict<K, V>, k: K) {
    exists i :: 0 <= i < |d| && d[i].0 == k
  }

  /** No key appears twice, as in every Python dict. */
  predicate DistinctKeys<K(==), V>(d: Dict<K, V>) {
    forall i, j :: 0 <= i < j < |d| ==> d[i].0 != d[j].0
  }

  lemma AtMostOneDistinct<K, V>(d: Dict<K, V>)
    requires |d| <= 1
    ensures DistinctKeys(d)
  {
  }

  /** The position of a key, if present. */
  function IndexOfKey<K(==), V>(d: Dict<K, V>, k: K): (r: Option<nat>)
    ensures r.Some? ==> r.value < |d| && d[r.value].0 == k
    ensures r.Some? ==> forall j :: 0 <= j < r.value ==> d[j].0 != k
    ensures r.None? <==> !HasKey(d, k)
  {
    if d == [] then None
    else if d[0].0 == k then Some(0)
    else match IndexOfKey(d[1..], k)
      case None => None
      case Some(i) => Some(i + 1)
  }

  /** `d.get(k)`. */
  function Get<K(==), V>(d: Dict<K, V>, k: K): (r: Option<V>)
    ensures r.Some? <==> HasKey(d, k)
    ensures r.Some? ==> exists i :: 0 <= i < |d| && d[i] == (k, r.value)
  {
    match IndexOfKey(d, k)
    case None => None
    case Some(i) => Some(d[i].1)
  }

  lemma GetAt<K, V>(d: Dict<K, V>, i: nat)
    requires DistinctKeys(d) && i < |d|
    ensures Get(d, d[i].0) == Some(d[i].1)
  {
    var j := IndexOfKey(d, d[i].0).value;
    assert j == i;
  }

  /** A lookup finds the first entry with the key, whether or not keys repeat. */
  lemma GetFirst<K, V>(d: Dict<K, V>, i: nat)
    requires i < |d| && forall j :: 0 <= j < i ==> d[j].0 != d[i].0
    ensures Get(d, d[i].0) == Some(d[i].1)
  {
    var r := IndexOfKey(d, d[i].0);
    assert r.Some?;
  }

  /** Looking a key up past the first entry when the first entry has another key. */
  lemma GetTail<K, V>(d: Dict<K, V>, k: K)
    requires d != [] && d[0].0 != k
    ensures Get(d, k) == Get(d[1..], k)
    ensures HasKey(d, k) <==> HasKey(d[1..], k)
  {
    match IndexOfKey(d[1..], k)
    case None =>
    case Some(i) => assert d[i + 1] == d[1..][i];
  }

  /** `d[k] = v`. */
  function Put<K(==), V>(d: Dict<K, V>, k: K, v: V): (r: Dict<K, V>)
    ensures HasKey(d, k) ==> |r| == |d| && Keys(r) == Keys(d)
    ensures !HasKey(d, k) ==> r == d + [(k, v)]
  {
    match IndexOfKey(d, k)
    case None => d + [(k, v)]
    case Some(i) =>
      var r := d[i := (k, v)];
      assert Keys(r) == Keys(d);
      r
  }

  /** Assigning to a key present at position `i` replaces that entry in place. */
  lemma PutAt<K, V>(d: Dict<K, V>, i: nat, v: V)
    requires DistinctKeys(d) && i < |d|
    ensures Put(d, d[i].0, v) == d[i := (d[i].0, v)]
  {
    var r := IndexOfKey(d, d[i].0);
    assert r.Some?;
    assert r.value == i;
  }

  /** `d[k] = v` keeps every other entry and adds only `(k, v)`. */
  lemma PutMembers<K, V>(d: Dict<K, V>, k: K, v: V)
    ensures (k, v) in Put(d, k, v)
    ensures forall p :: p in Put(d, k, v) ==> p in d || p == (k, v)
    ensures forall p :: p in d && p.0 != k ==> p in Put(d, k, v)
  {
    match IndexOfKey(d, k)
    case None =>
    case Some(i) =>
      var r := d[i := (k, v)];
      assert r[i] == (k, v);
      forall p | p in d && p.0 != k ensures p in r {
        var j :| 0 <= j < |d| && d[j] == p;
        assert r[j] == p;
      }
  }

  lemma PutGet<K, V>(d: Dict<K, V>, k: K, v: V, k2: K)
    requires DistinctKeys(d)
    ensures DistinctKeys(Put(d, k, v))
    ensures Get(Put(d, k, v), k2) == if k2 == k then Some(v) else Get(d, k2)
  {
    var r := Put(d, k, v);
    match IndexOfKey(d, k)
    case None =>
      assert DistinctKeys(r);
      if k2 == k {
        GetAt(r, |d|);
      } else {
        var a := Get(r, k2);
        var b := Get(d, k2);
        if b.Some? {
          var i :| 0 <= i < |d| && d[i] == (k2, b.value);
          GetAt(d, i);
          GetAt(r, i);
        } else {
          assert !HasKey(r, k2);
        }
      }
    case Some(i) =>
      assert forall j :: 0 <= j < |d| ==> r[j].0 == d[j].0;
      assert DistinctKeys(r);
      if k2 == k {
        GetAt(r, i);
      } else {
        var b := Get(d, k2);
        if b.Some? {
          var j :| 0 <= j < |d| && d[j] == (k2, b.value);
          GetAt(d, j);
          GetAt(r, j);
        } else {
          assert !HasKey(r, k2);
        }
      }
  }

  /** `del d[k]` (or `pop`) with the other entries kept in order. */
  function Remove<K(==), V(==)>(d: Dict<K, V>, k: K): (r: Dict<K, V>)
    ensures !HasKey(d, k) ==> r == d
    ensures HasKey(d, k) ==> |r| < |d|
    ensures forall i :: 0 <= i < |r| ==> r[i].0 != k
    ensures forall p :: p in r ==> p in d
    ensures forall p :: p in d && p.0 != k ==> p in r
  {
    if d == [] then []
    else if d[0].0 == k then Remove(d[1..], k)
    else [d[0]] + Remove(d[1..], k)
  }

  lemma RemoveDistinct<K, V>(d: Dict<K, V>, k: K)
    requires DistinctKeys(d)
    ensures DistinctKeys(Remove(d, k))
    ensures HasKey(d, k) ==> |Remove(d, k)| == |d| - 1
  {
    if d != [] {
      RemoveDistinct(d[1..], k);
      var rest := Remove(d[1..], k);
      if d[0].0 != k {
        forall j | 0 <= j < |rest| ensures rest[j].0 != d[0].0 {
          assert rest[j] in d[1..];
        }
      }
    }
  }

  lemma RemoveGet<K, V>(d: Dict<K, V>, k: K, k2: K)
    requires DistinctKeys(d)
    ensures Get(Remove(d, k), k2) == if k2 == k then None else Get(d, k2)
  {
    var r := Remove(d, k);
    RemoveDistinct(d, k);
    if k2 != k {
      var b := Get(d, k2);
      if b.Some? {
        var i :| 0 <= i < |d| && d[i] == (k2, b.value);
        assert d[i] in r;
        var j :| 0 <= j < |r| && r[j] == d[i];
        GetAt(r, j);
      } else {
        forall j | 0 <= j < |r| ensures r[j].0 != k2 {
          assert r[j] in d;
        }
      }
    }
  }

  /** Deleting a key present at position `i` removes exactly that position. */
  lemma {:induction false} RemoveAt<K, V>(d: Dict<K, V>, k: K, i: nat)
    requires DistinctKeys(d) && i < |d| && d[i].0 == k
    ensures Remove(d, k) == d[..i] + d[i + 1..]
  {
    if i == 0 {
      RemoveFirst(d, k);
    } else {
      TailDistinct(d);
      assert d[0].0 != k;
      RemoveAt(d[1..], k, i - 1);
      RemoveCons(d, k, i);
    }
  }

  lemma TailDistinct<K, V>(d: Dict<K, V>)
    requires DistinctKeys(d) && d != []
    ensures DistinctKeys(d[1..])
  {
    var t := d[1..];
    forall a, b | 0 <= a < b < |t| ensures t[a].0 != t[b].0 {
      assert t[a] == d[a + 1] && t[b] == d[b + 1];
    }
  }

  lemma RemoveFirst<K, V>(d: Dict<K, V>, k: K)
    requires DistinctKeys(d) && d != [] && d[0].0 == k
    ensures Remove(d, k) == d[..0] + d[1..]
  {
    var t := d[1..];
    assert !HasKey(t, k) by {
      forall j | 0 <= j < |t| ensures t[j].0 != k {
        assert t[j] == d[j + 1];
      }
    }
    assert d[..0] + d[1..] == t;
  }

  lemma RemoveCons<K, V>(d: Dict<K, V>, k: K, i: nat)
    requires 0 < i < |d| && d[0].0 != k
    requires Remove(d[1..], k) == d[1..][..i - 1] + d[1..][i..]
    ensures Remove(d, k) == d[..i] + d[i + 1..]
  {
    ConsSlices(d, i);
  }

  lemma ConsSlices<T>(d: seq<T>, i: nat)
    requires 0 < i < |d|
    ensures [d[0]] + (d[1..][..i - 1] + d[1..][i..]) == d[..i] + d[i + 1..]
  {
    assert d[..i] == [d[0]] + d[1..][..i - 1];
    assert d[i + 1..] == d[1..][i..];
  }

}
