/**
 * Python's insertion-ordered `dict`: assigning to a new key appends it,
 * assigning to an existing key replaces its value where it stands.
 */
module OrderedMap {
  import opened Wrappers

  datatype Entry<K, V> = Entry(key: K, value: V)

  /** Keys of a dict, in insertion order. */
  function Keys<K, V>(d: seq<Entry<K, V>>): (r: seq<K>)
    ensures |r| == |d|
    ensures forall i :: 0 <= i < |d| ==> r[i] == d[i].key
  {
    if |d| == 0 then [] else [d[0].key] + Keys(d[1..])
  }

  /** `d.values()`, in insertion order. */
  function Values<K, V>(d: seq<Entry<K, V>>): (r: seq<V>)
    ensures |r| == |d|
    ensures forall i :: 0 <= i < |d| ==> r[i] == d[i].value
  {
    if |d| == 0 then [] else [d[0].value] + Values(d[1..])
  }

  /** No key occurs twice: the shape every Python dict has. */
  predicate UniqueKeys<K(==), V>(d: seq<Entry<K, V>>) {
    forall i, j :: 0 <= i < j < |d| ==> d[i].key != d[j].key
  }

  predicate HasKey<K(==), V>(d: seq<Entry<K, V>>, k: K) {
    exists i :: 0 <= i < |d| && d[i].key == k
  }

  /** `d.get(k)`. */
  function Find<K(==), V>(d: seq<Entry<K, V>>, k: K): (r: Option<V>)
    ensures r.Some? <==> HasKey(d, k)
    ensures r.Some? ==> exists i :: 0 <= i < |d| && d[i] == Entry(k, r.value)
    ensures UniqueKeys(d) ==> forall i :: 0 <= i < |d| && d[i].key == k ==> r == Some(d[i].value)
  {
    if |d| == 0 then None
    else if d[0].key == k then Some(d[0].value)
    else
      var r := Find(d[1..], k);
      assert forall i :: 1 <= i < |d| ==> d[1..][i - 1] == d[i];
      r
  }

  /** Position of key `k` in the dict, if present. */
  function IndexOf<K(==), V>(d: seq<Entry<K, V>>, k: K): (r: Option<nat>)
    ensures r.Some? ==> r.value < |d| && d[r.value].key == k
    ensures r.None? ==> !HasKey(d, k)
  {
    if |d| == 0 then None
    else if d[0].key == k then Some(0)
    else
      match IndexOf(d[1..], k)
      case Some(i) => Some(i + 1)
      case None => None
  }

  /** `d[k] = v`. */
  function Put<K(==,!new), V>(d: seq<Entry<K, V>>, k: K, v: V): (r: seq<Entry<K, V>>)
    requires UniqueKeys(d)
    ensures UniqueKeys(r)
    ensures Find(r, k) == Some(v)
    ensures forall k' :: k' != k ==> Find(r, k') == Find(d, k')
    ensures HasKey(d, k) ==> Keys(r) == Keys(d)
    ensures !HasKey(d, k) ==> Keys(r) == Keys(d) + [k]
  {
    var r := match IndexOf(d, k)
      case Some(i) => d[i := Entry(k, v)]
      case None => d + [Entry(k, v)];
    PutFacts(d, k, v, r);
    r
  }

  lemma PutFacts<K(!new), V>(d: seq<Entry<K, V>>, k: K, v: V, r: seq<Entry<K, V>>)
    requires UniqueKeys(d)
    requires r == match IndexOf(d, k) case Some(i) => d[i := Entry(k, v)] case None => d + [Entry(k, v)]
    ensures UniqueKeys(r)
    ensures Find(r, k) == Some(v)
    ensures forall k' :: k' != k ==> Find(r, k') == Find(d, k')
    ensures HasKey(d, k) ==> Keys(r) == Keys(d)
    ensures !HasKey(d, k) ==> Keys(r) == Keys(d) + [k]
  {
    var idx := IndexOf(d, k);
    if idx.Some? {
      var i := idx.value;
      assert UniqueKeys(r) by {
        forall a, b | 0 <= a < b < |r| ensures r[a].key != r[b].key {
          assert r[a].key == d[a].key && r[b].key == d[b].key;
        }
      }
      assert r[i] == Entry(k, v);
      forall k' | k' != k ensures Find(r, k') == Find(d, k') {
        if HasKey(d, k') {
          var j :| 0 <= j < |d| && d[j].key == k';
          assert r[j] == d[j];
        } else {
          assert !HasKey(r, k') by {
            forall j | 0 <= j < |r| ensures r[j].key != k' { assert r[j].key == d[j].key || j == i; }
          }
        }
      }
      assert Keys(r) == Keys(d);
    } else {
      assert UniqueKeys(r);
      assert r[|d|] == Entry(k, v);
      forall k' | k' != k ensures Find(r, k') == Find(d, k') {
        if HasKey(d, k') {
          var j :| 0 <= j < |d| && d[j].key == k';
          assert r[j] == d[j];
        } else {
          assert !HasKey(r, k') by {
            forall j | 0 <= j < |r| ensures r[j].key != k' { if j < |d| { assert r[j] == d[j]; } }
          }
        }
      }
      assert Keys(r) == Keys(d) + [k];
    }
  }

  /** The value of the last entry in `es` with key `k`, if any. */
  function LastBinding<K(==), V>(es: seq<Entry<K, V>>, k: K): Option<V>
  {
    if |es| == 0 then None
    else if es[|es| - 1].key == k then Some(es[|es| - 1].value)
    else LastBinding(es[..|es| - 1], k)
  }

  /** Assigns every entry of `es` in turn, as a `for` loop of `d[key] = value` does. */
  function PutAll<K(==,!new), V>(d: seq<Entry<K, V>>, es: seq<Entry<K, V>>): (r: seq<Entry<K, V>>)
    requires UniqueKeys(d)
    ensures UniqueKeys(r)
    decreases |es|
  {
    if |es| == 0 then d else PutAll(Put(d, es[0].key, es[0].value), es[1..])
  }

  /** One assignment, seen from a single key. */
  lemma PutFind<K(!new), V>(d: seq<Entry<K, V>>, k0: K, v: V, k: K)
    requires UniqueKeys(d)
    ensures Find(Put(d, k0, v), k) == if k == k0 then Some(v) else Find(d, k)
  {
  }

  /** After a sequence of assignments a key holds the value it was last assigned. */
  lemma {:induction false} PutAllFind<K(!new), V>(d: seq<Entry<K, V>>, es: seq<Entry<K, V>>, k: K)
    requires UniqueKeys(d)
    ensures Find(PutAll(d, es), k) == (if LastBinding(es, k).Some? then LastBinding(es, k) else Find(d, k))
    decreases |es|
  {
    if |es| > 0 {
      var d1 := Put(d, es[0].key, es[0].value);
      assert PutAll(d, es) == PutAll(d1, es[1..]);
      PutAllFind(d1, es[1..], k);
      PutFind(d, es[0].key, es[0].value, k);
      LastBindingCons(es[0], es[1..], k);
      assert es == [es[0]] + es[1..];
    }
  }

  lemma {:induction false} LastBindingCons<K, V>(e: Entry<K, V>, es: seq<Entry<K, V>>, k: K)
    ensures LastBinding([e] + es, k) == (if LastBinding(es, k).Some? then LastBinding(es, k) else if e.key == k then Some(e.value) else None)
    decreases |es|
  {
    var all := [e] + es;
    if |es| > 0 {
      assert all[..|all| - 1] == [e] + es[..|es| - 1];
      assert all[|all| - 1] == es[|es| - 1];
      LastBindingCons(e, es[..|es| - 1], k);
    }
  }

  /** A key is present after the assignments iff it was present before or was assigned. */
  lemma {:induction false} PutAllHasKey<K(!new), V>(d: seq<Entry<K, V>>, es: seq<Entry<K, V>>, k: K)
    requires UniqueKeys(d)
    ensures HasKey(PutAll(d, es), k) <==> HasKey(d, k) || HasKey(es, k)
    decreases |es|
  {
    if |es| > 0 {
      var d1 := Put(d, es[0].key, es[0].value);
      assert PutAll(d, es) == PutAll(d1, es[1..]);
      PutAllHasKey(d1, es[1..], k);
      PutFind(d, es[0].key, es[0].value, k);
      HasKeyCons(es, k);
    }
  }

  lemma HasKeyCons<K, V>(es: seq<Entry<K, V>>, k: K)
    requires |es| > 0
    ensures HasKey(es, k) <==> es[0].key == k || HasKey(es[1..], k)
  {
    if HasKey(es[1..], k) {
      var i :| 0 <= i < |es[1..]| && es[1..][i].key == k;
      assert es[i + 1].key == k;
    }
    if HasKey(es, k) && es[0].key != k {
      var i :| 0 <= i < |es| && es[i].key == k;
      assert es[1..][i - 1].key == k;
    }
  }
}
