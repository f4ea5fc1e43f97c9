/** An insertion-ordered dictionary, the shape of a JavaScript `Map` and of a
    plain object used as a string-keyed record: iteration visits keys in the
    order they were first set, `set` on a present key replaces its value in
    place, `delete` removes one key and keeps the order of the rest. */
module OrderedMap {
  import opened Common

  datatype Entry<K, V> = Entry(key: K, value: V)

  type Table<K, V> = seq<Entry<K, V>>

  function Keys<K, V>(t: Table<K, V>): (ks: seq<K>)
    ensures |ks| == |t|
    ensures forall i :: 0 <= i < |t| ==> ks[i] == t[i].key
  {
    if t == [] then [] else [t[0].key] + Keys(t[1..])
  }

  /** No key occurs twice: the invariant of every table built by Set. */
  ghost predicate UniqueKeys<K, V>(t: Table<K, V>) {
    forall i, j :: 0 <= i < j < |t| ==> t[i].key != t[j].key
  }

  /** Position of the first entry of k. */
  function IndexOf<K(==), V>(t: Table<K, V>, k: K): (i: nat)
    requires k in Keys(t)
    ensures i < |t| && t[i].key == k
    ensures forall j :: 0 <= j < i ==> t[j].key != k
  {
    if t[0].key == k then 0 else 1 + IndexOf(t[1..], k)
  }

  function Get<K(==), V>(t: Table<K, V>, k: K): (r: Option<V>)
    ensures r.None? <==> k !in Keys(t)
    ensures r.Some? ==> exists i :: 0 <= i < |t| && t[i] == Entry(k, r.value)
  {
    if k in Keys(t) then Some(t[IndexOf(t, k)].value) else None
  }

  /** In a table with unique keys, the entry at position i is what Get finds. */
  lemma GetAt<K, V>(t: Table<K, V>, i: nat)
    requires UniqueKeys(t) && i < |t|
    ensures Get(t, t[i].key) == Some(t[i].value)
  {
    assert Keys(t)[i] == t[i].key;
  }

  /** `Map.set(k, v)`: the value of k becomes v, at k's old position when k
      is present, otherwise as a new last entry. */
  function Set<K(==), V>(t: Table<K, V>, k: K, v: V): (r: Table<K, V>)
    requires UniqueKeys(t)
    ensures UniqueKeys(r)
    ensures |r| == if k in Keys(t) then |t| else |t| + 1
    ensures forall i :: 0 <= i < |t| ==> r[i] == if t[i].key == k then Entry(k, v) else t[i]
    ensures k !in Keys(t) ==> r[|t|] == Entry(k, v)
  {
    if k in Keys(t) then t[IndexOf(t, k) := Entry(k, v)] else t + [Entry(k, v)]
  }

  /** After Set, a key other than k reads as before. */
  lemma SetGetOther<K, V>(t: Table<K, V>, k: K, v: V, k': K)
    requires UniqueKeys(t) && k' != k
    ensures Get(Set(t, k, v), k') == Get(t, k')
  {
    var r := Set(t, k, v);
    if k' in Keys(t) {
      var j := IndexOf(t, k');
      GetAt(t, j);
      assert r[j] == t[j];
      GetAt(r, j);
    } else {
      forall i | 0 <= i < |r| ensures Keys(r)[i] != k' {
        assert i < |t| ==> Keys(t)[i] == t[i].key;
      }
    }
  }

  /** After Set, k reads back as v and no other key changes. */
  lemma SetGet<K, V>(t: Table<K, V>, k: K, v: V)
    requires UniqueKeys(t)
    ensures Get(Set(t, k, v), k) == Some(v)
    ensures forall k' :: k' != k ==> Get(Set(t, k, v), k') == Get(t, k')
  {
    var n := if k in Keys(t) then IndexOf(t, k) else |t|;
    GetAt(Set(t, k, v), n);
    forall k' | k' != k
      ensures Get(Set(t, k, v), k') == Get(t, k')
    {
      SetGetOther(t, k, v, k');
    }
  }

  /** The table without its entry at position i; later entries move up
      by one. */
  function RemoveAt<K, V>(t: Table<K, V>, i: nat): (r: Table<K, V>)
    requires i < |t|
    ensures |r| == |t| - 1
    ensures forall j :: 0 <= j < i ==> r[j] == t[j]
    ensures forall j :: i <= j < |r| ==> r[j] == t[j + 1]
  {
    t[..i] + t[i + 1..]
  }

  /** Removing the entry at position i from a table with unique keys
      leaves unique keys and no entry for that key. */
  lemma RemoveAtUnique<K, V>(t: Table<K, V>, i: nat)
    requires UniqueKeys(t) && i < |t|
    ensures UniqueKeys(RemoveAt(t, i))
    ensures t[i].key !in Keys(RemoveAt(t, i))
  {
    var r := RemoveAt(t, i);
    forall a, b | 0 <= a < b < |r| ensures r[a].key != r[b].key {
      var a' := if a < i then a else a + 1;
      var b' := if b < i then b else b + 1;
      assert r[a] == t[a'] && r[b] == t[b'];
    }
    forall j | 0 <= j < |r| ensures Keys(r)[j] != t[i].key {
      var j' := if j < i then j else j + 1;
      assert r[j] == t[j'];
    }
  }

  /** `Map.delete(k)`: k's entry is cut out and the survivors keep their
      order. */
  function Delete<K(==), V>(t: Table<K, V>, k: K): (r: Table<K, V>)
    requires UniqueKeys(t)
    ensures UniqueKeys(r)
    ensures k !in Keys(r)
    ensures |r| == if k in Keys(t) then |t| - 1 else |t|
    ensures k !in Keys(t) ==> r == t
    ensures k in Keys(t) ==> forall j :: 0 <= j < |r| ==>
      r[j] == if j < IndexOf(t, k) then t[j] else t[j + 1]
  {
    if k in Keys(t) then
      var i := IndexOf(t, k);
      RemoveAtUnique(t, i);
      RemoveAt(t, i)
    else t
  }

  /** After Delete, no other key changes its value. */
  lemma DeleteGet<K, V>(t: Table<K, V>, k: K)
    requires UniqueKeys(t)
    ensures Get(Delete(t, k), k).None?
    ensures forall k' :: k' != k ==> Get(Delete(t, k), k') == Get(t, k')
  {
    var r := Delete(t, k);
    forall k' | k' != k
      ensures Get(r, k') == Get(t, k')
    {
      if k' in Keys(t) {
        var j := IndexOf(t, k');
        GetAt(t, j);
        if k in Keys(t) {
          var i := IndexOf(t, k);
          assert j != i;
          var jr := if j < i then j else j - 1;
          assert r[jr] == t[j];
          GetAt(r, jr);
        }
      }
    }
  }
}
