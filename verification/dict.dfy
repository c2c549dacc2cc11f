/** Python dictionaries with string keys, kept as a sequence of entries so that
    insertion order, which `for k in d` and `d.items()` follow, is explicit. */
module Dict {
  import opened Wrappers

  datatype Entry<V> = Entry(key: string, value: V)

  type Dict<V> = seq<Entry<V>>

  /** `k in d`. */
  predicate HasKey<V>(d: Dict<V>, k: string) {
    exists i :: 0 <= i < |d| && d[i].key == k
  }

  /** No key appears twice, as in every Python dictionary. */
  predicate UniqueKeys<V>(d: Dict<V>) {
    forall i, j :: 0 <= i < j < |d| ==> d[i].key != d[j].key
  }

  /** `d.get(k)`: the value of the first entry with key `k`, if any. */
  function Lookup<V>(d: Dict<V>, k: string): (r: Option<V>)
    ensures r.Some? <==> HasKey(d, k)
    ensures r.Some? ==> exists i :: 0 <= i < |d| && d[i] == Entry(k, r.value)
                                    && forall j :: 0 <= j < i ==> d[j].key != k
  {
    if d == [] then None
    else if d[0].key == k then Some(d[0].value)
    else
      var r := Lookup(d[1..], k);
      assert forall i :: 0 < i < |d| ==> d[i] == d[1..][i - 1];
      r
  }

  /** In a dictionary whose keys are unique, the entry at position `i` is what
      a lookup of its key returns. */
  lemma {:induction false} LookupAt<V>(d: Dict<V>, i: nat)
    requires UniqueKeys(d)
    requires i < |d|
    ensures Lookup(d, d[i].key) == Some(d[i].value)
  {
    if i > 0 {
      LookupAt(d[1..], i - 1);
    }
  }

  /** `d[k] = v`: an existing key keeps its position and gets the new value; a
      new key is appended at the end. */
  function Put<V>(d: Dict<V>, k: string, v: V): (r: Dict<V>)
    ensures |r| == if HasKey(d, k) then |d| else |d| + 1
    ensures forall i :: 0 <= i < |d| ==> r[i].key == d[i].key
    ensures forall i :: 0 <= i < |d| && d[i].key != k ==> r[i] == d[i]
    ensures !HasKey(d, k) ==> r[|d|] == Entry(k, v)
  {
    if d == [] then [Entry(k, v)]
    else if d[0].key == k then [Entry(k, v)] + d[1..]
    else
      assert forall i :: 0 < i < |d| ==> d[i] == d[1..][i - 1];
      assert HasKey(d, k) <==> HasKey(d[1..], k);
      [d[0]] + Put(d[1..], k, v)
  }

  /** After `d[k] = v` the key `k` maps to `v` and every other key maps to what
      it mapped to before. */
  lemma {:induction false} PutLookup<V>(d: Dict<V>, k: string, v: V)
    ensures Lookup(Put(d, k, v), k) == Some(v)
    ensures forall k' :: k' != k ==> Lookup(Put(d, k, v), k') == Lookup(d, k')
  {
    if d != [] && d[0].key != k {
      PutLookup(d[1..], k, v);
      var r := Put(d, k, v);
      assert r[1..] == Put(d[1..], k, v);
      forall k' | k' != k
        ensures Lookup(r, k') == Lookup(d, k')
      {
        if r[0].key != k' {
          assert Lookup(r, k') == Lookup(r[1..], k');
        }
      }
    }
  }

  /** `d[k] = v` never introduces a duplicate key. */
  lemma PutUniqueKeys<V>(d: Dict<V>, k: string, v: V)
    ensures UniqueKeys(d) ==> UniqueKeys(Put(d, k, v))
  {
    var r := Put(d, k, v);
    if !UniqueKeys(d) {
      return;
    }
    forall i, j | 0 <= i < j < |r|
      ensures r[i].key != r[j].key
    {
      if j == |d| {
        assert !HasKey(d, k);
        assert r[i].key == d[i].key;
      }
    }
  }

  /** Storing the same value under the same key twice leaves the dictionary as
      storing it once does, entry order included. */
  lemma {:induction false} PutIdempotent<V>(d: Dict<V>, k: string, v: V)
    ensures Put(Put(d, k, v), k, v) == Put(d, k, v)
  {
    if d != [] && d[0].key != k {
      PutIdempotent(d[1..], k, v);
      assert Put(d, k, v)[1..] == Put(d[1..], k, v);
    }
  }
}
