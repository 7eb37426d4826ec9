/** Python's `dict`: a finite map that remembers the order in which keys were first inserted.
    Re-assigning an existing key keeps its position; deleting a key removes it from the order.
    The keys and the values are held side by side, position by position. */
module PyDict {
  import opened Wrappers

  datatype Dict<K(==), V> = Dict(keys: seq<K>, values: seq<V>) {

    /** One value per key. */
    predicate WellFormed()
    {
      |keys| == |values|
    }

    /** Well formed, and every key is listed once. */
    ghost predicate Valid()
    {
      && WellFormed()
      && forall i, j :: 0 <= i < j < |keys| ==> keys[i] != keys[j]
    }

    function Size(): nat
    {
      |keys|
    }

    /** `d.get(k)`. */
    function Get(k: K): (r: Option<V>)
      requires WellFormed()
      ensures r.None? <==> k !in keys
      ensures r.Some? ==> r.value == values[IndexOf(keys, k)]
    {
      if k in keys then Some(values[IndexOf(keys, k)]) else None
    }

    /** `d[k] = v`. */
    function Put(k: K, v: V): (d: Dict<K, V>)
      requires WellFormed()
      ensures d.WellFormed()
      ensures k in keys ==> d.keys == keys && d.values == values[IndexOf(keys, k) := v]
      ensures k !in keys ==> d.keys == keys + [k] && d.values == values + [v]
      ensures Valid() ==> d.Valid()
    {
      if k in keys then Dict(keys, values[IndexOf(keys, k) := v]) else Dict(keys + [k], values + [v])
    }

    /** `del d[k]` for a present key; an absent key leaves the dictionary as it is. */
    function Remove(k: K): (d: Dict<K, V>)
      requires WellFormed()
      ensures d.WellFormed()
      ensures k in keys ==> var i := IndexOf(keys, k);
                            d.keys == keys[..i] + keys[i + 1..] && d.values == values[..i] + values[i + 1..]
      ensures k !in keys ==> d == this
      ensures Valid() ==> d.Valid()
    {
      if k in keys then
        var i := IndexOf(keys, k);
        var d := Dict(keys[..i] + keys[i + 1..], values[..i] + values[i + 1..]);
        assert Valid() ==> forall a, b :: 0 <= a < b < |d.keys| ==> d.keys[a] != d.keys[b] by {
          if Valid() {
            forall a, b | 0 <= a < b < |d.keys|
              ensures d.keys[a] != d.keys[b]
            {
              var a' := if a < i then a else a + 1;
              var b' := if b < i then b else b + 1;
              assert d.keys[a] == keys[a'] && d.keys[b] == keys[b'];
            }
          }
        }
        d
      else
        this
    }
  }

  /** A dictionary whose keys and values line up. */
  type Table<K(==), V> = d: Dict<K, V> | d.WellFormed() witness Dict([], [])

  function Empty<K(==), V>(): (d: Table<K, V>)
    ensures d.Valid() && d.keys == [] && d.values == []
  {
    Dict([], [])
  }

  /** Position of the first occurrence of `k` in `ks`. */
  function IndexOf<K(==)>(ks: seq<K>, k: K): (i: nat)
    requires k in ks
    ensures i < |ks| && ks[i] == k
    ensures forall j :: 0 <= j < i ==> ks[j] != k
  {
    if ks[0] == k then 0 else 1 + IndexOf(ks[1..], k)
  }

  /** In a dictionary without repeated keys, a key's position is its only occurrence. */
  lemma IndexOfUnique<K, V>(d: Dict<K, V>, i: nat)
    requires d.Valid() && i < |d.keys|
    ensures IndexOf(d.keys, d.keys[i]) == i
  {
  }

  /** After `d[k] = v`, `d.get(k)` is `v`. */
  lemma GetPut<K, V>(d: Dict<K, V>, k: K, v: V)
    requires d.WellFormed()
    ensures d.Put(k, v).Get(k) == Some(v)
  {
    if k !in d.keys {
      IndexOfAppend(d.keys, k);
    }
  }

  /** `d[k] = v` leaves every other key's value as it was. */
  lemma GetPutOther<K, V>(d: Dict<K, V>, k: K, v: V, x: K)
    requires d.WellFormed() && x != k
    ensures d.Put(k, v).Get(x) == d.Get(x)
  {
    if x in d.keys && k !in d.keys {
      IndexOfPrefix(d.keys, [k], x);
    }
  }

  /** After `del d[k]` on a dictionary without repeated keys, `k` is absent. */
  lemma GetRemove<K, V>(d: Dict<K, V>, k: K)
    requires d.Valid()
    ensures d.Remove(k).Get(k) == None
  {
    if k in d.keys {
      var i := IndexOf(d.keys, k);
      var r := d.Remove(k);
      forall j | 0 <= j < |r.keys|
        ensures r.keys[j] != k
      {
        if j < i {
          assert r.keys[j] == d.keys[j];
        } else {
          assert r.keys[j] == d.keys[j + 1];
        }
      }
    }
  }

  /** `del d[k]` leaves every other key's value as it was. */
  lemma GetRemoveOther<K, V>(d: Dict<K, V>, k: K, x: K)
    requires d.WellFormed() && x != k
    ensures d.Remove(k).Get(x) == d.Get(x)
  {
    if k in d.keys && x in d.keys {
      var i := IndexOf(d.keys, k);
      var n := IndexOf(d.keys, x);
      var r := d.Remove(k);
      assert r.keys == d.keys[..i] + d.keys[i + 1..];
      assert r.values == d.values[..i] + d.values[i + 1..];
      if n < i {
        IndexOfBeforeRemoved(d.keys, i, x);
        assert r.values[n] == d.values[n];
      } else {
        IndexOfAfterRemoved(d.keys, i, x);
        assert r.values[n - 1] == d.values[n];
      }
    }
  }

  lemma IndexOfBeforeRemoved<K>(ks: seq<K>, i: nat, x: K)
    requires i < |ks| && x in ks && IndexOf(ks, x) < i
    ensures IndexOf(ks[..i] + ks[i + 1..], x) == IndexOf(ks, x)
  {
    assert ks[IndexOf(ks, x)] == ks[..i][IndexOf(ks, x)];
    assert ks[..i] + ks[i..] == ks;
    IndexOfPrefix(ks[..i], ks[i..], x);
    IndexOfPrefix(ks[..i], ks[i + 1..], x);
  }

  lemma IndexOfAfterRemoved<K>(ks: seq<K>, i: nat, x: K)
    requires i < |ks| && x in ks && IndexOf(ks, x) > i
    ensures IndexOf(ks[..i] + ks[i + 1..], x) == IndexOf(ks, x) - 1
  {
    var n := IndexOf(ks, x);
    assert x !in ks[..i] by {
      forall j | 0 <= j < i
        ensures ks[..i][j] != x
      {
        assert ks[..i][j] == ks[j];
      }
    }
    assert ks[i + 1..][n - i - 1] == x;
    IndexOfSuffix(ks[..i], ks[i + 1..], x);
    IndexOfSplit(ks, i + 1, x);
  }

  /** When `x` first occurs at or after position `m`, it is found by searching from `m`. */
  lemma {:induction false} IndexOfSplit<K>(ks: seq<K>, m: nat, x: K)
    requires x in ks && m <= IndexOf(ks, x)
    ensures x in ks[m..] && IndexOf(ks, x) == m + IndexOf(ks[m..], x)
  {
    if m > 0 {
      assert ks[m..] == ks[1..][m - 1..];
      IndexOfSplit(ks[1..], m - 1, x);
    }
  }

  lemma IndexOfAppend<K>(ks: seq<K>, k: K)
    requires k !in ks
    ensures IndexOf(ks + [k], k) == |ks|
  {
    if ks != [] {
      assert (ks + [k])[1..] == ks[1..] + [k];
      IndexOfAppend(ks[1..], k);
    }
  }

  /** An occurrence in a prefix is found there. */
  lemma IndexOfPrefix<K>(a: seq<K>, b: seq<K>, x: K)
    requires x in a
    ensures IndexOf(a + b, x) == IndexOf(a, x)
  {
    if a[0] != x {
      assert (a + b)[1..] == a[1..] + b;
      IndexOfPrefix(a[1..], b, x);
    }
  }

  /** An element absent from a prefix is found after it. */
  lemma IndexOfSuffix<K>(a: seq<K>, b: seq<K>, x: K)
    requires x !in a && x in b
    ensures IndexOf(a + b, x) == |a| + IndexOf(b, x)
  {
    if a != [] {
      assert (a + b)[1..] == a[1..] + b;
      IndexOfSuffix(a[1..], b, x);
    } else {
      assert a + b == b;
    }
  }
}
