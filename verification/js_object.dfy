/**
 * A plain JavaScript object used as a dictionary (`Record<string, V>`): its
 * own string keys in insertion order and the value under each. Both
 * `Object.values` and `Object.entries` list the keys in insertion order.
 */
module JsObject {

  datatype Obj<V> = Obj(keys: seq<string>, values: map<string, V>) {
    /** Keys are listed once each, and exactly the keys that hold a value are listed. */
    predicate Valid() {
      && (forall i, j :: 0 <= i < j < |keys| ==> keys[i] != keys[j])
      && (forall k :: k in values ==> k in keys)
      && (forall k :: k in keys ==> k in values)
    }
  }

  /** `{}` */
  function Empty<V>(): (r: Obj<V>)
    ensures r.Valid() && r.keys == [] && r.values == map[]
  {
    Obj([], map[])
  }

  /** `o[k] = v`: overwrites in place when `k` exists, otherwise appends `k`. */
  function Put<V>(o: Obj<V>, k: string, v: V): (r: Obj<V>)
    requires o.Valid()
    ensures r.Valid()
    ensures r.values == o.values[k := v]
    ensures k in o.values ==> r.keys == o.keys
    ensures k !in o.values ==> r.keys == o.keys + [k]
  {
    if k in o.values then Obj(o.keys, o.values[k := v]) else Obj(o.keys + [k], o.values[k := v])
  }

  /** `Object.entries(o)` */
  function Entries<V>(o: Obj<V>): (r: seq<(string, V)>)
    requires o.Valid()
    ensures |r| == |o.keys|
    ensures forall i :: 0 <= i < |r| ==> r[i].0 == o.keys[i] && r[i].1 == o.values[o.keys[i]]
  {
    seq(|o.keys|, i requires 0 <= i < |o.keys| => (o.keys[i], o.values[o.keys[i]]))
  }

  /** `Object.values(o)` */
  function Values<V>(o: Obj<V>): (r: seq<V>)
    requires o.Valid()
    ensures |r| == |o.keys|
    ensures forall i :: 0 <= i < |r| ==> r[i] == o.values[o.keys[i]]
  {
    seq(|o.keys|, i requires 0 <= i < |o.keys| => o.values[o.keys[i]])
  }

  /** Writing a key twice leaves what writing the second value once leaves. */
  lemma PutTwice<V>(o: Obj<V>, k: string, v1: V, v2: V)
    requires o.Valid()
    ensures Put(Put(o, k, v1), k, v2) == Put(o, k, v2)
  {
    assert o.values[k := v1][k := v2] == o.values[k := v2];
  }

  /** Overwriting an existing key replaces its value in `Object.values` at the key's position. */
  lemma ValuesPutExisting<V>(o: Obj<V>, i: nat, v: V)
    requires o.Valid() && i < |o.keys|
    ensures Values(Put(o, o.keys[i], v)) == Values(o)[i := v]
  {
    var r := Put(o, o.keys[i], v);
    forall j | 0 <= j < |o.keys| ensures Values(r)[j] == Values(o)[i := v][j] {
      if j != i {
        assert o.keys[j] != o.keys[i];
      }
    }
  }

  /** Adding a new key appends its value to `Object.values`. */
  lemma ValuesPutNew<V>(o: Obj<V>, k: string, v: V)
    requires o.Valid() && k !in o.values
    ensures Values(Put(o, k, v)) == Values(o) + [v]
  {
    var r := Put(o, k, v);
    forall j | 0 <= j < |o.keys| ensures Values(r)[j] == Values(o)[j] {
      assert o.keys[j] in o.values;
    }
  }

  /** `es.reduce((acc, [k, v]) => { acc[k] = v; return acc }, {})` */
  function FromEntries<V>(es: seq<(string, V)>): (r: Obj<V>)
    ensures r.Valid()
    ensures forall k :: k in r.values <==> exists i :: 0 <= i < |es| && es[i].0 == k
  {
    if es == [] then Empty()
    else
      var acc := FromEntries(es[..|es| - 1]);
      assert forall i :: 0 <= i < |es| - 1 ==> es[..|es| - 1][i] == es[i];
      Put(acc, es[|es| - 1].0, es[|es| - 1].1)
  }

  /** `o` without its last key. */
  function DropLast<V>(o: Obj<V>): (r: Obj<V>)
    requires o.Valid() && |o.keys| > 0
    ensures r.Valid()
    ensures o.keys[|o.keys| - 1] !in r.values
  {
    var n := |o.keys|;
    var last := o.keys[n - 1];
    var r := Obj(o.keys[..n - 1], o.values - {last});
    assert r.Valid() by {
      forall k | k in r.values ensures k in r.keys {
        var i :| 0 <= i < n && o.keys[i] == k;
        assert i != n - 1;
        assert r.keys[i] == k;
      }
    }
    r
  }

  /** Dropping the last key drops the last entry. */
  lemma DropLastEntries<V>(o: Obj<V>)
    requires o.Valid() && |o.keys| > 0
    ensures Entries(DropLast(o)) == Entries(o)[..|o.keys| - 1]
  {
    var n := |o.keys|;
    var last := o.keys[n - 1];
    var r := DropLast(o);
    assert r.keys == o.keys[..n - 1] && r.values == o.values - {last};
    forall i | 0 <= i < n - 1 ensures Entries(r)[i] == Entries(o)[i] {
      assert o.keys[i] != last;
      assert r.keys[i] == o.keys[i];
    }
  }

  /** Putting the last entry back restores the object. */
  lemma DropLastPut<V>(o: Obj<V>)
    requires o.Valid() && |o.keys| > 0
    ensures o == Put(DropLast(o), o.keys[|o.keys| - 1], o.values[o.keys[|o.keys| - 1]])
  {
    var n := |o.keys|;
    var last := o.keys[n - 1];
    var r := DropLast(o);
    assert r.keys == o.keys[..n - 1] && r.values == o.values - {last};
    assert o.keys == r.keys + [last];
    assert o.values == r.values[last := o.values[last]];
  }

  /** Adding a new key appends its entry to `Object.entries`. */
  lemma EntriesPutNew<V>(o: Obj<V>, k: string, v: V)
    requires o.Valid() && k !in o.values
    ensures Entries(Put(o, k, v)) == Entries(o) + [(k, v)]
  {
    var r := Put(o, k, v);
    assert r.keys == o.keys + [k];
    forall j | 0 <= j < |o.keys| ensures Entries(r)[j] == Entries(o)[j] {
      assert o.keys[j] in o.values;
      assert o.keys[j] != k;
    }
  }

  /** A key no entry carries is not a key of the object built from them. */
  lemma AbsentKey<V>(es: seq<(string, V)>, k: string)
    requires forall i :: 0 <= i < |es| ==> es[i].0 != k
    ensures k !in FromEntries(es).values
  {
  }

  /** The reduce over entries with one more entry writes that entry last. */
  lemma FromEntriesSnoc<V>(es: seq<(string, V)>, k: string, v: V)
    ensures FromEntries(es + [(k, v)]) == Put(FromEntries(es), k, v)
  {
    assert (es + [(k, v)])[..|es|] == es;
  }

  /** Rebuilding an object from its own entries gives the object back. */
  lemma {:induction false} FromEntriesOfEntries<V>(o: Obj<V>)
    requires o.Valid()
    ensures FromEntries(Entries(o)) == o
    decreases |o.keys|
  {
    var n := |o.keys|;
    if n == 0 {
      assert o.values.Keys == {};
    } else {
      var es := Entries(o);
      var rest := DropLast(o);
      DropLastEntries(o);
      DropLastPut(o);
      FromEntriesOfEntries(rest);
      assert FromEntries(es) == Put(FromEntries(es[..n - 1]), es[n - 1].0, es[n - 1].1);
    }
  }

  /** The keys of a list of entries, each listed once. */
  predicate DistinctKeys<V>(es: seq<(string, V)>) {
    forall i, j :: 0 <= i < j < |es| ==> es[i].0 != es[j].0
  }

  /** Building an object from entries with distinct keys and listing its entries gives them back, in order. */
  lemma {:induction false} EntriesOfFromEntries<V>(es: seq<(string, V)>)
    requires DistinctKeys(es)
    ensures Entries(FromEntries(es)) == es
  {
    if es != [] {
      var n := |es|;
      var p := es[..n - 1];
      var (k, v) := es[n - 1];
      assert es == p + [(k, v)];
      assert DistinctKeys(p) by {
        forall i, j | 0 <= i < j < |p| ensures p[i].0 != p[j].0 {
          assert p[i] == es[i] && p[j] == es[j];
        }
      }
      EntriesOfFromEntries(p);
      forall i | 0 <= i < |p| ensures p[i].0 != k {
        assert p[i] == es[i];
      }
      AbsentKey(p, k);
      FromEntriesSnoc(p, k, v);
      EntriesPutNew(FromEntries(p), k, v);
    }
  }
}
