/** Python's `dict` (and a JavaScript object's own string keys): a mapping that
    remembers the order in which its keys were first inserted. Assigning to a
    present key keeps its place, a new key goes last, and deleting a key removes
    it from the order. */
module OrderedDict {

  datatype ODict<V> = ODict(keys: seq<string>, vals: map<string, V>)

  predicate Distinct(s: seq<string>) {
    forall i, j :: 0 <= i < j < |s| ==> s[i] != s[j]
  }

  /** The key order lists each key of the mapping exactly once. */
  ghost predicate Valid<V>(d: ODict<V>) {
    && Distinct(d.keys)
    && (forall k :: k in d.keys <==> k in d.vals)
  }

  function Empty<V>(): (r: ODict<V>)
    ensures Valid(r) && r.keys == [] && r.vals == map[]
  {
    ODict([], map[])
  }

  /** `d.get(k, default)`. */
  function Get<V>(d: ODict<V>, k: string, default: V): V {
    if k in d.vals then d.vals[k] else default
  }

  /** `d[k] = v`: a present key keeps its place, a new one is appended. */
  function Put<V>(d: ODict<V>, k: string, v: V): ODict<V> {
    if k in d.vals then ODict(d.keys, d.vals[k := v]) else ODict(d.keys + [k], d.vals[k := v])
  }

  lemma PutValid<V>(d: ODict<V>, k: string, v: V)
    requires Valid(d)
    ensures Valid(Put(d, k, v))
  {
  }

  /** The keys other than `k`, in their order. */
  function Without(keys: seq<string>, k: string): (r: seq<string>)
    ensures forall x :: x in r <==> x in keys && x != k
    ensures |r| <= |keys|
  {
    if keys == [] then []
    else if keys[0] == k then Without(keys[1..], k)
    else [keys[0]] + Without(keys[1..], k)
  }

  lemma {:induction false} WithoutDistinct(keys: seq<string>, k: string)
    requires Distinct(keys)
    ensures Distinct(Without(keys, k))
  {
    if keys != [] {
      var tail := keys[1..];
      assert Distinct(tail) by {
        forall i, j | 0 <= i < j < |tail| ensures tail[i] != tail[j] {
          assert tail[i] == keys[i + 1] && tail[j] == keys[j + 1];
        }
      }
      assert keys[0] !in tail by {
        forall j | 0 <= j < |tail| ensures tail[j] != keys[0] {
          assert tail[j] == keys[j + 1];
        }
      }
      WithoutDistinct(tail, k);
      var t := Without(tail, k);
      if keys[0] != k {
        var r := [keys[0]] + t;
        forall i, j | 0 <= i < j < |r| ensures r[i] != r[j] {
          if i > 0 {
            assert r[i] == t[i - 1] && r[j] == t[j - 1];
          } else {
            assert r[j] in t;
          }
        }
      }
    }
  }

  /** `del d[k]` (when `k` is present; nothing changes otherwise). */
  function Remove<V>(d: ODict<V>, k: string): ODict<V> {
    ODict(Without(d.keys, k), d.vals - {k})
  }

  lemma RemoveValid<V>(d: ODict<V>, k: string)
    requires Valid(d)
    ensures Valid(Remove(d, k))
  {
    WithoutDistinct(d.keys, k);
  }

  /** Removing an absent key changes nothing. */
  lemma {:induction false} WithoutAbsent(keys: seq<string>, k: string)
    requires k !in keys
    ensures Without(keys, k) == keys
  {
    if keys != [] {
      assert k !in keys[1..];
      WithoutAbsent(keys[1..], k);
    }
  }

  /** Assigning to a key leaves its place in the order, or puts it last, and
      changes the value of that key alone; `del` forgets exactly that key and
      keeps the order of the others. */
  lemma PutThenGet<V>(d: ODict<V>, k: string, v: V, other: string, default: V)
    requires Valid(d)
    ensures Get(Put(d, k, v), k, default) == v
    ensures other != k ==> Get(Put(d, k, v), other, default) == Get(d, other, default)
    ensures |Put(d, k, v).keys| == |d.keys| + (if k in d.keys then 0 else 1)
    ensures Get(Remove(d, k), k, default) == default
    ensures other != k ==> Get(Remove(d, k), other, default) == Get(d, other, default)
  {
  }
}
