/**
 * A plain JavaScript object with string keys, as the screens use it for
 * keyed state: an ordered list of entries. Keys keep the order in which
 * they were first written, and the spread update `{ ...prev, [k]: v }`
 * overwrites an existing key where it stands or appends a new one.
 */
module JsObject {
  import opened Base

  datatype Entry<V> = Entry(key: string, value: V)

  type Obj<V> = seq<Entry<V>>

  /** The keys, in property order (`Object.keys`). */
  function Keys<V>(o: Obj<V>): (ks: seq<string>)
    ensures |ks| == |o|
    ensures forall i :: 0 <= i < |o| ==> ks[i] == o[i].key
  {
    if o == [] then [] else [o[0].key] + Keys(o[1..])
  }

  /** No key occurs twice, as in any object JavaScript builds. */
  ghost predicate UniqueKeys<V>(o: Obj<V>)
  {
    forall i, j :: 0 <= i < j < |o| ==> o[i].key != o[j].key
  }

  /** Property access `o[k]`: `None` stands for `undefined`. */
  function Get<V>(o: Obj<V>, k: string): (r: Option<V>)
    ensures r.Some? <==> k in Keys(o)
    ensures r.Some? ==> exists i :: 0 <= i < |o| && o[i] == Entry(k, r.value)
  {
    if o == [] then None
    else if o[0].key == k then Some(o[0].value)
    else Get(o[1..], k)
  }

  /** `o[k]`, or `d` when the key is absent. */
  function GetOr<V>(o: Obj<V>, k: string, d: V): V
  {
    match Get(o, k)
    case Some(v) => v
    case None => d
  }

  /** `{ ...o, [k]: v }`. */
  function Put<V>(o: Obj<V>, k: string, v: V): (r: Obj<V>)
    ensures |r| == if k in Keys(o) then |o| else |o| + 1
  {
    if o == [] then [Entry(k, v)]
    else if o[0].key == k then [Entry(k, v)] + o[1..]
    else [o[0]] + Put(o[1..], k, v)
  }

  /** After the spread update the key reads back as the new value. */
  lemma {:induction false} PutGet<V>(o: Obj<V>, k: string, v: V)
    ensures Get(Put(o, k, v), k) == Some(v)
  {
    if o != [] && o[0].key != k {
      PutGet(o[1..], k, v);
    }
  }

  /** Every other key reads as before. */
  lemma {:induction false} PutOther<V>(o: Obj<V>, k: string, v: V, k': string)
    requires k' != k
    ensures Get(Put(o, k, v), k') == Get(o, k')
  {
    if o != [] && o[0].key != k {
      PutOther(o[1..], k, v, k');
    }
  }

  /** An existing key keeps its place; a new key goes last. */
  lemma {:induction false} PutKeys<V>(o: Obj<V>, k: string, v: V)
    ensures Keys(Put(o, k, v)) == if k in Keys(o) then Keys(o) else Keys(o) + [k]
  {
    if o != [] && o[0].key != k {
      PutKeys(o[1..], k, v);
      assert Keys(o) == [o[0].key] + Keys(o[1..]);
    }
  }

  /** The update never creates a duplicate key. */
  lemma PutUniqueKeys<V>(o: Obj<V>, k: string, v: V)
    requires UniqueKeys(o)
    ensures UniqueKeys(Put(o, k, v))
  {
    var r := Put(o, k, v);
    PutKeys(o, k, v);
    assert forall i :: 0 <= i < |r| ==> r[i].key == Keys(r)[i];
    assert forall i :: 0 <= i < |o| ==> o[i].key == Keys(o)[i];
  }

  /** The entries after the update are the old ones and the written one. */
  lemma {:induction false} PutEntries<V>(o: Obj<V>, k: string, v: V)
    ensures forall e :: e in Put(o, k, v) ==> e in o || e == Entry(k, v)
  {
    if o != [] && o[0].key != k {
      PutEntries(o[1..], k, v);
    }
  }

  /** Last write wins: a second write to the same key erases the first. */
  lemma {:induction false} PutPut<V>(o: Obj<V>, k: string, v1: V, v2: V)
    ensures Put(Put(o, k, v1), k, v2) == Put(o, k, v2)
  {
    if o != [] && o[0].key != k {
      PutPut(o[1..], k, v1, v2);
    }
  }

  /** The sum of the values (`Object.values(o).reduce((a, b) => a + b, 0)`). */
  function Sum(o: Obj<int>): int
  {
    if o == [] then 0 else o[0].value + Sum(o[1..])
  }

  /** Writing `v` at `k` moves the sum by `v` minus the value it replaces (0 for a new key). */
  lemma {:induction false} SumAfterPut(o: Obj<int>, k: string, v: int)
    ensures Sum(Put(o, k, v)) == Sum(o) - GetOr(o, k, 0) + v
  {
    if o != [] {
      if o[0].key != k {
        SumAfterPut(o[1..], k, v);
      }
    }
  }

  /** Writing a key the object lacks appends exactly that entry. */
  lemma {:induction false} PutAbsentAppends<V>(o: Obj<V>, k: string, v: V)
    requires k !in Keys(o)
    ensures Put(o, k, v) == o + [Entry(k, v)]
  {
    if o != [] {
      assert Keys(o)[0] == o[0].key;
      assert Keys(o[1..]) == Keys(o)[1..];
      PutAbsentAppends(o[1..], k, v);
      assert o == [o[0]] + o[1..];
    }
  }
}
