/** Python dicts keep their keys in insertion order, and the beacon code
    iterates over them (watchlist keys, decoded JSON objects). A dict is
    modelled as its list of (key, value) pairs in that order. */
module Dict {
  import opened Text

  type Dict<K, V> = seq<(K, V)>

  function Keys<K, V>(d: Dict<K, V>): (ks: seq<K>)
    ensures |ks| == |d| && forall i :: 0 <= i < |d| ==> ks[i] == d[i].0
  {
    if d == [] then [] else [d[0].0] + Keys(d[1..])
  }

  /** Every key occurs once, as in a Python dict. */
  predicate DistinctKeys<K(==), V>(d: Dict<K, V>) {
    forall i, j :: 0 <= i < j < |d| ==> d[i].0 != d[j].0
  }

  /** d.get(k): the value stored under k, or None. */
  function Get<K(==), V>(d: Dict<K, V>, k: K): (r: Option<V>)
    ensures r.None? <==> k !in Keys(d)
    ensures r.Some? ==> exists i :: 0 <= i < |d| && d[i] == (k, r.value)
  {
    if d == [] then None
    else if d[0].0 == k then Some(d[0].1)
    else
      var r := Get(d[1..], k);
      assert Keys(d) == [d[0].0] + Keys(d[1..]);
      assert r.Some? ==> exists i :: 0 <= i < |d| && d[i] == (k, r.value) by {
        if r.Some? {
          var i :| 0 <= i < |d[1..]| && d[1..][i] == (k, r.value);
          assert d[i + 1] == (k, r.value);
        }
      }
      r
  }

  lemma GetDistinct<K, V>(d: Dict<K, V>, i: nat)
    requires DistinctKeys(d) && i < |d|
    ensures Get(d, d[i].0) == Some(d[i].1)
  {
    var r := Get(d, d[i].0);
    var j :| 0 <= j < |d| && d[j] == (d[i].0, r.value);
    assert i == j;
  }

  /** The pairs after the first of a dict have distinct keys, none of
      them the first key. */
  lemma DistinctTail<K, V>(d: Dict<K, V>)
    requires DistinctKeys(d) && d != []
    ensures DistinctKeys(d[1..]) && d[0].0 !in Keys(d[1..])
  {
    var tail := d[1..];
    forall i, j | 0 <= i < j < |tail| ensures tail[i].0 != tail[j].0 {
      assert tail[i] == d[i + 1] && tail[j] == d[j + 1];
    }
    var ks := Keys(tail);
    forall m | 0 <= m < |ks| ensures ks[m] != d[0].0 {
      assert ks[m] == d[m + 1].0;
    }
  }

  /** d[k] = v: overwrites the value in place when k is present (the key
      keeps its position), appends (k, v) otherwise. */
  function Put<K(==), V>(d: Dict<K, V>, k: K, v: V): (r: Dict<K, V>)
    ensures Keys(r) == if k in Keys(d) then Keys(d) else Keys(d) + [k]
  {
    if d == [] then [(k, v)]
    else if d[0].0 == k then [(k, v)] + d[1..]
    else
      var rest := Put(d[1..], k, v);
      assert Keys(d) == [d[0].0] + Keys(d[1..]);
      assert Keys([d[0]] + rest) == [d[0].0] + Keys(rest);
      [d[0]] + rest
  }

  /** d[k] = v with a new key appends the pair at the end. */
  lemma {:induction false} PutNew<K, V>(d: Dict<K, V>, k: K, v: V)
    requires k !in Keys(d)
    ensures Put(d, k, v) == d + [(k, v)]
  {
    if d != [] {
      KeysCons(d);
      PutNew(d[1..], k, v);
      assert d + [(k, v)] == [d[0]] + (d[1..] + [(k, v)]);
    }
  }

  /** The keys of a non-empty dict: its first key, then the rest's. */
  lemma KeysCons<K, V>(d: Dict<K, V>)
    requires d != []
    ensures Keys(d) == [d[0].0] + Keys(d[1..])
  {
  }

  /** A second d[k] = v overrides the first. */
  lemma {:induction false} PutPut<K, V>(d: Dict<K, V>, k: K, v1: V, v2: V)
    ensures Put(Put(d, k, v1), k, v2) == Put(d, k, v2)
  {
    if d != [] && d[0].0 != k {
      PutPut(d[1..], k, v1, v2);
    }
  }

  /** d[k] = v stores (k, v) and keeps only pairs that were already there. */
  lemma {:induction false} PutElements<K, V>(d: Dict<K, V>, k: K, v: V)
    ensures (k, v) in Put(d, k, v)
    ensures forall p :: p in Put(d, k, v) ==> p == (k, v) || p in d
  {
    if d != [] && d[0].0 != k {
      PutElements(d[1..], k, v);
    }
  }

  /** After d[k] = v, k maps to v and every other key to what it mapped to. */
  lemma {:induction false} PutGet<K, V>(d: Dict<K, V>, k: K, v: V, k': K)
    ensures Get(Put(d, k, v), k') == if k' == k then Some(v) else Get(d, k')
  {
    if d != [] && d[0].0 != k {
      PutGet(d[1..], k, v, k');
    }
  }

  /** d[k] = v keeps the keys distinct. */
  lemma {:induction false} PutDistinct<K, V>(d: Dict<K, V>, k: K, v: V)
    requires DistinctKeys(d)
    ensures DistinctKeys(Put(d, k, v))
  {
    if d == [] {
    } else if d[0].0 == k {
      var r := Put(d, k, v);
      assert forall i :: 0 <= i < |r| ==> r[i].0 == d[i].0;
    } else {
      var rest := Put(d[1..], k, v);
      PutDistinct(d[1..], k, v);
      var tail := Keys(d[1..]);
      assert forall j :: 0 <= j < |tail| ==> tail[j] == d[j + 1].0;
      assert d[0].0 !in Keys(rest);
      var ks := Keys(rest);
      assert forall j :: 0 <= j < |rest| ==> rest[j].0 == ks[j];
    }
  }
}

/** The scalar values of a decoded JSON document, with the Python
    conversions the decoders apply to them. */
module PyValue {
  import opened Text
  import Dict

  datatype Value = JNull | JBool(b: bool) | JInt(i: int) | JStr(s: string)

  /** A JSON object whose members are scalars, in document order. */
  type Object = Dict.Dict<string, Value>

  /** str(v). */
  function PyStr(v: Value): (r: string)
  {
    match v
    case JNull => "None"
    case JBool(b) => if b then "True" else "False"
    case JInt(i) => Decimal(i)
    case JStr(s) => s
  }

  /** int(v); None where Python raises TypeError or ValueError. */
  function PyInt(v: Value): (r: Option<int>)
    ensures v.JInt? ==> r == Some(v.i)
    ensures v.JNull? ==> r.None?
  {
    match v
    case JNull => None
    case JBool(b) => Some(if b then 1 else 0)
    case JInt(i) => Some(i)
    case JStr(s) => ParseInt(s)
  }

  /** int(str(v)) gives back an integer value. */
  lemma PyIntOfPyStr(i: int)
    ensures PyInt(JStr(PyStr(JInt(i)))) == Some(i)
  {
    DecimalRoundTrip(i);
  }

  /** Python truthiness. */
  predicate Truthy(v: Value) {
    match v
    case JNull => false
    case JBool(b) => b
    case JInt(i) => i != 0
    case JStr(s) => s != ""
  }
}
