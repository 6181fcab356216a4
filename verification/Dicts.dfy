/** Python's `dict`: pairs in insertion order, each key once.
    Assigning an existing key keeps its position and takes the new value. */
module Dicts {
  import opened Prelude

  type Dict<K, V> = seq<(K, V)>

  predicate Has<K(==), V>(d: Dict<K, V>, k: K)
  {
    d != [] && (d[0].0 == k || Has(d[1..], k))
  }

  predicate Distinct<K(==), V>(d: Dict<K, V>)
  {
    d == [] || (!Has(d[1..], d[0].0) && Distinct(d[1..]))
  }

  function Get<K(==), V>(d: Dict<K, V>, k: K): (r: Option<V>)
    ensures r.Some? <==> Has(d, k)
  {
    if d == [] then None else if d[0].0 == k then Some(d[0].1) else Get(d[1..], k)
  }

  function Put<K(==), V>(d: Dict<K, V>, k: K, v: V): (r: Dict<K, V>)
    ensures Get(r, k) == Some(v)
    ensures r != []
  {
    if d == [] then [(k, v)]
    else if d[0].0 == k then [(k, v)] + d[1..]
    else [d[0]] + Put(d[1..], k, v)
  }

  function Pop<K(==), V>(d: Dict<K, V>, k: K): Dict<K, V>
  {
    if d == [] then []
    else if d[0].0 == k then d[1..]
    else [d[0]] + Pop(d[1..], k)
  }

  function Keys<K, V>(d: Dict<K, V>): (r: seq<K>)
    ensures |r| == |d|
    ensures forall i :: 0 <= i < |d| ==> r[i] == d[i].0
  {
    if d == [] then [] else [d[0].0] + Keys(d[1..])
  }

  function Values<K, V>(d: Dict<K, V>): (r: seq<V>)
    ensures |r| == |d|
    ensures forall i :: 0 <= i < |d| ==> r[i] == d[i].1
  {
    if d == [] then [] else [d[0].1] + Values(d[1..])
  }

  lemma {:induction false} PutGet<K, V>(d: Dict<K, V>, k: K, v: V, q: K)
    ensures Get(Put(d, k, v), q) == if q == k then Some(v) else Get(d, q)
  {
    if d != [] && d[0].0 != k { PutGet(d[1..], k, v, q); }
  }

  lemma {:induction false} PutHas<K, V>(d: Dict<K, V>, k: K, v: V, q: K)
    ensures Has(Put(d, k, v), q) <==> q == k || Has(d, q)
  {
    PutGet(d, k, v, q);
  }

  lemma {:induction false} PutDistinct<K, V>(d: Dict<K, V>, k: K, v: V)
    requires Distinct(d)
    ensures Distinct(Put(d, k, v))
  {
    if d != [] && d[0].0 != k {
      PutDistinct(d[1..], k, v);
      PutHas(d[1..], k, v, d[0].0);
    }
  }

  lemma {:induction false} PutKeys<K, V>(d: Dict<K, V>, k: K, v: V)
    ensures Keys(Put(d, k, v)) == if Has(d, k) then Keys(d) else Keys(d) + [k]
  {
    if d != [] && d[0].0 != k { PutKeys(d[1..], k, v); }
  }

  /** Assigning a new key appends. */
  lemma {:induction false} PutNew<K, V>(d: Dict<K, V>, k: K, v: V)
    requires !Has(d, k)
    ensures Put(d, k, v) == d + [(k, v)]
  {
    if d != [] { PutNew(d[1..], k, v); }
  }

  lemma {:induction false} PopGet<K, V>(d: Dict<K, V>, k: K, q: K)
    requires Distinct(d)
    ensures Get(Pop(d, k), q) == if q == k then None else Get(d, q)
  {
    if d != [] && d[0].0 != k { PopGet(d[1..], k, q); }
  }

  lemma {:induction false} PopDistinct<K, V>(d: Dict<K, V>, k: K)
    requires Distinct(d)
    ensures Distinct(Pop(d, k))
  {
    if d != [] && d[0].0 != k {
      PopDistinct(d[1..], k);
      PopGet(d[1..], k, d[0].0);
    }
  }

  lemma {:induction false} PutMembers<K, V>(d: Dict<K, V>, k: K, v: V)
    ensures forall i :: 0 <= i < |Put(d, k, v)| ==> Put(d, k, v)[i] == (k, v) || Put(d, k, v)[i] in d
  {
    if d != [] && d[0].0 != k {
      PutMembers(d[1..], k, v);
    }
  }

  lemma {:induction false} PopMembers<K, V>(d: Dict<K, V>, k: K)
    ensures forall i :: 0 <= i < |Pop(d, k)| ==> Pop(d, k)[i] in d
  {
    if d != [] && d[0].0 != k { PopMembers(d[1..], k); }
  }

  lemma {:induction false} HasAppend<K, V>(d: Dict<K, V>, e: Dict<K, V>, k: K)
    ensures Has(d + e, k) <==> Has(d, k) || Has(e, k)
  {
    if d == [] {
      assert d + e == e;
    } else {
      HasAppend(d[1..], e, k);
      assert (d + e)[1..] == d[1..] + e;
    }
  }

  lemma {:induction false} HasKeys<K, V>(d: Dict<K, V>, k: K)
    ensures Has(d, k) <==> k in Keys(d)
  {
    if d != [] { HasKeys(d[1..], k); }
  }

  lemma {:induction false} DistinctByKeys<K, V>(d: Dict<K, V>)
    requires forall i, j :: 0 <= i < j < |d| ==> d[i].0 != d[j].0
    ensures Distinct(d)
  {
    if d != [] {
      DistinctByKeys(d[1..]);
      HasKeys(d[1..], d[0].0);
    }
  }

  // ---- a dict whose values carry their keys -----------------------------------------------

  predicate KeyedBy<V>(d: Dict<string, V>, key: V -> string)
  {
    d == [] || (d[0].0 == key(d[0].1) && KeyedBy(d[1..], key))
  }

  lemma {:induction false} PutKeyed<V>(d: Dict<string, V>, v: V, key: V -> string)
    requires KeyedBy(d, key)
    ensures KeyedBy(Put(d, key(v), v), key)
  {
    if d != [] && d[0].0 != key(v) { PutKeyed(d[1..], v, key); }
  }

  lemma {:induction false} PopKeyed<V>(d: Dict<string, V>, k: string, key: V -> string)
    requires KeyedBy(d, key)
    ensures KeyedBy(Pop(d, k), key)
  {
    if d != [] && d[0].0 != k { PopKeyed(d[1..], k, key); }
  }

  /** One value for every key, in the order of the keys, each the answer to its own. */
  predicate AnswersForAll<V(==)>(values: seq<V>, d: Dict<string, V>, key: V -> string)
  {
    && |values| == |d|
    && (forall i :: 0 <= i < |values| ==> key(values[i]) == d[i].0 && Get(d, key(values[i])) == Some(values[i]))
    && forall i, j :: 0 <= i < j < |values| ==> key(values[i]) != key(values[j])
  }

  lemma {:induction false} ValuesAnswer<V>(d: Dict<string, V>, key: V -> string)
    requires Distinct(d) && KeyedBy(d, key)
    ensures AnswersForAll(Values(d), d, key)
  {
    if d != [] {
      var t, vs := d[1..], Values(d);
      ValuesAnswer(t, key);
      HasKeys(t, d[0].0);
      assert Values(t) == vs[1..];
      forall i | 0 <= i < |vs|
        ensures key(vs[i]) == d[i].0 && Get(d, key(vs[i])) == Some(vs[i])
        ensures i > 0 ==> key(vs[0]) != key(vs[i])
      {
        if i > 0 { assert vs[i] == Values(t)[i - 1] && Keys(t)[i - 1] == d[i].0; }
      }
      forall i, j | 0 <= i < j < |vs| ensures key(vs[i]) != key(vs[j]) {
        if i > 0 { assert vs[i] == Values(t)[i - 1] && vs[j] == Values(t)[j - 1]; }
      }
    }
  }

  // ---- a dict filled by one pass over a list ----------------------------------------------

  /** Every element that has a key assigns its value to that key, in list order. */
  function Collect<T, V>(s: seq<T>, key: T -> Option<string>, val: T -> V): Dict<string, V>
  {
    if s == [] then []
    else
      var n := |s| - 1;
      match key(s[n])
      case None => Collect(s[..n], key, val)
      case Some(k) => Put(Collect(s[..n], key, val), k, val(s[n]))
  }

  /** i is the last element with key k. */
  predicate LastWith<T>(s: seq<T>, key: T -> Option<string>, k: string, i: nat)
  {
    i < |s| && key(s[i]) == Some(k) && forall j :: i < j < |s| ==> key(s[j]) != Some(k)
  }

  /** i is the first element with key k. */
  predicate FirstWith<T>(s: seq<T>, key: T -> Option<string>, k: string, i: nat)
  {
    i < |s| && key(s[i]) == Some(k) && forall j :: 0 <= j < i ==> key(s[j]) != Some(k)
  }

  predicate NoneWith<T>(s: seq<T>, key: T -> Option<string>, k: string)
  {
    forall j :: 0 <= j < |s| ==> key(s[j]) != Some(k)
  }

  lemma EndsWithKey<T>(s: seq<T>, key: T -> Option<string>, k: string)
    requires s != [] && key(s[|s| - 1]) == Some(k)
    ensures !NoneWith(s, key, k)
    ensures forall i: nat :: LastWith(s, key, k, i) ==> i == |s| - 1
  {}

  lemma EndsWithoutKey<T>(s: seq<T>, key: T -> Option<string>, k: string)
    requires s != [] && key(s[|s| - 1]) != Some(k)
    ensures NoneWith(s, key, k) <==> NoneWith(s[..|s| - 1], key, k)
    ensures forall i: nat :: LastWith(s, key, k, i) ==> LastWith(s[..|s| - 1], key, k, i)
  {
    var t := s[..|s| - 1];
    if NoneWith(t, key, k) {
      forall j | 0 <= j < |s| ensures key(s[j]) != Some(k) { if j < |t| { assert t[j] == s[j]; } }
    }
  }

  /** A key answers with the value of its last element, and answers at all only if it has one. */
  lemma {:induction false} CollectKeepsLast<T, V>(s: seq<T>, key: T -> Option<string>, val: T -> V, k: string)
    ensures Get(Collect(s, key, val), k).None? <==> NoneWith(s, key, k)
    ensures forall i: nat :: LastWith(s, key, k, i) ==> Get(Collect(s, key, val), k) == Some(val(s[i]))
  {
    if s != [] {
      var n := |s| - 1;
      CollectKeepsLast(s[..n], key, val, k);
      CollectStep(s, key, val, k);
      if key(s[n]) == Some(k) { EndsWithKey(s, key, k); } else { EndsWithoutKey(s, key, k); }
      forall i: nat | LastWith(s, key, k, i) ensures Get(Collect(s, key, val), k) == Some(val(s[i])) {
        if key(s[n]) != Some(k) { assert s[..n][i] == s[i]; }
      }
    }
  }

  lemma CollectStep<T, V>(s: seq<T>, key: T -> Option<string>, val: T -> V, k: string)
    requires s != []
    ensures var n := |s| - 1;
            Get(Collect(s, key, val), k)
            == if key(s[n]) == Some(k) then Some(val(s[n])) else Get(Collect(s[..n], key, val), k)
  {
    var n := |s| - 1;
    if key(s[n]).Some? { PutGet(Collect(s[..n], key, val), key(s[n]).value, val(s[n]), k); }
  }

  /** The keys are distinct and stand in the order of their first elements. */
  ghost predicate InFirstOrder<T>(keys: seq<string>, s: seq<T>, key: T -> Option<string>)
  {
    && (forall a, b :: 0 <= a < b < |keys| ==> keys[a] != keys[b])
    && (forall a, b, i: nat, j: nat ::
          0 <= a < b < |keys| && FirstWith(s, key, keys[a], i) && FirstWith(s, key, keys[b], j) ==> i < j)
  }

  lemma {:induction false} CollectKeysInFirstOrder<T, V>(s: seq<T>, key: T -> Option<string>, val: T -> V)
    ensures InFirstOrder(Keys(Collect(s, key, val)), s, key)
  {
    if s != [] {
      var n := |s| - 1;
      CollectKeysInFirstOrder(s[..n], key, val);
      var before := Collect(s[..n], key, val);
      forall k, i: nat | k in Keys(before) && FirstWith(s, key, k, i) ensures FirstWith(s[..n], key, k, i) {
        HasKeys(before, k);
        CollectKeepsLast(s[..n], key, val, k);
        var j :| 0 <= j < n && key(s[..n][j]) == Some(k);
        assert s[j] == s[..n][j];
      }
      if key(s[n]).Some? {
        forall k ensures Has(before, k) <==> !NoneWith(s[..n], key, k) { CollectKeepsLast(s[..n], key, val, k); }
        KeysStayInOrder(before, s, key, val(s[n]));
      }
    }
  }

  lemma KeysStayInOrder<T, V>(d: Dict<string, V>, s: seq<T>, key: T -> Option<string>, v: V)
    requires s != [] && key(s[|s| - 1]).Some?
    requires InFirstOrder(Keys(d), s[..|s| - 1], key)
    requires forall k, i: nat :: k in Keys(d) && FirstWith(s, key, k, i) ==> FirstWith(s[..|s| - 1], key, k, i)
    requires forall k :: Has(d, k) <==> !NoneWith(s[..|s| - 1], key, k)
    ensures InFirstOrder(Keys(Put(d, key(s[|s| - 1]).value, v)), s, key)
  {
    var n := |s| - 1;
    var k := key(s[n]).value;
    var before, after := Keys(d), Keys(Put(d, k, v));
    PutKeys(d, k, v);
    HasKeys(d, k);
    forall a, b, i: nat, j: nat |
      0 <= a < b < |after| && FirstWith(s, key, after[a], i) && FirstWith(s, key, after[b], j)
      ensures i < j
    {
      assert after[a] == before[a] && before[a] in before;
      if b < |before| {
        assert before[b] in before;
      } else {
        forall m | 0 <= m < n ensures key(s[m]) != Some(k) { assert s[..n][m] == s[m]; }
      }
    }
  }

  lemma {:induction false} GetAtPosition<K, V>(d: Dict<K, V>, n: nat)
    requires n < |d| && forall a, b :: 0 <= a < b < |d| ==> Keys(d)[a] != Keys(d)[b]
    ensures Get(d, Keys(d)[n]) == Some(Values(d)[n])
  {
    if n > 0 {
      assert Keys(d)[0] != Keys(d)[n];
      forall a, b | 0 <= a < b < |d[1..]| ensures Keys(d[1..])[a] != Keys(d[1..])[b] {
        assert Keys(d)[a + 1] != Keys(d)[b + 1];
      }
      GetAtPosition(d[1..], n - 1);
    }
  }

  lemma {:induction false} FindLast<T>(s: seq<T>, key: T -> Option<string>, k: string) returns (i: nat)
    requires !NoneWith(s, key, k)
    ensures LastWith(s, key, k, i)
  {
    var n := |s| - 1;
    if key(s[n]) == Some(k) {
      i := n;
    } else {
      var j :| 0 <= j < |s| && key(s[j]) == Some(k);
      assert s[..n][j] == s[j];
      i := FindLast(s[..n], key, k);
    }
  }

  /** The keys of the first f elements. */
  function KeysBefore<T>(s: seq<T>, f: nat, key: T -> Option<string>): set<string>
    requires f <= |s|
  {
    if f == 0 then {}
    else KeysBefore(s, f - 1, key) + if key(s[f - 1]).Some? then {key(s[f - 1]).value} else {}
  }

  /** The set holds the keys of the dict, and they are as many. */
  ghost predicate HoldsKeys<V>(keys: set<string>, d: Dict<string, V>)
  {
    |keys| == |d| && forall q :: q in keys <==> Has(d, q)
  }

  lemma PutHoldsKeys<V>(keys: set<string>, d: Dict<string, V>, k: string, v: V)
    requires HoldsKeys(keys, d)
    ensures HoldsKeys(keys + {k}, Put(d, k, v))
  {
    PutKeys(d, k, v);
    assert |Keys(Put(d, k, v))| == |Put(d, k, v)|;
    if k in keys { assert keys + {k} == keys; }
    forall q ensures Has(Put(d, k, v), q) <==> q == k || Has(d, q) { PutHas(d, k, v, q); }
  }

  lemma {:induction false} KeysBeforeAreCollected<T, V>(s: seq<T>, f: nat, key: T -> Option<string>, val: T -> V)
    requires f <= |s|
    ensures HoldsKeys(KeysBefore(s, f, key), Collect(s[..f], key, val))
  {
    if f > 0 {
      var n := f - 1;
      KeysBeforeAreCollected(s, n, key, val);
      assert s[..f][..n] == s[..n];
      if key(s[n]).Some? {
        PutHoldsKeys(KeysBefore(s, n, key), Collect(s[..n], key, val), key(s[n]).value, val(s[n]));
      } else {
        assert KeysBefore(s, f, key) == KeysBefore(s, n, key);
      }
    }
  }

  lemma {:induction false} CollectedKeysGrow<T, V>(s: seq<T>, f: nat, key: T -> Option<string>, val: T -> V)
    requires f <= |s|
    ensures Keys(Collect(s[..f], key, val)) <= Keys(Collect(s, key, val))
    decreases |s| - f
  {
    if f == |s| {
      assert s[..f] == s;
    } else {
      CollectedKeysGrow(s, f + 1, key, val);
      assert s[..f + 1][..f] == s[..f];
      if key(s[f]).Some? { PutKeys(Collect(s[..f], key, val), key(s[f]).value, val(s[f])); }
    }
  }

  /** A key stands behind exactly the keys that occur before its first element. */
  lemma KeyPosition<T, V>(s: seq<T>, key: T -> Option<string>, val: T -> V, k: string, f: nat)
    requires FirstWith(s, key, k, f)
    ensures var n := |KeysBefore(s, f, key)|; n < |Collect(s, key, val)| && Keys(Collect(s, key, val))[n] == k
  {
    KeysBeforeAreCollected(s, f, key, val);
    CollectKeepsLast(s[..f], key, val, k);
    assert s[..f + 1][..f] == s[..f];
    PutKeys(Collect(s[..f], key, val), k, val(s[f]));
    CollectedKeysGrow(s, f + 1, key, val);
  }

  /** The n-th value of the filled dict is that of the last element whose key is n-th in order of first
      occurrence. */
  lemma NthValueIsFinal<T, V>(s: seq<T>, key: T -> Option<string>, val: T -> V, n: nat)
    requires n < |Collect(s, key, val)|
    ensures var d := Collect(s, key, val);
            && InFirstOrder(Keys(d), s, key)
            && exists i: nat :: LastWith(s, key, Keys(d)[n], i) && Values(d)[n] == val(s[i])
  {
    var d := Collect(s, key, val);
    CollectKeysInFirstOrder(s, key, val);
    var k := Keys(d)[n];
    GetAtPosition(d, n);
    CollectKeepsLast(s, key, val, k);
    var i := FindLast(s, key, k);
  }
}
