/** Python's `dict` as an insertion-ordered sequence of (key, value) pairs:
    assigning to a key already present replaces its value in place, a new key
    goes to the end. `os.environ` and the dict comprehensions of the shim are
    modelled with it, because the shim's results depend on that order. */
module PyDict {
  import opened PyBase

  /** `os.environ`: names to values, in insertion order. */
  type Environ = seq<(string, string)>

  /** A well-formed dict: no key stored twice. */
  predicate DistinctKeys<K(==), V>(d: seq<(K, V)>) {
    forall i, j :: 0 <= i < j < |d| ==> d[i].0 != d[j].0
  }

  /** `set(d.keys())`, or the set of first components of a list of pairs. */
  function Keys<K, V>(d: seq<(K, V)>): set<K> {
    set i | 0 <= i < |d| :: d[i].0
  }

  /** `list(d.values())` */
  function Values<K, V>(d: seq<(K, V)>): (vs: seq<V>)
    ensures |vs| == |d| && forall i :: 0 <= i < |d| ==> vs[i] == d[i].1
  {
    if |d| == 0 then [] else [d[0].1] + Values(d[1..])
  }

  /** `d.get(k)`: the value stored under `k`, or None. */
  function Get<K(==), V>(d: seq<(K, V)>, k: K): Option<V> {
    if |d| == 0 then None
    else if d[0].0 == k then Some(d[0].1)
    else Get(d[1..], k)
  }

  lemma KeysCons<K, V>(d: seq<(K, V)>)
    requires |d| > 0
    ensures Keys(d) == {d[0].0} + Keys(d[1..])
  {
    forall x | x in Keys(d) ensures x in {d[0].0} + Keys(d[1..]) {
      var i :| 0 <= i < |d| && d[i].0 == x;
      if i > 0 { assert d[1..][i - 1] == d[i]; }
    }
    forall x | x in Keys(d[1..]) ensures x in Keys(d) {
      var i :| 0 <= i < |d[1..]| && d[1..][i].0 == x;
      assert d[i + 1] == d[1..][i];
    }
  }

  lemma DistinctTail<K, V>(d: seq<(K, V)>)
    requires |d| > 0 && DistinctKeys(d)
    ensures DistinctKeys(d[1..]) && d[0].0 !in Keys(d[1..])
  {
    forall i, j | 0 <= i < j < |d[1..]| ensures d[1..][i].0 != d[1..][j].0 {
      assert d[1..][i] == d[i + 1] && d[1..][j] == d[j + 1];
    }
    forall j | 0 <= j < |d[1..]| ensures d[1..][j].0 != d[0].0 {
      assert d[1..][j] == d[j + 1];
    }
  }

  /** `Get` finds exactly the stored keys, and what it finds is a stored pair. */
  lemma {:induction false} GetFacts<K, V>(d: seq<(K, V)>, k: K)
    ensures Get(d, k).Some? <==> k in Keys(d)
    ensures Get(d, k).Some? ==> (k, Get(d, k).value) in d
  {
    if |d| > 0 {
      KeysCons(d);
      GetFacts(d[1..], k);
    }
  }

  /** In a dict every stored pair is what `Get` finds under its key. */
  lemma {:induction false} GetStored<K, V>(d: seq<(K, V)>, i: int)
    requires DistinctKeys(d) && 0 <= i < |d|
    ensures Get(d, d[i].0) == Some(d[i].1)
  {
    if i > 0 {
      assert d[0].0 != d[i].0;
      assert d[1..][i - 1] == d[i];
      DistinctTail(d);
      GetStored(d[1..], i - 1);
    }
  }

  /** `d[k] = v` */
  function Put<K(==), V>(d: seq<(K, V)>, k: K, v: V): seq<(K, V)> {
    if |d| == 0 then [(k, v)]
    else if d[0].0 == k then [(k, v)] + d[1..]
    else [d[0]] + Put(d[1..], k, v)
  }

  /** After `d[k] = v`: `k` holds `v` and every other key its old value; the
      keys are the old ones and `k`; a dict stays a dict; and every stored
      pair is an old one or the new one. */
  lemma {:induction false} PutFacts<K, V>(d: seq<(K, V)>, k: K, v: V)
    ensures forall k' :: Get(Put(d, k, v), k') == if k' == k then Some(v) else Get(d, k')
    ensures Keys(Put(d, k, v)) == Keys(d) + {k}
    ensures DistinctKeys(d) ==> DistinctKeys(Put(d, k, v))
    ensures forall p :: p in Put(d, k, v) ==> p in d || p == (k, v)
  {
    var r := Put(d, k, v);
    if |d| == 0 {
    } else if d[0].0 == k {
      KeysCons(d);
      KeysCons(r);
      assert r[1..] == d[1..];
      if DistinctKeys(d) {
        DistinctTail(d);
        forall i, j | 0 <= i < j < |r| ensures r[i].0 != r[j].0 {
          if i == 0 {
            assert r[j] == d[1..][j - 1];
          } else {
            assert r[i] == d[i] && r[j] == d[j];
          }
        }
      }
    } else {
      var tail := Put(d[1..], k, v);
      PutFacts(d[1..], k, v);
      assert r == [d[0]] + tail;
      KeysCons(d);
      KeysCons(r);
      assert r[1..] == tail;
      if DistinctKeys(d) {
        DistinctTail(d);
        forall i, j | 0 <= i < j < |r| ensures r[i].0 != r[j].0 {
          if i == 0 {
            assert r[j] == tail[j - 1];
            assert r[j].0 in Keys(tail);
          } else {
            assert r[i] == tail[i - 1] && r[j] == tail[j - 1];
          }
        }
      }
    }
  }

  /** `d.update(items)`, and the loop of a dict comprehension: each pair, from
      the first to the last, assigned with `Put`. */
  function Update<K(==), V>(d: seq<(K, V)>, items: seq<(K, V)>): seq<(K, V)>
    decreases |items|
  {
    if |items| == 0 then d
    else Update(Put(d, items[0].0, items[0].1), items[1..])
  }

  /** `{k: v for k, v in items}` */
  function FromItems<K(==), V>(items: seq<(K, V)>): seq<(K, V)> {
    Update([], items)
  }

  /** The keys after an update are the old keys and the keys of the items; a
      dict stays a dict; and every stored pair is an old pair or an item. */
  lemma {:induction false} UpdateFacts<K, V>(d: seq<(K, V)>, items: seq<(K, V)>)
    ensures Keys(Update(d, items)) == Keys(d) + Keys(items)
    ensures DistinctKeys(d) ==> DistinctKeys(Update(d, items))
    ensures forall p :: p in Update(d, items) ==> p in d || p in items
    decreases |items|
  {
    if |items| > 0 {
      var d' := Put(d, items[0].0, items[0].1);
      PutFacts(d, items[0].0, items[0].1);
      UpdateFacts(d', items[1..]);
      KeysCons(items);
      forall p | p in Update(d, items) ensures p in d || p in items {
        if p in items[1..] {
          var j :| 0 <= j < |items[1..]| && items[1..][j] == p;
          assert items[j + 1] == p;
        }
      }
    }
  }

  /** A key that no item carries keeps its old lookup. */
  lemma {:induction false} UpdateUntouched<K, V>(d: seq<(K, V)>, items: seq<(K, V)>, k: K)
    requires k !in Keys(items)
    ensures Get(Update(d, items), k) == Get(d, k)
    decreases |items|
  {
    if |items| > 0 {
      KeysCons(items);
      PutFacts(d, items[0].0, items[0].1);
      UpdateUntouched(Put(d, items[0].0, items[0].1), items[1..], k);
    }
  }

  /** Each key of the items ends up with the value of its last occurrence. */
  lemma {:induction false} UpdateLastWins<K, V>(d: seq<(K, V)>, items: seq<(K, V)>, i: int)
    requires 0 <= i < |items|
    requires forall j :: i < j < |items| ==> items[j].0 != items[i].0
    ensures Get(Update(d, items), items[i].0) == Some(items[i].1)
    decreases |items|
  {
    var d' := Put(d, items[0].0, items[0].1);
    PutFacts(d, items[0].0, items[0].1);
    if i == 0 {
      assert items[0].0 !in Keys(items[1..]) by {
        forall j | 0 <= j < |items[1..]| ensures items[1..][j].0 != items[0].0 {
          assert items[1..][j] == items[j + 1];
        }
      }
      UpdateUntouched(d', items[1..], items[0].0);
    } else {
      assert items[1..][i - 1] == items[i];
      forall j | i - 1 < j < |items[1..]| ensures items[1..][j].0 != items[1..][i - 1].0 {
        assert items[1..][j] == items[j + 1];
      }
      UpdateLastWins(d', items[1..], i - 1);
    }
  }

  /** `d.update(items)` with a dict: every key of the dict takes its value
      there. */
  lemma UpdateFromDict<K, V>(d: seq<(K, V)>, items: seq<(K, V)>, k: K)
    requires DistinctKeys(items) && k in Keys(items)
    ensures Get(Update(d, items), k) == Get(items, k)
  {
    var i :| 0 <= i < |items| && items[i].0 == k;
    GetStored(items, i);
    UpdateLastWins(d, items, i);
  }
}
