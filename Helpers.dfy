/** The two dict comprehensions of utils/helpers.py. */
module Helpers {
  import opened PyBase
  import opened PyDict

  /** `_multi_tuple_to_dict(ctx, param, value)`: the click callback turning the
      repeated `(key, value)` option pairs into a dict; `ctx` and `param` are
      not used. */
  function MultiTupleToDict<K(==), V>(value: Option<seq<(K, V)>>): (r: seq<(K, V)>)
    ensures value.None? ==> r == []
    ensures DistinctKeys(r)
    ensures value.Some? ==> Keys(r) == Keys(value.value)
    ensures forall p :: p in r ==> value.Some? && p in value.value
  {
    match value
    case None => []
    case Some(items) =>
      UpdateFacts([], items);
      assert Keys<K, V>([]) == {};
      FromItems(items)
  }

  /** Each key maps to the value of its last occurrence in the pairs. */
  lemma MultiTupleLastWins<K, V>(items: seq<(K, V)>, i: int)
    requires 0 <= i < |items|
    requires forall j :: i < j < |items| ==> items[j].0 != items[i].0
    ensures Get(MultiTupleToDict(Some(items)), items[i].0) == Some(items[i].1)
  {
    UpdateLastWins([], items, i);
  }

  /** `_remove_unused_kwargs(kwargs)`: the items whose value `is not None`,
      in their order. */
  function RemoveUnusedKwargs(kwargs: seq<(string, PyValue)>): (r: seq<(string, PyValue)>)
    ensures forall p :: p in r ==> p in kwargs && p.1 != PyNone
    ensures forall p :: p in kwargs && p.1 != PyNone ==> p in r
  {
    if |kwargs| == 0 then []
    else
      var rest := RemoveUnusedKwargs(kwargs[1..]);
      assert forall p :: p in kwargs ==> p == kwargs[0] || p in kwargs[1..];
      if kwargs[0].1 != PyNone then [kwargs[0]] + rest else rest
  }

  /** The filtered dict is still a dict. */
  lemma {:induction false} RemoveUnusedDistinct(kwargs: seq<(string, PyValue)>)
    requires DistinctKeys(kwargs)
    ensures DistinctKeys(RemoveUnusedKwargs(kwargs))
  {
    if |kwargs| > 0 {
      var rest := RemoveUnusedKwargs(kwargs[1..]);
      DistinctTail(kwargs);
      RemoveUnusedDistinct(kwargs[1..]);
      forall j | 0 <= j < |rest| ensures rest[j].0 != kwargs[0].0 {
        assert rest[j] in kwargs[1..];
      }
    }
  }

  /** Looking a key up after the filter: None-valued entries are gone, every
      other entry keeps its value. */
  lemma RemoveUnusedGet(kwargs: seq<(string, PyValue)>, k: string)
    requires DistinctKeys(kwargs)
    ensures Get(RemoveUnusedKwargs(kwargs), k) ==
      if Get(kwargs, k) == Some(PyNone) then None else Get(kwargs, k)
  {
    var r := RemoveUnusedKwargs(kwargs);
    RemoveUnusedDistinct(kwargs);
    GetFacts(kwargs, k);
    GetFacts(r, k);
    if Get(r, k).Some? {
      var v := Get(r, k).value;
      assert (k, v) in kwargs;
      var i :| 0 <= i < |kwargs| && kwargs[i] == (k, v);
      GetStored(kwargs, i);
    }
  }

  /** Falsy values that are not None (`False`, `0`, `""`, `()`) are kept. */
  lemma RemoveUnusedKeepsFalsy(kwargs: seq<(string, PyValue)>, k: string, v: PyValue)
    requires DistinctKeys(kwargs) && Get(kwargs, k) == Some(v)
    requires v in {PyBool(false), PyInt(0), PyStr(""), PyTuple([])}
    ensures Get(RemoveUnusedKwargs(kwargs), k) == Some(v)
  {
    RemoveUnusedGet(kwargs, k);
  }

  /** Filtering twice is filtering once. */
  lemma {:induction false} RemoveUnusedIdempotent(kwargs: seq<(string, PyValue)>)
    ensures RemoveUnusedKwargs(RemoveUnusedKwargs(kwargs)) == RemoveUnusedKwargs(kwargs)
  {
    if |kwargs| > 0 {
      RemoveUnusedIdempotent(kwargs[1..]);
    }
  }
}
