/** The recursive dict merge `_update(d, u)` that both in-memory XCom stores
    use (utils/dict_xcom_backend.py and util/execute_any_operator.py): for
    each item of `u`, a dict value is merged into the target's entry for that
    key (an empty dict when there is none), any other value overwrites it. */
module DeepMerge {
  import opened PyBase

  /** A value inside a nested dict: a dict, or anything that is not a dict. */
  datatype Tree<K, V> = Leaf(value: V) | Dict(children: map<K, Tree<K, V>>)

  /** `d.get(k, {})` */
  function Child<K, V>(d: map<K, Tree<K, V>>, k: K): Tree<K, V> {
    if k in d then d[k] else Dict(map[])
  }

  /** `_update(d, u)` returns normally. On a target that is not a dict the
      loop body cannot run (`d.get` and `d[k] = …` raise), so only an empty
      `u` is accepted there. */
  predicate Mergeable<K, V>(d: Tree<K, V>, u: map<K, Tree<K, V>>)
    decreases Dict(u)
  {
    if d.Leaf? then u == map[]
    else forall k :: k in u && u[k].Dict? ==> Mergeable(Child(d.children, k), u[k].children)
  }

  /** What `_update(d, u)` leaves in `d`, and returns, when it returns. */
  function Merged<K, V>(d: Tree<K, V>, u: map<K, Tree<K, V>>): Tree<K, V>
    requires Mergeable(d, u)
    decreases Dict(u)
  {
    if d.Leaf? then d
    else Dict(map k | k in d.children.Keys + u.Keys ::
      if k !in u then d.children[k]
      else if u[k].Dict? then Merged(Child(d.children, k), u[k].children)
      else u[k])
  }

  /** The exception the first item `(k, w)` of `u` raises on a target that is
      not a dict: `d.get(k, {})` for a dict `w` (no `get` attribute), the
      assignment `d[k] = w` otherwise (no item assignment). */
  function ItemError<K, V>(w: Tree<K, V>): PyError {
    if w.Dict? then AttributeError else TypeError
  }

  /** `_update(d, u)` can raise `e` for some order of the items of `u` (and of
      the dicts nested in it): the first item that reaches a target that is
      not a dict decides the exception. */
  predicate MayRaise<K, V>(d: Tree<K, V>, u: map<K, Tree<K, V>>, e: PyError)
    decreases Dict(u)
  {
    if d.Leaf? then exists k :: k in u && e == ItemError(u[k])
    else exists k :: k in u && u[k].Dict? && MayRaise(Child(d.children, k), u[k].children, e)
  }

  /** The entry of the merge result under one key of a dict target. */
  function MergedEntry<K, V>(d: map<K, Tree<K, V>>, u: map<K, Tree<K, V>>, k: K): Tree<K, V>
    requires k in u && (u[k].Dict? ==> Mergeable(Child(d, k), u[k].children))
  {
    if u[k].Dict? then Merged(Child(d, k), u[k].children) else u[k]
  }

  /** `_update`: the loop over the items of `u`, assigning into the target as
      it goes and recursing on dict values. The target is threaded through as
      a value and returned. */
  method Update<K, V>(d: Tree<K, V>, u: map<K, Tree<K, V>>) returns (r: Outcome<Tree<K, V>>)
    ensures r.Ok? <==> Mergeable(d, u)
    ensures r.Ok? ==> r.value == Merged(d, u)
    ensures r.Raise? ==> MayRaise(d, u, r.error)
    decreases Dict(u)
  {
    var cur := d;
    var done: set<K> := {};
    var rest := u.Keys;
    while rest != {}
      invariant done <= u.Keys && rest == u.Keys - done
      invariant d.Leaf? ==> cur == d && done == {}
      invariant d.Dict? ==> forall k :: k in done && u[k].Dict? ==> Mergeable(Child(d.children, k), u[k].children)
      invariant d.Dict? ==> cur == Dict(map k | k in d.children.Keys + done ::
        if k in done then MergedEntry(d.children, u, k) else d.children[k])
      decreases rest
    {
      var k :| k in rest;
      if cur.Leaf? {
        // `d.get(k, {})` or `d[k] = v` on a value that is not a dict
        return Raise(ItemError(u[k]));
      }
      if u[k].Dict? {
        var sub := Update(Child(cur.children, k), u[k].children);
        assert Child(cur.children, k) == Child(d.children, k);
        if sub.Raise? {
          return sub;
        }
        cur := Dict(cur.children[k := sub.value]);
      } else {
        cur := Dict(cur.children[k := u[k]]);
      }
      done := done + {k};
      rest := rest - {k};
    }
    if d.Dict? {
      assert cur == Merged(d, u);
    }
    return Ok(cur);
  }

  /** Merging a one-item dict `{k: w}` into a dict assigns the target's entry
      for `k` (merged when `w` is a dict) and leaves every other entry alone;
      it raises exactly when that entry's merge raises. */
  lemma MergeOne<K, V>(d: Tree<K, V>, k: K, w: Tree<K, V>)
    requires d.Dict?
    ensures Mergeable(d, map[k := w]) <==> (w.Dict? ==> Mergeable(Child(d.children, k), w.children))
    ensures Mergeable(d, map[k := w]) ==>
      Merged(d, map[k := w]) == Dict(d.children[k := MergedEntry(d.children, map[k := w], k)])
  {
    var u := map[k := w];
    if Mergeable(d, u) {
      assert Merged(d, u).children == d.children[k := MergedEntry(d.children, u, k)];
    }
  }

  /** `MayRaise` for a one-item dict `{k: w}` merged into a dict: only a dict
      `w` can raise, with what merging it into the target's entry can raise. */
  lemma MayRaiseOne<K, V>(d: Tree<K, V>, k: K, w: Tree<K, V>, e: PyError)
    requires d.Dict?
    ensures MayRaise(d, map[k := w], e) <==> w.Dict? && MayRaise(Child(d.children, k), w.children, e)
  {
    var u := map[k := w];
    if w.Dict? && MayRaise(Child(d.children, k), w.children, e) {
      assert k in u && u[k].Dict? && MayRaise(Child(d.children, k), u[k].children, e);
    }
  }

  /** `_update` raises exactly when it does not return, and then only
      `TypeError` or `AttributeError`; both are possible from the same
      arguments when `u` mixes dict and other values. */
  lemma {:induction false} MayRaiseExactly<K, V>(d: Tree<K, V>, u: map<K, Tree<K, V>>, e: PyError)
    ensures MayRaise(d, u, e) ==> !Mergeable(d, u) && (e == TypeError || e == AttributeError)
    ensures !Mergeable(d, u) ==> MayRaise(d, u, TypeError) || MayRaise(d, u, AttributeError)
    decreases Dict(u)
  {
    if d.Leaf? {
      if u != map[] {
        var k :| k in u;
        assert MayRaise(d, u, ItemError(u[k]));
      }
    } else {
      if MayRaise(d, u, e) {
        var k :| k in u && u[k].Dict? && MayRaise(Child(d.children, k), u[k].children, e);
        MayRaiseExactly(Child(d.children, k), u[k].children, e);
      }
      if !Mergeable(d, u) {
        var k :| k in u && u[k].Dict? && !Mergeable(Child(d.children, k), u[k].children);
        MayRaiseExactly(Child(d.children, k), u[k].children, e);
        if MayRaise(Child(d.children, k), u[k].children, TypeError) {
          assert MayRaise(d, u, TypeError);
        } else {
          assert MayRaise(d, u, AttributeError);
        }
      }
    }
  }

  /** Merging into an empty dict (what `d.get(k, {})` supplies for a missing
      key) yields the merged dict itself: a value pushed into an empty slot is
      stored as it is. */
  lemma {:induction false} MergeIntoEmpty<K, V>(u: map<K, Tree<K, V>>)
    ensures Mergeable(Dict(map[]), u)
    ensures Merged(Dict(map[]), u) == Dict(u)
    decreases Dict(u)
  {
    var e: Tree<K, V> := Dict(map[]);
    forall k | k in u && u[k].Dict?
      ensures Mergeable(Child(e.children, k), u[k].children)
      ensures Merged(Child(e.children, k), u[k].children) == u[k]
    {
      MergeIntoEmpty(u[k].children);
    }
    assert Merged(e, u).children == u;
  }

  /** A merge result accepts the same merge again, and the second merge
      changes nothing: repeating a push is harmless. */
  lemma {:induction false} MergeIdempotent<K, V>(d: Tree<K, V>, u: map<K, Tree<K, V>>)
    requires Mergeable(d, u)
    ensures Mergeable(Merged(d, u), u)
    ensures Merged(Merged(d, u), u) == Merged(d, u)
    decreases Dict(u)
  {
    var m := Merged(d, u);
    if d.Dict? {
      forall k | k in u && u[k].Dict?
        ensures Mergeable(Child(m.children, k), u[k].children)
        ensures Merged(Child(m.children, k), u[k].children) == m.children[k]
      {
        MergeIdempotent(Child(d.children, k), u[k].children);
      }
      assert Merged(m, u).children == m.children;
    }
  }
}
