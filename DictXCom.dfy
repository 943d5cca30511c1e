/** `DictXComBackend` (utils/dict_xcom_backend.py): the XCom backend that keeps
    every value in the module-global dict `XComData`, nested
    dag id → task id → key → serialised value, for the life of the process. */
module DictXCom {
  import opened PyBase
  import opened DeepMerge

  /** `BaseXCom.serialize_value` / `deserialize_value`, taken as an exact
      round trip. A serialised value is never a dict, so the merge of `set`
      always overwrites it. */
  datatype Serialized = Serialized(payload: PyValue)

  function Serialize(v: PyValue): Serialized { Serialized(v) }

  function Deserialize(s: Serialized): PyValue { s.payload }

  type Store = Tree<PyValue, Serialized>

  /** The shape `set` keeps: three levels of dicts over serialised values. */
  predicate Valid3(t: Store) {
    t.Dict? &&
    forall dag :: dag in t.children ==>
      (t.children[dag].Dict? &&
       forall task :: task in t.children[dag].children ==>
         (t.children[dag].children[task].Dict? &&
          forall key :: key in t.children[dag].children[task].children ==>
            t.children[dag].children[task].children[key].Leaf?))
  }

  /** `XComData[dag][task][key]`, or None where that raises KeyError. */
  function Slot(t: Store, dag: PyValue, task: PyValue, key: PyValue): Option<Serialized> {
    if t.Dict? && dag in t.children && t.children[dag].Dict?
      && task in t.children[dag].children && t.children[dag].children[task].Dict?
      && key in t.children[dag].children[task].children
      && t.children[dag].children[task].children[key].Leaf?
    then Some(t.children[dag].children[task].children[key].value)
    else None
  }

  /** The task ids present under `dag`. */
  function Tasks(t: Store, dag: PyValue): set<PyValue> {
    if t.Dict? && dag in t.children && t.children[dag].Dict? then t.children[dag].children.Keys else {}
  }

  /** `{dag_id: {task_id: {key: value}}}`, the dict that `set` merges in. */
  function Path(dag: PyValue, task: PyValue, key: PyValue, v: PyValue): map<PyValue, Store> {
    map[dag := Dict(map[task := Dict(map[key := Leaf(Serialize(v))])])]
  }

  /** `XComData.setdefault(dag, {}).setdefault(task, {})[key] = value`, written
      out as nested assignments. */
  function Assigned(t: Store, dag: PyValue, task: PyValue, key: PyValue, v: PyValue): Store
    requires t.Dict?
  {
    var tasks := Child(t.children, dag);
    var keys := if tasks.Dict? then Child(tasks.children, task) else Dict(map[]);
    var keys' := if keys.Dict? then keys.children else map[];
    var tasks' := if tasks.Dict? then tasks.children else map[];
    Dict(t.children[dag := Dict(tasks'[task := Dict(keys'[key := Leaf(Serialize(v))])])])
  }

  /** The nested assignment keeps the shape. */
  lemma AssignedValid(t: Store, dag: PyValue, task: PyValue, key: PyValue, v: PyValue)
    requires Valid3(t)
    ensures Valid3(Assigned(t, dag, task, key, v))
  {
  }

  /** On a well-shaped store the deep merge of `set` never raises, equals the
      nested assignment of the one slot, and keeps the shape. */
  lemma SetIsAssignment(t: Store, dag: PyValue, task: PyValue, key: PyValue, v: PyValue)
    requires Valid3(t)
    ensures Mergeable(t, Path(dag, task, key, v))
    ensures Merged(t, Path(dag, task, key, v)) == Assigned(t, dag, task, key, v)
    ensures Valid3(Assigned(t, dag, task, key, v))
  {
    AssignedValid(t, dag, task, key, v);
    var leaf: Store := Leaf(Serialize(v));
    var w2: Store := Dict(map[key := leaf]);
    var w1: Store := Dict(map[task := w2]);
    assert Path(dag, task, key, v) == map[dag := w1];
    var tasks := Child(t.children, dag);
    assert tasks.Dict?;
    var keys := Child(tasks.children, task);
    assert keys.Dict?;
    MergeOne(keys, key, leaf);
    MergeOne(tasks, task, w2);
    MergeOne(t, dag, w1);
  }

  /** After `set`, its slot holds the serialised value and every other slot,
      in every dag and task, is what it was. */
  lemma SetSlots(t: Store, dag: PyValue, task: PyValue, key: PyValue, v: PyValue,
                 dag': PyValue, task': PyValue, key': PyValue)
    requires Valid3(t)
    ensures Slot(Assigned(t, dag, task, key, v), dag', task', key') ==
      if dag' == dag && task' == task && key' == key then Some(Serialize(v))
      else Slot(t, dag', task', key')
  {
  }

  /** `set` adds its task to its dag and takes no task from any dag. */
  lemma SetTasks(t: Store, dag: PyValue, task: PyValue, key: PyValue, v: PyValue, dag': PyValue)
    requires Valid3(t)
    ensures Tasks(Assigned(t, dag, task, key, v), dag') ==
      if dag' == dag then Tasks(t, dag) + {task} else Tasks(t, dag')
  {
  }

  /** `is_container(x)`: a scalar id (a string or None included) stands for
      the one-element list `[x]`; any other iterable is iterated. */
  function Ids(x: PyValue): seq<PyValue> {
    if x.PyTuple? then x.items else [x]
  }

  /** The values `get_many` finds for one dag, in the order of `tasks`. */
  function FoundInDag(t: Store, key: PyValue, dag: PyValue, tasks: seq<PyValue>): seq<PyValue>
    decreases |tasks|
  {
    if |tasks| == 0 then []
    else
      var init := FoundInDag(t, key, dag, tasks[..|tasks| - 1]);
      match Slot(t, dag, tasks[|tasks| - 1], key)
      case Some(s) => init + [Deserialize(s)]
      case None => init
  }

  /** The values `get_many` finds: dag-major, then task, missing slots skipped. */
  function Found(t: Store, key: PyValue, dags: seq<PyValue>, tasks: seq<PyValue>): seq<PyValue>
    decreases |dags|
  {
    if |dags| == 0 then []
    else Found(t, key, dags[..|dags| - 1], tasks) + FoundInDag(t, key, dags[|dags| - 1], tasks)
  }

  /** One more dag: its values follow those of the earlier dags. */
  lemma FoundStep(t: Store, key: PyValue, dags: seq<PyValue>, i: int, tasks: seq<PyValue>)
    requires 0 <= i < |dags|
    ensures Found(t, key, dags[..i + 1], tasks) == Found(t, key, dags[..i], tasks) + FoundInDag(t, key, dags[i], tasks)
  {
    assert dags[..i + 1][..i] == dags[..i];
  }

  /** One more task: its value, when its slot exists, follows the others. */
  lemma FoundInDagStep(t: Store, key: PyValue, dag: PyValue, tasks: seq<PyValue>, j: int)
    requires 0 <= j < |tasks|
    ensures FoundInDag(t, key, dag, tasks[..j + 1]) ==
      match Slot(t, dag, tasks[j], key)
      case Some(s) => FoundInDag(t, key, dag, tasks[..j]) + [Deserialize(s)]
      case None => FoundInDag(t, key, dag, tasks[..j])
  {
    assert tasks[..j + 1][..j] == tasks[..j];
  }

  /** One value per existing slot at most. */
  lemma {:induction false} FoundBound(t: Store, key: PyValue, dags: seq<PyValue>, tasks: seq<PyValue>)
    ensures |Found(t, key, dags, tasks)| <= |dags| * |tasks|
    decreases |dags|
  {
    if |dags| > 0 {
      FoundBound(t, key, dags[..|dags| - 1], tasks);
      FoundInDagBound(t, key, dags[|dags| - 1], tasks);
    }
  }

  lemma {:induction false} FoundInDagBound(t: Store, key: PyValue, dag: PyValue, tasks: seq<PyValue>)
    ensures |FoundInDag(t, key, dag, tasks)| <= |tasks|
    decreases |tasks|
  {
    if |tasks| > 0 {
      FoundInDagBound(t, key, dag, tasks[..|tasks| - 1]);
    }
  }

  /** Every value found is the deserialised content of an existing slot named
      by the ids, and every existing slot named by the ids is found. */
  lemma {:induction false} FoundInDagExact(t: Store, key: PyValue, dag: PyValue, tasks: seq<PyValue>, x: PyValue)
    ensures x in FoundInDag(t, key, dag, tasks) <==>
      exists b :: 0 <= b < |tasks| && Slot(t, dag, tasks[b], key).Some? &&
        x == Deserialize(Slot(t, dag, tasks[b], key).value)
    decreases |tasks|
  {
    if |tasks| > 0 {
      var init := tasks[..|tasks| - 1];
      FoundInDagExact(t, key, dag, init, x);
      forall b | 0 <= b < |init| ensures init[b] == tasks[b] { }
    }
  }

  lemma {:induction false} FoundExact(t: Store, key: PyValue, dags: seq<PyValue>, tasks: seq<PyValue>, x: PyValue)
    ensures x in Found(t, key, dags, tasks) <==>
      exists a, b :: 0 <= a < |dags| && 0 <= b < |tasks| && Slot(t, dags[a], tasks[b], key).Some? &&
        x == Deserialize(Slot(t, dags[a], tasks[b], key).value)
    decreases |dags|
  {
    if |dags| > 0 {
      var init := dags[..|dags| - 1];
      FoundExact(t, key, init, tasks, x);
      FoundInDagExact(t, key, dags[|dags| - 1], tasks, x);
      forall a | 0 <= a < |init| ensures init[a] == dags[a] { }
      if x in FoundInDag(t, key, dags[|dags| - 1], tasks) {
        var b :| 0 <= b < |tasks| && Slot(t, dags[|dags| - 1], tasks[b], key).Some? &&
          x == Deserialize(Slot(t, dags[|dags| - 1], tasks[b], key).value);
        assert 0 <= |dags| - 1 < |dags|;
      }
    }
  }

  /** With one dag id and one task id, `get_many` finds that slot or nothing. */
  lemma FoundSingle(t: Store, key: PyValue, dag: PyValue, task: PyValue)
    ensures Found(t, key, [dag], [task]) ==
      match Slot(t, dag, task, key)
      case Some(s) => [Deserialize(s)]
      case None => []
  {
    assert [dag][..0] == [] && [task][..0] == [];
    assert Found(t, key, [], [task]) == [];
    assert FoundInDag(t, key, dag, []) == [];
  }

  /** Round trip: on a well-shaped store, `get_one` with the ids `set` used
      (neither an iterable) returns the value `set` stored. */
  lemma SetThenGet(t: Store, dag: PyValue, task: PyValue, key: PyValue, v: PyValue)
    requires Valid3(t) && !dag.PyTuple? && !task.PyTuple?
    ensures Mergeable(t, Path(dag, task, key, v))
    ensures Found(Merged(t, Path(dag, task, key, v)), key, Ids(dag), Ids(task)) == [v]
  {
    SetIsAssignment(t, dag, task, key, v);
    FoundSingle(Merged(t, Path(dag, task, key, v)), key, dag, task);
  }

  /** An XCom row as `delete` reads it. */
  datatype XComRef = XComRef(dagId: PyValue, taskId: PyValue, key: PyValue)

  /** `delete`'s argument: one XCom, or an iterable of them. */
  datatype XComArg = OneXCom(x: XComRef) | ManyXComs(xs: seq<XComRef>)

  function Refs(arg: XComArg): seq<XComRef> {
    match arg
    case OneXCom(x) => [x]
    case ManyXComs(xs) => xs
  }

  /** `del XComData[dag][task][key]`, nothing when that raises KeyError. The
      task's dict stays in place even when it becomes empty. */
  function Remove(t: Store, x: XComRef): Store {
    if Slot(t, x.dagId, x.taskId, x.key).Some? then
      var tasks := t.children[x.dagId].children;
      var keys := tasks[x.taskId].children;
      Dict(t.children[x.dagId := Dict(tasks[x.taskId := Dict(keys - {x.key})])])
    else t
  }

  /** One deletion keeps the shape, the dags and the task dicts. */
  lemma RemoveShape(t: Store, x: XComRef, dag: PyValue)
    requires Valid3(t)
    ensures Valid3(Remove(t, x))
    ensures Remove(t, x).children.Keys == t.children.Keys
    ensures Tasks(Remove(t, x), dag) == Tasks(t, dag)
  {
    var r := Remove(t, x);
    if r != t {
      var tasks := t.children[x.dagId].children;
      var keys := tasks[x.taskId].children;
      var tasks' := tasks[x.taskId := Dict(keys - {x.key})];
      assert r.children == t.children[x.dagId := Dict(tasks')];
      forall d | d in r.children
        ensures r.children[d].Dict?
        ensures forall tk :: tk in r.children[d].children ==>
          (r.children[d].children[tk].Dict? &&
           forall key :: key in r.children[d].children[tk].children ==>
             r.children[d].children[tk].children[key].Leaf?)
      {
        if d == x.dagId {
          assert r.children[d].children == tasks';
        } else {
          assert r.children[d] == t.children[d];
        }
      }
    }
  }

  /** One deletion empties its own slot and no other. */
  lemma RemoveSlot(t: Store, x: XComRef, dag: PyValue, task: PyValue, key: PyValue)
    requires Valid3(t)
    ensures Slot(Remove(t, x), dag, task, key) ==
      if XComRef(dag, task, key) == x then None else Slot(t, dag, task, key)
  {
    if Slot(t, x.dagId, x.taskId, x.key).Some? {
      var r := Remove(t, x);
      var tasks := t.children[x.dagId].children;
      var keys := tasks[x.taskId].children;
      var tasks' := tasks[x.taskId := Dict(keys - {x.key})];
      assert r.children == t.children[x.dagId := Dict(tasks')];
      if dag != x.dagId {
        assert dag in r.children <==> dag in t.children;
        assert dag in t.children ==> r.children[dag] == t.children[dag];
      } else {
        assert r.children[dag] == Dict(tasks');
        if task != x.taskId {
          assert task in tasks' <==> task in tasks;
          assert task in tasks ==> tasks'[task] == tasks[task];
        } else {
          assert tasks'[task] == Dict(keys - {x.key});
        }
      }
    }
  }

  /** One deletion empties its slot only, and keeps the shape, the dags and
      the task dicts. */
  lemma RemoveFacts(t: Store, x: XComRef, dag: PyValue, task: PyValue, key: PyValue)
    requires Valid3(t)
    ensures Valid3(Remove(t, x))
    ensures Remove(t, x).children.Keys == t.children.Keys
    ensures Slot(Remove(t, x), dag, task, key) ==
      if XComRef(dag, task, key) == x then None else Slot(t, dag, task, key)
    ensures Tasks(Remove(t, x), dag) == Tasks(t, dag)
  {
    RemoveShape(t, x, dag);
    RemoveSlot(t, x, dag, task, key);
  }

  /** The store after the loop of `delete` over `xs`. */
  function RemoveAll(t: Store, xs: seq<XComRef>): Store
    decreases |xs|
  {
    if |xs| == 0 then t else RemoveAll(Remove(t, xs[0]), xs[1..])
  }

  /** `delete` empties exactly the listed slots, keeps the shape, and keeps
      every task dict (emptied or not) under its dag. */
  lemma {:induction false} RemoveAllFacts(t: Store, xs: seq<XComRef>, dag: PyValue, task: PyValue, key: PyValue)
    requires Valid3(t)
    ensures Valid3(RemoveAll(t, xs))
    ensures RemoveAll(t, xs).children.Keys == t.children.Keys
    ensures Slot(RemoveAll(t, xs), dag, task, key) ==
      if XComRef(dag, task, key) in xs then None else Slot(t, dag, task, key)
    ensures Tasks(RemoveAll(t, xs), dag) == Tasks(t, dag)
    decreases |xs|
  {
    if |xs| > 0 {
      var t' := Remove(t, xs[0]);
      RemoveFacts(t, xs[0], dag, task, key);
      RemoveAllFacts(t', xs[1..], dag, task, key);
      assert XComRef(dag, task, key) in xs <==>
        XComRef(dag, task, key) == xs[0] || XComRef(dag, task, key) in xs[1..];
    }
  }

  /** Deleting the same rows twice is deleting them once. */
  lemma {:induction false} RemoveAllIdempotent(t: Store, xs: seq<XComRef>)
    requires Valid3(t)
    ensures RemoveAll(RemoveAll(t, xs), xs) == RemoveAll(t, xs)
  {
    var once := RemoveAll(t, xs);
    var twice := RemoveAll(once, xs);
    RemoveAllFacts(t, xs, PyNone, PyNone, PyNone);
    forall dag, task, key ensures Slot(twice, dag, task, key) == Slot(once, dag, task, key) {
      RemoveAllFacts(t, xs, dag, task, key);
      RemoveAllFacts(once, xs, dag, task, key);
    }
    forall dag ensures Tasks(twice, dag) == Tasks(once, dag) {
      RemoveAllFacts(once, xs, dag, PyNone, PyNone);
    }
    RemoveAllFacts(once, xs, PyNone, PyNone, PyNone);
    SameSlotsSameStore(twice, once);
  }

  /** Two well-shaped stores with the same dags, the same task dicts and the
      same slots are the same store. */
  lemma SameSlotsSameStore(a: Store, b: Store)
    requires Valid3(a) && Valid3(b)
    requires a.children.Keys == b.children.Keys
    requires forall dag :: Tasks(a, dag) == Tasks(b, dag)
    requires forall dag, task, key :: Slot(a, dag, task, key) == Slot(b, dag, task, key)
    ensures a == b
  {
    forall dag | dag in a.children ensures a.children[dag] == b.children[dag] {
      assert Tasks(a, dag) == Tasks(b, dag);
      var ta := a.children[dag].children;
      var tb := b.children[dag].children;
      forall task | task in ta ensures ta[task] == tb[task] {
        var ka := ta[task].children;
        var kb := tb[task].children;
        forall key | key in ka ensures key in kb && ka[key] == kb[key] {
          assert Slot(a, dag, task, key) == Slot(b, dag, task, key);
        }
        forall key | key in kb ensures key in ka {
          assert Slot(a, dag, task, key) == Slot(b, dag, task, key);
        }
        assert ka == kb;
      }
      assert ta == tb;
    }
    assert a.children == b.children;
  }

  /** `del XComData[dag][task]`, nothing when that raises KeyError. */
  function ClearTask(t: Store, dag: PyValue, task: PyValue): Store {
    if t.Dict? && dag in t.children && t.children[dag].Dict? && task in t.children[dag].children then
      Dict(t.children[dag := Dict(t.children[dag].children - {task})])
    else t
  }

  /** `clear(dag, task)` keeps the shape and every dag, removes `task` from
      `dag` and keeps every sibling task; no other dag changes. In particular
      `clear(dag, None)` removes only a task stored under None. */
  lemma ClearTasks(t: Store, dag: PyValue, task: PyValue, dag': PyValue)
    requires Valid3(t)
    ensures Valid3(ClearTask(t, dag, task))
    ensures ClearTask(t, dag, task).children.Keys == t.children.Keys
    ensures Tasks(ClearTask(t, dag, task), dag') ==
      if dag' == dag then Tasks(t, dag) - {task} else Tasks(t, dag')
  {
    var c := ClearTask(t, dag, task);
    if c != t {
      var inner := t.children[dag].children - {task};
      assert c.children == t.children[dag := Dict(inner)];
      forall d | d in c.children
        ensures c.children[d].Dict?
        ensures forall tk :: tk in c.children[d].children ==>
          (c.children[d].children[tk].Dict? &&
           forall key :: key in c.children[d].children[tk].children ==>
             c.children[d].children[tk].children[key].Leaf?)
      {
        if d == dag {
          assert c.children[d].children == inner;
        } else {
          assert c.children[d] == t.children[d];
        }
      }
    }
  }

  /** `clear(dag, task)` leaves the other dags' slots alone. */
  lemma ClearOtherDag(t: Store, dag: PyValue, task: PyValue, dag': PyValue, task': PyValue, key': PyValue)
    requires dag' != dag
    ensures Slot(ClearTask(t, dag, task), dag', task', key') == Slot(t, dag', task', key')
  {
    var c := ClearTask(t, dag, task);
    if c != t {
      assert dag' in t.children <==> dag' in c.children;
      if dag' in t.children {
        assert c.children[dag'] == t.children[dag'];
      }
    }
  }

  /** `clear(dag, task)` empties the slots of `task` and leaves its sibling
      tasks' slots alone. */
  lemma ClearSameDag(t: Store, dag: PyValue, task: PyValue, task': PyValue, key': PyValue)
    ensures Slot(ClearTask(t, dag, task), dag, task', key') ==
      if task' == task then None else Slot(t, dag, task', key')
  {
    var c := ClearTask(t, dag, task);
    if c != t {
      assert c.children[dag].children == t.children[dag].children - {task};
    }
  }

  /** `clear(dag, task)` empties every slot of that task and no other slot. */
  lemma ClearSlots(t: Store, dag: PyValue, task: PyValue, dag': PyValue, task': PyValue, key': PyValue)
    ensures Slot(ClearTask(t, dag, task), dag', task', key') ==
      if dag' == dag && task' == task then None else Slot(t, dag', task', key')
  {
    if dag' != dag {
      ClearOtherDag(t, dag, task, dag', task', key');
    } else {
      ClearSameDag(t, dag, task, task', key');
    }
  }

  /** The module-global `XComData` and the class methods of
      `DictXComBackend` that read and write it. */
  class DictXComBackend {
    var data: Store

    ghost predicate Valid()
      reads this
    {
      Valid3(data)
    }

    /** `XComData = {}` */
    constructor ()
      ensures Valid() && data == Dict(map[])
    {
      data := Dict(map[]);
    }

    /** `set(key, value, task_id, dag_id)`: serialise, then deep-merge
        `{dag_id: {task_id: {key: value}}}` into the store. */
    method Set(key: PyValue, value: PyValue, taskId: PyValue, dagId: PyValue)
      requires Valid()
      modifies this
      ensures Valid()
      ensures Mergeable(old(data), Path(dagId, taskId, key, value))
      ensures data == Merged(old(data), Path(dagId, taskId, key, value))
      ensures data == Assigned(old(data), dagId, taskId, key, value)
      ensures forall dag, task, k ::
        Slot(data, dag, task, k) ==
          (if dag == dagId && task == taskId && k == key then Some(Serialize(value))
           else old(Slot(data, dag, task, k)))
    {
      SetIsAssignment(data, dagId, taskId, key, value);
      var r := Update(data, Path(dagId, taskId, key, value));
      data := r.value;
      forall dag, task, k ensures Slot(data, dag, task, k) ==
        if dag == dagId && task == taskId && k == key then Some(Serialize(value))
        else old(Slot(data, dag, task, k))
      {
        SetSlots(old(data), dagId, taskId, key, value, dag, task, k);
      }
    }

    /** `get_many(key, task_ids, dag_ids)`: the nested loop over the dag ids
        and the task ids, collecting every slot that exists. */
    method GetMany(key: PyValue, taskIds: PyValue, dagIds: PyValue) returns (results: seq<PyValue>)
      ensures results == Found(data, key, Ids(dagIds), Ids(taskIds))
    {
      var store := data;
      var dags := Ids(dagIds);
      var tasks := Ids(taskIds);
      results := [];
      for i := 0 to |dags|
        invariant results == Found(store, key, dags[..i], tasks)
      {
        var inDag := [];
        for j := 0 to |tasks|
          invariant inDag == FoundInDag(store, key, dags[i], tasks[..j])
        {
          FoundInDagStep(store, key, dags[i], tasks, j);
          var s := Slot(store, dags[i], tasks[j], key);
          if s.Some? {
            inDag := inDag + [Deserialize(s.value)];
          }
        }
        assert tasks[..|tasks|] == tasks;
        FoundStep(store, key, dags, i, tasks);
        results := results + inDag;
      }
      assert dags[..|dags|] == dags;
    }

    /** `get_one(key, task_id, dag_id)`: the first value `get_many` finds, or
        None. With scalar ids, the value in that one slot, or None when the
        slot does not exist. */
    method GetOne(key: PyValue, taskId: PyValue, dagId: PyValue) returns (r: PyValue)
      ensures var found := Found(data, key, Ids(dagId), Ids(taskId));
        r == if |found| > 0 then found[0] else PyNone
      ensures !dagId.PyTuple? && !taskId.PyTuple? ==>
        r == match Slot(data, dagId, taskId, key)
             case Some(s) => Deserialize(s)
             case None => PyNone
    {
      var results := GetMany(key, taskId, dagId);
      FoundSingle(data, key, dagId, taskId);
      if |results| > 0 {
        r := results[0];
      } else {
        r := PyNone;
      }
    }

    /** `delete(xcoms)`: the loop deleting each listed slot, skipping those
        that do not exist. */
    method Delete(xcoms: XComArg)
      requires Valid()
      modifies this
      ensures Valid()
      ensures data == RemoveAll(old(data), Refs(xcoms))
    {
      var xs := Refs(xcoms);
      ghost var start := data;
      for i := 0 to |xs|
        invariant Valid()
        invariant RemoveAll(start, xs) == RemoveAll(data, xs[i..])
      {
        assert xs[i..][1..] == xs[i + 1..];
        RemoveAllFacts(data, [xs[i]], PyNone, PyNone, PyNone);
        assert RemoveAll(data, [xs[i]]) == Remove(data, xs[i]);
        data := Remove(data, xs[i]);
      }
    }

    /** `clear(dag_id, task_id)` */
    method Clear(dagId: PyValue, taskId: PyValue)
      requires Valid()
      modifies this
      ensures Valid()
      ensures data == ClearTask(old(data), dagId, taskId)
    {
      ClearTasks(data, dagId, taskId, dagId);
      data := ClearTask(data, dagId, taskId);
    }
  }
}
