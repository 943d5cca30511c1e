/** util/execute_any_operator.py: the earlier `ExecuteAnyOperator`, which
    accepts only an allow-list of operators, and its `TaskInstanceMock`,
    whose XComs live in the module-global dict `XCom`. */
module LegacyExecuteAny {
  import opened PyBase
  import opened DeepMerge
  import opened OperatorContext

  // ----- str(id(obj)) -----

  function Digit(d: nat): (c: char)
    requires d < 10
    ensures '0' <= c <= '9'
  {
    ('0' as int + d) as char
  }

  /** `str(n)` of a non-negative int: its decimal digits, most significant
      first. */
  function IdStr(n: nat): (s: string)
    ensures n < 10 <==> |s| == 1
    ensures |s| >= 1
  {
    if n < 10 then [Digit(n)] else IdStr(n / 10) + [Digit(n % 10)]
  }

  /** Different ids have different strings, so distinct objects get distinct
      slots in `XCom`. */
  lemma {:induction false} IdStrInjective(a: nat, b: nat)
    requires IdStr(a) == IdStr(b)
    ensures a == b
  {
    if a >= 10 {
      var s := IdStr(a);
      assert s[..|s| - 1] == IdStr(a / 10) && s[|s| - 1] == Digit(a % 10);
      assert s[..|s| - 1] == IdStr(b / 10) && s[|s| - 1] == Digit(b % 10);
      IdStrInjective(a / 10, b / 10);
    }
  }

  // ----- AllowedOperators -----

  /** The members of the `AllowedOperators` enum. */
  datatype Allowed = BashOperator | PythonOperator | HdfsSensor | HiveOperator | KubernetesPodOperator | S3KeySensor

  function MemberName(a: Allowed): string {
    match a
    case BashOperator => "BashOperator"
    case PythonOperator => "PythonOperator"
    case HdfsSensor => "HdfsSensor"
    case HiveOperator => "HiveOperator"
    case KubernetesPodOperator => "KubernetesPodOperator"
    case S3KeySensor => "S3KeySensor"
  }

  /** The module each member's class is imported from. */
  function MemberModule(a: Allowed): string {
    match a
    case BashOperator => "airflow.operators.bash"
    case PythonOperator => "airflow.operators.python"
    case HdfsSensor => "airflow.providers.apache.hdfs.sensors.hdfs"
    case HiveOperator => "airflow.providers.apache.hive.operators.hive"
    case KubernetesPodOperator => "airflow.providers.cncf.kubernetes.operators.kubernetes_pod"
    case S3KeySensor => "airflow.providers.amazon.aws.sensors.s3"
  }

  /** The class a member wraps; calling the member calls it. */
  function MemberClass(a: Allowed): PyValue {
    PyClass(MemberModule(a), MemberName(a))
  }

  /** `name in AllowedOperators.__members__`, and `AllowedOperators[name]`. */
  function Member(name: string): (r: Option<Allowed>)
    ensures r.Some? ==> MemberName(r.value) == name
    ensures r.None? ==> forall a :: MemberName(a) != name
  {
    if name == "BashOperator" then Some(BashOperator)
    else if name == "PythonOperator" then Some(PythonOperator)
    else if name == "HdfsSensor" then Some(HdfsSensor)
    else if name == "HiveOperator" then Some(HiveOperator)
    else if name == "KubernetesPodOperator" then Some(KubernetesPodOperator)
    else if name == "S3KeySensor" then Some(S3KeySensor)
    else None
  }

  /** Every member is found under its own name. */
  lemma MemberRoundTrip(a: Allowed)
    ensures Member(MemberName(a)) == Some(a)
  {
  }

  /** The check of `__init__`: a class whose `__name__` is a member name is
      used as it is (whatever its module), a member name given as a string
      selects that member, anything else raises `NotImplementedError`. */
  function Admit(operator: PyValue): (r: Outcome<PyValue>)
    ensures r.Ok? <==> (operator.PyClass? && Member(operator.name).Some?) || (operator.PyStr? && Member(operator.s).Some?)
    ensures r.Ok? && operator.PyClass? ==> r.value == operator
    ensures r.Ok? && operator.PyStr? ==> r.value == MemberClass(Member(operator.s).value)
    ensures r.Raise? ==> r.error == NotImplementedError
  {
    if operator.PyClass? && Member(operator.name).Some? then Ok(operator)
    else if operator.PyStr? && Member(operator.s).Some? then Ok(MemberClass(Member(operator.s).value))
    else Raise(NotImplementedError)
  }

  /** A class from another module passes the check when its name is a
      member's: the check is by name only. */
  lemma AdmitByNameOnly(moduleName: string, a: Allowed)
    ensures Admit(PyClass(moduleName, MemberName(a))) == Ok(PyClass(moduleName, MemberName(a)))
  {
    MemberRoundTrip(a);
  }

  // ----- make_kwargs -----

  /** `f"{operator}"`: a string is itself; `str` renders any other value. */
  function StrOf(v: PyValue, str: PyValue -> string): string {
    if v.PyStr? then v.s else str(v)
  }

  /** The `task_id` this version invents: from the class's `__name__` for a
      class, from the operator's text otherwise. */
  function DefaultTaskId(operator: PyValue, str: PyValue -> string): string {
    "execute_" + if operator.PyClass? then operator.name else StrOf(operator, str)
  }

  /** `make_kwargs`: the operator is looked up only when `task_id` is
      missing, and then only among the keyword arguments, so an operator
      passed positionally without a `task_id` raises `KeyError`. `now` is
      `pendulum.now()`. */
  function MakeKwargs(kwargs: Kwargs, now: Timestamp, str: PyValue -> string): (r: Outcome<Kwargs>)
    ensures r.Raise? <==> "task_id" !in kwargs && "operator" !in kwargs
    ensures r.Raise? ==> r.error == KeyError
    ensures r.Ok? ==> r.value.Keys == kwargs.Keys + {"task_id", "start_date"}
    ensures r.Ok? ==> forall k :: k in kwargs ==> r.value[k] == kwargs[k]
    ensures r.Ok? && "task_id" !in kwargs ==> r.value["task_id"] == PyStr(DefaultTaskId(kwargs["operator"], str))
    ensures r.Ok? && "start_date" !in kwargs ==> r.value["start_date"] == PyTime(now)
  {
    if "task_id" !in kwargs && "operator" !in kwargs then Raise(KeyError)
    else
      var withId := if "task_id" in kwargs then kwargs else kwargs["task_id" := PyStr(DefaultTaskId(kwargs["operator"], str))];
      Ok(if "start_date" in withId then withId else withId["start_date" := PyTime(now)])
  }

  /** Binding `operator` to `__init__`'s first parameter, given by keyword or
      as the first positional argument: both, or neither, is Python's
      `TypeError`. The rest of the keyword arguments are `kwargs`. */
  function Bind(kwargs: Kwargs, positional: Option<PyValue>): (r: Outcome<(PyValue, Kwargs)>)
    ensures r.Ok? <==> ("operator" in kwargs <==> positional.None?)
    ensures r.Raise? ==> r.error == TypeError
    ensures r.Ok? ==> r.value.1 == kwargs - {"operator"}
  {
    if "operator" in kwargs && positional.None? then Ok((kwargs["operator"], kwargs - {"operator"}))
    else if "operator" !in kwargs && positional.Some? then Ok((positional.value, kwargs))
    else Raise(TypeError)
  }

  /** What `__init__` leaves in the operator's attributes, apart from the
      context and its task instance. */
  datatype LegacyState = LegacyState(
    operator: PyValue, baseKwargs: Kwargs, taskId: string, dag: Dag, startDate: Timestamp, task: WrappedTask)

  /** `ExecuteAnyOperator(*args, **kwargs)` of this version, decorated by
      `make_kwargs`: the arguments are defaulted and bound, `BaseOperator`
      gets those it has parameters for, the operator must pass the
      allow-list, the class is built with the keyword arguments, and the
      context needs a pendulum `start_date`. */
  function LegacyInit(kwargs: Kwargs, positional: Option<PyValue>, now: Timestamp, af: Airflow,
                      str: PyValue -> string): Outcome<LegacyState>
  {
    match MakeKwargs(kwargs, now, str)
    case Raise(e) => Raise(e)
    case Ok(made) =>
      match Bind(made, positional)
      case Raise(e) => Raise(e)
      case Ok((operator, inner)) =>
        var baseKwargs := Restrict(inner, af.baseParams);
        match BaseTaskId(baseKwargs)
        case Raise(e) => Raise(e)
        case Ok(taskId) =>
          match Admit(operator)
          case Raise(e) => Raise(e)
          case Ok(cls) =>
            match af.instantiate(cls, inner)
            case Raise(e) => Raise(e)
            case Ok(push) =>
              if !inner["start_date"].PyTime? then Raise(AttributeError)
              else Ok(LegacyState(cls, baseKwargs, taskId, DummyDag, inner["start_date"].t, WrappedTask(cls, inner, push)))
  }

  /** An operator outside the allow-list is refused with
      `NotImplementedError` once the arguments bind and `BaseOperator`
      accepts them; the import-by-name route of the later version does not
      exist here. */
  lemma LegacyRefuses(kwargs: Kwargs, positional: Option<PyValue>, now: Timestamp, af: Airflow, str: PyValue -> string)
    requires MakeKwargs(kwargs, now, str).Ok? && Bind(MakeKwargs(kwargs, now, str).value, positional).Ok?
    requires var (operator, inner) := Bind(MakeKwargs(kwargs, now, str).value, positional).value;
      BaseTaskId(Restrict(inner, af.baseParams)).Ok? && Admit(operator).Raise?
    ensures LegacyInit(kwargs, positional, now, af, str) == Raise(NotImplementedError)
  {
  }

  /** A constructed operator's class passed the allow-list and was built
      from the keyword arguments, with `task_id` and `start_date` defaulted;
      a `task_id` not given is the invented one. */
  lemma LegacyBuilds(kwargs: Kwargs, positional: Option<PyValue>, now: Timestamp, af: Airflow, str: PyValue -> string)
    requires LegacyInit(kwargs, positional, now, af, str).Ok?
    ensures var o := LegacyInit(kwargs, positional, now, af, str).value;
      var operator := if positional.Some? then positional.value else kwargs["operator"];
      ("operator" in kwargs <==> positional.None?) &&
      Admit(operator) == Ok(o.operator) && o.task.cls == o.operator &&
      af.instantiate(o.operator, o.task.kwargs) == Ok(o.task.doXcomPush) &&
      o.task.kwargs.Keys == (kwargs.Keys - {"operator"}) + {"task_id", "start_date"} &&
      (forall k :: k in kwargs && k != "operator" ==> o.task.kwargs[k] == kwargs[k]) &&
      ("task_id" !in kwargs ==> o.taskId == DefaultTaskId(operator, str)) &&
      o.task.kwargs["start_date"] == PyTime(o.startDate) && o.dag == DummyDag
  {
  }

  // ----- the global XCom dict -----

  type XComTree = Tree<string, PyValue>

  /** The shape `xcom_push` keeps: dag id → task id → key → pushed value,
      the first two levels dicts. */
  predicate Shaped(t: XComTree) {
    t.Dict? &&
    forall dag :: dag in t.children ==>
      (t.children[dag].Dict? &&
       forall task :: task in t.children[dag].children ==> t.children[dag].children[task].Dict?)
  }

  /** The keys stored under one dag and task of a shaped store. */
  function Stored(t: XComTree, dag: string, task: string): map<string, XComTree>
    requires Shaped(t)
  {
    var tasks := Child(t.children, dag);
    Child(tasks.children, task).children
  }

  /** `XCom[dag][task][key]` where it exists. */
  function Slot(t: XComTree, dag: string, task: string, key: string): Option<XComTree> {
    if t.Dict? && dag in t.children && t.children[dag].Dict?
      && task in t.children[dag].children && t.children[dag].children[task].Dict?
      && key in t.children[dag].children[task].children
    then Some(t.children[dag].children[task].children[key])
    else None
  }

  /** `{dag_id: {task_id: {key: value}}}`; the value may itself be a dict. */
  function PushPath(dag: string, task: string, key: string, v: XComTree): map<string, XComTree> {
    map[dag := Dict(map[task := Dict(map[key := v])])]
  }

  /** One subscript `t[k]`: `KeyError` for a missing key, `TypeError` on a
      value that is not a dict. */
  function Index(t: XComTree, k: string): (r: Outcome<XComTree>)
    ensures r.Ok? <==> t.Dict? && k in t.children
    ensures r.Ok? ==> r.value == t.children[k]
    ensures r.Raise? ==> r.error == (if t.Dict? then KeyError else TypeError)
  {
    if t.Leaf? then Raise(TypeError)
    else if k in t.children then Ok(t.children[k])
    else Raise(KeyError)
  }

  /** `XCom[dag_id][task_ids][key]` */
  function Pull(t: XComTree, dag: string, task: string, key: string): (r: Outcome<XComTree>)
    ensures Shaped(t) ==> (r.Ok? <==> Slot(t, dag, task, key).Some?)
    ensures Shaped(t) && r.Ok? ==> r.value == Slot(t, dag, task, key).value
    ensures Shaped(t) && r.Raise? ==> r.error == KeyError
  {
    match Index(t, dag)
    case Raise(e) => Raise(e)
    case Ok(tasks) =>
      match Index(tasks, task)
      case Raise(e) => Raise(e)
      case Ok(keys) => Index(keys, key)
  }

  /** The store after a push that merges, as nested assignments: the pushed
      key's entry is merged, its task and dag dicts are re-assigned. */
  function Pushed3(t: XComTree, dag: string, task: string, key: string, v: XComTree): XComTree
    requires Shaped(t) && (v.Dict? ==> Mergeable(Child(Stored(t, dag, task), key), v.children))
  {
    var tasks := Child(t.children, dag);
    var keys := Child(tasks.children, task);
    Dict(t.children[dag := Dict(tasks.children[task := Dict(keys.children[key := MergedEntry(keys.children, map[key := v], key)])])])
  }

  /** The merge of a push, level by level. */
  lemma PushMerges(t: XComTree, dag: string, task: string, key: string, v: XComTree)
    requires Shaped(t)
    ensures Mergeable(t, PushPath(dag, task, key, v)) <==>
      (v.Dict? ==> Mergeable(Child(Stored(t, dag, task), key), v.children))
    ensures Mergeable(t, PushPath(dag, task, key, v)) ==>
      Merged(t, PushPath(dag, task, key, v)) == Pushed3(t, dag, task, key, v)
  {
    var w2: XComTree := Dict(map[key := v]);
    var w1: XComTree := Dict(map[task := w2]);
    assert PushPath(dag, task, key, v) == map[dag := w1];
    var tasks := Child(t.children, dag);
    var keys := Child(tasks.children, task);
    MergeOne(keys, key, v);
    MergeOne(tasks, task, w2);
    MergeOne(t, dag, w1);
  }

  /** The store after a push keeps its two levels of dicts. */
  lemma Pushed3Shaped(t: XComTree, dag: string, task: string, key: string, v: XComTree)
    requires Shaped(t) && (v.Dict? ==> Mergeable(Child(Stored(t, dag, task), key), v.children))
    ensures Shaped(Pushed3(t, dag, task, key, v))
  {
    var p := Pushed3(t, dag, task, key, v);
    forall d | d in p.children
      ensures p.children[d].Dict? && forall tk :: tk in p.children[d].children ==> p.children[d].children[tk].Dict?
    {
      if d != dag {
        assert p.children[d] == t.children[d];
      }
    }
  }

  /** One slot after a push: the pushed one holds the merged entry, every
      other one is unchanged. */
  lemma Pushed3Slot(t: XComTree, dag: string, task: string, key: string, v: XComTree,
                    dag': string, task': string, key': string)
    requires Shaped(t) && (v.Dict? ==> Mergeable(Child(Stored(t, dag, task), key), v.children))
    ensures Slot(Pushed3(t, dag, task, key, v), dag', task', key') ==
      if dag' == dag && task' == task && key' == key then Some(MergedEntry(Stored(t, dag, task), map[key := v], key))
      else Slot(t, dag', task', key')
  {
    var tasks := Child(t.children, dag);
    var keys := Child(tasks.children, task);
    assert Stored(t, dag, task) == keys.children;
    if dag' != dag {
    } else if task' != task {
    } else if key' != key {
    }
  }

  /** On a well-shaped store a push raises only when a dict is pushed onto a
      stored value that cannot take it; otherwise it keeps the shape, its
      slot becomes the pushed value (merged into the stored one when the
      pushed value is a dict), and every other slot is as it was. */
  lemma PushSlots(t: XComTree, dag: string, task: string, key: string, v: XComTree)
    requires Shaped(t)
    ensures Mergeable(t, PushPath(dag, task, key, v)) <==>
      (v.Dict? ==> Mergeable(Child(Stored(t, dag, task), key), v.children))
    ensures Mergeable(t, PushPath(dag, task, key, v)) ==>
      (Shaped(Merged(t, PushPath(dag, task, key, v))) &&
       forall dag', task', key' ::
         Slot(Merged(t, PushPath(dag, task, key, v)), dag', task', key') ==
           if dag' == dag && task' == task && key' == key then Some(MergedEntry(Stored(t, dag, task), map[key := v], key))
           else Slot(t, dag', task', key'))
  {
    PushMerges(t, dag, task, key, v);
    if Mergeable(t, PushPath(dag, task, key, v)) {
      Pushed3Shaped(t, dag, task, key, v);
      forall dag', task', key' ensures Slot(Pushed3(t, dag, task, key, v), dag', task', key') ==
        if dag' == dag && task' == task && key' == key then Some(MergedEntry(Stored(t, dag, task), map[key := v], key))
        else Slot(t, dag', task', key')
      {
        Pushed3Slot(t, dag, task, key, v, dag', task', key');
      }
    }
  }

  /** The module-global `XCom = {}`, shared by every task instance. */
  class XComStore {
    var data: XComTree

    constructor ()
      ensures data == Dict(map[])
    {
      data := Dict(map[]);
    }
  }

  /** `TaskInstanceMock(spec=TaskInstance)`: its `dag_id` and `task_id`
      are child mocks, identified in `XCom` by the decimal string of their
      `id`. */
  class TaskInstanceMock {
    const store: XComStore
    const dagIdObj: nat
    const taskIdObj: nat

    constructor (store: XComStore, dagIdObj: nat, taskIdObj: nat)
      ensures this.store == store && this.dagIdObj == dagIdObj && this.taskIdObj == taskIdObj
    {
      this.store := store;
      this.dagIdObj := dagIdObj;
      this.taskIdObj := taskIdObj;
    }

    /** `xcom_push(key, value)`: `_update(XCom, {str(id(self.dag_id)):
        {str(id(self.task_id)): {key: value}}})`. A store that is not
        well-shaped can make the merge raise; it is then left as it was. */
    method XComPush(key: string, value: XComTree) returns (r: Outcome<()>)
      modifies store
      ensures var path := PushPath(IdStr(dagIdObj), IdStr(taskIdObj), key, value);
        (r.Ok? <==> Mergeable(old(store.data), path)) &&
        (r.Ok? ==> store.data == Merged(old(store.data), path)) &&
        (r.Raise? ==> MayRaise(old(store.data), path, r.error) && store.data == old(store.data))
      ensures Shaped(old(store.data)) && r.Ok? ==> Shaped(store.data)
    {
      var path := PushPath(IdStr(dagIdObj), IdStr(taskIdObj), key, value);
      if Shaped(store.data) {
        PushSlots(store.data, IdStr(dagIdObj), IdStr(taskIdObj), key, value);
      }
      var m := Update(store.data, path);
      if m.Raise? {
        return Raise(m.error);
      }
      store.data := m.value;
      return Ok(());
    }

    /** `xcom_pull(task_ids, dag_id, key)`: a plain triple subscript of
        `XCom`. */
    method XComPull(taskIds: string, dagId: string, key: string) returns (r: Outcome<XComTree>)
      ensures r == Pull(store.data, dagId, taskIds, key)
    {
      var tasks := Index(store.data, dagId);
      if tasks.Raise? {
        return Raise(tasks.error);
      }
      var keys := Index(tasks.value, taskIds);
      if keys.Raise? {
        return Raise(keys.error);
      }
      r := Index(keys.value, key);
    }
  }

  /** A push of a value that is not a dict, followed by a pull with the same
      instance's id strings, gives the pushed value back. */
  lemma PushThenPull(t: XComTree, ti: TaskInstanceMock, key: string, v: PyValue)
    requires Shaped(t)
    ensures var t' := Merged(t, PushPath(IdStr(ti.dagIdObj), IdStr(ti.taskIdObj), key, Leaf(v)));
      Pull(t', IdStr(ti.dagIdObj), IdStr(ti.taskIdObj), key) == Ok(Leaf(v))
  {
    PushSlots(t, IdStr(ti.dagIdObj), IdStr(ti.taskIdObj), key, Leaf(v));
  }

  /** Pushing a dict onto a stored dict merges the two: keys only in the
      stored dict keep their values, keys of the pushed dict that are not
      dicts take the pushed values. */
  lemma PushDictMerges(t: XComTree, dag: string, task: string, key: string, prev: map<string, XComTree>, u: map<string, XComTree>, k: string)
    requires Shaped(t) && Slot(t, dag, task, key) == Some(Dict(prev)) && Mergeable(Dict(prev), u)
    ensures Mergeable(t, PushPath(dag, task, key, Dict(u)))
    ensures var s := Slot(Merged(t, PushPath(dag, task, key, Dict(u))), dag, task, key);
      s.Some? && s.value.Dict? &&
      (k in prev && k !in u ==> k in s.value.children && s.value.children[k] == prev[k]) &&
      (k in u && u[k].Leaf? ==> k in s.value.children && s.value.children[k] == u[k])
  {
    assert Child(Stored(t, dag, task), key) == Dict(prev);
    PushSlots(t, dag, task, key, Dict(u));
  }

  /** Pushing a dict onto a stored value that is not a dict raises unless
      the dict is empty, and the exception is the one its first item raises
      on that value: `AttributeError` for a dict item, `TypeError` for any
      other. */
  lemma PushDictOntoValueRaises(t: XComTree, dag: string, task: string, key: string, v: PyValue, u: map<string, XComTree>, e: PyError)
    requires Shaped(t) && Slot(t, dag, task, key) == Some(Leaf(v))
    ensures Mergeable(t, PushPath(dag, task, key, Dict(u))) <==> u == map[]
    ensures MayRaise(t, PushPath(dag, task, key, Dict(u)), e) <==> exists k :: k in u && e == ItemError(u[k])
  {
    var tasks := Child(t.children, dag);
    var keys := Child(tasks.children, task);
    assert Child(Stored(t, dag, task), key) == Leaf(v);
    PushSlots(t, dag, task, key, Dict(u));
    var w2: XComTree := Dict(map[key := Dict(u)]);
    var w1: XComTree := Dict(map[task := w2]);
    assert PushPath(dag, task, key, Dict(u)) == map[dag := w1];
    MayRaiseOne(t, dag, w1, e);
    MayRaiseOne(tasks, task, w2, e);
    MayRaiseOne(keys, key, Dict(u), e);
  }

  /** `xcom_push("k", {"a": {"b": 1}})` onto a slot holding `5` raises
      `AttributeError` and nothing else: the pushed dict's only item is a
      dict, so `5.get("a", {})` is what fails. */
  lemma PushNestedDictOntoInt(t: XComTree, dag: string, task: string, e: PyError)
    requires Shaped(t) && Slot(t, dag, task, "k") == Some(Leaf(PyInt(5)))
    ensures var u := map["a" := Dict(map["b" := Leaf(PyInt(1))])];
      !Mergeable(t, PushPath(dag, task, "k", Dict(u))) &&
      (MayRaise(t, PushPath(dag, task, "k", Dict(u)), e) <==> e == AttributeError)
  {
    var u: map<string, XComTree> := map["a" := Dict(map["b" := Leaf(PyInt(1))])];
    PushDictOntoValueRaises(t, dag, task, "k", PyInt(5), u, e);
    assert ItemError(u["a"]) == AttributeError;
  }

  /** A push through one task instance leaves the slots of an instance with
      other id objects untouched, since the id strings differ. */
  lemma PushIsolated(t: XComTree, ti: TaskInstanceMock, other: TaskInstanceMock, key: string, v: XComTree, key': string)
    requires Shaped(t) && Mergeable(t, PushPath(IdStr(ti.dagIdObj), IdStr(ti.taskIdObj), key, v))
    requires ti.dagIdObj != other.dagIdObj || ti.taskIdObj != other.taskIdObj
    ensures var t' := Merged(t, PushPath(IdStr(ti.dagIdObj), IdStr(ti.taskIdObj), key, v));
      Slot(t', IdStr(other.dagIdObj), IdStr(other.taskIdObj), key') == Slot(t, IdStr(other.dagIdObj), IdStr(other.taskIdObj), key')
  {
    PushSlots(t, IdStr(ti.dagIdObj), IdStr(ti.taskIdObj), key, v);
    if IdStr(ti.dagIdObj) == IdStr(other.dagIdObj) {
      IdStrInjective(ti.dagIdObj, other.dagIdObj);
    }
    if IdStr(ti.taskIdObj) == IdStr(other.taskIdObj) {
      IdStrInjective(ti.taskIdObj, other.taskIdObj);
    }
  }

  class ExecuteAnyOperator {
    /** `self.operator`: the admitted class (for a member name, the class the
        member wraps). */
    var operator: PyValue
    var baseKwargs: Kwargs
    var taskId: string
    var dag: Dag
    var startDate: Timestamp
    var task: WrappedTask
    /** The `TaskInstanceMock` that `_generate_context` puts in the context. */
    var ti: TaskInstanceMock
    var context: Context<TaskInstanceMock>

    /** The attributes other than the context, as a value. */
    function State(): LegacyState
      reads this
    {
      LegacyState(operator, baseKwargs, taskId, dag, startDate, task)
    }

    constructor (s: LegacyState, ti: TaskInstanceMock)
      ensures State() == s && this.ti == ti
      ensures context == MakeContext(s.dag, s.task, s.taskId, s.startDate, ti)
    {
      operator := s.operator;
      baseKwargs := s.baseKwargs;
      taskId := s.taskId;
      dag := s.dag;
      startDate := s.startDate;
      task := s.task;
      this.ti := ti;
      context := MakeContext(s.dag, s.task, s.taskId, s.startDate, ti);
    }

    /** `ExecuteAnyOperator(*args, **kwargs)`: a new operator holding what
        `LegacyInit` computes, and a new task instance mock over the global
        store whose `dag_id` and `task_id` mocks have the ids given; or the
        exception `LegacyInit` raises. */
    static method New(kwargs: Kwargs, positional: Option<PyValue>, now: Timestamp, af: Airflow,
                      str: PyValue -> string, store: XComStore, dagIdObj: nat, taskIdObj: nat)
      returns (r: Outcome<ExecuteAnyOperator>)
      ensures r.Ok? <==> LegacyInit(kwargs, positional, now, af, str).Ok?
      ensures r.Raise? ==> r.error == LegacyInit(kwargs, positional, now, af, str).error
      ensures r.Ok? ==> (fresh(r.value) && fresh(r.value.ti) &&
        r.value.State() == LegacyInit(kwargs, positional, now, af, str).value &&
        r.value.ti.store == store && r.value.ti.dagIdObj == dagIdObj && r.value.ti.taskIdObj == taskIdObj &&
        r.value.context == MakeContext(r.value.dag, r.value.task, r.value.taskId, r.value.startDate, r.value.ti))
    {
      match LegacyInit(kwargs, positional, now, af, str)
      case Raise(e) =>
        r := Raise(e);
      case Ok(s) =>
        var ti := new TaskInstanceMock(store, dagIdObj, taskIdObj);
        var o := new ExecuteAnyOperator(s, ti);
        r := Ok(o);
    }

    /** `execute()`: the wrapped operator's result on the stored context;
        this version pushes nothing itself. */
    method Execute(run: (WrappedTask, Context<TaskInstanceMock>) -> Outcome<PyValue>) returns (r: Outcome<PyValue>)
      ensures r == run(task, context)
    {
      r := run(task, context);
    }
  }
}
