/** operators/execute_any.py: `ExecuteAnyOperator` wraps any Airflow
    operator named `module:Class`, fabricates the task context Airflow would
    give it, and runs it outside a scheduler. */
module ExecuteAny {
  import opened PyBase
  import opened OperatorContext

  /** `XCOM_RETURN_KEY` */
  const XComReturnKey: string := "return_value"

  /** `operator.split(":", 1)` unpacked into two names: a string without a
      `:` gives one part, and the unpacking raises `ValueError`. */
  function SplitOperator(op: string): (r: Outcome<(string, string)>)
    ensures r.Raise? <==> ':' !in op
    ensures r.Raise? ==> r.error == ValueError
    ensures r.Ok? ==> ':' !in r.value.0 && r.value.0 + ":" + r.value.1 == op
  {
    var i := IndexOf(op, ':');
    if i == |op| then Raise(ValueError)
    else
      assert op == op[..i] + ":" + op[i + 1..];
      Ok((op[..i], op[i + 1..]))
  }

  /** Splitting undoes joining: the module part is everything before the
      first `:`, the class part may itself hold `:`. */
  lemma SplitJoin(modName: string, opName: string)
    requires ':' !in modName
    ensures SplitOperator(modName + ":" + opName) == Ok((modName, opName))
  {
    var op := modName + ":" + opName;
    var i := |modName|;
    assert op[..i] == modName && op[i] == ':';
    var j := IndexOf(op, ':');
    assert j >= i by {
      assert forall k :: 0 <= k < i ==> op[k] == modName[k];
    }
    assert op[i] in op[..j] || j <= i;
    assert op[i + 1..] == opName;
  }

  /** The bare class names that two of the command-line entry points pass
      have no module part and are always rejected. */
  lemma BareNamesRejected(op: string)
    requires op == "KubernetesPodOperator" || op == "ArrowHdfsSensor"
    ensures SplitOperator(op) == Raise(ValueError)
  {
    assert ':' !in op;
  }

  /** The keyword arguments after `make_kwargs`: the two names of the
      operator string added, `task_id` and `start_date` defaulted only when
      absent, everything else as given. */
  predicate Defaulted(before: Kwargs, after: Kwargs, modName: string, opName: string, now: Timestamp) {
    after.Keys == before.Keys + {"mod_name", "op_name", "task_id", "start_date"} &&
    after["mod_name"] == PyStr(modName) && after["op_name"] == PyStr(opName) &&
    (forall k :: k in before && k != "mod_name" && k != "op_name" ==> after[k] == before[k]) &&
    ("task_id" !in before ==> after["task_id"] == PyStr("execute_" + opName)) &&
    ("start_date" !in before ==> after["start_date"] == PyTime(now))
  }

  /** `make_kwargs`'s wrapper around `__init__`: `operator` must be given by
      keyword (else `KeyError`) and be a string (else `AttributeError` on
      `split`), holding a `:` (else `ValueError`). `now` is `pendulum.now()`. */
  function MakeKwargs(kwargs: Kwargs, now: Timestamp): (r: Outcome<Kwargs>)
    ensures "operator" !in kwargs ==> r == Raise(KeyError)
    ensures "operator" in kwargs && !kwargs["operator"].PyStr? ==> r == Raise(AttributeError)
    ensures "operator" in kwargs && kwargs["operator"].PyStr? && ':' !in kwargs["operator"].s ==> r == Raise(ValueError)
    ensures r.Ok? ==> ("operator" in kwargs && kwargs["operator"].PyStr? &&
      var parts := SplitOperator(kwargs["operator"].s);
      parts.Ok? && Defaulted(kwargs, r.value, parts.value.0, parts.value.1, now))
    ensures r.Raise? ==> "operator" !in kwargs || !kwargs["operator"].PyStr? || ':' !in kwargs["operator"].s
  {
    if "operator" !in kwargs then Raise(KeyError)
    else if !kwargs["operator"].PyStr? then Raise(AttributeError)
    else
      match SplitOperator(kwargs["operator"].s)
      case Raise(e) => Raise(e)
      case Ok((modName, opName)) =>
        var named := kwargs["mod_name" := PyStr(modName)]["op_name" := PyStr(opName)];
        var withId := if "task_id" in named then named else named["task_id" := PyStr("execute_" + opName)];
        Ok(if "start_date" in withId then withId else withId["start_date" := PyTime(now)])
  }

  /** Caller-given `task_id` and `start_date` survive `make_kwargs`. */
  lemma DefaultsNeverOverwrite(before: Kwargs, after: Kwargs, modName: string, opName: string, now: Timestamp)
    requires Defaulted(before, after, modName, opName, now)
    ensures "task_id" in before ==> after["task_id"] == before["task_id"]
    ensures "start_date" in before ==> after["start_date"] == before["start_date"]
    ensures "task_id" in after && "start_date" in after
  {
  }

  /** The task instance this version builds: `TaskInstance(task=…,
      execution_date=start_date, run_id=f"cli__{ts_nodash}")`. */
  datatype TaskInstanceRecord = TaskInstanceRecord(task: WrappedTask, executionDate: Timestamp, runId: string)

  /** What `__init__` leaves in the operator's attributes, but the context,
      which `ContextOf` derives from them. */
  datatype OperatorState = OperatorState(
    operator: PyValue, baseKwargs: Kwargs, taskId: string, dag: Dag, startDate: Timestamp,
    task: WrappedTask)

  /** `ExecuteAnyOperator(**kwargs)`, decorated by `make_kwargs`, step by
      step: the arguments are defaulted; `BaseOperator.__init__` gets those
      it has parameters for; `mod_name` and `op_name` are popped and name the
      class; the class is built with the rest; the context is fabricated, and
      a `start_date` that is not a pendulum instant fails there with
      `AttributeError`. */
  function Init(kwargs: Kwargs, now: Timestamp, af: Airflow): Outcome<OperatorState> {
    match MakeKwargs(kwargs, now)
    case Raise(e) => Raise(e)
    case Ok(made) =>
      // `operator` binds to the parameter; the rest stay in `kwargs`
      var inner := made - {"operator"};
      var baseKwargs := Restrict(inner, af.baseParams);
      match BaseTaskId(baseKwargs)
      case Raise(e) => Raise(e)
      case Ok(taskId) =>
        var rest := inner - {"mod_name", "op_name"};
        match af.resolve(made["mod_name"].s, made["op_name"].s)
        case Raise(e) => Raise(e)
        case Ok(cls) =>
          match af.instantiate(cls, rest)
          case Raise(e) => Raise(e)
          case Ok(push) =>
            var task := WrappedTask(cls, rest, push);
            if !rest["start_date"].PyTime? then Raise(AttributeError)
            else
              Ok(OperatorState(cls, baseKwargs, taskId, DummyDag, rest["start_date"].t, task))
  }

  /** `self._generate_context(dag, task, task_id, start_date)`: the context
      of the operator's task in its DAG at its start date, with a task
      instance whose run is `cli__<ts_nodash>`. */
  function ContextOf(s: OperatorState): Context<TaskInstanceRecord> {
    MakeContext(s.dag, s.task, s.taskId, s.startDate,
      TaskInstanceRecord(s.task, s.startDate, "cli__" + s.startDate.tsNodash))
  }

  /** The operator's context holds its task and DAG, and a task instance for
      that task at the start date with run id `cli__` + `ts_nodash`. */
  lemma ContextOfState(s: OperatorState)
    ensures var ctx := ContextOf(s);
      Ti in ctx && TaskKey in ctx && DagKey in ctx &&
      ctx[Ti] == CTaskInstance(TaskInstanceRecord(s.task, s.startDate, "cli__" + s.startDate.tsNodash)) &&
      ctx[TaskKey] == CTask(s.task) && ctx[DagKey] == CDag(s.dag)
  {
    var ti := TaskInstanceRecord(s.task, s.startDate, "cli__" + s.startDate.tsNodash);
    ContextTaskInstance(s.dag, s.task, s.taskId, s.startDate, ti);
    ContextEntries(s.dag, s.task, s.taskId, s.startDate, ti);
  }

  /** The arguments `make_kwargs` rejects raise before anything is
      imported or built. */
  lemma InitRejects(kwargs: Kwargs, now: Timestamp, af: Airflow)
    ensures "operator" !in kwargs ==> Init(kwargs, now, af) == Raise(KeyError)
    ensures "operator" in kwargs && !kwargs["operator"].PyStr? ==> Init(kwargs, now, af) == Raise(AttributeError)
    ensures "operator" in kwargs && kwargs["operator"].PyStr? && ':' !in kwargs["operator"].s ==>
      Init(kwargs, now, af) == Raise(ValueError)
  {
  }

  /** The keyword arguments the wrapped operator receives: the caller's,
      without `operator`, `mod_name` and `op_name`, with the defaults. */
  predicate PassedOn(kwargs: Kwargs, taskKwargs: Kwargs, opName: string, now: Timestamp) {
    taskKwargs.Keys == (kwargs.Keys - {"operator", "mod_name", "op_name"}) + {"task_id", "start_date"} &&
    (forall k :: k in kwargs && k != "operator" && k != "mod_name" && k != "op_name" ==> taskKwargs[k] == kwargs[k]) &&
    ("task_id" !in kwargs ==> taskKwargs["task_id"] == PyStr("execute_" + opName)) &&
    ("start_date" !in kwargs ==> taskKwargs["start_date"] == PyTime(now))
  }

  /** Along a successful construction: the defaulted arguments and the
      names they carry. */
  lemma InitMade(kwargs: Kwargs, now: Timestamp, af: Airflow)
    requires Init(kwargs, now, af).Ok?
    ensures MakeKwargs(kwargs, now).Ok?
    ensures "operator" in kwargs && kwargs["operator"].PyStr? && SplitOperator(kwargs["operator"].s).Ok?
    ensures var (modName, opName) := SplitOperator(kwargs["operator"].s).value;
      Defaulted(kwargs, MakeKwargs(kwargs, now).value, modName, opName, now)
  {
  }

  /** A constructed operator holds the class named by the operator string,
      built from the caller's arguments with the defaults. */
  lemma InitBuildsTask(kwargs: Kwargs, now: Timestamp, af: Airflow)
    requires Init(kwargs, now, af).Ok?
    ensures "operator" in kwargs && kwargs["operator"].PyStr? && SplitOperator(kwargs["operator"].s).Ok?
    ensures var (modName, opName) := SplitOperator(kwargs["operator"].s).value;
      var o := Init(kwargs, now, af).value;
      af.resolve(modName, opName) == Ok(o.operator) &&
      PassedOn(kwargs, o.task.kwargs, opName, now) &&
      o.task.cls == o.operator && af.instantiate(o.operator, o.task.kwargs) == Ok(o.task.doXcomPush)
  {
    InitMade(kwargs, now, af);
  }

  /** Keys outside the parameters make no difference to the restriction. */
  lemma RestrictDrop(kwargs: Kwargs, params: set<string>, drop: set<string>)
    requires forall k :: k in drop ==> k !in params
    ensures Restrict(kwargs - drop, params) == Restrict(kwargs, params)
  {
    var a, b := Restrict(kwargs - drop, params), Restrict(kwargs, params);
    assert a.Keys == b.Keys by {
      forall k | k in b ensures k in a {
        assert k in params && k !in drop;
      }
    }
  }

  /** The arguments `BaseOperator` saw, and those the wrapped operator got,
      along a successful construction. */
  lemma InitKwargs(kwargs: Kwargs, now: Timestamp, af: Airflow)
    requires Init(kwargs, now, af).Ok?
    ensures MakeKwargs(kwargs, now).Ok?
    ensures var inner := MakeKwargs(kwargs, now).value - {"operator"};
      var o := Init(kwargs, now, af).value;
      o.baseKwargs == Restrict(inner, af.baseParams) && o.task.kwargs == inner - {"mod_name", "op_name"}
  {
  }

  /** The operator's task id is the string `task_id` `BaseOperator` saw. */
  lemma InitTaskId(kwargs: Kwargs, now: Timestamp, af: Airflow)
    requires Init(kwargs, now, af).Ok?
    ensures var o := Init(kwargs, now, af).value;
      "task_id" in o.baseKwargs && o.baseKwargs["task_id"] == PyStr(o.taskId)
  {
    var inner := MakeKwargs(kwargs, now).value - {"operator"};
    var o := Init(kwargs, now, af).value;
    assert BaseTaskId(Restrict(inner, af.baseParams)) == Ok(o.taskId);
  }

  /** `BaseOperator` saw the arguments it has parameters for, among them a
      string `task_id`, which is the operator's. */
  lemma InitBase(kwargs: Kwargs, now: Timestamp, af: Airflow)
    requires Init(kwargs, now, af).Ok?
    ensures var o := Init(kwargs, now, af).value;
      ("mod_name" !in af.baseParams && "op_name" !in af.baseParams ==>
        o.baseKwargs == Restrict(o.task.kwargs, af.baseParams)) &&
      "task_id" in o.baseKwargs && o.baseKwargs["task_id"] == PyStr(o.taskId)
  {
    InitKwargs(kwargs, now, af);
    InitTaskId(kwargs, now, af);
    var inner := MakeKwargs(kwargs, now).value - {"operator"};
    if "mod_name" !in af.baseParams && "op_name" !in af.baseParams {
      RestrictDrop(inner, af.baseParams, {"mod_name", "op_name"});
    }
  }

  /** The context is fabricated for the dummy DAG at the `start_date` the
      task was built with. */
  lemma InitContext(kwargs: Kwargs, now: Timestamp, af: Airflow)
    requires Init(kwargs, now, af).Ok?
    ensures var o := Init(kwargs, now, af).value;
      "start_date" in o.task.kwargs && o.task.kwargs["start_date"] == PyTime(o.startDate) &&
      o.dag == DummyDag
  {
  }

  /** `execute()`'s push decision: the result is pushed under
      `return_value` exactly when the task pushes and the result is not
      None. */
  function Pushed(task: WrappedTask, r: Outcome<PyValue>): (p: Option<(string, PyValue)>)
    ensures p.Some? <==> r.Ok? && task.doXcomPush && r.value != PyNone
    ensures p.Some? ==> p.value == (XComReturnKey, r.value)
  {
    if r.Ok? && task.doXcomPush && r.value != PyNone then Some((XComReturnKey, r.value)) else None
  }

  class ExecuteAnyOperator {
    /** `self.operator`: the resolved operator class. */
    var operator: PyValue
    /** The arguments handed to `BaseOperator.__init__`. */
    var baseKwargs: Kwargs
    var taskId: string
    var dag: Dag
    var startDate: Timestamp
    var task: WrappedTask
    var context: Context<TaskInstanceRecord>

    /** The attributes, as a value. */
    function State(): OperatorState
      reads this
    {
      OperatorState(operator, baseKwargs, taskId, dag, startDate, task)
    }

    constructor (s: OperatorState)
      ensures State() == s && context == ContextOf(s)
    {
      operator := s.operator;
      baseKwargs := s.baseKwargs;
      taskId := s.taskId;
      dag := s.dag;
      startDate := s.startDate;
      task := s.task;
      context := ContextOf(s);
    }

    /** `ExecuteAnyOperator(**kwargs)`: a new operator holding what `Init`
        computes, or the exception it raises. */
    static method New(kwargs: Kwargs, now: Timestamp, af: Airflow) returns (r: Outcome<ExecuteAnyOperator>)
      ensures r.Ok? <==> Init(kwargs, now, af).Ok?
      ensures r.Raise? ==> r.error == Init(kwargs, now, af).error
      ensures r.Ok? ==> fresh(r.value) && r.value.State() == Init(kwargs, now, af).value
      ensures r.Ok? ==> r.value.context == ContextOf(Init(kwargs, now, af).value)
    {
      match Init(kwargs, now, af)
      case Raise(e) =>
        r := Raise(e);
      case Ok(s) =>
        var o := new ExecuteAnyOperator(s);
        r := Ok(o);
    }

    /** `pre_execute()`: the wrapped operator's, with the stored context. */
    method PreExecute(hook: (WrappedTask, Context<TaskInstanceRecord>) -> Outcome<PyValue>) returns (r: Outcome<PyValue>)
      ensures r == hook(task, context)
    {
      r := hook(task, context);
    }

    /** `post_execute(context, result)`: the wrapped operator's, with the
        arguments given. */
    method PostExecute(hook: (WrappedTask, Context<TaskInstanceRecord>, PyValue) -> Outcome<PyValue>,
                       ctx: Context<TaskInstanceRecord>, result: PyValue) returns (r: Outcome<PyValue>)
      ensures r == hook(task, ctx, result)
    {
      r := hook(task, ctx, result);
    }

    /** `execute()`: runs the wrapped operator on the stored context and
        returns its result unchanged, with the one `xcom_push` it makes
        (`Pushed`). An exception of the wrapped operator propagates and
        nothing is pushed. */
    method Execute(run: (WrappedTask, Context<TaskInstanceRecord>) -> Outcome<PyValue>)
      returns (r: Outcome<PyValue>, pushed: Option<(string, PyValue)>)
      ensures r == run(task, context)
      ensures pushed == Pushed(task, r)
    {
      r := run(task, context);
      pushed := None;
      if r.Ok? && task.doXcomPush && r.value != PyNone {
        pushed := Some((XComReturnKey, r.value));
      }
    }
  }
}
