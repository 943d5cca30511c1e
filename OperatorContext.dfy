/** What the two `ExecuteAnyOperator` versions (operators/execute_any.py and
    util/execute_any_operator.py) share: keyword arguments, the wrapped
    operator, the Airflow calls they make, and the task context they
    fabricate. */
module OperatorContext {
  import opened PyBase

  /** `**kwargs`; their order does not matter to either version. */
  type Kwargs = map<string, PyValue>

  /** `DAG(dag_id, default_args={"owner": …, …})`; the default start date
      (`pendulum.today()` minus a day) is not modelled. */
  datatype Dag = Dag(dagId: string, owner: string)

  const DummyDag: Dag := Dag("dummy_dag", "airflow")

  /** The operator instance the shim wraps: its class, the keyword arguments
      it was built with, and its `do_xcom_push` flag. */
  datatype WrappedTask = WrappedTask(cls: PyValue, kwargs: Kwargs, doXcomPush: bool)

  /** The Airflow code the constructors call: the parameter names of
      `BaseOperator.__init__`, `getattr(importlib.import_module(m), c)`, and
      the wrapped operator class's constructor, which gives the instance's
      `do_xcom_push` or raises. */
  datatype Airflow = Airflow(
    baseParams: set<string>,
    resolve: (string, string) -> Outcome<PyValue>,
    instantiate: (PyValue, Kwargs) -> Outcome<bool>)

  /** `{k: kwargs[k] for k in params if k in kwargs}` */
  function Restrict(kwargs: Kwargs, params: set<string>): (r: Kwargs)
    ensures r.Keys == kwargs.Keys * params
    ensures forall k :: k in r ==> r[k] == kwargs[k]
  {
    map k | k in params && k in kwargs :: kwargs[k]
  }

  /** `BaseOperator.__init__(**base_kwargs)`: its key validation raises
      `TypeError` unless `task_id` is a string; that string is `self.task_id`.
      Its other checks are not modelled. */
  function BaseTaskId(baseKwargs: Kwargs): (r: Outcome<string>)
    ensures r.Ok? <==> "task_id" in baseKwargs && baseKwargs["task_id"].PyStr?
    ensures r.Ok? ==> baseKwargs["task_id"] == PyStr(r.value)
    ensures r.Raise? ==> r.error == TypeError
  {
    if "task_id" in baseKwargs && baseKwargs["task_id"].PyStr? then Ok(baseKwargs["task_id"].s)
    else Raise(TypeError)
  }

  /** A value in the context dict; `TI` is the version's task instance. */
  datatype CtxValue<TI> =
    | CNone
    | CBool(b: bool)
    | CStr(s: string)
    | CTime(t: Timestamp)
    | CDag(dag: Dag)
    | CTask(task: WrappedTask)
    | CTaskInstance(ti: TI)
    | CMacros

  /** `ds.replace("-", "")` */
  function NoDash(s: string): string {
    Replace(s, "-", "")
  }

  /** `ts.replace("-", "").replace(":", "")` */
  function NoDashColon(s: string): string {
    Replace(Replace(s, "-", ""), ":", "")
  }

  /** The keys of the context dict; `KeyName` gives each one's string. */
  datatype CtxKey =
    | Conf | DagKey | DagRun | DataIntervalEnd | DataIntervalStart | Ds | DsNodash
    | Inlets | Macros | Outlets | Params | PrevDataIntervalStartSuccess
    | PrevDataIntervalEndSuccess | PrevExecutionDateSuccess | RunId | TaskKey
    | TaskInstance | TaskInstanceKeyStr | TestMode | Ti | Ts | TsNodash
    | TsNodashWithTz | Var | Conn

  function KeyName(k: CtxKey): string {
    match k
    case Conf => "conf"
    case DagKey => "dag"
    case DagRun => "dag_run"
    case DataIntervalEnd => "data_interval_end"
    case DataIntervalStart => "data_interval_start"
    case Ds => "ds"
    case DsNodash => "ds_nodash"
    case Inlets => "inlets"
    case Macros => "macros"
    case Outlets => "outlets"
    case Params => "params"
    case PrevDataIntervalStartSuccess => "prev_data_interval_start_success"
    case PrevDataIntervalEndSuccess => "prev_data_interval_end_success"
    case PrevExecutionDateSuccess => "prev_execution_date_success"
    case RunId => "run_id"
    case TaskKey => "task"
    case TaskInstance => "task_instance"
    case TaskInstanceKeyStr => "task_instance_key_str"
    case TestMode => "test_mode"
    case Ti => "ti"
    case Ts => "ts"
    case TsNodash => "ts_nodash"
    case TsNodashWithTz => "ts_nodash_with_tz"
    case Var => "var"
    case Conn => "conn"
  }

  /** The key at position `i` of the dict literal. */
  function KeyAt(i: int): CtxKey {
    match i
    case 0 => Conf case 1 => DagKey case 2 => DagRun case 3 => DataIntervalEnd
    case 4 => DataIntervalStart case 5 => Ds case 6 => DsNodash case 7 => Inlets
    case 8 => Macros case 9 => Outlets case 10 => Params case 11 => PrevDataIntervalStartSuccess
    case 12 => PrevDataIntervalEndSuccess case 13 => PrevExecutionDateSuccess case 14 => RunId
    case 15 => TaskKey case 16 => TaskInstance case 17 => TaskInstanceKeyStr case 18 => TestMode
    case 19 => Ti case 20 => Ts case 21 => TsNodash case 22 => TsNodashWithTz case 23 => Var
    case _ => Conn
  }

  /** The keys in the order of the dict literal. */
  const ContextKeyList: seq<CtxKey> := [
    Conf, DagKey, DagRun, DataIntervalEnd, DataIntervalStart, Ds, DsNodash,
    Inlets, Macros, Outlets, Params, PrevDataIntervalStartSuccess,
    PrevDataIntervalEndSuccess, PrevExecutionDateSuccess, RunId, TaskKey,
    TaskInstance, TaskInstanceKeyStr, TestMode, Ti, Ts, TsNodash,
    TsNodashWithTz, Var, Conn]

  /** The `i`-th of the keys the literal maps to None, in the literal's order. */
  function NoneAt(i: int): CtxKey {
    match i
    case 0 => Conf case 1 => DagRun case 2 => DataIntervalEnd case 3 => Inlets
    case 4 => Outlets case 5 => Params case 6 => PrevDataIntervalStartSuccess
    case 7 => PrevDataIntervalEndSuccess case 8 => PrevExecutionDateSuccess
    case 9 => RunId case 10 => Var case _ => Conn
  }

  /** The keys the literal maps to None. */
  const NoneKeyList: seq<CtxKey> := [
    Conf, DagRun, DataIntervalEnd, Inlets, Outlets, Params,
    PrevDataIntervalStartSuccess, PrevDataIntervalEndSuccess,
    PrevExecutionDateSuccess, RunId, Var, Conn]

  type Context<TI> = map<CtxKey, CtxValue<TI>>

  /** The value the dict literal of `_generate_context` gives key `k`. */
  function ContextEntry<TI>(k: CtxKey, dag: Dag, task: WrappedTask, taskId: string, start: Timestamp, ti: TI): CtxValue<TI> {
    match k
    case Conf => CNone
    case DagKey => CDag(dag)
    case DagRun => CNone
    case DataIntervalEnd => CNone
    case DataIntervalStart => CTime(start)
    case Ds => CStr(start.ds)
    case DsNodash => CStr(NoDash(start.ds))
    case Inlets => CNone
    case Macros => CMacros
    case Outlets => CNone
    case Params => CNone
    case PrevDataIntervalStartSuccess => CNone
    case PrevDataIntervalEndSuccess => CNone
    case PrevExecutionDateSuccess => CNone
    case RunId => CNone
    case TaskKey => CTask(task)
    case TaskInstance => CTaskInstance(ti)
    case TaskInstanceKeyStr => CStr(dag.dagId + "__" + taskId + "__" + NoDash(start.ds))
    case TestMode => CBool(false)
    case Ti => CTaskInstance(ti)
    case Ts => CStr(start.ts)
    case TsNodash => CStr(start.tsNodash)
    case TsNodashWithTz => CStr(NoDashColon(start.ts))
    case Var => CNone
    case Conn => CNone
  }

  /** `_generate_context(dag, task, task_id, start_date)`: the dict literal,
      one entry for each key of `ContextKeyList`. */
  function MakeContext<TI>(dag: Dag, task: WrappedTask, taskId: string, start: Timestamp, ti: TI): (ctx: Context<TI>)
  {
    map i | 0 <= i < 25 :: KeyAt(i) := ContextEntry(KeyAt(i), dag, task, taskId, start, ti)
  }

  /** Every key is in the context, with the value the literal gives it. */
  lemma ContextHas<TI>(dag: Dag, task: WrappedTask, taskId: string, start: Timestamp, ti: TI, k: CtxKey)
    ensures k in MakeContext(dag, task, taskId, start, ti)
    ensures MakeContext(dag, task, taskId, start, ti)[k] == ContextEntry(k, dag, task, taskId, start, ti)
  {
    KeyAtIndex(k);
  }

  /** Both `ti` and `task_instance` are the task instance; the run is not a
      test run, and the macros are there. */
  lemma ContextTaskInstance<TI>(dag: Dag, task: WrappedTask, taskId: string, start: Timestamp, ti: TI)
    ensures var ctx := MakeContext(dag, task, taskId, start, ti);
      Ti in ctx && TaskInstance in ctx && TestMode in ctx && Macros in ctx &&
      ctx[Ti] == ctx[TaskInstance] == CTaskInstance(ti) &&
      ctx[TestMode] == CBool(false) && ctx[Macros] == CMacros
  {
    ContextHas(dag, task, taskId, start, ti, Ti);
    ContextHas(dag, task, taskId, start, ti, TaskInstance);
    ContextHas(dag, task, taskId, start, ti, TestMode);
    ContextHas(dag, task, taskId, start, ti, Macros);
  }

  /** The context holds the task, its DAG and start date, and the start
      date's renderings. */
  lemma ContextEntries<TI>(dag: Dag, task: WrappedTask, taskId: string, start: Timestamp, ti: TI)
    ensures var ctx := MakeContext(dag, task, taskId, start, ti);
      TaskKey in ctx && DagKey in ctx && DataIntervalStart in ctx && Ds in ctx && Ts in ctx && TsNodash in ctx &&
      ctx[TaskKey] == CTask(task) && ctx[DagKey] == CDag(dag) && ctx[DataIntervalStart] == CTime(start) &&
      ctx[Ds] == CStr(start.ds) && ctx[Ts] == CStr(start.ts) && ctx[TsNodash] == CStr(start.tsNodash)
  {
    ContextHas(dag, task, taskId, start, ti, TaskKey);
    ContextHas(dag, task, taskId, start, ti, DagKey);
    ContextHas(dag, task, taskId, start, ti, DataIntervalStart);
    ContextHas(dag, task, taskId, start, ti, Ds);
    ContextHas(dag, task, taskId, start, ti, Ts);
    ContextHas(dag, task, taskId, start, ti, TsNodash);
  }

  /** `ds_nodash` and `ts_nodash_with_tz` are the start date's renderings
      without separators; `task_instance_key_str` joins the DAG id, the task
      id and `ds_nodash` with `__`. */
  lemma ContextDerived<TI>(dag: Dag, task: WrappedTask, taskId: string, start: Timestamp, ti: TI)
    ensures var ctx := MakeContext(dag, task, taskId, start, ti);
      DsNodash in ctx && TsNodashWithTz in ctx && TaskInstanceKeyStr in ctx &&
      ctx[DsNodash] == CStr(NoDash(start.ds)) && ctx[TsNodashWithTz] == CStr(NoDashColon(start.ts)) &&
      ctx[TaskInstanceKeyStr] == CStr(dag.dagId + "__" + taskId + "__" + NoDash(start.ds))
  {
    ContextHas(dag, task, taskId, start, ti, DsNodash);
    ContextHas(dag, task, taskId, start, ti, TsNodashWithTz);
    ContextHas(dag, task, taskId, start, ti, TaskInstanceKeyStr);
  }

  /** The position of a key in `ContextKeyList`. */
  function KeyIndex(k: CtxKey): nat {
    match k
    case Conf => 0 case DagKey => 1 case DagRun => 2 case DataIntervalEnd => 3
    case DataIntervalStart => 4 case Ds => 5 case DsNodash => 6 case Inlets => 7
    case Macros => 8 case Outlets => 9 case Params => 10 case PrevDataIntervalStartSuccess => 11
    case PrevDataIntervalEndSuccess => 12 case PrevExecutionDateSuccess => 13 case RunId => 14
    case TaskKey => 15 case TaskInstance => 16 case TaskInstanceKeyStr => 17 case TestMode => 18
    case Ti => 19 case Ts => 20 case TsNodash => 21 case TsNodashWithTz => 22 case Var => 23
    case Conn => 24
  }

  /** The position of a key in `NoneKeyList`, or -1. */
  function NoneIndex(k: CtxKey): int {
    match k
    case Conf => 0 case DagRun => 1 case DataIntervalEnd => 2 case Inlets => 3
    case Outlets => 4 case Params => 5 case PrevDataIntervalStartSuccess => 6
    case PrevDataIntervalEndSuccess => 7 case PrevExecutionDateSuccess => 8
    case RunId => 9 case Var => 10 case Conn => 11
    case _ => -1
  }

  /** `KeyAt` and `NoneAt` read the two lists, and `KeyIndex` and
      `NoneIndex` invert them. */
  lemma IndicesInvert()
    ensures |ContextKeyList| == 25 && |NoneKeyList| == 12
    ensures forall i :: 0 <= i < 25 ==> ContextKeyList[i] == KeyAt(i) && KeyIndex(KeyAt(i)) == i
    ensures forall i :: 0 <= i < 12 ==> NoneKeyList[i] == NoneAt(i) && NoneIndex(NoneAt(i)) == i
  {
  }

  lemma KeyAtIndex(k: CtxKey)
    ensures 0 <= KeyIndex(k) < 25 && KeyAt(KeyIndex(k)) == k
  {
  }

  lemma KeyListed(k: CtxKey)
    ensures KeyIndex(k) < |ContextKeyList| && ContextKeyList[KeyIndex(k)] == k
    ensures NoneIndex(k) < |NoneKeyList|
    ensures NoneIndex(k) >= 0 ==> NoneKeyList[NoneIndex(k)] == k
    ensures NoneIndex(k) < 0 ==> k !in NoneKeyList
  {
    IndicesInvert();
    assert KeyAt(KeyIndex(k)) == k;
    assert NoneIndex(k) >= 0 ==> NoneAt(NoneIndex(k)) == k;
  }

  /** Every key is in the context, and it is None exactly when it is one of
      `NoneKeyList`. */
  lemma ContextAt<TI>(dag: Dag, task: WrappedTask, taskId: string, start: Timestamp, ti: TI, k: CtxKey)
    ensures k in MakeContext(dag, task, taskId, start, ti)
    ensures MakeContext(dag, task, taskId, start, ti)[k].CNone? <==> k in NoneKeyList
  {
    ContextHas(dag, task, taskId, start, ti, k);
    KeyListed(k);
  }

  predicate Distinct<T(==)>(s: seq<T>) {
    forall i, j :: 0 <= i < j < |s| ==> s[i] != s[j]
  }

  /** A sequence without repeats has as many elements as its set. */
  lemma {:induction false} DistinctCard<T>(s: seq<T>)
    requires Distinct(s)
    ensures |set x | x in s| == |s|
  {
    if |s| > 0 {
      var t := s[1..];
      assert Distinct(t) by {
        forall i, j | 0 <= i < j < |t| ensures t[i] != t[j] {
          assert t[i] == s[i + 1] && t[j] == s[j + 1];
        }
      }
      DistinctCard(t);
      assert s[0] !in t by {
        forall j | 0 <= j < |t| ensures t[j] != s[0] {
          assert t[j] == s[j + 1];
        }
      }
      assert (set x | x in s) == (set x | x in t) + {s[0]} by {
        assert s == [s[0]] + t;
      }
    }
  }

  lemma ListsDistinct()
    ensures Distinct(ContextKeyList) && Distinct(NoneKeyList)
  {
    IndicesInvert();
  }

  /** The context dict has 25 keys, 12 of them mapped to None. */
  lemma ContextSize<TI>(dag: Dag, task: WrappedTask, taskId: string, start: Timestamp, ti: TI)
    ensures var ctx := MakeContext(dag, task, taskId, start, ti);
      |ctx.Keys| == 25 && |set k | k in ctx && ctx[k].CNone?| == 12
  {
    var ctx := MakeContext(dag, task, taskId, start, ti);
    forall k ensures k in ctx && k in ContextKeyList && (ctx[k].CNone? <==> k in NoneKeyList) {
      ContextAt(dag, task, taskId, start, ti, k);
      KeyListed(k);
    }
    ListsDistinct();
    DistinctCard(ContextKeyList);
    DistinctCard(NoneKeyList);
    assert ctx.Keys == set k | k in ContextKeyList;
    assert (set k | k in ctx && ctx[k].CNone?) == set k | k in NoneKeyList;
  }

  /** Distinct keys have distinct strings: the dict has 25 string keys. */
  lemma KeyNamesDistinct(a: CtxKey, b: CtxKey)
    requires KeyName(a) == KeyName(b)
    ensures a == b
  {
  }

  // ----- the derived date strings -----

  /** `ds_nodash` has no `-`, and every other character of `ds` as often as
      `ds` has it. */
  lemma DsNodashFacts(ds: string)
    ensures '-' !in NoDash(ds)
    ensures forall c :: c != '-' ==> multiset(NoDash(ds))[c] == multiset(ds)[c]
  {
    RemoveCharCounts(ds, '-');
  }

  /** `ts_nodash_with_tz` has no `-` and no `:`, and every other character of
      `ts` as often as `ts` has it. */
  lemma TsNodashWithTzFacts(ts: string)
    ensures '-' !in NoDashColon(ts) && ':' !in NoDashColon(ts)
    ensures forall c :: c != '-' && c != ':' ==> multiset(NoDashColon(ts))[c] == multiset(ts)[c]
  {
    var once := Replace(ts, "-", "");
    RemoveCharCounts(ts, '-');
    RemoveCharCounts(once, ':');
    assert multiset(NoDashColon(ts))['-'] == multiset(once)['-'] == 0;
  }

  /** Removing `-` and `:` distributes over concatenation. */
  lemma NoDashColonAppend(a: string, b: string)
    ensures NoDashColon(a + b) == NoDashColon(a) + NoDashColon(b)
  {
    ReplaceCharAppend(a, b, '-', "");
    ReplaceCharAppend(Replace(a, "-", ""), Replace(b, "-", ""), ':', "");
  }

  /** A string with neither `-` nor `:` is kept as it is. */
  lemma NoDashColonKeeps(s: string)
    requires '-' !in s && ':' !in s
    ensures NoDashColon(s) == s
  {
    RemoveAbsentChar(s, '-');
    RemoveAbsentChar(s, ':');
  }

  /** Removing `-` and `:` from a signed offset removes them part by part. */
  lemma NoDashColonParts(base: string, sign: string, hh: string, mm: string)
    ensures NoDashColon(base + sign + hh + ":" + mm) ==
      NoDashColon(base) + NoDashColon(sign) + NoDashColon(hh) + NoDashColon(":") + NoDashColon(mm)
  {
    NoDashColonAppend(base + sign + hh + ":", mm);
    NoDashColonAppend(base + sign + hh, ":");
    NoDashColonAppend(base + sign, hh);
    NoDashColonAppend(base, sign);
  }

  /** `-` and `:` alone become empty; `+` stays. */
  lemma NoDashColonSigns()
    ensures NoDashColon("-") == [] && NoDashColon(":") == [] && NoDashColon("+") == "+"
  {
    NoDashColonKeeps("+");
    assert "-"[1..] == [] && ":"[1..] == [];
    assert "-" <= "-" && ":" <= ":";
    assert Replace(":", "-", "") == ":" by {
      assert ":"[0] == ':' && !("-" <= ":");
    }
  }

  lemma OffsetPlus(base: string, hh: string, mm: string)
    requires NoDashColon(hh) == hh && NoDashColon(mm) == mm
    ensures NoDashColon(base + "+" + hh + ":" + mm) == NoDashColon(base) + "+" + hh + mm
  {
    NoDashColonSigns();
    NoDashColonParts(base, "+", hh, mm);
    assert NoDashColon(base) + "+" + hh + [] + mm == NoDashColon(base) + "+" + hh + mm;
  }

  lemma OffsetMinus(base: string, hh: string, mm: string)
    requires NoDashColon(hh) == hh && NoDashColon(mm) == mm
    ensures NoDashColon(base + "-" + hh + ":" + mm) == NoDashColon(base) + hh + mm
  {
    NoDashColonSigns();
    NoDashColonParts(base, "-", hh, mm);
    assert NoDashColon(base) + [] + hh + [] + mm == NoDashColon(base) + hh + mm;
  }

  /** The UTC offset at the end of `ts` keeps a `+` but loses a `-`: a
      negative offset reads as the positive one. */
  lemma OffsetSign(base: string, hh: string, mm: string)
    requires '-' !in hh && ':' !in hh && '-' !in mm && ':' !in mm
    ensures NoDashColon(base + "+" + hh + ":" + mm) == NoDashColon(base) + "+" + hh + mm
    ensures NoDashColon(base + "-" + hh + ":" + mm) == NoDashColon(base) + hh + mm
  {
    NoDashColonKeeps(hh);
    NoDashColonKeeps(mm);
    OffsetPlus(base, hh, mm);
    OffsetMinus(base, hh, mm);
  }
}
