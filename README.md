# execute-any-operator, modelled in Dafny

`execute-any-operator` runs Airflow operators outside a scheduler. It has these parts:

- **ExecuteAnyOperator.** It takes an operator reference, `module:Class`. An older version takes a member of an allow-list instead. It defaults the `task_id` and `start_date` arguments, builds the wrapped operator, and fabricates the 25-key task context Airflow would pass it. Its `execute` pushes the result to XCom when the task asks for it.
- **XCom stores.** Two in-memory stores, `DictXComBackend` and the older `TaskInstanceMock`, keep XComs in a module-global dict nested dag → task → key. Writes go through a recursive deep merge.
- **Secrets backends.** They answer connection lookups from the process environment, or from a local dict. A connection id holding `%` or `*` is treated as a wildcard. It is translated to a regular expression anchored on `AIRFLOW_CONN_`.
- **Fake SQLAlchemy session.** It answers `session.query(Connection)` by trying a custom secrets backend first and then the environment backend.
- **Small helpers.** They turn click option pairs into dicts and drop `None` arguments. A patched `Variable.get` reads the environment.

The modules mirror the source files:

- `PyBase`, `PyDict`: Python values, outcomes (a value, or a raised exception) and insertion-ordered dicts.
- `DeepMerge`: the `_update` deep merge shared by both stores.
- `DictXCom`: utils/dict_xcom_backend.py.
- `WildcardPattern`, `SecretsBackend`: utils/secrets_backend.py.
- `AlchemyMock`: utils/alchemy_mock.py.
- `Helpers`: utils/helpers.py.
- `VariableMock`: utils/mock.py and the `--env-var` callback.
- `OperatorContext`, `ExecuteAny`: operators/execute_any.py.
- `LegacyExecuteAny`: util/execute_any_operator.py.

How calls into code outside these files are modelled:

- **Airflow classes.** Import by name, the wrapped class's constructor and the parameter list of `BaseOperator` are fields of an `Airflow` record.
- **The wrapped operator's own methods.** `execute`, `pre_execute` and `post_execute` are function parameters.
- **Pendulum.** `pendulum.now()` is a `now` parameter. An instant carries its three renderings (`ds`, `ts`, `ts_nodash`) as given strings.
- **Secrets backends.** The environment backend's inherited exact lookup and every method of a custom backend are functions in a `World` record.
- **JSON decoding.** `json.loads` is a function in the same `World` record.
- **Object ids.** The `id` of a mock's `dag_id` and `task_id` attributes are natural numbers, passed in.

## Model

| member | source | states |
|---|---|---|
| PyBase.IndexOf | execute_any_operator/execute_any_operator/operators/execute_any.py:36 | the first position of a character, or the length when it is absent; no earlier occurrence |
| PyBase.LastIndexOf | execute_any_operator/execute_any_operator/utils/alchemy_mock.py:18 | the last position of a character, or -1 when it is absent; no later occurrence |
| PyBase.UpperIdempotent | execute_any_operator/execute_any_operator/utils/mock.py:13 | upper-casing twice is upper-casing once |
| PyBase.UpperAppend | execute_any_operator/execute_any_operator/utils/secrets_backend.py:39 | upper-casing distributes over concatenation |
| PyBase.RemoveCharCounts | execute_any_operator/execute_any_operator/operators/execute_any.py:79 | `s.replace(c, "")` holds no `c`, and every other character occurs as often as in `s` |
| PyBase.RemoveCharIdempotent | execute_any_operator/execute_any_operator/operators/execute_any.py:82 | removing a character a second time changes nothing |
| PyBase.ReplaceCharAppend | execute_any_operator/execute_any_operator/utils/secrets_backend.py:39 | replacing a one-character pattern distributes over concatenation |
| PyDict.GetFacts | execute_any_operator/execute_any_operator/utils/helpers.py:6 | a dict lookup succeeds exactly for the stored keys and finds a stored pair |
| PyDict.PutFacts | execute_any_operator/execute_any_operator/utils/helpers.py:6 | after `d[k] = v`, `k` maps to `v` and every other key keeps its value; keys stay distinct |
| PyDict.UpdateFacts | execute_any_operator/execute_any_operator/entrypoint/__init__.py:30 | after `d.update(items)` the keys are the old ones and the items' keys; every pair came from one of the two |
| PyDict.UpdateUntouched | execute_any_operator/execute_any_operator/entrypoint/__init__.py:30 | a key no item carries keeps its value through `update` |
| PyDict.UpdateLastWins | execute_any_operator/execute_any_operator/utils/helpers.py:6 | each key ends with the value of its last occurrence among the items |
| PyDict.UpdateFromDict | execute_any_operator/execute_any_operator/entrypoint/__init__.py:30 | updating from a dict gives each of its keys that dict's value |
| DeepMerge.Update | execute_any_operator/execute_any_operator/utils/dict_xcom_backend.py:9-15 | the loop of `_update` returns exactly when a dict is never merged into a non-dict, and then returns the pointwise deep merge; otherwise it raises what the first item reaching a non-dict raises: AttributeError from `get` for a dict item, TypeError from the assignment for any other |
| DeepMerge.MayRaiseOne | util/execute_any_operator.py:40-46 | merging a one-item dict can raise only when the item is a dict, and then what merging it into the target's entry can raise |
| DeepMerge.MayRaiseExactly | execute_any_operator/execute_any_operator/utils/dict_xcom_backend.py:9-15 | `_update` raises exactly when it does not return, and only TypeError or AttributeError |
| DeepMerge.MergeOne | util/execute_any_operator.py:40-46 | merging a one-item dict sets that entry (merged when it is a dict) and leaves every other entry alone; it raises exactly when that entry's merge raises |
| DeepMerge.MergeIntoEmpty | execute_any_operator/execute_any_operator/utils/dict_xcom_backend.py:12 | merging into the empty default `{}` yields the merged dict itself |
| DeepMerge.MergeIdempotent | execute_any_operator/execute_any_operator/utils/dict_xcom_backend.py:9-15 | repeating a merge is accepted and changes nothing |
| DictXCom.SetIsAssignment | execute_any_operator/execute_any_operator/utils/dict_xcom_backend.py:21-29 | on a three-level store the merge of `set` never raises, equals assigning the one slot, and keeps the shape |
| DictXCom.SetSlots | execute_any_operator/execute_any_operator/utils/dict_xcom_backend.py:29 | after `set` only the (dag, task, key) slot changes, to the serialised value |
| DictXCom.SetTasks | execute_any_operator/execute_any_operator/utils/dict_xcom_backend.py:29 | `set` adds its task under its dag and removes no task anywhere |
| DictXCom.FoundBound | execute_any_operator/execute_any_operator/utils/dict_xcom_backend.py:46-54 | `get_many` returns at most one value per (dag, task) pair |
| DictXCom.FoundInDagBound | execute_any_operator/execute_any_operator/utils/dict_xcom_backend.py:48-53 | the inner loop returns at most one value per task id |
| DictXCom.FoundInDagExact | execute_any_operator/execute_any_operator/utils/dict_xcom_backend.py:48-53 | the inner loop's results are exactly the existing slots of the listed tasks |
| DictXCom.FoundExact | execute_any_operator/execute_any_operator/utils/dict_xcom_backend.py:39-54 | every result of `get_many` is an existing slot and every existing listed slot is a result; missing ones never raise |
| DictXCom.FoundSingle | execute_any_operator/execute_any_operator/utils/dict_xcom_backend.py:40-44 | with one dag and one task id, `get_many` returns that slot's value or nothing |
| DictXCom.SetThenGet | execute_any_operator/execute_any_operator/utils/dict_xcom_backend.py:21-36 | `get_one` after `set` with the same scalar ids returns the value stored |
| DictXCom.RemoveShape | execute_any_operator/execute_any_operator/utils/dict_xcom_backend.py:63-65 | one deletion keeps the three-level shape, every dag and every task dict |
| DictXCom.RemoveSlot | execute_any_operator/execute_any_operator/utils/dict_xcom_backend.py:63-65 | one deletion empties its own slot and no other |
| DictXCom.RemoveFacts | execute_any_operator/execute_any_operator/utils/dict_xcom_backend.py:63-65 | deleting one row empties exactly that slot, ignores a missing one and leaves the emptied parent dicts in place |
| DictXCom.RemoveAllFacts | execute_any_operator/execute_any_operator/utils/dict_xcom_backend.py:57-65 | `delete` empties exactly the listed slots, keeps every dag and task entry, and changes nothing else |
| DictXCom.RemoveAllIdempotent | execute_any_operator/execute_any_operator/utils/dict_xcom_backend.py:57-65 | deleting the same rows twice is deleting them once |
| DictXCom.SameSlotsSameStore | execute_any_operator/execute_any_operator/utils/dict_xcom_backend.py:6 | two three-level stores with the same dags, tasks and slots are equal |
| DictXCom.ClearTasks | execute_any_operator/execute_any_operator/utils/dict_xcom_backend.py:68-72 | `clear(dag, task)` removes that task only, keeps every dag entry, and a missing entry is a no-op |
| DictXCom.ClearOtherDag | execute_any_operator/execute_any_operator/utils/dict_xcom_backend.py:70 | `clear` leaves every slot of the other dags as it was |
| DictXCom.ClearSameDag | execute_any_operator/execute_any_operator/utils/dict_xcom_backend.py:70 | `clear` empties the slots of its task and leaves its sibling tasks' slots as they were |
| DictXCom.ClearSlots | execute_any_operator/execute_any_operator/utils/dict_xcom_backend.py:70 | after `clear(dag, task)` that task's slots are gone and every other slot is unchanged |
| DictXCom.DictXComBackend.constructor | execute_any_operator/execute_any_operator/utils/dict_xcom_backend.py:6 | the store starts as the empty dict |
| DictXCom.DictXComBackend.Set | execute_any_operator/execute_any_operator/utils/dict_xcom_backend.py:21-29 | the store becomes the deep merge of the serialised path; exactly one slot changes; the shape is kept |
| DictXCom.DictXComBackend.GetMany | execute_any_operator/execute_any_operator/utils/dict_xcom_backend.py:38-54 | the nested loop returns the existing slots, dag-major then task, with scalar ids wrapped in a list |
| DictXCom.DictXComBackend.GetOne | execute_any_operator/execute_any_operator/utils/dict_xcom_backend.py:31-36 | the first result of `get_many` or None; for scalar ids, the slot's value or None |
| DictXCom.DictXComBackend.Delete | execute_any_operator/execute_any_operator/utils/dict_xcom_backend.py:56-65 | the store loses exactly the listed rows, a single row being wrapped in a list |
| DictXCom.DictXComBackend.Clear | execute_any_operator/execute_any_operator/utils/dict_xcom_backend.py:67-72 | the store loses exactly the task's sub-dict |
| WildcardPattern.WildcardsIsReplace | execute_any_operator/execute_any_operator/utils/secrets_backend.py:39 | the chained `replace('%', '.*').replace('_', '.')` is the character-wise translation |
| WildcardPattern.CompileWildcards | execute_any_operator/execute_any_operator/utils/secrets_backend.py:38-40 | a translated id over letters, digits, `-`, `%` and `_` compiles, to starred and single any-character items and literals |
| WildcardPattern.LikePiecesMatch | execute_any_operator/execute_any_operator/utils/secrets_backend.py:38-44 | on names without a newline, the compiled pattern matches exactly the names the id matches as SQL LIKE |
| WildcardPattern.CompileLiteralPrefix | execute_any_operator/execute_any_operator/utils/secrets_backend.py:38-40 | the literal `AIRFLOW_CONN_` prefix compiles to literals followed by the translated id |
| WildcardPattern.FullMatchLits | execute_any_operator/execute_any_operator/utils/secrets_backend.py:44 | literal items match exactly their own text as a prefix |
| SecretsBackend.Selected | execute_any_operator/execute_any_operator/utils/secrets_backend.py:41-45 | the filtered pairs are exactly the re-keyed pairs of the matching variables |
| SecretsBackend.SelectedLast | execute_any_operator/execute_any_operator/utils/secrets_backend.py:41-45 | the last matching variable under a lowered id is the last pair with that id |
| SecretsBackend.ComprehensionFacts | execute_any_operator/execute_any_operator/utils/secrets_backend.py:29-33 | the comprehension yields distinct ids, each from a matching variable, every match represented, and the last match for an id wins |
| SecretsBackend.ToConnections | execute_any_operator/execute_any_operator/utils/secrets_backend.py:36 | one `Connection(conn_id=k, uri=v)` per dict entry, in order |
| SecretsBackend.ConnKeyStripsPrefix | execute_any_operator/execute_any_operator/utils/secrets_backend.py:30 | for `AIRFLOW_CONN_` plus a rest without the prefix, the id is the rest lower-cased |
| SecretsBackend.AnyRunMatches | execute_any_operator/execute_any_operator/utils/secrets_backend.py:32 | `.*` matches exactly the strings without a newline |
| SecretsBackend.AnyConnMatches | execute_any_operator/execute_any_operator/utils/secrets_backend.py:32 | `^AIRFLOW_CONN_.*$` matches a newline-free name exactly when it starts with the prefix |
| SecretsBackend.EnvListAll | execute_any_operator/execute_any_operator/utils/secrets_backend.py:28-36 | without an id, the ids returned are distinct; each comes from a prefixed variable; every prefixed variable is represented; the last variable for an id wins |
| SecretsBackend.ConnectionsDistinct | execute_any_operator/execute_any_operator/utils/secrets_backend.py:41-46 | the connections returned have pairwise distinct ids |
| SecretsBackend.ConnectionsSound | execute_any_operator/execute_any_operator/utils/secrets_backend.py:41-46 | every connection returned comes from a matching variable |
| SecretsBackend.ConnectionsComplete | execute_any_operator/execute_any_operator/utils/secrets_backend.py:41-46 | every matching variable is represented, by its own value when no later match shares its id |
| SecretsBackend.EnvPatternIsLike | execute_any_operator/execute_any_operator/utils/secrets_backend.py:38-40 | a name matches the built pattern iff it is `AIRFLOW_CONN_` plus a whole-string LIKE match of the upper-cased id |
| SecretsBackend.EnvWildcardLookup | execute_any_operator/execute_any_operator/utils/secrets_backend.py:37-46 | a `%` id returns distinct ids, only from LIKE-matching variables, with every match represented |
| SecretsBackend.EnvExactLookup | execute_any_operator/execute_any_operator/utils/secrets_backend.py:47 | an id without `%` and `*` (one holding only `_` included) goes to the inherited exact lookup |
| SecretsBackend.EnvRepeatedStarRaises | execute_any_operator/execute_any_operator/utils/secrets_backend.py:38-44 | the id `%*` builds `.**`, which `re` refuses |
| SecretsBackend.LocalListAndExact | execute_any_operator/execute_any_operator/utils/secrets_backend.py:12-13 | without an id every local connection is returned in order; a non-wildcard id goes to the inherited lookup |
| SecretsBackend.LocalWildcardLookup | execute_any_operator/execute_any_operator/utils/secrets_backend.py:14-21 | a `%` id, not upper-cased, returns only connections whose original-case names match, with the last match per lowered name included, and at most one connection per lowered name |
| SecretsBackend.SelectedValuesDistinct | execute_any_operator/execute_any_operator/utils/secrets_backend.py:16-21 | the values of the dict comprehension keyed by the lowered name come from matching entries whose lowered names differ pairwise |
| SecretsBackend.LocalWildcardDeduplicated | execute_any_operator/execute_any_operator/utils/secrets_backend.py:14-21 | any two connections of a local `%` lookup come from matching entries whose names differ once lowered |
| AlchemyMock.FirstAnswer | execute_any_operator/execute_any_operator/utils/alchemy_mock.py:39-50 | the answer is `[]` iff every backend raised or found nothing; otherwise it is the answer of the first backend that found something |
| AlchemyMock.LoadCustomBackend | execute_any_operator/execute_any_operator/utils/alchemy_mock.py:16-29 | the custom backend is built from its dotted path split at the last `.`, with the decoded `BACKEND_KWARGS` (`{}` when unset or undecodable); a path without `.` raises ValueError |
| AlchemyMock.BuildBackends | execute_any_operator/execute_any_operator/utils/alchemy_mock.py:14-37 | the backend list is the custom backend, when its variable is set, followed by the environment backend; a failure building the custom one is raised |
| AlchemyMock.GetConnectionFromSecrets | execute_any_operator/execute_any_operator/utils/alchemy_mock.py:13-50 | builds the backend list, then the loop returns `FirstAnswer` of it; it stops at the first non-empty answer and asks every backend only when all are skipped |
| AlchemyMock.CustomPathRejoins | execute_any_operator/execute_any_operator/utils/alchemy_mock.py:18 | the custom backend's module and class names, joined by `.`, give back the configured path |
| AlchemyMock.BackendsShape | execute_any_operator/execute_any_operator/utils/alchemy_mock.py:14-37 | the custom backend is listed first, exactly when its variable is set, split at the last `.`; the environment backend is always listed, last; a path without `.` is ValueError |
| AlchemyMock.UndecodableConfigIsEmpty | execute_any_operator/execute_any_operator/utils/alchemy_mock.py:22-27 | undecodable backend kwargs fall back to `{}` |
| AlchemyMock.CustomFailureFallsThrough | execute_any_operator/execute_any_operator/utils/alchemy_mock.py:44-50 | a custom backend that raises or finds nothing is skipped for the environment backend, whose failure in turn gives `[]` |
| AlchemyMock.CustomAnswerWins | execute_any_operator/execute_any_operator/utils/alchemy_mock.py:39-43 | a non-empty custom answer is returned and the environment is not consulted |
| AlchemyMock.FilterValue | execute_any_operator/execute_any_operator/utils/alchemy_mock.py:58-62 | the bind value on the left, else on the right, else None |
| AlchemyMock.IsConnectionModelCases | execute_any_operator/execute_any_operator/utils/alchemy_mock.py:72-76 | the model test succeeds for `"connection"` or a class with a table name; it is true only for those naming `connection`; any other string raises AttributeError |
| AlchemyMock.First | execute_any_operator/execute_any_operator/utils/alchemy_mock.py:64-68 | `first()` is `all()[0]`, or None when `all()` is empty, raising when `all()` raises |
| AlchemyMock.Count | execute_any_operator/execute_any_operator/utils/alchemy_mock.py:80-81 | `count()` is `len(all())` |
| AlchemyMock.QueryFilter | execute_any_operator/execute_any_operator/utils/alchemy_mock.py:88-89 | `filter` keeps the query's model and the expression |
| AlchemyMock.FilterResults | execute_any_operator/execute_any_operator/utils/alchemy_mock.py:64-81 | on the connection model `all()` is a secrets lookup with the filter value; other tables give `[]`; other strings raise AttributeError; `first` is among `all` and `count` is zero iff `first` is None |
| AlchemyMock.QueryListsEnvironment | execute_any_operator/execute_any_operator/utils/alchemy_mock.py:91-101 | without a custom backend, `query(Connection).all()` lists the environment's connections, and `count()` is positive when one is set |
| AlchemyMock.MockSession.constructor | execute_any_operator/execute_any_operator/utils/alchemy_mock.py:105-106 | a session starts with an empty `dirty` list |
| AlchemyMock.MockSession.Query | execute_any_operator/execute_any_operator/utils/alchemy_mock.py:108-109 | `query(model)` is a query on that model |
| Helpers.MultiTupleToDict | execute_any_operator/execute_any_operator/utils/helpers.py:4-7 | None gives `{}`; otherwise a dict whose keys are exactly the first components and whose pairs are given pairs |
| Helpers.MultiTupleLastWins | execute_any_operator/execute_any_operator/utils/helpers.py:6 | each key maps to the value of its last occurrence |
| Helpers.RemoveUnusedKwargs | execute_any_operator/execute_any_operator/utils/helpers.py:10-11 | exactly the items whose value is not None are kept |
| Helpers.RemoveUnusedDistinct | execute_any_operator/execute_any_operator/utils/helpers.py:11 | the filtered dict is still a dict |
| Helpers.RemoveUnusedGet | execute_any_operator/execute_any_operator/utils/helpers.py:11 | a lookup after filtering misses the None-valued keys and finds every other value unchanged |
| Helpers.RemoveUnusedKeepsFalsy | execute_any_operator/execute_any_operator/utils/helpers.py:11 | `False`, `0`, `""` and `()` survive, the test being `is not None` |
| Helpers.RemoveUnusedIdempotent | execute_any_operator/execute_any_operator/utils/helpers.py:10-11 | filtering twice is filtering once |
| VariableMock.VariableGet | execute_any_operator/execute_any_operator/utils/mock.py:10-13 | the value stored under the upper-cased key, and None exactly when there is none |
| VariableMock.VariableGetIgnores | execute_any_operator/execute_any_operator/utils/mock.py:11-13 | `default_var` and `deserialize_json` change nothing, and `get(k) == get(upper(k))` |
| VariableMock.UpperItems | execute_any_operator/execute_any_operator/entrypoint/__init__.py:30 | each pair's key upper-cased, its value and the order kept |
| VariableMock.ApplyEnvVarsGet | execute_any_operator/execute_any_operator/entrypoint/__init__.py:30 | after the callback, unnamed variables keep their values; a named one reads the last same-upper-cased entry of the option dict |
| VariableMock.ApplyEnvVarsOrderCounterexample | execute_any_operator/execute_any_operator/entrypoint/__init__.py:30 | `--env-var a 1 --env-var A 2 --env-var a 3` leaves `A` at "2" |
| VariableMock.ApplyEnvVarsInOrderGet | execute_any_operator/execute_any_operator/entrypoint/__init__.py:30 | applied in command-line order, the last pair naming a variable, in any case, decides it; others keep their values |
| OperatorContext.Restrict | execute_any_operator/execute_any_operator/operators/execute_any.py:56-57 | `base_kwargs` holds exactly the given arguments named by `BaseOperator` parameters, with their values |
| OperatorContext.BaseTaskId | execute_any_operator/execute_any_operator/operators/execute_any.py:58 | `BaseOperator` accepts exactly a string `task_id`, which becomes the operator's; otherwise TypeError |
| OperatorContext.ContextHas | execute_any_operator/execute_any_operator/operators/execute_any.py:87-113 | every one of the 25 keys is in the context, with the value the dict literal gives it |
| OperatorContext.ContextTaskInstance | execute_any_operator/execute_any_operator/operators/execute_any.py:87-113 | `ti` and `task_instance` are the same task instance, `test_mode` is False and `macros` is the macros module |
| OperatorContext.ContextEntries | execute_any_operator/execute_any_operator/operators/execute_any.py:77-105 | `task`, `dag`, `data_interval_start`, `ds`, `ts` and `ts_nodash` are the given task, DAG and start date and its renderings |
| OperatorContext.ContextDerived | execute_any_operator/execute_any_operator/operators/execute_any.py:79-105 | `ds_nodash` and `ts_nodash_with_tz` are `ds` and `ts` without separators; `task_instance_key_str` is `dag_id__task_id__ds_nodash` |
| OperatorContext.ContextAt | execute_any_operator/execute_any_operator/operators/execute_any.py:87-113 | every key is present, and it maps to None exactly when it is one of the twelve None keys |
| OperatorContext.ContextSize | execute_any_operator/execute_any_operator/operators/execute_any.py:87-113 | the context has exactly 25 keys, 12 of them None |
| OperatorContext.KeyNamesDistinct | execute_any_operator/execute_any_operator/operators/execute_any.py:87-113 | the 25 Python key strings are pairwise distinct |
| OperatorContext.DsNodashFacts | execute_any_operator/execute_any_operator/operators/execute_any.py:79 | `ds_nodash` has no `-`, and every other character of `ds` is kept |
| OperatorContext.TsNodashWithTzFacts | execute_any_operator/execute_any_operator/operators/execute_any.py:82 | `ts_nodash_with_tz` has no `-` or `:`, and every other character of `ts` is kept |
| OperatorContext.OffsetSign | execute_any_operator/execute_any_operator/operators/execute_any.py:82 | a `+hh:mm` offset keeps its sign, a `-hh:mm` offset loses it |
| ExecuteAny.SplitOperator | execute_any_operator/execute_any_operator/operators/execute_any.py:35-40 | ValueError iff there is no `:`; otherwise a module part without `:` that rejoins to the operator string |
| ExecuteAny.SplitJoin | execute_any_operator/execute_any_operator/operators/execute_any.py:35-36 | splitting `mod + ":" + name` gives back `mod` and `name`, even when `name` holds `:` |
| ExecuteAny.BareNamesRejected | execute_any_operator/execute_any_operator/operators/execute_any.py:34-40 | `"KubernetesPodOperator"` and `"ArrowHdfsSensor"` are always rejected |
| ExecuteAny.MakeKwargs | execute_any_operator/execute_any_operator/operators/execute_any.py:31-50 | KeyError without a keyword `operator`, AttributeError for a non-string, ValueError without `:`; otherwise the arguments plus `mod_name`, `op_name` and the defaults |
| ExecuteAny.DefaultsNeverOverwrite | execute_any_operator/execute_any_operator/operators/execute_any.py:44-47 | given `task_id` and `start_date` are kept, and both are always present afterwards |
| ExecuteAny.InitRejects | execute_any_operator/execute_any_operator/operators/execute_any.py:33-40 | construction raises the `make_kwargs` errors before anything is imported |
| ExecuteAny.InitMade | execute_any_operator/execute_any_operator/operators/execute_any.py:31-50 | a constructed operator went through `make_kwargs` successfully |
| ExecuteAny.InitBuildsTask | execute_any_operator/execute_any_operator/operators/execute_any.py:60-73 | the class named by the string was built from the caller's arguments plus defaults, without `operator`, `mod_name` and `op_name` |
| ExecuteAny.RestrictDrop | execute_any_operator/execute_any_operator/operators/execute_any.py:56-61 | popping keys that are not `BaseOperator` parameters does not change `base_kwargs` |
| ExecuteAny.InitKwargs | execute_any_operator/execute_any_operator/operators/execute_any.py:56-61 | `BaseOperator` gets the decorated arguments it has parameters for; the wrapped operator gets all of them but `mod_name` and `op_name` |
| ExecuteAny.InitTaskId | execute_any_operator/execute_any_operator/operators/execute_any.py:58 | the operator's task id is the string `task_id` that `BaseOperator` received |
| ExecuteAny.InitBase | execute_any_operator/execute_any_operator/operators/execute_any.py:56-58 | `BaseOperator` got the arguments it has parameters for, among them the string `task_id` |
| ExecuteAny.InitContext | execute_any_operator/execute_any_operator/operators/execute_any.py:64-72 | the task's `start_date` argument is the operator's start date, and its DAG is the dummy DAG |
| ExecuteAny.ContextOfState | execute_any_operator/execute_any_operator/operators/execute_any.py:75-85 | the operator's context holds its task and DAG and a task instance for that task at the start date, with run id `cli__` + `ts_nodash` |
| ExecuteAny.Pushed | execute_any_operator/execute_any_operator/operators/execute_any.py:124-125 | a push under `return_value` happens iff the task pushes and the result is not None |
| ExecuteAny.ExecuteAnyOperator.constructor | execute_any_operator/execute_any_operator/operators/execute_any.py:55-75 | the attributes hold the given state, and the context is the one fabricated from it |
| ExecuteAny.ExecuteAnyOperator.New | execute_any_operator/execute_any_operator/operators/execute_any.py:55-75 | a fresh operator holding what `Init` computes and the context fabricated from it, or the exception `Init` raises |
| ExecuteAny.ExecuteAnyOperator.PreExecute | execute_any_operator/execute_any_operator/operators/execute_any.py:115-116 | the wrapped operator's `pre_execute` on the stored context |
| ExecuteAny.ExecuteAnyOperator.PostExecute | execute_any_operator/execute_any_operator/operators/execute_any.py:118-119 | the wrapped operator's `post_execute` on the given arguments |
| ExecuteAny.ExecuteAnyOperator.Execute | execute_any_operator/execute_any_operator/operators/execute_any.py:121-126 | the wrapped result unchanged, and the push that `Pushed` decides |
| LegacyExecuteAny.IdStr | util/execute_any_operator.py:49-50 | `str` of an id is a non-empty digit string, one digit exactly below ten |
| LegacyExecuteAny.IdStrInjective | util/execute_any_operator.py:49-50 | distinct ids give distinct strings |
| LegacyExecuteAny.Member | util/execute_any_operator.py:24-30 | a name is found iff it is the name of one of the six members |
| LegacyExecuteAny.MemberRoundTrip | util/execute_any_operator.py:24-30 | every member is found under its own name |
| LegacyExecuteAny.Admit | util/execute_any_operator.py:79-84 | a class is accepted iff its `__name__` is a member name, and is used as given; a string iff it is a member name, selecting that member; otherwise NotImplementedError |
| LegacyExecuteAny.AdmitByNameOnly | util/execute_any_operator.py:79-80 | a class from any module with a member's name is accepted |
| LegacyExecuteAny.MakeKwargs | util/execute_any_operator.py:57-69 | KeyError iff neither `task_id` nor a keyword `operator` is given; otherwise the arguments plus `task_id` from the class name or the operator text, and `start_date`, each only when absent |
| LegacyExecuteAny.Bind | util/execute_any_operator.py:74 | `operator` binds from the keyword or the first positional argument; both or neither is TypeError |
| LegacyExecuteAny.LegacyRefuses | util/execute_any_operator.py:79-84 | an operator outside the allow-list ends construction with NotImplementedError |
| LegacyExecuteAny.LegacyBuilds | util/execute_any_operator.py:74-92 | the admitted class was built from the keyword arguments with defaults, and an absent `task_id` is the invented one |
| LegacyExecuteAny.Index | util/execute_any_operator.py:54 | a subscript succeeds exactly on a dict holding the key; KeyError for a missing key, TypeError on a non-dict |
| LegacyExecuteAny.Pull | util/execute_any_operator.py:53-54 | on a shaped store, the pull finds exactly the existing slot and raises KeyError otherwise |
| LegacyExecuteAny.PushMerges | util/execute_any_operator.py:40-51 | a push raises exactly when a dict meets a stored value it cannot merge into; otherwise the merge is the three nested assignments down to the pushed slot |
| LegacyExecuteAny.Pushed3Slot | util/execute_any_operator.py:49-51 | the nested assignment sets the pushed slot to the merged value and leaves every other slot as it was |
| LegacyExecuteAny.PushSlots | util/execute_any_operator.py:48-51 | a push raises only when a dict meets a stored value it cannot merge into; otherwise its slot takes the pushed (or merged) value and every other slot is unchanged |
| LegacyExecuteAny.XComStore.constructor | util/execute_any_operator.py:20 | `XCom` starts as the empty dict |
| LegacyExecuteAny.TaskInstanceMock.constructor | util/execute_any_operator.py:36-38 | the mock holds the global store and its attributes' ids |
| LegacyExecuteAny.TaskInstanceMock.XComPush | util/execute_any_operator.py:48-51 | the store becomes the deep merge of `{str(id(dag_id)): {str(id(task_id)): {key: value}}}`, or the push raises what `_update` can raise on it and the store is unchanged; the shape is kept |
| LegacyExecuteAny.TaskInstanceMock.XComPull | util/execute_any_operator.py:53-54 | the pull is the triple subscript of the store |
| LegacyExecuteAny.PushThenPull | util/execute_any_operator.py:48-54 | a pushed non-dict value is pulled back with the same instance's id strings |
| LegacyExecuteAny.PushDictMerges | util/execute_any_operator.py:40-46 | a dict pushed onto a stored dict merges: old-only keys are kept, the pushed non-dict values win |
| LegacyExecuteAny.PushDictOntoValueRaises | util/execute_any_operator.py:40-46 | a dict pushed onto a stored non-dict raises exactly when it is non-empty, with AttributeError if its first item is a dict and TypeError otherwise |
| LegacyExecuteAny.PushNestedDictOntoInt | util/execute_any_operator.py:42-43 | `xcom_push("k", {"a": {"b": 1}})` onto a slot holding 5 raises, and only AttributeError |
| LegacyExecuteAny.PushIsolated | util/execute_any_operator.py:49-51 | a push leaves the slots of an instance with other id objects unchanged |
| LegacyExecuteAny.ExecuteAnyOperator.constructor | util/execute_any_operator.py:74-93 | the attributes hold the given state and a context built around the given task instance mock |
| LegacyExecuteAny.ExecuteAnyOperator.New | util/execute_any_operator.py:74-129 | a fresh operator holding what `LegacyInit` computes, with a fresh task instance mock over the global store in its context, or the exception |
| LegacyExecuteAny.ExecuteAnyOperator.Execute | util/execute_any_operator.py:131-132 | the wrapped operator's result on the stored context, with no push |

## Left out

- Class resolution is not modelled. `importlib.import_module` and `getattr` become the `Airflow.resolve` function, and the wrapped class's constructor becomes `Airflow.instantiate`. So import errors and constructor errors are whatever those functions return.
- The `DAG` object is reduced to its id and owner. The default `start_date` of `pendulum.today().subtract(days=1)` and `schedule_interval` are not kept.
- `TaskInstance` construction is not modelled. The task instance of operators/execute_any.py is a record of its three arguments.
- Pendulum formatting is taken as given. `to_date_string`, `isoformat` and `strftime` are the `ds`, `ts` and `tsNodash` strings of a `Timestamp`.
- `BaseOperator.__init__` is modelled only by its `task_id` check. Its other argument validation is not modelled.
- The legacy allow-list stores the wrapped class, not the enum member. When a member name is given as a string, `self.operator` is modelled as the class that member wraps. Calling the member calls that class.
- Setting `self.task._log = log` is not modelled, and neither is logging of any kind.
- The environment is an insertion-ordered sequence rather than a map, because the order of `os.environ` decides which variable wins a shared lower-cased id.
- Case conversion covers ASCII letters only. `str.upper` and `str.lower` are modelled on those alone.
- Only a subset of Python's `re` is modelled: literal characters, `.` and `*`. The wildcard branch of `SecretsBackend.EnvGetConnections` and `SecretsBackend.LocalGetConnections` requires ids holding no other regular-expression metacharacter. So does `AlchemyMock.GetConnectionFromSecrets` (`Answerable`).
- SecretsBackend.EnvWildcardLookup: it is stated only for ids over letters, digits, `-`, `%` and `_`, and for variable names without a newline. Outside those, `.` and `*` in an id act as regular-expression operators.
- SecretsBackend.LocalWildcardLookup: it has the same restriction as `EnvWildcardLookup`.
- SecretsBackend.EnvListAll: it is stated only for variable names without a newline.
- AlchemyMock.QueryListsEnvironment: it is stated only for variable names without a newline.
- AlchemyMock.EnvListNonEmpty: it is stated only for variable names without a newline.
- `BaseXCom.serialize_value` and `deserialize_value` are taken as an exact round trip.
- DeepMerge.Update: the exception is known only up to the order of the items of `u`. A map does not keep that order, so when items of both kinds can reach a non-dict, either TypeError or AttributeError is allowed.
- DeepMerge.Update: when `_update` raises half-way, the entries it already assigned are not modelled. The target is returned unchanged with the exception.
- DeepMerge.ItemError: a stored value that is not a dict is taken to have neither a `get` method nor item assignment, as holds for ints, strings, tuples, timestamps and classes; any other object (`PyObject`) is assumed to behave the same.
- LegacyExecuteAny.TaskInstanceMock.XComPush: a push that raises leaves the store as it was, for the same reason.
- DictXCom.SetThenGet: it is stated for ids that are not tuples. A tuple id is iterated by `get_many`, so it names several slots.
- LegacyExecuteAny.PushThenPull: it is stated for a pushed value that is not a dict. Dict values are covered by `PushDictMerges` and `PushDictOntoValueRaises`.
- Object identity for the legacy mocks is modelled by passed-in ids. `id()` of the mock's `dag_id` and `task_id` attributes are natural numbers given to the constructor. Other `MagicMock` behaviour and the extra `xcom_push` keyword arguments are not modelled.
- ExecuteAny.ExecuteAnyOperator.Execute: the push is returned rather than performed. The wrapped task's `xcom_push` goes to whatever XCom backend Airflow is configured with, which is not part of this model.
- AlchemyMock.LoadCustomBackend does not model the custom backend's class resolution and construction. `importlib.import_module`, `getattr` and the constructor call sit outside the `try`. Their failures would propagate; the model assumes they succeed. Only the backend's `get_connections` is modelled, by `World.custom`.
- `json.loads` is the `World.decode` parameter.
- The no-op `mockSession` methods (`flush`, `remove`, `close`, `rollback`, `commit`, `expunge_all`, `__call__`) are not modelled. Neither is the printing of `__enter__` and `__exit__`.
- The click command definitions, `setup.py` and the S3 demo scripts are not part of this model.

## Findings

| source | as written | input that shows it | evidently intended | confidence | as-written member | corrected member |
|---|---|---|---|---|---|---|
| execute_any_operator/execute_any_operator/entrypoint/__init__.py:30 | the option pairs first become a dict keyed by the case-sensitive name (`_multi_tuple_to_dict`), then are upper-cased; a later pair whose name differs only in case from an earlier one keeps the earlier name's slot, so a pair given in between wins | `--env-var a 1 --env-var A 2 --env-var a 3` sets `A` to "2" | the value given last for a variable, in any case, is the one set ("3") | low, not executed | VariableMock.ApplyEnvVarsOrderCounterexample | VariableMock.ApplyEnvVarsInOrderGet |
