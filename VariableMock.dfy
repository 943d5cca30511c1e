/** The patched `Variable.get` of utils/mock.py, and the `--env-var KEY VALUE`
    group option of entrypoint/__init__.py that fills the environment it
    reads. */
module VariableMock {
  import opened PyBase
  import opened PyDict
  import opened Helpers

  /** `_PatchedVariable.get(key, default_var, deserialize_json)`: the
      environment variable named by the upper-cased key, or None. */
  function VariableGet(env: Environ, key: string, defaultVar: PyValue, deserializeJson: bool): (r: Option<string>)
    ensures r.None? <==> Upper(key) !in Keys(env)
    ensures r.Some? ==> (Upper(key), r.value) in env
  {
    GetFacts(env, Upper(key));
    Get(env, Upper(key))
  }

  /** A key and its upper-cased form name the same variable, and neither
      `default_var` nor `deserialize_json` changes the answer: a missing
      variable is None whatever the default. */
  lemma VariableGetIgnores(env: Environ, key: string, d: PyValue, j: bool, d': PyValue, j': bool)
    ensures VariableGet(env, key, d, j) == VariableGet(env, Upper(key), d', j')
  {
    UpperIdempotent(key);
  }

  /** `(k.upper(), v) for k, v in items` */
  function UpperItems(items: seq<(string, string)>): (r: seq<(string, string)>)
    ensures |r| == |items|
    ensures forall i :: 0 <= i < |items| ==> r[i] == (Upper(items[i].0), items[i].1)
  {
    if |items| == 0 then [] else [(Upper(items[0].0), items[0].1)] + UpperItems(items[1..])
  }

  /** The group callback: `env_var` is `_multi_tuple_to_dict` of the option
      pairs, then `os.environ.update({k.upper(): v for k, v in env_var.items()})`. */
  function ApplyEnvVars(env: Environ, value: Option<seq<(string, string)>>): Environ {
    Update(env, FromItems(UpperItems(MultiTupleToDict(value))))
  }

  /** `items[j]` is the last pair whose key upper-cases to `Upper(key)`. */
  predicate LastNaming(items: seq<(string, string)>, j: int, key: string) {
    0 <= j < |items| && Upper(items[j].0) == Upper(key) &&
    forall j' :: j < j' < |items| ==> Upper(items[j'].0) != Upper(key)
  }

  /** After the callback, a variable no option names keeps its value, and a
      variable that options name reads the value of the last entry, in the
      order of the `env_var` dict, whose key upper-cases to its name. */
  lemma ApplyEnvVarsGet(env: Environ, value: Option<seq<(string, string)>>, key: string)
    ensures var d := MultiTupleToDict(value);
      (forall j :: 0 <= j < |d| ==> Upper(d[j].0) != Upper(key)) ==>
        VariableGet(ApplyEnvVars(env, value), key, PyNone, false) == VariableGet(env, key, PyNone, false)
    ensures var d := MultiTupleToDict(value);
      forall j :: LastNaming(d, j, key) ==>
        VariableGet(ApplyEnvVars(env, value), key, PyNone, false) == Some(d[j].1)
  {
    var d := MultiTupleToDict(value);
    var u := UpperItems(d);
    var dict := FromItems(u);
    UpdateFacts([], u);
    assert Keys<string, string>([]) == {};
    if forall j :: 0 <= j < |d| ==> Upper(d[j].0) != Upper(key) {
      assert Upper(key) !in Keys(u);
      UpdateUntouched(env, dict, Upper(key));
    }
    forall j | LastNaming(d, j, key)
      ensures VariableGet(ApplyEnvVars(env, value), key, PyNone, false) == Some(d[j].1)
    {
      UpdateLastWins([], u, j);
      assert u[j].0 in Keys(u);
      UpdateFromDict(env, dict, Upper(key));
    }
  }

  /** The option pairs `--env-var a 1 --env-var A 2 --env-var a 3`: the
      callback leaves `A` set to "2", not to "3", the value given last. */
  lemma ApplyEnvVarsOrderCounterexample()
    ensures ApplyEnvVars([], Some([("a", "1"), ("A", "2"), ("a", "3")])) == [("A", "2")]
  {
    var items := [("a", "1"), ("A", "2"), ("a", "3")];
    assert "a" != "A";
    assert Upper("a") == "A" && Upper("A") == "A";
    var d1 := Put([], "a", "1");
    assert d1 == [("a", "1")];
    var d2 := Put(d1, "A", "2");
    assert d2 == [("a", "1"), ("A", "2")];
    var d3 := Put(d2, "a", "3");
    assert d3 == [("a", "3"), ("A", "2")];
    assert items[1..][1..][1..] == [];
    assert FromItems(items) == d3;
    var u := UpperItems(d3);
    assert u == [("A", "3"), ("A", "2")];
    assert u[0] == ("A", "3") && u[1..] == [("A", "2")] && u[1..][1..] == [];
    assert Update([("A", "3")], u[1..]) == Update(Put([("A", "3")], "A", "2"), []);
    assert FromItems(u) == [("A", "2")];
    assert Update([], [("A", "2")]) == [("A", "2")];
  }

  /** The environment update the option evidently intends: the pairs applied
      in the order they were given, each under its upper-cased name. */
  function ApplyEnvVarsInOrder(env: Environ, value: Option<seq<(string, string)>>): Environ {
    match value
    case None => env
    case Some(items) => Update(env, UpperItems(items))
  }

  /** With the pairs applied in order, the last pair naming a variable, in
      any case, decides its value; variables no pair names keep theirs. */
  lemma ApplyEnvVarsInOrderGet(env: Environ, items: seq<(string, string)>, key: string)
    ensures (forall j :: 0 <= j < |items| ==> Upper(items[j].0) != Upper(key)) ==>
      VariableGet(ApplyEnvVarsInOrder(env, Some(items)), key, PyNone, false) == VariableGet(env, key, PyNone, false)
    ensures forall j :: LastNaming(items, j, key) ==>
      VariableGet(ApplyEnvVarsInOrder(env, Some(items)), key, PyNone, false) == Some(items[j].1)
  {
    var u := UpperItems(items);
    if forall j :: 0 <= j < |items| ==> Upper(items[j].0) != Upper(key) {
      assert Upper(key) !in Keys(u);
      UpdateUntouched(env, u, Upper(key));
    }
    forall j | LastNaming(items, j, key)
      ensures VariableGet(ApplyEnvVarsInOrder(env, Some(items)), key, PyNone, false) == Some(items[j].1)
    {
      UpdateLastWins(env, u, j);
    }
  }
}
