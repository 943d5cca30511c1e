/** utils/alchemy_mock.py: the stand-in for Airflow's metadata database. A
    query for connections is answered from the secrets backends, tried in
    order: a configured custom backend first, then the environment one. */
module AlchemyMock {
  import opened PyBase
  import opened PyDict
  import opened WildcardPattern
  import opened SecretsBackend

  /** The keyword arguments of a backend class, as decoded JSON. */
  type Config = seq<(string, PyValue)>

  /** A secrets backend instance in the chain. */
  datatype Backend =
    | Custom(moduleName: string, className: string, config: Config)
    | Environment

  /** What the backends answer with depends on code outside the model: the
      environment backend's exact lookup (`envParent`), every method of the
      custom backend class (`custom`) and `json.loads` (`decode`, None for a
      `JSONDecodeError`). */
  datatype World = World(
    env: Environ,
    envParent: string -> Outcome<seq<Connection>>,
    custom: (Backend, Option<string>) -> Outcome<seq<Connection>>,
    decode: string -> Option<Config>)

  const BackendVar: string := "AIRFLOW__SECRETS__BACKEND"
  const BackendKwargsVar: string := "AIRFLOW__SECRETS__BACKEND_KWARGS"

  /** The ids the environment backend can answer inside the modelled regex
      language. */
  predicate Answerable(connId: Option<string>) {
    connId.Some? && IsWildcard(connId.value) ==> Restricted(connId.value)
  }

  /** `secrets_backend.get_connections(conn_id=conn_id)` */
  function Ask(w: World, b: Backend, connId: Option<string>): Outcome<seq<Connection>>
    requires Answerable(connId)
  {
    match b
    case Environment => EnvGetConnections(w.env, connId, w.envParent)
    case Custom(_, _, _) => w.custom(b, connId)
  }

  /** A backend answer the loop passes over: it raised, or found nothing. */
  predicate Skipped(a: Outcome<seq<Connection>>) {
    a.Raise? || a.value == []
  }

  /** The custom backend for the path in `AIRFLOW__SECRETS__BACKEND`, split at
      its last `.` (a path without one fails to unpack, `ValueError`), with
      keyword arguments decoded from `AIRFLOW__SECRETS__BACKEND_KWARGS`
      (default `"{}"`, `{}` when that is not JSON). */
  function CustomBackend(w: World, path: string): Outcome<Backend> {
    var dot := LastIndexOf(path, '.');
    if dot < 0 then Raise(ValueError)
    else
      var raw := match Get(w.env, BackendKwargsVar) case Some(s) => s case None => "{}";
      var config := match w.decode(raw) case Some(c) => c case None => [];
      Ok(Custom(path[..dot], path[dot + 1..], config))
  }

  /** The `secrets_backends` list: the custom backend when the variable is
      set, then the environment backend. */
  function Backends(w: World): Outcome<seq<Backend>> {
    match Get(w.env, BackendVar)
    case None => Ok([Environment])
    case Some(path) =>
      match CustomBackend(w, path)
      case Raise(e) => Raise(e)
      case Ok(b) => Ok([b, Environment])
  }

  /** The answer of the first backend of `bs` that returns connections, or
      `[]` when every one raises or finds nothing. */
  function FirstAnswer(w: World, bs: seq<Backend>, connId: Option<string>): (r: seq<Connection>)
    requires Answerable(connId)
    ensures r == [] <==> forall j :: 0 <= j < |bs| ==> Skipped(Ask(w, bs[j], connId))
    ensures r != [] ==> exists i :: (0 <= i < |bs| && Ask(w, bs[i], connId) == Ok(r) &&
      forall j :: 0 <= j < i ==> Skipped(Ask(w, bs[j], connId)))
  {
    if |bs| == 0 then []
    else
      var a := Ask(w, bs[0], connId);
      var rest := FirstAnswer(w, bs[1..], connId);
      assert forall j :: 1 <= j < |bs| ==> bs[j] == bs[1..][j - 1];
      if !Skipped(a) then a.value
      else
        assert rest != [] ==> exists i :: (0 <= i < |bs| && Ask(w, bs[i], connId) == Ok(rest) &&
          forall j :: 0 <= j < i ==> Skipped(Ask(w, bs[j], connId))) by {
          if rest != [] {
            var i :| 0 <= i < |bs[1..]| && Ask(w, bs[1..][i], connId) == Ok(rest) &&
              forall j :: 0 <= j < i ==> Skipped(Ask(w, bs[1..][j], connId));
            assert Ask(w, bs[i + 1], connId) == Ok(rest);
          }
        }
        rest
  }

  /** What `get_connection_from_secrets(conn_id)` returns or raises. */
  function FromSecrets(w: World, connId: Option<string>): Outcome<seq<Connection>>
    requires Answerable(connId)
  {
    match Backends(w)
    case Raise(e) => Raise(e)
    case Ok(bs) => Ok(FirstAnswer(w, bs, connId))
  }

  /** The custom backend of `get_connection_from_secrets`: the path split at
      its last `.`, the keyword arguments read with a `"{}"` default and
      decoded, `{}` when they are not JSON. */
  method LoadCustomBackend(w: World, path: string) returns (r: Outcome<Backend>)
    ensures r == CustomBackend(w, path)
  {
    var dot := LastIndexOf(path, '.');
    if dot < 0 {
      return Raise(ValueError);
    }
    var raw := "{}";
    var given := Get(w.env, BackendKwargsVar);
    if given.Some? {
      raw := given.value;
    }
    var config: Config := [];
    var decoded := w.decode(raw);
    if decoded.Some? {
      config := decoded.value;
    }
    return Ok(Custom(path[..dot], path[dot + 1..], config));
  }

  /** The first half of `get_connection_from_secrets`: the backend list,
      built with appends. */
  method BuildBackends(w: World) returns (r: Outcome<seq<Backend>>)
    ensures r == Backends(w)
  {
    var backends: seq<Backend> := [];
    var customPath := Get(w.env, BackendVar);
    if customPath.Some? {
      var custom := LoadCustomBackend(w, customPath.value);
      if custom.Raise? {
        return Raise(custom.error);
      }
      backends := backends + [custom.value];
      assert backends + [Environment] == [custom.value, Environment];
    } else {
      assert backends + [Environment] == [Environment];
    }
    backends := backends + [Environment];
    return Ok(backends);
  }

  /** `get_connection_from_secrets(conn_id)`: builds the backend list, then
      asks the backends in order and returns the first non-empty answer; a
      backend that raises is passed over. `asked` counts the backends
      consulted: none after the one that answers. */
  method GetConnectionFromSecrets(w: World, connId: Option<string>) returns (r: Outcome<seq<Connection>>, asked: nat)
    requires Answerable(connId)
    ensures r == FromSecrets(w, connId)
    ensures r.Ok? ==> (Backends(w).Ok? && 0 < asked <= |Backends(w).value| &&
      (forall j :: 0 <= j < asked - 1 ==> Skipped(Ask(w, Backends(w).value[j], connId))) &&
      (if r.value == [] then asked == |Backends(w).value|
       else Ask(w, Backends(w).value[asked - 1], connId) == Ok(r.value)))
  {
    var built := BuildBackends(w);
    if built.Raise? {
      return Raise(built.error), 0;
    }
    var backends := built.value;
    asked := 0;
    while asked < |backends|
      invariant asked <= |backends|
      invariant forall j :: 0 <= j < asked ==> Skipped(Ask(w, backends[j], connId))
      invariant FirstAnswer(w, backends, connId) == FirstAnswer(w, backends[asked..], connId)
    {
      var answer := Ask(w, backends[asked], connId);
      assert backends[asked..][1..] == backends[asked + 1..];
      asked := asked + 1;
      if answer.Ok? && answer.value != [] {
        return answer, asked;
      }
    }
    return Ok([]), asked;
  }

  /** The module and class of a custom backend join back to its path. */
  lemma CustomPathRejoins(w: World, path: string)
    requires Get(w.env, BackendVar) == Some(path) && '.' in path
    ensures Backends(w).Ok? && |Backends(w).value| == 2
    ensures Backends(w).value[0].moduleName + "." + Backends(w).value[0].className == path
  {
    var dot := LastIndexOf(path, '.');
    RejoinAt(path, dot, '.');
    assert "." == ['.'];
  }

  /** The custom backend and the chain: it comes first exactly when
      `AIRFLOW__SECRETS__BACKEND` is set, and its module and class are the
      path split at its last `.`; the environment backend is always last.
      The chain cannot be built only for a path without a `.`. */
  lemma BackendsShape(w: World)
    ensures Backends(w).Raise? <==> Get(w.env, BackendVar).Some? && '.' !in Get(w.env, BackendVar).value
    ensures Backends(w).Raise? ==> Backends(w).error == ValueError
    ensures Backends(w).Ok? ==> var bs := Backends(w).value;
      bs[|bs| - 1] == Environment &&
      (|bs| == 2 <==> Get(w.env, BackendVar).Some?) && 1 <= |bs| <= 2 &&
      (|bs| == 2 ==> (bs[0].Custom? && '.' !in bs[0].className &&
         bs[0].moduleName + "." + bs[0].className == Get(w.env, BackendVar).value))
  {
    var v := Get(w.env, BackendVar);
    if v.Some? && '.' in v.value {
      CustomPathRejoins(w, v.value);
    }
  }

  /** Keyword arguments that are not JSON give the custom backend `{}`. */
  lemma UndecodableConfigIsEmpty(w: World)
    requires Get(w.env, BackendVar).Some? && '.' in Get(w.env, BackendVar).value
    requires Get(w.env, BackendKwargsVar).Some? && w.decode(Get(w.env, BackendKwargsVar).value).None?
    ensures Backends(w).Ok? && Backends(w).value[0].Custom? && Backends(w).value[0].config == []
  {
  }

  /** A custom backend that raises or finds nothing hands the lookup on to
      the environment backend; its exception never escapes. */
  lemma CustomFailureFallsThrough(w: World, connId: Option<string>)
    requires Answerable(connId) && Backends(w).Ok?
    requires Skipped(w.custom(Backends(w).value[0], connId))
    ensures FromSecrets(w, connId) ==
      var a := EnvGetConnections(w.env, connId, w.envParent);
      if a.Ok? then Ok(a.value) else Ok([])
  {
    var bs := Backends(w).value;
    BackendsShape(w);
    var a := EnvGetConnections(w.env, connId, w.envParent);
    assert Ask(w, Environment, connId) == a;
    if |bs| == 2 {
      assert bs[1..] == [Environment];
      assert FirstAnswer(w, bs[1..][1..], connId) == [];
    } else {
      assert bs[1..] == [];
    }
  }

  /** A custom backend that answers wins, without the environment being
      consulted. */
  lemma CustomAnswerWins(w: World, connId: Option<string>)
    requires Answerable(connId) && Backends(w).Ok? && Backends(w).value[0].Custom?
    requires !Skipped(w.custom(Backends(w).value[0], connId))
    ensures FromSecrets(w, connId) == w.custom(Backends(w).value[0], connId)
  {
  }

  /** One side of a filter's `BinaryExpression`: a bound parameter with its
      value, or anything else (a column). */
  datatype Operand = Bind(value: Option<string>) | Column(name: string)
  datatype BinaryExpression = BinaryExpression(left: Operand, right: Operand)

  /** The model class or name given to `session.query(model)`; a class
      without a `__tablename__` attribute has `tablename == None`. */
  datatype Model = StrModel(s: string) | TableModel(tablename: Option<string>)

  /** `mockFilter._get_filter_value()`: the bound value on the left, else the
      one on the right, else None. */
  function FilterValue(f: BinaryExpression): (r: Option<string>)
    ensures f.left.Bind? ==> r == f.left.value
    ensures !f.left.Bind? && f.right.Bind? ==> r == f.right.value
    ensures !f.left.Bind? && !f.right.Bind? ==> r == None
  {
    if f.left.Bind? then f.left.value
    else if f.right.Bind? then f.right.value
    else None
  }

  /** `isinstance(m, str) and m == "connection" or m.__tablename__ ==
      "connection"`: `and` binds tighter, so a string other than
      `"connection"` has its `__tablename__` read, which raises. */
  function IsConnectionModel(m: Model): Outcome<bool> {
    if m.StrModel? && m.s == "connection" then Ok(true)
    else if m.StrModel? then Raise(AttributeError)
    else if m.tablename.None? then Raise(AttributeError)
    else Ok(m.tablename.value == "connection")
  }

  /** The test succeeds exactly for the string `"connection"` and for classes
      with a `__tablename__`; it holds for those named `"connection"`. */
  lemma IsConnectionModelCases(m: Model)
    ensures IsConnectionModel(m).Ok? <==> m == StrModel("connection") || (m.TableModel? && m.tablename.Some?)
    ensures IsConnectionModel(m) == Ok(true) <==> m == StrModel("connection") || m == TableModel(Some("connection"))
    ensures IsConnectionModel(m).Raise? ==> IsConnectionModel(m).error == AttributeError
  {
  }

  /** A connection query answered from the secrets, any other table empty. */
  function ModelAll(w: World, m: Model, connId: Option<string>): Outcome<seq<Connection>>
    requires Answerable(connId)
  {
    match IsConnectionModel(m)
    case Raise(e) => Raise(e)
    case Ok(isConn) => if isConn then FromSecrets(w, connId) else Ok([])
  }

  /** `mockFilter(model, filter)` */
  datatype MockFilter = MockFilter(model: Model, filter: BinaryExpression)

  /** `mockFilter.all()` */
  function FilterAll(w: World, f: MockFilter): Outcome<seq<Connection>>
    requires Answerable(FilterValue(f.filter))
  {
    ModelAll(w, f.model, FilterValue(f.filter))
  }

  /** `first()` over the result of `all()`: its head, or None. */
  function First(all: Outcome<seq<Connection>>): (r: Outcome<Option<Connection>>)
    ensures r.Raise? <==> all.Raise?
    ensures r.Ok? ==> (r.value == None <==> all.value == []) && (r.value.Some? ==> r.value.value == all.value[0])
  {
    match all
    case Raise(e) => Raise(e)
    case Ok(cs) => if |cs| > 0 then Ok(Some(cs[0])) else Ok(None)
  }

  /** `count()` over the result of `all()`: its length. */
  function Count(all: Outcome<seq<Connection>>): (r: Outcome<nat>)
    ensures r.Raise? <==> all.Raise?
    ensures r.Ok? ==> r.value == |all.value|
  {
    match all
    case Raise(e) => Raise(e)
    case Ok(cs) => Ok(|cs|)
  }

  /** `mockFilter.first()` */
  function FilterFirst(w: World, f: MockFilter): Outcome<Option<Connection>>
    requires Answerable(FilterValue(f.filter))
  {
    First(FilterAll(w, f))
  }

  /** `mockFilter.count()` */
  function FilterCount(w: World, f: MockFilter): Outcome<nat>
    requires Answerable(FilterValue(f.filter))
  {
    Count(FilterAll(w, f))
  }

  /** `mockQuery(model)` */
  datatype MockQuery = MockQuery(model: Model)

  /** `mockQuery.filter(filter)` */
  function QueryFilter(q: MockQuery, f: BinaryExpression): (r: MockFilter)
    ensures r.model == q.model && r.filter == f
  {
    MockFilter(q.model, f)
  }

  /** `mockQuery.all()`: the unfiltered lookup. */
  function QueryAll(w: World, q: MockQuery): Outcome<seq<Connection>> {
    ModelAll(w, q.model, None)
  }

  /** `mockQuery.count()` */
  function QueryCount(w: World, q: MockQuery): Outcome<nat> {
    Count(QueryAll(w, q))
  }

  /** What a filtered query returns: for the connection model the secrets
      answer for the filter's bound value, for another table nothing, and for
      a string other than `"connection"` or a class without a table name an
      `AttributeError`; `first` and `count` agree with it. */
  lemma FilterResults(w: World, f: MockFilter)
    requires Answerable(FilterValue(f.filter))
    ensures f.model == StrModel("connection") || f.model == TableModel(Some("connection")) ==>
      FilterAll(w, f) == FromSecrets(w, FilterValue(f.filter))
    ensures f.model.TableModel? && f.model.tablename.Some? && f.model.tablename.value != "connection" ==>
      FilterAll(w, f) == Ok([])
    ensures (f.model.StrModel? && f.model.s != "connection") || f.model == TableModel(None) ==>
      FilterAll(w, f) == Raise(AttributeError)
    ensures FilterFirst(w, f).Ok? && FilterFirst(w, f).value.Some? ==> FilterFirst(w, f).value.value in FilterAll(w, f).value
    ensures FilterCount(w, f).Ok? ==> (FilterCount(w, f).value == 0 <==> FilterFirst(w, f) == Ok(None))
  {
    IsConnectionModelCases(f.model);
  }

  /** The unfiltered connection query lists the environment's connections
      when no custom backend is configured and some `AIRFLOW_CONN_` variable
      exists. */
  lemma QueryListsEnvironment(w: World)
    requires Get(w.env, BackendVar).None? && PlainNames(w.env)
    requires exists i :: 0 <= i < |w.env| && ConnPrefix <= w.env[i].0
    ensures QueryAll(w, MockQuery(StrModel("connection"))) == EnvGetConnections(w.env, None, w.envParent)
    ensures QueryCount(w, MockQuery(StrModel("connection"))).Ok?
    ensures QueryCount(w, MockQuery(StrModel("connection"))).value > 0
  {
    EnvListNonEmpty(w.env, w.envParent);
    var cs := EnvGetConnections(w.env, None, w.envParent).value;
    assert Backends(w) == Ok([Environment]);
    assert [Environment][1..] == [];
    assert FirstAnswer(w, [Environment], None) == cs;
  }

  /** With at least one `AIRFLOW_CONN_` variable set, the environment
      backend's listing is not empty. */
  lemma EnvListNonEmpty(env: Environ, parent: string -> Outcome<seq<Connection>>)
    requires PlainNames(env)
    requires exists i :: 0 <= i < |env| && ConnPrefix <= env[i].0
    ensures EnvGetConnections(env, None, parent).Ok? && EnvGetConnections(env, None, parent).value != []
  {
    EnvListAll(env, parent);
    var i :| 0 <= i < |env| && ConnPrefix <= env[i].0;
    var cs := EnvGetConnections(env, None, parent).value;
    var c :| c in cs && c.connId == ConnKey(env[i].0);
  }

  /** `mockSession`: the `dirty` list is its only state; `flush`, `commit`
      and the other session methods do nothing. */
  class MockSession {
    var dirty: seq<PyValue>

    constructor ()
      ensures dirty == []
    {
      dirty := [];
    }

    /** `session.query(model)` */
    method Query(model: Model) returns (q: MockQuery)
      ensures q.model == model
    {
      q := MockQuery(model);
    }
  }
}
