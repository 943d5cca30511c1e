/** The two connection backends of utils/secrets_backend.py. Both answer a
    connection id that holds a SQL wildcard by translating it to a regular
    expression and filtering a snapshot of their connections with it; the
    environment backend reads `AIRFLOW_CONN_<ID>` variables. */
module SecretsBackend {
  import opened PyBase
  import opened PyDict
  import opened WildcardPattern

  /** `Connection(conn_id=…, uri=…)` */
  datatype Connection = Connection(connId: string, uri: string)

  const ConnPrefix: string := "AIRFLOW_CONN_"

  /** `"%" in conn_id or "*" in conn_id` */
  predicate IsWildcard(id: string) {
    '%' in id || '*' in id
  }

  /** The pairs a filtering dict comprehension keeps, keyed by `key`:
      `(key(k), v) for k, v in d.items() if re.search(pattern, k)`. */
  function Selected<V>(d: seq<(string, V)>, p: seq<Piece>, key: string -> string): (r: seq<(string, V)>)
    ensures forall q :: q in r ==> exists i :: 0 <= i < |d| && Anchored(p, d[i].0) && q == (key(d[i].0), d[i].1)
    ensures forall i :: 0 <= i < |d| && Anchored(p, d[i].0) ==> (key(d[i].0), d[i].1) in r
  {
    if |d| == 0 then []
    else
      var rest := Selected(d[1..], p, key);
      assert forall i :: 1 <= i < |d| ==> d[i] == d[1..][i - 1];
      if Anchored(p, d[0].0) then [(key(d[0].0), d[0].1)] + rest else rest
  }

  /** No pair selected from the tail carries the key of a first entry that no
      later matching entry shares. */
  lemma SelectedTailAvoids<V>(d: seq<(string, V)>, p: seq<Piece>, key: string -> string)
    requires 0 < |d|
    requires forall j :: 0 < j < |d| && Anchored(p, d[j].0) ==> key(d[j].0) != key(d[0].0)
    ensures forall q :: q in Selected(d[1..], p, key) ==> q.0 != key(d[0].0)
  {
    forall q | q in Selected(d[1..], p, key) ensures q.0 != key(d[0].0) {
      var j :| 0 <= j < |d[1..]| && Anchored(p, d[1..][j].0) && q == (key(d[1..][j].0), d[1..][j].1);
      assert d[1..][j] == d[j + 1];
    }
  }

  /** Selected pairs keep the order of `d`: the last matching entry of `d`
      whose key is `key(d[i].0)` is the last selected pair with that key. */
  lemma {:induction false} SelectedLast<V>(d: seq<(string, V)>, p: seq<Piece>, key: string -> string, i: int)
    requires 0 <= i < |d| && Anchored(p, d[i].0)
    requires forall j :: i < j < |d| && Anchored(p, d[j].0) ==> key(d[j].0) != key(d[i].0)
    ensures exists m :: (0 <= m < |Selected(d, p, key)| && Selected(d, p, key)[m] == (key(d[i].0), d[i].1) &&
      forall m' :: m < m' < |Selected(d, p, key)| ==> Selected(d, p, key)[m'].0 != key(d[i].0))
    decreases |d|, 1
  {
    var r := Selected(d, p, key);
    var rest := Selected(d[1..], p, key);
    if i == 0 {
      assert r == [(key(d[0].0), d[0].1)] + rest;
      SelectedTailAvoids(d, p, key);
      forall m' | 0 < m' < |r| ensures r[m'].0 != key(d[0].0) {
        assert r[m'] in rest;
      }
    } else {
      SelectedLastTail(d, p, key, i);
    }
  }

  /** The step of `SelectedLast` for an entry after the first. */
  lemma {:induction false} SelectedLastTail<V>(d: seq<(string, V)>, p: seq<Piece>, key: string -> string, i: int)
    requires 0 < i < |d| && Anchored(p, d[i].0)
    requires forall j :: i < j < |d| && Anchored(p, d[j].0) ==> key(d[j].0) != key(d[i].0)
    ensures exists m :: (0 <= m < |Selected(d, p, key)| && Selected(d, p, key)[m] == (key(d[i].0), d[i].1) &&
      forall m' :: m < m' < |Selected(d, p, key)| ==> Selected(d, p, key)[m'].0 != key(d[i].0))
    decreases |d|, 0
  {
    var r := Selected(d, p, key);
    var rest := Selected(d[1..], p, key);
    assert d[1..][i - 1] == d[i];
    forall j | i - 1 < j < |d[1..]| && Anchored(p, d[1..][j].0) ensures key(d[1..][j].0) != key(d[1..][i - 1].0) {
      assert d[1..][j] == d[j + 1];
    }
    SelectedLast(d[1..], p, key, i - 1);
    var m :| 0 <= m < |rest| && rest[m] == (key(d[i].0), d[i].1) &&
      forall m' :: m < m' < |rest| ==> rest[m'].0 != key(d[i].0);
    if Anchored(p, d[0].0) {
      assert r == [(key(d[0].0), d[0].1)] + rest;
      assert r[m + 1] == rest[m];
      forall m' | m + 1 < m' < |r| ensures r[m'].0 != key(d[i].0) {
        assert r[m'] == rest[m' - 1];
      }
    } else {
      assert r == rest;
    }
  }

  /** The dict a filtering comprehension builds: its keys are distinct;
      every entry comes from a matching item of `d`; every matching item's key
      is present; and each key holds the value of the last matching item with
      that key. */
  lemma ComprehensionFacts<V>(d: seq<(string, V)>, p: seq<Piece>, key: string -> string)
    ensures DistinctKeys(FromItems(Selected(d, p, key)))
    ensures forall q :: q in FromItems(Selected(d, p, key)) ==>
      exists i :: 0 <= i < |d| && Anchored(p, d[i].0) && q == (key(d[i].0), d[i].1)
    ensures forall i :: 0 <= i < |d| && Anchored(p, d[i].0) ==>
      key(d[i].0) in Keys(FromItems(Selected(d, p, key)))
    ensures forall i :: (0 <= i < |d| && Anchored(p, d[i].0) &&
      (forall j :: i < j < |d| && Anchored(p, d[j].0) ==> key(d[j].0) != key(d[i].0))) ==>
      Get(FromItems(Selected(d, p, key)), key(d[i].0)) == Some(d[i].1)
  {
    var items := Selected(d, p, key);
    UpdateFacts([], items);
    assert Keys<string, V>([]) == {};
    forall i | 0 <= i < |d| && Anchored(p, d[i].0)
      ensures key(d[i].0) in Keys(FromItems(items))
    {
      var q := (key(d[i].0), d[i].1);
      var m :| 0 <= m < |items| && items[m] == q;
    }
    forall i | 0 <= i < |d| && Anchored(p, d[i].0) &&
        (forall j :: i < j < |d| && Anchored(p, d[j].0) ==> key(d[j].0) != key(d[i].0))
      ensures Get(FromItems(items), key(d[i].0)) == Some(d[i].1)
    {
      SelectedLast(d, p, key, i);
      var m :| 0 <= m < |items| && items[m] == (key(d[i].0), d[i].1) &&
        forall m' :: m < m' < |items| ==> items[m'].0 != key(d[i].0);
      UpdateLastWins([], items, m);
    }
  }

  /** `[Connection(conn_id=k, uri=v) for k, v in connections.items()]` */
  function ToConnections(d: seq<(string, string)>): (r: seq<Connection>)
    ensures |r| == |d| && forall i :: 0 <= i < |d| ==> r[i] == Connection(d[i].0, d[i].1)
  {
    if |d| == 0 then [] else [Connection(d[0].0, d[0].1)] + ToConnections(d[1..])
  }

  // ----- EnvironmentSecretsBackend -----

  /** `k.replace("AIRFLOW_CONN_", "").lower()` */
  function ConnKey(name: string): string {
    Lower(Replace(name, ConnPrefix, ""))
  }

  /** For a variable named `AIRFLOW_CONN_` and a rest holding no further
      occurrence of the prefix, the connection id is that rest, lower-cased. */
  lemma ConnKeyStripsPrefix(rest: string)
    requires forall i :: 0 <= i < |rest| ==> !(ConnPrefix <= rest[i..])
    ensures ConnKey(ConnPrefix + rest) == Lower(rest)
  {
    ReplaceLeading(ConnPrefix, rest);
    ReplaceAbsent(rest, ConnPrefix, "");
  }

  /** The body of `"^AIRFLOW_CONN_.*$"` */
  const AnyConnBody: string := ConnPrefix + ".*"

  /** The body of `f"^AIRFLOW_CONN_{conn_id.upper().replace('%', '.*').replace('_', '.')}$"` */
  function EnvFilterBody(id: string): string {
    ConnPrefix + Replace(Replace(Upper(id), "%", ".*"), "_", ".")
  }

  /** The connections a filtering comprehension over `os.environ` builds. */
  function EnvConnections(env: Environ, p: seq<Piece>): seq<Connection> {
    ToConnections(FromItems(Selected(env, p, ConnKey)))
  }

  /** `EnvironmentSecretsBackend.get_connections(conn_id)`. `parent` is the
      inherited exact lookup, used for an id without a wildcard. The regex of
      a wildcard id can fail to compile (for `%*`), which raises. */
  function EnvGetConnections(env: Environ, connId: Option<string>, parent: string -> Outcome<seq<Connection>>): Outcome<seq<Connection>>
    requires connId.Some? && IsWildcard(connId.value) ==> Restricted(connId.value)
  {
    match connId
    case None =>
      (match Compile(AnyConnBody)
       case Ok(p) => Ok(EnvConnections(env, p))
       case Raise(e) => Raise(e))
    case Some(id) =>
      if IsWildcard(id) then
        (match Compile(EnvFilterBody(id))
         case Ok(p) => Ok(EnvConnections(env, p))
         case Raise(e) => Raise(e))
      else parent(id)
  }

  /** Every name in the environment is free of newlines. */
  predicate PlainNames<V>(d: seq<(string, V)>) {
    forall i :: 0 <= i < |d| ==> '\n' !in d[i].0
  }

  /** A `.*` matches exactly the strings without a newline. */
  lemma {:induction false} AnyRunMatches(s: string)
    ensures FullMatch([Piece(AnyChar, true)], s) <==> '\n' !in s
    decreases |s|
  {
    var p := [Piece(AnyChar, true)];
    assert p[1..] == [];
    if |s| > 0 {
      AnyRunMatches(s[1..]);
      assert s == [s[0]] + s[1..];
    }
  }

  /** `^AIRFLOW_CONN_.*$` matches a name without newlines exactly when the
      name starts with `AIRFLOW_CONN_`. */
  lemma AnyConnMatches(name: string)
    requires '\n' !in name
    ensures Compile(AnyConnBody).Ok?
    ensures Anchored(Compile(AnyConnBody).value, name) <==> ConnPrefix <= name
  {
    var star := [Piece(AnyChar, true)];
    assert Compile(".*") == Ok(star) by {
      assert ".*"[0] == '.' && ".*"[1] == '*' && ".*"[2..] == [];
      assert Compile(".*"[2..]) == Ok([]);
      assert Compile(".*") == Prepend(Piece(AnyChar, true), Compile(".*"[2..]));
      assert [Piece(AnyChar, true)] + [] == star;
    }
    CompileLiteralPrefix(ConnPrefix, ".*");
    var p := Lits(ConnPrefix) + star;
    assert Compile(AnyConnBody) == Ok(p);
    FullMatchLits(ConnPrefix, star, name);
    if ConnPrefix <= name {
      assert '\n' !in name[|ConnPrefix|..] by {
        forall c | c in name[|ConnPrefix|..] ensures c in name { }
      }
      AnyRunMatches(name[|ConnPrefix|..]);
    }
  }

  /** The no-id lookup returns pairwise distinct ids, one connection for
      every variable named `AIRFLOW_CONN_…`, keyed by its name with
      `AIRFLOW_CONN_` removed and lower-cased; each connection holds the value
      of a variable with that key, the last one in `os.environ`. */
  lemma EnvListAll(env: Environ, parent: string -> Outcome<seq<Connection>>)
    requires PlainNames(env)
    ensures EnvGetConnections(env, None, parent).Ok?
    ensures var cs := EnvGetConnections(env, None, parent).value;
      (forall a, b :: 0 <= a < b < |cs| ==> cs[a].connId != cs[b].connId) &&
      (forall c :: c in cs ==> exists i :: (0 <= i < |env| && ConnPrefix <= env[i].0 &&
         c == Connection(ConnKey(env[i].0), env[i].1))) &&
      (forall i :: 0 <= i < |env| && ConnPrefix <= env[i].0 ==>
         exists c :: c in cs && c.connId == ConnKey(env[i].0)) &&
      (forall i :: (0 <= i < |env| && ConnPrefix <= env[i].0 &&
         (forall j :: i < j < |env| && ConnPrefix <= env[j].0 ==> ConnKey(env[j].0) != ConnKey(env[i].0))) ==>
         Connection(ConnKey(env[i].0), env[i].1) in cs)
  {
    AnyConnMatches("");
    var p := Compile(AnyConnBody).value;
    forall i | 0 <= i < |env| ensures Anchored(p, env[i].0) <==> ConnPrefix <= env[i].0 {
      AnyConnMatches(env[i].0);
    }
    ConnectionsDistinct(env, p);
    ConnectionsSound(env, p);
    ConnectionsComplete(env, p);
  }

  /** The connections of a filtered environment have pairwise distinct ids. */
  lemma ConnectionsDistinct(env: Environ, p: seq<Piece>)
    ensures var cs := EnvConnections(env, p);
      forall a, b :: 0 <= a < b < |cs| ==> cs[a].connId != cs[b].connId
  {
    ComprehensionFacts(env, p, ConnKey);
  }

  /** Every connection of a filtered environment comes from a matching
      variable: its id is the variable's key and its uri the variable's
      value. */
  lemma ConnectionsSound(env: Environ, p: seq<Piece>)
    ensures forall c :: c in EnvConnections(env, p) ==> exists i :: (0 <= i < |env| && Anchored(p, env[i].0) &&
      c == Connection(ConnKey(env[i].0), env[i].1))
  {
    var d := FromItems(Selected(env, p, ConnKey));
    var cs := EnvConnections(env, p);
    ComprehensionFacts(env, p, ConnKey);
    forall c | c in cs ensures exists i :: (0 <= i < |env| && Anchored(p, env[i].0) &&
        c == Connection(ConnKey(env[i].0), env[i].1)) {
      var m :| 0 <= m < |cs| && cs[m] == c;
      assert d[m] in d;
    }
  }

  /** Every matching variable has a connection under its key, holding the
      value of the last matching variable with that key. */
  lemma ConnectionsComplete(env: Environ, p: seq<Piece>)
    ensures forall i :: 0 <= i < |env| && Anchored(p, env[i].0) ==>
      exists c :: c in EnvConnections(env, p) && c.connId == ConnKey(env[i].0)
    ensures forall i :: (0 <= i < |env| && Anchored(p, env[i].0) &&
      (forall j :: i < j < |env| && Anchored(p, env[j].0) ==> ConnKey(env[j].0) != ConnKey(env[i].0))) ==>
      Connection(ConnKey(env[i].0), env[i].1) in EnvConnections(env, p)
  {
    var d := FromItems(Selected(env, p, ConnKey));
    var cs := EnvConnections(env, p);
    ComprehensionFacts(env, p, ConnKey);
    forall i | 0 <= i < |env| && Anchored(p, env[i].0)
      ensures exists c :: c in cs && c.connId == ConnKey(env[i].0) {
      var m :| 0 <= m < |d| && d[m].0 == ConnKey(env[i].0);
      assert cs[m] in cs;
    }
    forall i | 0 <= i < |env| && Anchored(p, env[i].0) &&
        (forall j :: i < j < |env| && Anchored(p, env[j].0) ==> ConnKey(env[j].0) != ConnKey(env[i].0))
      ensures Connection(ConnKey(env[i].0), env[i].1) in cs {
      GetFacts(d, ConnKey(env[i].0));
      var m :| 0 <= m < |d| && d[m] == (ConnKey(env[i].0), env[i].1);
      assert cs[m] in cs;
    }
  }

  /** The upper-cased id of a LIKE-character id is one too. */
  lemma UpperLikeChars(id: string)
    requires forall i :: 0 <= i < |id| ==> LikeChar(id[i])
    ensures forall i :: 0 <= i < |Upper(id)| ==> LikeChar(Upper(id)[i])
  {
  }

  /** For an id over letters, digits, `-`, `%` and `_`, the wildcard pattern
      compiles, and a name without newlines matches it exactly when it is
      `AIRFLOW_CONN_` followed by a string the upper-cased id matches with
      SQL LIKE. */
  lemma EnvPatternIsLike(id: string, name: string)
    requires forall i :: 0 <= i < |id| ==> LikeChar(id[i])
    requires '\n' !in name
    ensures Compile(EnvFilterBody(id)).Ok?
    ensures Anchored(Compile(EnvFilterBody(id)).value, name) <==>
      ConnPrefix <= name && Like(Upper(id), name[|ConnPrefix|..])
  {
    var x := Upper(id);
    UpperLikeChars(id);
    WildcardsIsReplace(x);
    CompileWildcards(x);
    CompileLiteralPrefix(ConnPrefix, Wildcards(x));
    var p := Lits(ConnPrefix) + LikePieces(x);
    assert Compile(EnvFilterBody(id)) == Ok(p);
    FullMatchLits(ConnPrefix, LikePieces(x), name);
    if ConnPrefix <= name {
      assert '\n' !in name[|ConnPrefix|..] by {
        forall c | c in name[|ConnPrefix|..] ensures c in name { }
      }
      LikePiecesMatch(x, name[|ConnPrefix|..]);
    }
  }

  /** An environment variable the wildcard lookup selects. */
  predicate EnvLikeMatch(id: string, name: string) {
    ConnPrefix <= name && Like(Upper(id), name[|ConnPrefix|..])
  }

  /** The wildcard lookup for an id over letters, digits, `-`, `%` and `_`
      that holds a `%`: every returned connection comes from a variable
      whose name matches, every matching variable is represented, and the
      ids are pairwise distinct. */
  lemma EnvWildcardLookup(env: Environ, id: string, parent: string -> Outcome<seq<Connection>>)
    requires forall i :: 0 <= i < |id| ==> LikeChar(id[i])
    requires '%' in id && PlainNames(env)
    ensures Restricted(id) && EnvGetConnections(env, Some(id), parent).Ok?
    ensures var cs := EnvGetConnections(env, Some(id), parent).value;
      (forall a, b :: 0 <= a < b < |cs| ==> cs[a].connId != cs[b].connId) &&
      (forall c :: c in cs ==> exists i :: (0 <= i < |env| && EnvLikeMatch(id, env[i].0) &&
         c == Connection(ConnKey(env[i].0), env[i].1))) &&
      (forall i :: 0 <= i < |env| && EnvLikeMatch(id, env[i].0) ==>
         exists c :: c in cs && c.connId == ConnKey(env[i].0))
  {
    assert Restricted(id) by {
      forall i | 0 <= i < |id| ensures Plain(id[i]) { assert LikeChar(id[i]); }
    }
    EnvPatternIsLike(id, "");
    var p := Compile(EnvFilterBody(id)).value;
    forall i | 0 <= i < |env| ensures Anchored(p, env[i].0) <==> EnvLikeMatch(id, env[i].0) {
      EnvPatternIsLike(id, env[i].0);
    }
    ConnectionsDistinct(env, p);
    ConnectionsSound(env, p);
    ConnectionsComplete(env, p);
  }

  /** An id with no `%` and no `*` (one with only `_` included) goes to the
      inherited exact lookup. */
  lemma EnvExactLookup(env: Environ, id: string, parent: string -> Outcome<seq<Connection>>)
    requires !IsWildcard(id)
    ensures EnvGetConnections(env, Some(id), parent) == parent(id)
  {
  }

  /** `%*` becomes `.**`, which `re` refuses ("multiple repeat"): the lookup
      raises. */
  lemma EnvRepeatedStarRaises(env: Environ, parent: string -> Outcome<seq<Connection>>)
    ensures EnvGetConnections(env, Some("%*"), parent) == Raise(RegexError)
  {
    assert Upper("%*") == "%*";
    WildcardsIsReplace("%*");
    assert Wildcards("%*") == ".**" by {
      assert "%*"[1..] == "*" && "*"[1..] == [];
    }
    var b := EnvFilterBody("%*");
    assert b == ConnPrefix + ".**";
    CompileLiteralPrefix(ConnPrefix, ".**");
    assert Compile(".**") == Raise(RegexError) by {
      assert ".**"[0] == '.' && ".**"[1] == '*' && ".**"[2..] == "*";
    }
  }

  // ----- LocalSecretsBackend -----

  /** `k.lower()` */
  function LowerKey(k: string): string {
    Lower(k)
  }

  /** `LocalSecretsBackend.get_connections(conn_id)` over the backend's
      `_local_connections` dict. The wildcard pattern is the id translated
      as it is, not upper-cased, and matched against the original names. */
  function LocalGetConnections(local: seq<(string, Connection)>, connId: Option<string>,
                               parent: string -> Outcome<seq<Connection>>): Outcome<seq<Connection>>
    requires connId.Some? && IsWildcard(connId.value) ==> Restricted(connId.value)
  {
    match connId
    case None => Ok(Values(local))
    case Some(id) =>
      if IsWildcard(id) then
        (match Compile(Replace(Replace(id, "%", ".*"), "_", "."))
         case Ok(p) => Ok(Values(FromItems(Selected(local, p, LowerKey))))
         case Raise(e) => Raise(e))
      else parent(id)
  }

  /** Without an id the local backend lists every local connection, in
      order; an id without `%` or `*` goes to the inherited exact lookup. */
  lemma LocalListAndExact(local: seq<(string, Connection)>, id: string, parent: string -> Outcome<seq<Connection>>)
    ensures var r := LocalGetConnections(local, None, parent);
      r.Ok? && |r.value| == |local| && forall i :: 0 <= i < |local| ==> r.value[i] == local[i].1
    ensures !IsWildcard(id) ==> LocalGetConnections(local, Some(id), parent) == parent(id)
  {
  }

  /** An id over letters, digits, `-`, `%` and `_` is in the modelled
      sublanguage, and its translation compiles to its LIKE pieces. */
  lemma LikeCompiles(id: string)
    requires forall i :: 0 <= i < |id| ==> LikeChar(id[i])
    ensures Restricted(id)
    ensures Compile(Replace(Replace(id, "%", ".*"), "_", ".")) == Ok(LikePieces(id))
  {
    assert Restricted(id) by {
      forall i | 0 <= i < |id| ensures Plain(id[i]) { assert LikeChar(id[i]); }
    }
    WildcardsIsReplace(id);
    CompileWildcards(id);
  }

  /** On names without a newline the LIKE pieces match as LIKE does. */
  lemma LikeAnchored<V>(d: seq<(string, V)>, id: string)
    requires forall i :: 0 <= i < |id| ==> LikeChar(id[i])
    requires PlainNames(d)
    ensures forall i :: 0 <= i < |d| ==> (Anchored(LikePieces(id), d[i].0) <==> Like(id, d[i].0))
  {
    forall i | 0 <= i < |d| ensures Anchored(LikePieces(id), d[i].0) <==> Like(id, d[i].0) {
      LikePiecesMatch(id, d[i].0);
    }
  }

  /** `x` and `y` are the connections of two local entries whose names match
      the id with SQL LIKE and differ once lower-cased. */
  predicate FromDistinctNames(local: seq<(string, Connection)>, id: string, x: Connection, y: Connection) {
    exists i, j :: 0 <= i < |local| && 0 <= j < |local| && Like(id, local[i].0) && Like(id, local[j].0) &&
      x == local[i].1 && y == local[j].1 && Lower(local[i].0) != Lower(local[j].0)
  }

  /** A pair of the comprehension keyed by `LowerKey` comes from a matching
      entry. */
  lemma SelectedPairFrom(local: seq<(string, Connection)>, id: string, p: seq<Piece>, q: (string, Connection))
    requires forall i :: 0 <= i < |local| ==> (Anchored(p, local[i].0) <==> Like(id, local[i].0))
    requires q in FromItems(Selected(local, p, LowerKey))
    ensures exists i :: 0 <= i < |local| && Like(id, local[i].0) && q == (Lower(local[i].0), local[i].1)
  {
    UpdateFacts([], Selected(local, p, LowerKey));
  }

  /** The values of the filtering comprehension keyed by `LowerKey` come
      from matching entries with pairwise different lower-cased names. */
  lemma SelectedValuesDistinct(local: seq<(string, Connection)>, id: string, p: seq<Piece>)
    requires forall i :: 0 <= i < |local| ==> (Anchored(p, local[i].0) <==> Like(id, local[i].0))
    ensures var cs := Values(FromItems(Selected(local, p, LowerKey)));
      forall a, b :: 0 <= a < b < |cs| ==> FromDistinctNames(local, id, cs[a], cs[b])
  {
    var d := FromItems(Selected(local, p, LowerKey));
    var cs := Values(d);
    UpdateFacts([], Selected(local, p, LowerKey));
    assert DistinctKeys(d);
    forall a, b | 0 <= a < b < |cs| ensures FromDistinctNames(local, id, cs[a], cs[b]) {
      SelectedPairFrom(local, id, p, d[a]);
      SelectedPairFrom(local, id, p, d[b]);
      var i :| 0 <= i < |local| && Like(id, local[i].0) && d[a] == (Lower(local[i].0), local[i].1);
      var j :| 0 <= j < |local| && Like(id, local[j].0) && d[b] == (Lower(local[j].0), local[j].1);
      assert d[a].0 != d[b].0;
      assert cs[a] == local[i].1 && cs[b] == local[j].1;
    }
  }

  /** The local wildcard lookup holds at most one connection per lower-cased
      name: any two of its results come from matching entries whose names
      differ once lower-cased. */
  lemma LocalWildcardDeduplicated(local: seq<(string, Connection)>, id: string, parent: string -> Outcome<seq<Connection>>)
    requires forall i :: 0 <= i < |id| ==> LikeChar(id[i])
    requires '%' in id && PlainNames(local)
    ensures Restricted(id) && LocalGetConnections(local, Some(id), parent).Ok?
    ensures var cs := LocalGetConnections(local, Some(id), parent).value;
      forall a, b :: 0 <= a < b < |cs| ==> FromDistinctNames(local, id, cs[a], cs[b])
  {
    LikeCompiles(id);
    LikeAnchored(local, id);
    SelectedValuesDistinct(local, id, LikePieces(id));
    assert IsWildcard(id);
    assert LocalGetConnections(local, Some(id), parent) == Ok(Values(FromItems(Selected(local, LikePieces(id), LowerKey))));
  }

  /** The local wildcard lookup for an id over letters, digits, `-`, `%` and
      `_`: it returns, de-duplicated by lower-cased name, the connections
      whose names match the id with SQL LIKE, case-sensitively; one
      connection per lower-cased matching name. */
  lemma LocalWildcardLookup(local: seq<(string, Connection)>, id: string, parent: string -> Outcome<seq<Connection>>)
    requires forall i :: 0 <= i < |id| ==> LikeChar(id[i])
    requires '%' in id && PlainNames(local)
    ensures Restricted(id) && LocalGetConnections(local, Some(id), parent).Ok?
    ensures var cs := LocalGetConnections(local, Some(id), parent).value;
      (forall c :: c in cs ==> exists i :: 0 <= i < |local| && Like(id, local[i].0) && c == local[i].1) &&
      (forall i :: (0 <= i < |local| && Like(id, local[i].0) &&
         (forall j :: i < j < |local| && Like(id, local[j].0) ==> Lower(local[j].0) != Lower(local[i].0))) ==>
         local[i].1 in cs) &&
      (forall a, b :: 0 <= a < b < |cs| ==> FromDistinctNames(local, id, cs[a], cs[b]))
  {
    LocalWildcardDeduplicated(local, id, parent);
    LikeCompiles(id);
    var p := LikePieces(id);
    LikeAnchored(local, id);
    var d := FromItems(Selected(local, p, LowerKey));
    var cs := Values(d);
    ComprehensionFacts(local, p, LowerKey);
    forall c | c in cs ensures exists i :: 0 <= i < |local| && Like(id, local[i].0) && c == local[i].1 {
      var m :| 0 <= m < |cs| && cs[m] == c;
      assert d[m] in d;
    }
    forall i | 0 <= i < |local| && Like(id, local[i].0) &&
        (forall j :: i < j < |local| && Like(id, local[j].0) ==> Lower(local[j].0) != Lower(local[i].0))
      ensures local[i].1 in cs {
      GetFacts(d, LowerKey(local[i].0));
      var m :| 0 <= m < |d| && d[m] == (LowerKey(local[i].0), local[i].1);
      assert cs[m] in cs;
    }
  }
}
