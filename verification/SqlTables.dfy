/** Which tables a SQL query reads: the walk over its FROM clauses, with every common table
    expression (CTE) replaced by the one base table beneath it. */
module SqlTables {
  import opened Wrappers

  datatype Statement = QueryStatement(query: Query) | OtherStatement

  datatype Query = Query(recursive: bool, ctes: seq<Cte>, body: Body)

  datatype Cte = Cte(name: string, query: Query)

  datatype Body =
    | Select(from: seq<TableWithJoins>)
    | SetOperation(left: Body, right: Body)
    | OtherBody

  datatype TableWithJoins = TableWithJoins(relation: Relation, joins: nat)

  datatype Relation = Table(name: string) | Derived(subquery: Query) | OtherRelation

  datatype Error =
    | DoesNotParse
    | NotOneStatement
    | NotAQuery
    | HasJoins
    | UnsupportedRelation
    | NotOneFrom
    | NotASelect
    | RecursiveCte
    | CteWithoutOneBase

  datatype Result<T> = Ok(value: T) | Err(error: Error)

  // ---------------------------------------------------------------- the walk, as a function

  /** The tables a body names in its FROM clauses, left to right. */
  function Leaves(b: Body): Result<seq<string>> {
    match b
    case Select(from) =>
      if |from| != 1 then Err(NotOneFrom)
      else if from[0].joins > 0 then Err(HasJoins)
      else (match from[0].relation
            case Table(name) => Ok([name])
            case Derived(subquery) => Leaves(subquery.body)
            case OtherRelation => Err(UnsupportedRelation))
    case SetOperation(left, right) =>
      (match Leaves(left)
       case Err(e) => Err(e)
       case Ok(ls) =>
         match Leaves(right)
         case Err(e) => Err(e)
         case Ok(rs) => Ok(ls + rs))
    case OtherBody => Err(NotASelect)
  }

  function Lookup(env: map<string, string>, name: string): string {
    if name in env then env[name] else name
  }

  function Resolve(env: map<string, string>, names: seq<string>): (r: seq<string>)
    ensures |r| == |names|
    ensures forall i | 0 <= i < |names| :: r[i] == Lookup(env, names[i])
  {
    seq(|names|, i requires 0 <= i < |names| => Lookup(env, names[i]))
  }

  predicate OneTable(names: seq<string>, base: string) {
    names != [] && forall n | n in names :: n == base
  }

  /** The single table that a CTE's body comes down to. */
  function BaseTable(env: map<string, string>, b: Body): Result<string> {
    match Leaves(b)
    case Err(e) => Err(e)
    case Ok(ls) =>
      var tables := Resolve(env, ls);
      if tables != [] && OneTable(tables, tables[0]) then Ok(tables[0]) else Err(CteWithoutOneBase)
  }

  /** The base table of each CTE, the definitions taken in order. */
  function BaseTables(ctes: seq<Cte>): Result<map<string, string>> {
    if ctes == [] then Ok(map[])
    else
      var n := |ctes| - 1;
      match BaseTables(ctes[..n])
      case Err(e) => Err(e)
      case Ok(env) =>
        match BaseTable(env, ctes[n].query.body)
        case Err(e) => Err(e)
        case Ok(base) => Ok(env[ctes[n].name := base])
  }

  function References(parsed: Option<seq<Statement>>): Result<seq<string>> {
    match parsed
    case None => Err(DoesNotParse)
    case Some(statements) =>
      if |statements| != 1 then Err(NotOneStatement)
      else
        match statements[0]
        case OtherStatement => Err(NotAQuery)
        case QueryStatement(q) => QueryReferences(q)
  }

  function QueryReferences(q: Query): Result<seq<string>> {
    if q.ctes != [] && q.recursive then Err(RecursiveCte)
    else
      match BaseTables(q.ctes)
      case Err(e) => Err(e)
      case Ok(env) =>
        match Leaves(q.body)
        case Err(e) => Err(e)
        case Ok(ls) => Ok(Resolve(env, ls))
  }

  // ---------------------------------------------------------------- the walkers

  /** The growing list that the walkers push into. */
  class TableList {
    var names: seq<string>

    constructor ()
      ensures names == []
    {
      names := [];
    }

    method Push(name: string)
      modifies this
      ensures names == old(names) + [name]
    {
      names := names + [name];
    }
  }

  /** The walker used when no CTE is in scope. */
  method ExtractFromBody(b: Body, tables: TableList) returns (error: Option<Error>)
    modifies tables
    ensures match Leaves(b)
            case Ok(ls) => error == None && tables.names == old(tables.names) + ls
            case Err(e) => error == Some(e) && old(tables.names) <= tables.names
    decreases b
  {
    match b {
      case Select(from) =>
        if |from| != 1 {
          return Some(NotOneFrom);
        }
        if from[0].joins > 0 {
          return Some(HasJoins);
        }
        match from[0].relation {
          case Table(name) =>
            tables.Push(name);
            return None;
          case Derived(subquery) =>
            error := ExtractFromBody(subquery.body, tables);
          case OtherRelation =>
            return Some(UnsupportedRelation);
        }
      case SetOperation(left, right) =>
        error := ExtractFromBody(left, tables);
        if error.Some? {
          return;
        }
        error := ExtractFromBody(right, tables);
      case OtherBody =>
        return Some(NotASelect);
    }
  }

  method ExtractFromBodyWithCtes(b: Body, env: map<string, string>, tables: TableList) returns (error: Option<Error>)
    modifies tables
    ensures match Leaves(b)
            case Ok(ls) => error == None && tables.names == old(tables.names) + Resolve(env, ls)
            case Err(e) => error == Some(e) && old(tables.names) <= tables.names
    decreases b
  {
    match b {
      case Select(from) =>
        if |from| != 1 {
          return Some(NotOneFrom);
        }
        if from[0].joins > 0 {
          return Some(HasJoins);
        }
        match from[0].relation {
          case Table(name) =>
            if name in env {
              tables.Push(env[name]);
            } else {
              tables.Push(name);
            }
            assert Resolve(env, [name]) == [Lookup(env, name)];
            return None;
          case Derived(subquery) =>
            error := ExtractFromBodyWithCtes(subquery.body, env, tables);
          case OtherRelation =>
            return Some(UnsupportedRelation);
        }
      case SetOperation(left, right) =>
        error := ExtractFromBodyWithCtes(left, env, tables);
        if error.Some? {
          return;
        }
        error := ExtractFromBodyWithCtes(right, env, tables);
        if error.None? {
          ResolveSum(env, Leaves(left).value, Leaves(right).value);
        }
      case OtherBody =>
        return Some(NotASelect);
    }
  }

  lemma ResolveSum(env: map<string, string>, a: seq<string>, b: seq<string>)
    ensures Resolve(env, a + b) == Resolve(env, a) + Resolve(env, b)
  {
  }

  method ExtractBaseTable(b: Body, env: map<string, string>) returns (result: Result<string>)
    ensures result == BaseTable(env, b)
  {
    var cteTables := new TableList();
    var failed := ExtractFromBodyWithCtes(b, env, cteTables);
    if failed.Some? {
      return Err(failed.value);
    }
    var names := cteTables.names;
    assert names == Resolve(env, Leaves(b).value);
    var unique := set n | n in names;
    if |unique| != 1 {
      NotOneDistinct(names);
      return Err(CteWithoutOneBase);
    }
    var base :| base in unique;
    OneDistinct(names, base);
    return Ok(base);
  }

  method ExtractBaseTables(ctes: seq<Cte>) returns (result: Result<map<string, string>>)
    ensures result == BaseTables(ctes)
    ensures result.Ok? && ctes != [] ==> result.value != map[]
  {
    var env: map<string, string> := map[];
    for i := 0 to |ctes|
      invariant BaseTables(ctes[..i]) == Ok(env)
      invariant env == map[] ==> i == 0
    {
      assert ctes[..i + 1][..i] == ctes[..i];
      var base := ExtractBaseTable(ctes[i].query.body, env);
      if base.Err? {
        BaseTablesFail(ctes, i + 1);
        return Err(base.error);
      }
      env := env[ctes[i].name := base.value];
      assert ctes[i].name in env;
    }
    assert ctes[..|ctes|] == ctes;
    return Ok(env);
  }

  method ExtractFromQuery(query: Query) returns (result: Result<seq<string>>)
    ensures result == QueryReferences(query)
  {
    var env: map<string, string> := map[];
    if query.ctes != [] {
      if query.recursive {
        return Err(RecursiveCte);
      }
      var bases := ExtractBaseTables(query.ctes);
      if bases.Err? {
        return Err(bases.error);
      }
      env := bases.value;
    }
    assert BaseTables(query.ctes) == Ok(env);
    var tables := new TableList();
    var error;
    if env == map[] {
      error := ExtractFromBody(query.body, tables);
      if error.None? {
        assert Resolve(env, Leaves(query.body).value) == Leaves(query.body).value;
      }
    } else {
      error := ExtractFromBodyWithCtes(query.body, env, tables);
    }
    if error.Some? {
      return Err(error.value);
    }
    assert tables.names == Resolve(env, Leaves(query.body).value);
    return Ok(tables.names);
  }

  method ExtractTableReferences(parsed: Option<seq<Statement>>) returns (result: Result<seq<string>>)
    ensures result == References(parsed)
  {
    if parsed.None? {
      return Err(DoesNotParse);
    }
    var statements := parsed.value;
    if |statements| != 1 {
      return Err(NotOneStatement);
    }
    match statements[0] {
      case QueryStatement(query) =>
        result := ExtractFromQuery(query);
      case OtherStatement =>
        return Err(NotAQuery);
    }
  }

  /** Counting the distinct names in a hash set asks whether there is one table. */
  lemma OneDistinct(names: seq<string>, base: string)
    requires base in names && |set n | n in names| == 1
    ensures OneTable(names, base) && names[0] == base
  {
    var unique := set n | n in names;
    var rest := unique - {base};
    assert |rest| == 0;
    assert unique == rest + {base};
    assert forall n | n in names :: n in unique;
    assert names[0] in names;
  }

  lemma NotOneDistinct(names: seq<string>)
    ensures names != [] && OneTable(names, names[0]) ==> |set n | n in names| == 1
  {
    if names != [] && OneTable(names, names[0]) {
      assert (set n | n in names) == {names[0]};
    }
  }

  lemma {:induction false} BaseTablesFail(ctes: seq<Cte>, k: nat)
    requires k <= |ctes| && BaseTables(ctes[..k]).Err?
    ensures BaseTables(ctes) == BaseTables(ctes[..k])
    decreases |ctes|
  {
    if k < |ctes| {
      var n := |ctes| - 1;
      assert ctes[..n][..k] == ctes[..k];
      BaseTablesFail(ctes[..n], k);
    } else {
      assert ctes[..k] == ctes;
    }
  }
}
