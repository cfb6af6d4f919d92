/** Dynamic tables fed by a SQL query: the query is taken apart into a projection and a filter,
    which then run on every batch that passes the source. Compared with the query's own rows. */
module DynamicTable {
  import opened Wrappers
  import opened Plans

  datatype Error =
    | UnsupportedQuery
    | NoProjection
    | SeveralProjections
    | UnknownColumn
    | FilterNotBoolean
    | NotAString

  datatype Result<T> = Ok(value: T) | Err(error: Error)

  datatype Parts = Parts(projections: seq<Expr>, filter: Option<Expr>)

  /** One projection over an optional filter, both over the columns of the source. */
  datatype SideOutput = SideOutput(projection: Expr, filter: Option<Expr>)

  // ---------------------------------------------------------------- taking the query apart

  function BelowAliases(p: Plan): (q: Plan)
    ensures !q.SubqueryAlias?
  {
    match p
    case SubqueryAlias(_, input) => BelowAliases(input)
    case _ => p
  }

  predicate IsBase(p: Plan) {
    p.TableScan? || p.Extension?
  }

  function Extracted(p: Plan): Result<Parts> {
    match BelowAliases(p)
    case Projection(exprs, input) =>
      (match BelowAliases(input)
       case Filter(condition, _) => Ok(Parts(exprs, Some(condition)))
       case TableScan(_, _) => Ok(Parts(exprs, None))
       case Extension(_, _, _) => Ok(Parts(exprs, None))
       case _ => Err(UnsupportedQuery))
    case Filter(condition, _) => Ok(Parts([], Some(condition)))
    case _ => Err(UnsupportedQuery)
  }

  method ExtractExpressions(plan: Plan) returns (r: Result<Parts>)
    ensures r == Extracted(plan)
    decreases plan
  {
    match plan {
      case Projection(exprs, input) =>
        var current := input;
        while true
          invariant BelowAliases(current) == BelowAliases(input)
          decreases current
        {
          match current {
            case Filter(condition, _) => return Ok(Parts(exprs, Some(condition)));
            case TableScan(_, _) => return Ok(Parts(exprs, None));
            case SubqueryAlias(_, below) => current := below;
            case Extension(_, _, _) => return Ok(Parts(exprs, None));
            case _ => return Err(UnsupportedQuery);
          }
        }
      case Filter(condition, _) => return Ok(Parts([], Some(condition)));
      case SubqueryAlias(_, input) => r := ExtractExpressions(input);
      case _ => return Err(UnsupportedQuery);
    }
  }

  function NewSideOutput(parts: Parts, names: seq<string>): (r: Result<SideOutput>)
    ensures r.Ok? ==> Usable(r.value, names)
  {
    if parts.projections == [] then Err(NoProjection)
    else if |parts.projections| > 1 then Err(SeveralProjections)
    else if !Resolves(parts.projections[0], names) then Err(UnknownColumn)
    else if parts.filter.Some? && !Resolves(parts.filter.value, names) then Err(UnknownColumn)
    else Ok(SideOutput(parts.projections[0], parts.filter))
  }

  predicate Usable(o: SideOutput, names: seq<string>) {
    Resolves(o.projection, names) && (o.filter.Some? ==> Resolves(o.filter.value, names))
  }

  // ---------------------------------------------------------------- one batch

  /** An expression without columns is evaluated once, to a scalar. */
  predicate Constant(e: Expr) {
    match e
    case Column(_) => false
    case Literal(_, _) => true
    case Call(_, args, _) => forall a | a in args :: Constant(a)
    case Alias(inner, _) => Constant(inner)
  }

  /** The columns that an expression reads. */
  function ColumnsOf(e: Expr): set<string> {
    match e
    case Column(name) => {name}
    case Literal(_, _) => {}
    case Call(_, args, _) => set a, name | a in args && name in ColumnsOf(a) :: name
    case Alias(inner, _) => ColumnsOf(inner)
  }

  lemma {:induction false} ConstantReadsNothing(e: Expr)
    ensures Constant(e) <==> ColumnsOf(e) == {}
  {
    match e
    case Column(name) => assert name in ColumnsOf(e);
    case Literal(_, _) =>
    case Call(_, args, _) =>
      forall a | a in args ensures Constant(a) <==> ColumnsOf(a) == {} {
        ConstantReadsNothing(a);
      }
      if !Constant(e) {
        var a :| a in args && !Constant(a);
        var name :| name in ColumnsOf(a);
        assert name in ColumnsOf(e);
      }
    case Alias(inner, _) => ConstantReadsNothing(inner);
  }

  function ScalarOf(e: Expr, env: Env): Value
    requires Constant(e)
  {
    match e
    case Literal(v, _) => v
    case Call(fn, args, _) => env.call(fn, ScalarsOf(args, env))
    case Alias(inner, _) => ScalarOf(inner, env)
  }

  function ScalarsOf(es: seq<Expr>, env: Env): seq<Value>
    requires forall e | e in es :: Constant(e)
  {
    if es == [] then [] else [ScalarOf(es[0], env)] + ScalarsOf(es[1..], env)
  }

  /** The result types that the expressions have over the source. */
  datatype Types = Types(isString: Expr -> bool, isBoolean: Expr -> bool)

  function Column0(rows: seq<Row>): (r: seq<Value>)
    requires Wide(rows, 1)
    ensures |r| == |rows| && forall i | 0 <= i < |rows| :: r[i] == rows[i][0]
  {
    seq(|rows|, i requires 0 <= i < |rows| => rows[i][0])
  }

  /** The non-null strings of a column, in order. */
  function Strings(values: seq<Value>): seq<string> {
    if values == [] then []
    else Strings(values[..|values| - 1])
         + if values[|values| - 1].Str? then [values[|values| - 1].s] else []
  }

  function Kept(o: SideOutput, names: seq<string>, batch: seq<Row>, env: Env): (r: seq<Row>)
    requires Usable(o, names) && Wide(batch, |names|)
    ensures Wide(r, |names|) && |r| <= |batch|
  {
    if o.filter.Some? then KeepRows(o.filter.value, names, batch, env) else batch
  }

  function Repeat(v: Value, n: nat): (r: seq<Value>)
    ensures |r| == n && forall i | 0 <= i < n :: r[i] == v
  {
    seq(n, _ => v)
  }

  function EvalEach(e: Expr, names: seq<string>, rows: seq<Row>, env: Env): (r: seq<Value>)
    requires Resolves(e, names) && Wide(rows, |names|)
    ensures |r| == |rows|
    ensures forall i | 0 <= i < |rows| :: r[i] == Eval(e, names, rows[i], env)
  {
    seq(|rows|, i requires 0 <= i < |rows| => Eval(e, names, rows[i], env))
  }

  /** What one batch appends. A scalar projection is spread over the unfiltered row count. */
  function Appended(o: SideOutput, names: seq<string>, batch: seq<Row>, env: Env): seq<string>
    requires Usable(o, names) && Wide(batch, |names|)
  {
    if Constant(o.projection) then Strings(Repeat(ScalarOf(o.projection, env), |batch|))
    else Strings(EvalEach(o.projection, names, Kept(o, names, batch, env), env))
  }

  /** The filter, if there is one, is boolean, and the projection is a string. */
  predicate WellTyped(o: SideOutput, types: Types) {
    (o.filter.Some? ==> types.isBoolean(o.filter.value)) && types.isString(o.projection)
  }

  function AsSet(names: seq<string>): (r: set<string>)
    ensures forall n :: n in r <==> n in names
  {
    set n | n in names
  }

  /** The in-memory backend. */
  class Table {
    var storage: set<string>

    constructor ()
      ensures storage == {}
    {
      storage := {};
    }

    method Append(values: seq<Value>)
      modifies this
      ensures storage == old(storage) + AsSet(Strings(values))
    {
      for i := 0 to |values|
        invariant storage == old(storage) + AsSet(Strings(values[..i]))
      {
        assert values[..i + 1][..i] == values[..i];
        if values[i].Str? {
          storage := storage + {values[i].s};
        }
      }
      assert values[..|values|] == values;
    }
  }

  method FilterBatch(condition: Expr, names: seq<string>, batch: seq<Row>, env: Env) returns (kept: seq<Row>)
    requires Resolves(condition, names) && Wide(batch, |names|)
    ensures kept == KeepRows(condition, names, batch, env)
    ensures forall row :: row in kept <==> row in batch && Eval(condition, names, row, env) == Bool(true)
  {
    var mask: seq<bool>;
    if Constant(condition) {
      mask := seq(|batch|, _ => ScalarOf(condition, env) == Bool(true));
    } else {
      mask := seq(|batch|, i requires 0 <= i < |batch| => Eval(condition, names, batch[i], env) == Bool(true));
    }
    kept := [];
    for i := 0 to |batch|
      invariant Wide(batch[..i], |names|) && kept == KeepRows(condition, names, batch[..i], env)
    {
      if Constant(condition) {
        ScalarIsEval(condition, names, batch[i], env);
      }
      KeepRowsAppend(condition, names, batch[..i], [batch[i]], env);
      assert batch[..i + 1] == batch[..i] + [batch[i]];
      if mask[i] {
        kept := kept + [batch[i]];
      }
    }
    assert batch[..|batch|] == batch;
    KeptAreTrue(condition, names, batch, env);
  }

  method Process(o: SideOutput, names: seq<string>, types: Types, batch: seq<Row>, env: Env, table: Table)
      returns (error: Option<Error>)
    requires Usable(o, names) && Wide(batch, |names|)
    modifies table
    ensures error.None? <==> WellTyped(o, types)
    ensures error == Some(FilterNotBoolean) <==> o.filter.Some? && !types.isBoolean(o.filter.value)
    ensures error.Some? ==> error.value in {FilterNotBoolean, NotAString}
    ensures table.storage
      == old(table.storage) + if WellTyped(o, types) then AsSet(Appended(o, names, batch, env)) else {}
  {
    var current := batch;
    if o.filter.Some? {
      if !types.isBoolean(o.filter.value) {
        return Some(FilterNotBoolean);
      }
      current := FilterBatch(o.filter.value, names, batch, env);
    }
    var values: seq<Value>;
    if Constant(o.projection) {
      values := Repeat(ScalarOf(o.projection, env), |batch|);
    } else {
      values := EvalEach(o.projection, names, current, env);
    }
    if !types.isString(o.projection) {
      return Some(NotAString);
    }
    table.Append(values);
    return None;
  }

  // ---------------------------------------------------------------- the whole stream

  function Concat(batches: seq<seq<Row>>): seq<Row> {
    if batches == [] then [] else Concat(batches[..|batches| - 1]) + batches[|batches| - 1]
  }

  function AppendedAll(o: SideOutput, names: seq<string>, batches: seq<seq<Row>>, env: Env): seq<string>
    requires Usable(o, names) && forall b | b in batches :: Wide(b, |names|)
  {
    if batches == [] then []
    else AppendedAll(o, names, batches[..|batches| - 1], env) + Appended(o, names, batches[|batches| - 1], env)
  }

  method ProcessAll(o: SideOutput, names: seq<string>, types: Types, batches: seq<seq<Row>>, env: Env, table: Table)
      returns (error: Option<Error>)
    requires Usable(o, names) && forall b | b in batches :: Wide(b, |names|)
    modifies table
    ensures error.None? <==> batches == [] || WellTyped(o, types)
    ensures error.None? ==> table.storage == old(table.storage) + AsSet(AppendedAll(o, names, batches, env))
  {
    for i := 0 to |batches|
      invariant i > 0 ==> WellTyped(o, types)
      invariant table.storage == old(table.storage) + AsSet(AppendedAll(o, names, batches[..i], env))
    {
      assert batches[..i + 1][..i] == batches[..i];
      error := Process(o, names, types, batches[i], env, table);
      if error.Some? {
        return;
      }
    }
    error := None;
    assert batches[..|batches|] == batches;
  }

  lemma {:induction false} KeepRowsStep(c: Expr, names: seq<string>, row: Row, rows: seq<Row>, env: Env)
    requires Resolves(c, names) && |row| == |names| && Wide(rows, |names|)
    ensures Wide([row] + rows, |names|)
    ensures KeepRows(c, names, [row] + rows, env)
         == if Keeps(c, names, row, env) then [row] + KeepRows(c, names, rows, env) else KeepRows(c, names, rows, env)
  {
    assert ([row] + rows)[1..] == rows;
  }

  /** A filter keeps the rows that its condition is true of, not those where it is null. */
  lemma {:induction false} KeptAreTrue(c: Expr, names: seq<string>, rows: seq<Row>, env: Env)
    requires Resolves(c, names) && Wide(rows, |names|)
    ensures forall row ::
      row in KeepRows(c, names, rows, env) <==> row in rows && Eval(c, names, row, env) == Bool(true)
  {
    if rows != [] {
      KeptAreTrue(c, names, rows[1..], env);
      assert rows == [rows[0]] + rows[1..];
      KeepRowsStep(c, names, rows[0], rows[1..], env);
    }
  }

  lemma {:induction false} Regroup(first: seq<Row>, a: seq<Row>, b: seq<Row>)
    ensures first + (a + b) == (first + a) + b
  {
  }

  lemma {:induction false} KeepRowsAppend(c: Expr, names: seq<string>, a: seq<Row>, b: seq<Row>, env: Env)
    requires Resolves(c, names) && Wide(a, |names|) && Wide(b, |names|)
    ensures Wide(a + b, |names|)
    ensures KeepRows(c, names, a + b, env) == KeepRows(c, names, a, env) + KeepRows(c, names, b, env)
    decreases |a|
  {
    if a == [] {
      assert a + b == b;
    } else {
      var row, rest := a[0], a[1..];
      var keptRest, keptB := KeepRows(c, names, rest, env), KeepRows(c, names, b, env);
      KeepRowsAppend(c, names, rest, b, env);
      assert a == [row] + rest && a + b == [row] + (rest + b);
      KeepRowsStep(c, names, row, rest, env);
      KeepRowsStep(c, names, row, rest + b, env);
      Regroup([row], keptRest, keptB);
    }
  }

  lemma {:induction false} StringsAppend(a: seq<Value>, b: seq<Value>)
    ensures Strings(a + b) == Strings(a) + Strings(b)
    decreases |b|
  {
    if b == [] {
      assert a + b == a;
    } else {
      StringsAppend(a, b[..|b| - 1]);
      assert (a + b)[..|a + b| - 1] == a + b[..|b| - 1];
    }
  }

  lemma {:induction false} AppendedSum(o: SideOutput, names: seq<string>, a: seq<Row>, b: seq<Row>, env: Env)
    requires Usable(o, names) && Wide(a, |names|) && Wide(b, |names|)
    ensures Wide(a + b, |names|)
    ensures Appended(o, names, a + b, env) == Appended(o, names, a, env) + Appended(o, names, b, env)
  {
    if Constant(o.projection) {
      var v := ScalarOf(o.projection, env);
      assert Repeat(v, |a + b|) == Repeat(v, |a|) + Repeat(v, |b|);
      StringsAppend(Repeat(v, |a|), Repeat(v, |b|));
    } else {
      if o.filter.Some? {
        KeepRowsAppend(o.filter.value, names, a, b, env);
      }
      var x, y := Kept(o, names, a, env), Kept(o, names, b, env);
      assert EvalEach(o.projection, names, x + y, env)
          == EvalEach(o.projection, names, x, env) + EvalEach(o.projection, names, y, env);
      StringsAppend(EvalEach(o.projection, names, x, env), EvalEach(o.projection, names, y, env));
    }
  }

  /** How the stream is cut into batches does not matter, for any projection. */
  lemma {:induction false} BatchingDoesNotMatter(o: SideOutput, names: seq<string>, batches: seq<seq<Row>>, env: Env)
    requires Usable(o, names) && forall b | b in batches :: Wide(b, |names|)
    ensures Wide(Concat(batches), |names|)
    ensures AppendedAll(o, names, batches, env) == Appended(o, names, Concat(batches), env)
    decreases |batches|
  {
    if batches == [] {
      assert Kept(o, names, [], env) == [];
    } else {
      var n := |batches| - 1;
      BatchingDoesNotMatter(o, names, batches[..n], env);
      assert batches[n] in batches;
      AppendedSum(o, names, Concat(batches[..n]), batches[n], env);
    }
  }

  // ---------------------------------------------------------------- against the query

  /** A projection, at most one filter, and the source right beneath, aliases aside. */
  predicate Direct(p: Plan) {
    match BelowAliases(p)
    case Projection(exprs, input) =>
      (match BelowAliases(input)
       case Filter(_, below) => IsBase(BelowAliases(below))
       case TableScan(_, _) => true
       case Extension(_, _, _) => true
       case _ => false)
    case _ => false
  }

  function Source(p: Plan): (q: Plan)
    requires Direct(p)
    ensures IsBase(q)
  {
    var under := BelowAliases(BelowAliases(p).input);
    if under.Filter? then BelowAliases(under.input) else under
  }

  // ---------------------------------------------------------------- which queries are taken

  /** What becomes of a query: the two steps of setting a dynamic table up. */
  function SetUp(p: Plan, names: seq<string>): Result<SideOutput> {
    match Extracted(p)
    case Err(e) => Err(e)
    case Ok(parts) => NewSideOutput(parts, names)
  }

  function WithoutAliases(path: seq<Plan>): (r: seq<Plan>)
    ensures forall q | q in r :: !q.SubqueryAlias?
  {
    if path == [] then []
    else (if path[0].SubqueryAlias? then [] else [path[0]]) + WithoutAliases(path[1..])
  }

  lemma {:induction false} FirstBelowAliases(p: Plan)
    ensures WithoutAliases(FirstInputs(p)) == WithoutAliases(FirstInputs(BelowAliases(p)))
    ensures WithoutAliases(FirstInputs(p)) != [] && WithoutAliases(FirstInputs(p))[0] == BelowAliases(p)
    decreases p
  {
    var path := FirstInputs(p);
    if p.SubqueryAlias? {
      FirstBelowAliases(p.input);
      assert path == [p] + FirstInputs(p.input) && path[1..] == FirstInputs(p.input);
    }
  }

  /** The nodes met on the way down, aliases left out. */
  function Spine(p: Plan): seq<Plan> {
    WithoutAliases(FirstInputs(p))
  }

  lemma SpineGoesOn(p: Plan, next: Plan)
    requires FirstInputs(BelowAliases(p)) == [BelowAliases(p)] + FirstInputs(next)
    ensures |Spine(p)| > 1 && Spine(p)[0] == BelowAliases(p) && Spine(p)[1] == BelowAliases(next)
  {
    FirstBelowAliases(p);
    FirstBelowAliases(next);
    var path := FirstInputs(BelowAliases(p));
    assert path[1..] == FirstInputs(next);
  }

  /** A projection with a filter, a scan or an extension right beneath it. */
  predicate TakenApart(spine: seq<Plan>) {
    && |spine| > 1 && spine[0].Projection?
    && (spine[1].Filter? || spine[1].TableScan? || spine[1].Extension?)
  }

  predicate ColumnsFound(spine: seq<Plan>, names: seq<string>)
    requires TakenApart(spine) && spine[0].exprs != []
  {
    Resolves(spine[0].exprs[0], names) && (spine[1].Filter? ==> Resolves(spine[1].condition, names))
  }

  /** Which queries are taken and which are refused, and why, read off the nodes of the plan. */
  lemma TakenExactly(p: Plan, names: seq<string>, answer: Result<SideOutput>)
    requires answer == SetUp(p, names)
    ensures var spine := Spine(p);
      && spine != []
      && (answer == Err(UnsupportedQuery) <==> !TakenApart(spine) && !spine[0].Filter?)
      && (answer == Err(NoProjection) <==> spine[0].Filter? || (TakenApart(spine) && spine[0].exprs == []))
      && (answer == Err(SeveralProjections) <==> TakenApart(spine) && |spine[0].exprs| > 1)
      && (answer == Err(UnknownColumn) <==>
            TakenApart(spine) && |spine[0].exprs| == 1 && !ColumnsFound(spine, names))
      && (answer.Ok? <==> TakenApart(spine) && |spine[0].exprs| == 1 && ColumnsFound(spine, names))
      && (answer.Ok? ==>
            var filter := if spine[1].Filter? then Some(spine[1].condition) else None;
            answer.value == SideOutput(spine[0].exprs[0], filter))
  {
    FirstBelowAliases(p);
    var top := BelowAliases(p);
    if top.Projection? {
      SpineGoesOn(p, top.input);
    } else {
      assert !TakenApart(Spine(p));
    }
  }

  /** The one output of a direct query. */
  function DirectOutput(p: Plan): SideOutput
    requires Direct(p) && |BelowAliases(p).exprs| == 1
  {
    var top := BelowAliases(p);
    var under := BelowAliases(top.input);
    SideOutput(top.exprs[0], if under.Filter? then Some(under.condition) else None)
  }

  /** Every direct query with one expression that the planner accepts is taken. */
  lemma DirectIsTaken(p: Plan)
    requires WellFormed(p) && Direct(p) && |BelowAliases(p).exprs| == 1
    ensures SetUp(p, Schema(Source(p))) == Ok(DirectOutput(p))
  {
    AliasesAreWellFormed(p);
    var top := BelowAliases(p);
    AliasesAreWellFormed(top.input);
    var under := BelowAliases(top.input);
    if under.Filter? {
      AliasesAreWellFormed(under.input);
    }
    assert top.exprs == [top.exprs[0]] && Resolves(top.exprs[0], Schema(top.input));
  }

  lemma {:induction false} AliasesAreWellFormed(p: Plan)
    requires WellFormed(p)
    ensures WellFormed(BelowAliases(p)) && Schema(BelowAliases(p)) == Schema(p)
    decreases p
  {
    if p.SubqueryAlias? {
      AliasesAreWellFormed(p.input);
    }
  }

  lemma {:induction false} AliasesAreTransparent(p: Plan, env: Env)
    requires Runnable(p, env)
    ensures Runnable(BelowAliases(p), env)
    ensures Schema(BelowAliases(p)) == Schema(p) && Rows(BelowAliases(p), env) == Rows(p, env)
  {
    match p
    case SubqueryAlias(_, input) => AliasesAreTransparent(input, env);
    case _ =>
  }

  lemma {:induction false} ScalarIsEval(e: Expr, names: seq<string>, row: Row, env: Env)
    requires Constant(e) && Resolves(e, names) && |row| == |names|
    ensures Eval(e, names, row, env) == ScalarOf(e, env)
    decreases e, 1
  {
    match e
    case Literal(_, _) =>
    case Call(_, args, _) => ScalarsAreEval(args, names, row, env);
    case Alias(inner, _) => ScalarIsEval(inner, names, row, env);
  }

  lemma {:induction false} ScalarsAreEval(es: seq<Expr>, names: seq<string>, row: Row, env: Env)
    requires (forall e | e in es :: Constant(e)) && ResolveAll(es, names) && |row| == |names|
    ensures EvalAll(es, names, row, env) == ScalarsOf(es, env)
    decreases es, 0
  {
    if es != [] {
      ScalarIsEval(es[0], names, row, env);
      ScalarsAreEval(es[1..], names, row, env);
    }
  }

  /** The rows of a direct query, from the source's. */
  lemma {:induction false} DirectRows(p: Plan, o: SideOutput, env: Env)
    requires Runnable(p, env) && Direct(p) && |BelowAliases(p).exprs| == 1 && o == DirectOutput(p)
    ensures Runnable(Source(p), env) && Usable(o, Schema(Source(p)))
    ensures var names := Schema(Source(p));
            && Wide(Rows(p, env), 1)
            && Column0(Rows(p, env)) == EvalEach(o.projection, names, Kept(o, names, Rows(Source(p), env), env), env)
  {
    DirectIsTaken(p);
    AliasesAreTransparent(p, env);
    var projection := BelowAliases(p);
    AliasesAreTransparent(projection.input, env);
    var under := BelowAliases(projection.input);
    if under.Filter? {
      AliasesAreTransparent(under.input, env);
    }
    var names := Schema(Source(p));
    assert o.projection == projection.exprs[0] && projection.exprs == [o.projection];
    var kept := Rows(under, env);
    assert kept == Kept(o, names, Rows(Source(p), env), env);
    assert Rows(p, env) == ProjectRows(projection.exprs, names, kept, env);
    forall i | 0 <= i < |kept| ensures Rows(p, env)[i][0] == Eval(o.projection, names, kept[i], env) {
      assert EvalAll([o.projection], names, kept[i], env)[0] == Eval(o.projection, names, kept[i], env);
    }
  }

  /** The main result. A direct query with one column-valued expression is taken, and any split of the
      stream into batches appends exactly the non-null strings of the query's result over the whole
      stream, in order. */
  lemma {:induction false} TableHoldsQuery(p: Plan, batches: seq<seq<Row>>, env: Env)
    requires Runnable(p, env) && Direct(p) && |BelowAliases(p).exprs| == 1
    requires Runnable(Source(p), env) && Concat(batches) == Rows(Source(p), env)
    requires forall b | b in batches :: Wide(b, |Schema(Source(p))|)
    requires !Constant(BelowAliases(p).exprs[0])
    ensures SetUp(p, Schema(Source(p))).Ok? && Wide(Rows(p, env), 1)
    ensures var o := SetUp(p, Schema(Source(p))).value;
      && Usable(o, Schema(Source(p)))
      && AppendedAll(o, Schema(Source(p)), batches, env) == Strings(Column0(Rows(p, env)))
  {
    DirectIsTaken(p);
    DirectRows(p, DirectOutput(p), env);
    BatchingDoesNotMatter(DirectOutput(p), Schema(Source(p)), batches, env);
  }

  lemma {:induction false} StringsOfRepeat(v: Value, n: nat)
    ensures |Strings(Repeat(v, n))| == if v.Str? then n else 0
    ensures forall s :: s in Strings(Repeat(v, n)) <==> n > 0 && v == Str(s)
    decreases n
  {
    if n > 0 {
      assert Repeat(v, n)[..n - 1] == Repeat(v, n - 1);
      StringsOfRepeat(v, n - 1);
    }
  }

  lemma {:induction false} CompareRepeats(v: Value, m: nat, n: nat)
    requires m <= n
    ensures Strings(Repeat(v, n)) == Strings(Repeat(v, m)) <==> !v.Str? || m == n
    ensures AsSet(Strings(Repeat(v, n))) == AsSet(Strings(Repeat(v, m))) <==> !v.Str? || m > 0 || n == 0
  {
    StringsOfRepeat(v, m);
    StringsOfRepeat(v, n);
    if v.Str? {
      assert v.s in Strings(Repeat(v, n)) <==> n > 0;
      assert v.s in Strings(Repeat(v, m)) <==> m > 0;
    } else {
      assert Strings(Repeat(v, n)) == [] && Strings(Repeat(v, m)) == [];
    }
  }

  /** With a scalar projection the row count is the unfiltered one: the appended values are the
      query's exactly when no row is filtered out, or the scalar is no string anyway; and the
      table's contents are right exactly when the filter does not empty a non-empty stream. */
  lemma {:induction false} ScalarProjectionIgnoresFilter(p: Plan, batches: seq<seq<Row>>, env: Env)
    requires Runnable(p, env) && Direct(p) && |BelowAliases(p).exprs| == 1
    requires Runnable(Source(p), env) && Concat(batches) == Rows(Source(p), env)
    requires forall b | b in batches :: Wide(b, |Schema(Source(p))|)
    requires Constant(BelowAliases(p).exprs[0])
    ensures SetUp(p, Schema(Source(p))).Ok? && Wide(Rows(p, env), 1)
    ensures var o, names, rows := SetUp(p, Schema(Source(p))).value, Schema(Source(p)), Rows(Source(p), env);
      && Usable(o, names) && Constant(o.projection)
      && var stored, queried := AppendedAll(o, names, batches, env), Strings(Column0(Rows(p, env)));
         && (stored == queried <==> !ScalarOf(o.projection, env).Str? || |Kept(o, names, rows, env)| == |rows|)
         && (AsSet(stored) == AsSet(queried) <==>
               !ScalarOf(o.projection, env).Str? || Kept(o, names, rows, env) != [] || rows == [])
  {
    var o, names, rows := DirectOutput(p), Schema(Source(p)), Rows(Source(p), env);
    DirectIsTaken(p);
    DirectRows(p, o, env);
    BatchingDoesNotMatter(o, names, batches, env);
    var kept := Kept(o, names, rows, env);
    var v := ScalarOf(o.projection, env);
    forall i | 0 <= i < |kept| ensures Eval(o.projection, names, kept[i], env) == v {
      ScalarIsEval(o.projection, names, kept[i], env);
    }
    assert EvalEach(o.projection, names, kept, env) == Repeat(v, |kept|);
    CompareRepeats(v, |kept|, |rows|);
  }

  lemma {:induction false} OneResolves(e: Expr, names: seq<string>)
    requires Resolves(e, names)
    ensures ResolveAll([e], names)
  {
    var es := [e];
    assert es[1..] == [] && ResolveAll(es[1..], names);
    assert Resolves(es[0], names);
  }

  lemma {:induction false} OneString(s: string)
    ensures Strings([Str(s)]) == [s]
  {
    var one := [Str(s)];
    assert one[..0] == [] && Strings(one[..0]) == [];
    assert one[|one| - 1] == Str(s);
    assert [] + [s] == [s];
  }

  /** `SELECT 'x' FROM t WHERE false` yields nothing and stores "x". */
  lemma {:induction false} LiteralIgnoresFilter(env: Env)
    requires env.table("t") == [[Str("a")]]
    ensures var scan := TableScan("t", ["c"]);
            var x, no := Literal(Str("x"), "x"), Literal(Bool(false), "false");
            var p, o := Projection([x], Filter(no, scan)), SideOutput(x, Some(no));
            && Runnable(p, env) && Direct(p) && Rows(p, env) == []
            && SetUp(p, ["c"]) == Ok(o) && Appended(o, ["c"], [[Str("a")]], env) == ["x"]
  {
    var scan := TableScan("t", ["c"]);
    var x, no := Literal(Str("x"), "x"), Literal(Bool(false), "false");
    var p := Projection([x], Filter(no, scan));
    assert Fits(scan, env) && Fits(p.input, env) && Fits(p, env);
    assert OutputNames([x]) == ["x"];
    OneResolves(x, ["c"]);
    var rows := [[Str("a")]];
    assert rows[1..] == [];
    assert !Keeps(no, ["c"], rows[0], env);
    assert KeepRows(no, ["c"], rows, env) == [];
    assert Rows(p.input, env) == [];
    assert Repeat(Str("x"), 1) == [Str("x")];
    OneString("x");
  }
}
