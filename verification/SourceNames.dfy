/** The source name of a plan, and which plans are supported: against the path of first inputs, against
    the plan's rows, and before and after the rewrite of `GsOp`. */
module SourceNames {
  import opened Plans
  import opened GsOp

  datatype SubqueryHandling = Recurse | Return

  datatype NameResult = Name(name: string) | UnsupportedExtension(extension: string) | UnsupportedPlan(display: string)

  /** The scan a plan reads, following first inputs; it also rejects unsupported plans. */
  function SourceName(p: Plan, handling: SubqueryHandling): NameResult
    requires Grounded(p)
  {
    match p
    case TableScan(table, _) => Name(table)
    case Projection(_, input) => SourceName(input, handling)
    case Filter(_, input) => SourceName(input, handling)
    case SubqueryAlias(alias, input) =>
      if handling.Recurse? then SourceName(input, handling) else Name(alias)
    case Unnest(_, _, input) => SourceName(input, handling)
    case Union(inputs) => SourceName(inputs[0], handling)
    case Extension(name, _, inputs) =>
      if name in {"WrappingNode", "Checkpointable", "Plugin"} then SourceName(inputs[0], handling)
      else UnsupportedExtension(name)
    case Other(display, _) => UnsupportedPlan(display)
  }

  /** Every node the extraction indexes into has a first input. */
  predicate Grounded(p: Plan) {
    match p
    case TableScan(_, _) => true
    case Projection(_, input) => Grounded(input)
    case Filter(_, input) => Grounded(input)
    case SubqueryAlias(_, input) => Grounded(input)
    case Unnest(_, _, input) => Grounded(input)
    case Union(inputs) => inputs != [] && forall q | q in inputs :: Grounded(q)
    case Extension(_, _, inputs) => inputs != [] && forall q | q in inputs :: Grounded(q)
    case Other(_, _) => true
  }

  lemma {:induction false} ChainName(first: Plan, rest: seq<Plan>, handling: SubqueryHandling)
    requires Grounded(first) && (forall q | q in rest :: Grounded(q)) && ChainUnions(first, rest).Some?
    ensures Grounded(ChainUnions(first, rest).value)
    ensures SourceName(ChainUnions(first, rest).value, handling) == SourceName(first, handling)
    decreases |rest|
  {
    if rest != [] {
      assert forall q | q in [first, rest[0]] :: q == first || q == rest[0];
      ChainName(Union([first, rest[0]]), rest[1..], handling);
    }
  }

  /** Validation and the source name come out the same before and after the rewrite. */
  lemma {:induction false} SourceNameKept(p: Plan, handling: SubqueryHandling)
    requires Grounded(p)
    ensures Grounded(AppendGsOp(p))
    ensures SourceName(AppendGsOp(p), handling) == SourceName(p, handling)
    decreases p
  {
    match p
    case Projection(exprs, input) => SourceNameKept(input, handling);
    case Filter(_, input) => SourceNameKept(input, handling);
    case Union(inputs) =>
      var rs := AppendGsOpAll(inputs);
      forall i | 0 <= i < |inputs|
        ensures Grounded(rs[i]) && SourceName(rs[i], handling) == SourceName(inputs[i], handling)
      {
        AppendAllAt(inputs, i);
        SourceNameKept(inputs[i], handling);
      }
      var a := Align(rs);
      forall i | 0 <= i < |a|
        ensures Grounded(a[i]) && SourceName(a[i], handling) == SourceName(inputs[i], handling)
      {
        assert a[i] == rs[i] || a[i] == Projection(AllColumns(Schema(rs[i])) + FILL, rs[i]);
      }
      if ChainUnions(a[0], a[1..]).Some? {
        ChainName(a[0], a[1..], handling);
      }
    case _ =>
  }

  // ---------------------------------------------------------------- what the name is

  /** Nodes that are looked through. An alias is, unless its name is what is wanted. */
  predicate LooksThrough(q: Plan, handling: SubqueryHandling) {
    || q.Projection? || q.Filter? || q.Unnest? || q.Union?
    || (q.SubqueryAlias? && handling == Recurse)
    || (q.Extension? && (q.name == "WrappingNode" || q.name == "Checkpointable" || q.name == "Plugin"))
  }

  /** The k-th node of the path is the first that is not looked through. */
  predicate StopsAt(path: seq<Plan>, handling: SubqueryHandling, k: nat) {
    k < |path| && !LooksThrough(path[k], handling) && forall j | 0 <= j < k :: LooksThrough(path[j], handling)
  }

  lemma StopsLater(first: Plan, path: seq<Plan>, handling: SubqueryHandling, k: nat)
    requires LooksThrough(first, handling)
    ensures StopsAt([first] + path, handling, k + 1) <==> StopsAt(path, handling, k)
    ensures !StopsAt([first] + path, handling, 0)
  {
    var longer := [first] + path;
    assert forall j | 0 <= j < |path| :: longer[j + 1] == path[j];
    if StopsAt(longer, handling, k + 1) {
      forall j | 0 <= j < k ensures LooksThrough(path[j], handling) {
        assert LooksThrough(longer[j + 1], handling);
      }
    }
  }

  /** What a node that ends the search answers. */
  ghost predicate Answers(q: Plan, r: NameResult) {
    match q
    case TableScan(table, _) => r == Name(table)
    case SubqueryAlias(alias, _) => r == Name(alias)
    case Extension(name, _, _) => r == UnsupportedExtension(name)
    case Other(display, _) => r == UnsupportedPlan(display)
    case _ => false
  }

  /** The search ends at exactly one node of the path, which gives the answer: the name of a scan, or of
      an alias where aliases are wanted, or the error for an unknown extension or unsupported node. */
  lemma {:induction false} PathDecides(p: Plan, handling: SubqueryHandling)
    requires Grounded(p)
    ensures exists k: nat :: StopsAt(FirstInputs(p), handling, k)
    ensures forall k: nat | StopsAt(FirstInputs(p), handling, k) ::
              Answers(FirstInputs(p)[k], SourceName(p, handling))
    decreases p
  {
    var path := FirstInputs(p);
    if LooksThrough(p, handling) {
      var next := match p
        case Projection(_, input) => input
        case Filter(_, input) => input
        case SubqueryAlias(_, input) => input
        case Unnest(_, _, input) => input
        case Union(inputs) => inputs[0]
        case Extension(_, _, inputs) => inputs[0];
      PathDecides(next, handling);
      assert path == [p] + FirstInputs(next);
      var at: nat :| StopsAt(FirstInputs(next), handling, at);
      StopsLater(p, FirstInputs(next), handling, at);
      forall k: nat | StopsAt(path, handling, k) ensures Answers(path[k], SourceName(p, handling)) {
        StopsLater(p, FirstInputs(next), handling, if k > 0 then k - 1 else 0);
        assert path[k] == FirstInputs(next)[k - 1];
      }
    } else {
      assert StopsAt(path, handling, 0);
    }
  }

  ghost predicate EndsIn(p: Plan, handling: SubqueryHandling, q: Plan) {
    exists k: nat :: StopsAt(FirstInputs(p), handling, k) && FirstInputs(p)[k] == q
  }

  lemma OneEnd(p: Plan, handling: SubqueryHandling, q: Plan)
    requires Grounded(p) && EndsIn(p, handling, q)
    ensures Answers(q, SourceName(p, handling))
    ensures forall x | EndsIn(p, handling, x) :: x == q
  {
    PathDecides(p, handling);
    var k: nat :| StopsAt(FirstInputs(p), handling, k) && FirstInputs(p)[k] == q;
    forall x | EndsIn(p, handling, x) ensures x == q {
      var i: nat :| StopsAt(FirstInputs(p), handling, i) && FirstInputs(p)[i] == x;
      assert i == k;
    }
  }

  /** Exactly when each answer arises: the name of a scan that is reached through supported nodes only,
      or, where aliases are wanted, of the first alias or scan; an error for what is reached first of
      unknown extensions and unsupported nodes. */
  lemma NameExactly(p: Plan, handling: SubqueryHandling, answer: NameResult)
    requires Grounded(p)
    ensures SourceName(p, handling) == answer <==>
              match answer
              case Name(n) =>
                || (exists columns :: EndsIn(p, handling, TableScan(n, columns)))
                || (handling == Return && exists input :: EndsIn(p, handling, SubqueryAlias(n, input)))
              case UnsupportedExtension(n) =>
                exists columns, inputs :: EndsIn(p, handling, Extension(n, columns, inputs))
              case UnsupportedPlan(display) =>
                exists columns :: EndsIn(p, handling, Other(display, columns))
  {
    PathDecides(p, handling);
    var k: nat :| StopsAt(FirstInputs(p), handling, k);
    var q := FirstInputs(p)[k];
    OneEnd(p, handling, q);
    assert EndsIn(p, handling, q);
    assert !LooksThrough(q, handling);
    match q
    case TableScan(table, columns) => assert EndsIn(p, handling, TableScan(table, columns));
    case SubqueryAlias(alias, input) => assert EndsIn(p, handling, SubqueryAlias(alias, input));
    case Extension(name, columns, inputs) => assert EndsIn(p, handling, Extension(name, columns, inputs));
    case Other(display, columns) => assert EndsIn(p, handling, Other(display, columns));
  }

  // ---------------------------------------------------------------- what the name is good for

  /** The path of first inputs is the whole plan. */
  predicate Linear(p: Plan) {
    match p
    case TableScan(_, _) => true
    case Projection(_, input) => Linear(input)
    case Filter(_, input) => Linear(input)
    case SubqueryAlias(_, input) => Linear(input)
    case Unnest(_, _, input) => Linear(input)
    case Union(inputs) => |inputs| == 1 && Linear(inputs[0])
    case Extension(_, _, inputs) => |inputs| == 1 && Linear(inputs[0])
    case Other(_, _) => true
  }

  /** The plan scans no other table and has no unsupported node, in any branch. */
  predicate ScansOnly(p: Plan, table: string) {
    match p
    case TableScan(t, _) => t == table
    case Projection(_, input) => ScansOnly(input, table)
    case Filter(_, input) => ScansOnly(input, table)
    case SubqueryAlias(_, input) => ScansOnly(input, table)
    case Unnest(_, _, input) => ScansOnly(input, table)
    case Union(inputs) => forall q | q in inputs :: ScansOnly(q, table)
    case Extension(_, _, inputs) => forall q | q in inputs :: ScansOnly(q, table)
    case Other(_, _) => false
  }

  lemma {:induction false} LinearScansOnly(p: Plan, table: string)
    requires Grounded(p) && Linear(p) && SourceName(p, Recurse) == Name(table)
    ensures ScansOnly(p, table)
    decreases p
  {
    match p
    case TableScan(_, _) =>
    case Projection(_, input) => LinearScansOnly(input, table);
    case Filter(_, input) => LinearScansOnly(input, table);
    case SubqueryAlias(_, input) => LinearScansOnly(input, table);
    case Unnest(_, _, input) => LinearScansOnly(input, table);
    case Union(inputs) => LinearScansOnly(inputs[0], table);
    case Extension(_, _, inputs) => LinearScansOnly(inputs[0], table);
  }

  /** The environments differ in other tables and in unsupported nodes at most. */
  ghost predicate AgreeOn(env: Env, env': Env, table: string) {
    && env'.table(table) == env.table(table) && env'.call == env.call
    && env'.unnest == env.unnest && env'.extension == env.extension
  }

  lemma {:induction false} SameEval(e: Expr, names: seq<string>, row: Row, env: Env, env': Env)
    requires Resolves(e, names) && |row| == |names| && env'.call == env.call
    ensures Eval(e, names, row, env') == Eval(e, names, row, env)
    decreases e, 1
  {
    match e
    case Column(_) =>
    case Literal(_, _) =>
    case Call(_, args, _) => SameEvalAll(args, names, row, env, env');
    case Alias(inner, _) => SameEval(inner, names, row, env, env');
  }

  lemma {:induction false} SameEvalAll(es: seq<Expr>, names: seq<string>, row: Row, env: Env, env': Env)
    requires ResolveAll(es, names) && |row| == |names| && env'.call == env.call
    ensures EvalAll(es, names, row, env') == EvalAll(es, names, row, env)
    decreases es, 0
  {
    if es != [] {
      SameEval(es[0], names, row, env, env');
      SameEvalAll(es[1..], names, row, env, env');
    }
  }

  lemma {:induction false} SameProjection(exprs: seq<Expr>, names: seq<string>, rows: seq<Row>, env: Env, env': Env)
    requires ResolveAll(exprs, names) && Wide(rows, |names|) && env'.call == env.call
    ensures ProjectRows(exprs, names, rows, env') == ProjectRows(exprs, names, rows, env)
    decreases |rows|
  {
    forall i | 0 <= i < |rows| ensures EvalAll(exprs, names, rows[i], env') == EvalAll(exprs, names, rows[i], env) {
      SameEvalAll(exprs, names, rows[i], env, env');
    }
  }

  lemma {:induction false} SameKept(pred: Expr, names: seq<string>, rows: seq<Row>, env: Env, env': Env)
    requires Resolves(pred, names) && Wide(rows, |names|) && env'.call == env.call
    ensures KeepRows(pred, names, rows, env') == KeepRows(pred, names, rows, env)
    decreases |rows|
  {
    if rows != [] {
      SameEval(pred, names, rows[0], env, env');
      SameKept(pred, names, rows[1..], env, env');
    }
  }

  lemma {:induction false} SameUnnested(spec: string, rows: seq<Row>, env: Env, env': Env)
    requires env'.unnest == env.unnest
    ensures UnnestRows(spec, rows, env') == UnnestRows(spec, rows, env)
    decreases |rows|
  {
    if rows != [] {
      SameUnnested(spec, rows[1..], env, env');
    }
  }

  /** A plan that scans one table only yields the same rows wherever that table has the same ones. */
  lemma {:induction false} ScansDecideRows(p: Plan, table: string, env: Env, env': Env)
    requires Runnable(p, env) && Runnable(p, env') && ScansOnly(p, table) && AgreeOn(env, env', table)
    ensures Rows(p, env') == Rows(p, env)
    decreases p, 1
  {
    match p
    case TableScan(_, _) =>
    case Projection(exprs, input) =>
      ScansDecideRows(input, table, env, env');
      SameProjection(exprs, Schema(input), Rows(input, env), env, env');
    case Filter(pred, input) =>
      ScansDecideRows(input, table, env, env');
      SameKept(pred, Schema(input), Rows(input, env), env, env');
    case SubqueryAlias(_, input) => ScansDecideRows(input, table, env, env');
    case Unnest(spec, _, input) =>
      ScansDecideRows(input, table, env, env');
      SameUnnested(spec, Rows(input, env), env, env');
    case Union(inputs) => ScansDecideUnion(inputs, |Schema(p)|, table, env, env');
    case Extension(_, _, inputs) => ScansDecideEach(inputs, table, env, env');
  }

  lemma {:induction false} ScansDecideUnion(ps: seq<Plan>, width: nat, table: string, env: Env, env': Env)
    requires forall q | q in ps :: Runnable(q, env) && Runnable(q, env') && |Schema(q)| == width && ScansOnly(q, table)
    requires AgreeOn(env, env', table)
    ensures UnionRows(ps, width, env') == UnionRows(ps, width, env)
    decreases ps, 0
  {
    if ps != [] {
      ScansDecideRows(ps[0], table, env, env');
      ScansDecideUnion(ps[1..], width, table, env, env');
    }
  }

  lemma {:induction false} ScansDecideEach(ps: seq<Plan>, table: string, env: Env, env': Env)
    requires forall q | q in ps :: Runnable(q, env) && Runnable(q, env') && ScansOnly(q, table)
    requires AgreeOn(env, env', table)
    ensures RowsOfEach(ps, env') == RowsOfEach(ps, env)
    decreases ps, 0
  {
    if ps != [] {
      ScansDecideRows(ps[0], table, env, env');
      ScansDecideEach(ps[1..], table, env, env');
    }
  }

  /** The name is that of the table the plan depends on: where the path is the whole plan, two
      environments that agree on the named table give the same rows. */
  lemma NamedTableDecidesRows(p: Plan, table: string, env: Env, env': Env)
    requires Runnable(p, env) && Runnable(p, env') && Grounded(p) && Linear(p)
    requires SourceName(p, Recurse) == Name(table) && AgreeOn(env, env', table)
    ensures Rows(p, env') == Rows(p, env)
  {
    LinearScansOnly(p, table);
    ScansDecideRows(p, table, env, env');
  }

  /** A union is named after its first branch alone: this one is named `a`, and `b` decides its rows. */
  lemma UnionNamesFirstBranch(env: Env, env': Env)
    requires AgreeOn(env, env', "a") && env.table("a") == [] && env.table("b") == [] && env'.table("b") == [[Null]]
    ensures var u := Union([TableScan("a", ["c"]), TableScan("b", ["c"])]);
      && Grounded(u) && SourceName(u, Recurse) == Name("a") && !Linear(u)
      && Runnable(u, env) && Runnable(u, env') && Rows(u, env') != Rows(u, env)
  {
    var a, b := TableScan("a", ["c"]), TableScan("b", ["c"]);
    var ps := [a, b];
    assert ps[1..] == [b] && [b][1..] == [];
    assert Fits(a, env) && Fits(b, env) && Fits(a, env') && Fits(b, env');
    assert UnionRows([b], 1, env') == [[Null]] + UnionRows([], 1, env') == [[Null]];
    assert UnionRows(ps, 1, env') == [] + [[Null]];
    assert UnionRows([b], 1, env) == [] + [] && UnionRows(ps, 1, env) == [] + [];
  }
}
