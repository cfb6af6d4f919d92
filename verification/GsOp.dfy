/** The rewrite that carries the change-kind column `_gs_op` through projections, filters and
    unions. */
module GsOp {
  import opened Wrappers
  import opened Plans

  const OP := "_gs_op"
  const INSERT := Str("i")
  /** The literal column given to a union branch without an op. */
  const FILL := [Alias(Literal(INSERT, ""), OP)]

  predicate HasOp(names: seq<string>) {
    Unambiguous(OP, names)
  }

  // ---------------------------------------------------------------- the rewrite

  function AllColumns(names: seq<string>): seq<Expr> {
    seq(|names|, i requires 0 <= i < |names| => Column(names[i]))
  }

  /** A union input that has no op gets the insert marker, unless that projection cannot be built. */
  function AlignInput(p: Plan): Plan {
    if HasOp(Schema(p)) then p
    else BuildProjection(AllColumns(Schema(p)) + FILL, p).GetOr(p)
  }

  function AlignAll(ps: seq<Plan>): (r: seq<Plan>)
    ensures |r| == |ps|
    ensures forall i | 0 <= i < |ps| :: r[i] == AlignInput(ps[i])
  {
    seq(|ps|, i requires 0 <= i < |ps| => AlignInput(ps[i]))
  }

  predicate AnyHasOp(ps: seq<Plan>) {
    exists p | p in ps :: HasOp(Schema(p))
  }

  function Align(ps: seq<Plan>): (r: seq<Plan>)
    ensures |r| == |ps|
  {
    if AnyHasOp(ps) then AlignAll(ps) else ps
  }

  /** The builder's left-nested union of `first` and `rest`. */
  function ChainUnions(first: Plan, rest: seq<Plan>): Option<Plan>
    decreases |rest|
  {
    if rest == [] then Some(first)
    else
      match BuildUnion(first, rest[0])
      case None => None
      case Some(u) => ChainUnions(u, rest[1..])
  }

  function ProjectOver(exprs: seq<Expr>, child: Plan, original: Plan): Plan {
    match BuildProjection(exprs, child)
    case None => original
    case Some(built) =>
      if HasOp(Schema(child)) && !HasOp(Schema(built))
      then BuildProjection(exprs + [Column(OP)], child).GetOr(built)
      else built
  }

  function AppendGsOp(p: Plan): Plan
    decreases p, 1
  {
    match p
    case Projection(exprs, input) => ProjectOver(exprs, AppendGsOp(input), p)
    case Union(inputs) =>
      if inputs == [] then p
      else
        var aligned := Align(AppendGsOpAll(inputs));
        ChainUnions(aligned[0], aligned[1..]).GetOr(p)
    case Filter(pred, input) => BuildFilter(pred, AppendGsOp(input)).GetOr(p)
    case _ => p
  }

  function AppendGsOpAll(ps: seq<Plan>): (r: seq<Plan>)
    ensures |r| == |ps|
    decreases ps, 0
  {
    if ps == [] then [] else [AppendGsOp(ps[0])] + AppendGsOpAll(ps[1..])
  }

  lemma AppendAllStep(ps: seq<Plan>)
    requires ps != []
    ensures AppendGsOpAll(ps)[0] == AppendGsOp(ps[0]) && AppendGsOpAll(ps)[1..] == AppendGsOpAll(ps[1..])
  {
  }

  lemma {:induction false} AppendAllAt(ps: seq<Plan>, i: nat)
    requires i < |ps|
    ensures AppendGsOpAll(ps)[i] == AppendGsOp(ps[i])
  {
    AppendAllStep(ps);
    if i > 0 {
      AppendAllAt(ps[1..], i - 1);
    }
  }

  /** Gives every input its op column by overwriting the entries that have none. */
  method AlignInPlace(inputs: seq<Plan>) returns (newInputs: seq<Plan>)
    ensures newInputs == Align(inputs)
  {
    newInputs := inputs;
    if exists p | p in inputs :: HasOp(Schema(p)) {
      for i := 0 to |newInputs|
        invariant |newInputs| == |inputs|
        invariant forall j | 0 <= j < i :: newInputs[j] == AlignInput(inputs[j])
        invariant forall j | i <= j < |inputs| :: newInputs[j] == inputs[j]
      {
        if !HasOp(Schema(newInputs[i])) {
          var exprs := AllColumns(Schema(newInputs[i])) + FILL;
          var built := BuildProjection(exprs, newInputs[i]);
          if built.Some? {
            newInputs := newInputs[i := built.value];
          }
        }
      }
      assert newInputs == AlignAll(inputs);
    }
  }

  /** Folds the inputs into one builder; the first step that fails yields `original`. */
  method FoldUnions(inputs: seq<Plan>, original: Plan) returns (result: Plan)
    requires inputs != []
    ensures result == ChainUnions(inputs[0], inputs[1..]).GetOr(original)
  {
    var builder := inputs[0];
    for i := 1 to |inputs|
      invariant ChainUnions(builder, inputs[i..]) == ChainUnions(inputs[0], inputs[1..])
    {
      assert inputs[i..][1..] == inputs[i + 1..];
      match BuildUnion(builder, inputs[i]) {
        case Some(b) => builder := b;
        case None => return original;
      }
    }
    return builder;
  }

  method RewriteInputs(inputs: seq<Plan>) returns (newInputs: seq<Plan>)
    ensures newInputs == AppendGsOpAll(inputs)
    decreases inputs, 0
  {
    newInputs := [];
    for i := 0 to |inputs|
      invariant newInputs == AppendGsOpAll(inputs)[..i]
    {
      var rewritten := AppendGsOpToProjectionIfMissing(inputs[i]);
      AppendAllAt(inputs, i);
      newInputs := newInputs + [rewritten];
    }
  }

  /** The rewrite as the session runs it. */
  method AppendGsOpToProjectionIfMissing(plan: Plan) returns (result: Plan)
    ensures result == AppendGsOp(plan)
    decreases plan, 1
  {
    match plan
    case Projection(_, input) =>
      var child := AppendGsOpToProjectionIfMissing(input);
      var exprs := plan.exprs;
      match BuildProjection(exprs, child) {
        case None =>
          return plan;
        case Some(built) =>
          if HasOp(Schema(child)) && !HasOp(Schema(built)) {
            exprs := exprs + [Column(OP)];
            return BuildProjection(exprs, child).GetOr(built);
          }
          return built;
      }
    case Union(inputs) =>
      var newInputs := RewriteInputs(inputs);
      if |newInputs| == 0 {
        return plan;
      }
      newInputs := AlignInPlace(newInputs);
      result := FoldUnions(newInputs, plan);
    case Filter(pred, input) =>
      var child := AppendGsOpToProjectionIfMissing(input);
      return BuildFilter(pred, child).GetOr(plan);
    case _ =>
      return plan;
  }

  // ---------------------------------------------------------------- what the rewrite does, read off the original plan

  /** Whether the rewritten plan has `_gs_op` appended as a new last column. */
  predicate Extended(p: Plan) {
    match p
    case Projection(_, input) => (HasOp(Schema(input)) || Extended(input)) && !HasOp(Schema(p))
    case Filter(_, input) => Extended(input)
    case Union(inputs) =>
      && (exists q | q in inputs :: HasOp(Schema(q)) || Extended(q))
      && (forall q | q in inputs :: Extended(q) || (!HasOp(Schema(q)) && Distinct(Schema(q))))
    case _ => false
  }

  /** Whether rows leave the rewritten plan with an op. */
  predicate Carries(p: Plan) {
    HasOp(Schema(p)) || Extended(p)
  }

  function ValuesAt(rows: seq<Row>, k: nat): (r: seq<Value>)
    requires forall i | 0 <= i < |rows| :: k < |rows[i]|
    ensures |r| == |rows|
  {
    seq(|rows|, i requires 0 <= i < |rows| => rows[i][k])
  }

  /** The op of every row, read off the original plan: the op the query itself computes; else
      the op the row carried in the child; else, in a union branch without one, the insert marker. */
  ghost function Ops(p: Plan, env: Env): (r: seq<Value>)
    requires Runnable(p, env) && Carries(p)
    ensures |r| == |Rows(p, env)|
    decreases p, 1
  {
    if HasOp(Schema(p)) then
      CountPositive(OP, Schema(p));
      ValuesAt(Rows(p, env), IndexOf(OP, Schema(p)))
    else
      match p
      case Projection(_, input) => Ops(input, env)
      case Filter(pred, input) => KeepOps(pred, Schema(input), Rows(input, env), Ops(input, env), env)
      case Union(inputs) => UnionOps(inputs, |Schema(p)|, env)
      case _ => assert false; []
  }

  function KeepOps(pred: Expr, names: seq<string>, rows: seq<Row>, ops: seq<Value>, env: Env): (r: seq<Value>)
    requires Resolves(pred, names) && Wide(rows, |names|) && |ops| == |rows|
    ensures |r| == |KeepRows(pred, names, rows, env)|
  {
    if rows == [] then []
    else (if Keeps(pred, names, rows[0], env) then [ops[0]] else [])
         + KeepOps(pred, names, rows[1..], ops[1..], env)
  }

  ghost function UnionOps(inputs: seq<Plan>, width: nat, env: Env): (r: seq<Value>)
    requires forall q | q in inputs :: Runnable(q, env) && |Schema(q)| == width
    ensures |r| == |UnionRows(inputs, width, env)|
    decreases inputs, 0
  {
    if inputs == [] then []
    else
      var q := inputs[0];
      (if Carries(q) then Ops(q, env) else seq(|Rows(q, env)|, _ => INSERT))
      + UnionOps(inputs[1..], width, env)
  }

  /** `rows` with one more column. */
  function Attach(rows: seq<Row>, ops: seq<Value>): (r: seq<Row>)
    requires |ops| == |rows|
    ensures |r| == |rows|
  {
    seq(|rows|, i requires 0 <= i < |rows| => rows[i] + [ops[i]])
  }

  // ---------------------------------------------------------------- one more column changes no lookup

  lemma CountAppend(name: string, a: seq<string>, b: seq<string>)
    ensures Count(name, a + b) == Count(name, a) + Count(name, b)
  {
    if a == [] {
      assert a + b == b;
    } else {
      assert (a + b)[1..] == a[1..] + b;
    }
  }

  lemma DistinctCount(name: string, names: seq<string>)
    requires Distinct(names)
    ensures Count(name, names) <= 1
  {
    if names != [] {
      CountPositive(name, names[1..]);
    }
  }

  lemma CountsDistinct(names: seq<string>)
    requires forall n | n in names :: Count(n, names) == 1
    ensures Distinct(names)
  {
    forall i, j | 0 <= i < j < |names| ensures names[i] != names[j] {
      var a, b := names[..j], names[j..];
      assert names == a + b;
      CountAppend(names[j], a, b);
      CountPositive(names[j], a);
      CountPositive(names[j], b);
      assert b[0] == names[j];
      assert a[i] == names[i];
    }
  }

  lemma IndexOfAppend(name: string, a: seq<string>, b: seq<string>)
    requires name in a
    ensures IndexOf(name, a + b) == IndexOf(name, a)
  {
    if a[0] != name {
      assert (a + b)[1..] == a[1..] + b;
      IndexOfAppend(name, a[1..], b);
    }
  }

  lemma IndexOfLast(name: string, a: seq<string>)
    requires name !in a
    ensures IndexOf(name, a + [name]) == |a|
  {
    if a != [] {
      assert (a + [name])[1..] == a[1..] + [name];
      IndexOfLast(name, a[1..]);
    }
  }

  lemma ResolvesExtended(e: Expr, names: seq<string>)
    requires Resolves(e, names) && OP !in names
    ensures Resolves(e, names + [OP])
    decreases e, 1
  {
    match e
    case Column(name) =>
      CountAppend(name, names, [OP]);
      CountPositive(name, names);
    case Literal(_, _) =>
    case Call(_, args, _) => ResolveAllExtended(args, names);
    case Alias(inner, _) => ResolvesExtended(inner, names);
  }

  lemma ResolveAllExtended(es: seq<Expr>, names: seq<string>)
    requires ResolveAll(es, names) && OP !in names
    ensures ResolveAll(es, names + [OP])
    decreases es, 0
  {
    if es != [] {
      ResolvesExtended(es[0], names);
      ResolveAllExtended(es[1..], names);
    }
  }

  lemma EvalExtended(e: Expr, names: seq<string>, row: Row, op: Value, env: Env)
    requires Resolves(e, names) && OP !in names && |row| == |names|
    requires Resolves(e, names + [OP])
    ensures Eval(e, names + [OP], row + [op], env) == Eval(e, names, row, env)
    decreases e, 1
  {
    match e
    case Column(name) =>
      CountPositive(name, names);
      IndexOfAppend(name, names, [OP]);
    case Literal(_, _) =>
    case Call(_, args, _) => EvalAllExtended(args, names, row, op, env);
    case Alias(inner, _) => EvalExtended(inner, names, row, op, env);
  }

  lemma EvalAllExtended(es: seq<Expr>, names: seq<string>, row: Row, op: Value, env: Env)
    requires ResolveAll(es, names) && OP !in names && |row| == |names|
    requires ResolveAll(es, names + [OP])
    ensures EvalAll(es, names + [OP], row + [op], env) == EvalAll(es, names, row, env)
    decreases es, 0
  {
    if es != [] {
      EvalExtended(es[0], names, row, op, env);
      EvalAllExtended(es[1..], names, row, op, env);
    }
  }

  lemma ResolveAllAppend(a: seq<Expr>, b: seq<Expr>, names: seq<string>)
    ensures ResolveAll(a + b, names) <==> ResolveAll(a, names) && ResolveAll(b, names)
  {
    if a == [] {
      assert a + b == b;
    } else {
      assert (a + b)[1..] == a[1..] + b;
      ResolveAllAppend(a[1..], b, names);
    }
  }

  lemma EvalAllAppend(a: seq<Expr>, b: seq<Expr>, names: seq<string>, row: Row, env: Env)
    requires ResolveAll(a, names) && ResolveAll(b, names) && ResolveAll(a + b, names) && |row| == |names|
    ensures EvalAll(a + b, names, row, env) == EvalAll(a, names, row, env) + EvalAll(b, names, row, env)
  {
    if a == [] {
      assert a + b == b;
    } else {
      assert (a + b)[1..] == a[1..] + b;
      EvalAllAppend(a[1..], b, names, row, env);
    }
  }

  lemma KeepOneExtended(pred: Expr, names: seq<string>, rows: seq<Row>, ops: seq<Value>, env: Env)
    requires Resolves(pred, names) && OP !in names && Wide(rows, |names|) && |ops| == |rows| && rows != []
    requires Resolves(pred, names + [OP])
    requires Wide(Attach(rows, ops), |names + [OP]|) && Wide(Attach(rows[1..], ops[1..]), |names + [OP]|)
    requires KeepRows(pred, names + [OP], Attach(rows[1..], ops[1..]), env)
         == Attach(KeepRows(pred, names, rows[1..], env), KeepOps(pred, names, rows[1..], ops[1..], env))
    ensures KeepRows(pred, names + [OP], Attach(rows, ops), env)
         == Attach(KeepRows(pred, names, rows, env), KeepOps(pred, names, rows, ops, env))
  {
    var wide := Attach(rows, ops);
    var kept, keptOps := KeepRows(pred, names, rows[1..], env), KeepOps(pred, names, rows[1..], ops[1..], env);
    EvalExtended(pred, names, rows[0], ops[0], env);
    assert wide[0] == rows[0] + [ops[0]] && wide[1..] == Attach(rows[1..], ops[1..]);
    var keeps := Keeps(pred, names, rows[0], env);
    assert Keeps(pred, names + [OP], wide[0], env) == keeps;
    AttachCons(rows[0], kept, ops[0], keptOps);
    KeepRowsHead(pred, names + [OP], wide, env);
    KeepRowsHead(pred, names, rows, env);
    assert KeepOps(pred, names, rows, ops, env) == if keeps then [ops[0]] + keptOps else keptOps;
  }

  lemma AttachCons(row: Row, rows: seq<Row>, op: Value, ops: seq<Value>)
    requires |rows| == |ops|
    ensures Attach([row] + rows, [op] + ops) == [row + [op]] + Attach(rows, ops)
  {
  }

  lemma KeepRowsHead(pred: Expr, names: seq<string>, rows: seq<Row>, env: Env)
    requires Resolves(pred, names) && Wide(rows, |names|) && rows != []
    ensures Wide(rows[1..], |names|)
    ensures KeepRows(pred, names, rows, env)
         == if Keeps(pred, names, rows[0], env) then [rows[0]] + KeepRows(pred, names, rows[1..], env)
            else KeepRows(pred, names, rows[1..], env)
  {
  }

  lemma {:induction false} KeepExtended(pred: Expr, names: seq<string>, rows: seq<Row>, ops: seq<Value>, env: Env)
    requires Resolves(pred, names) && OP !in names && Wide(rows, |names|) && |ops| == |rows|
    requires Resolves(pred, names + [OP])
    requires Wide(Attach(rows, ops), |names + [OP]|)
    ensures KeepRows(pred, names + [OP], Attach(rows, ops), env)
         == Attach(KeepRows(pred, names, rows, env), KeepOps(pred, names, rows, ops, env))
  {
    if rows != [] {
      KeepExtended(pred, names, rows[1..], ops[1..], env);
      KeepOneExtended(pred, names, rows, ops, env);
    }
  }

  // ---------------------------------------------------------------- aligning a union input

  lemma ResolveColumns(names: seq<string>, all: seq<string>)
    ensures ResolveAll(AllColumns(names), all) <==> forall n | n in names :: Unambiguous(n, all)
  {
    if names != [] {
      assert AllColumns(names)[1..] == AllColumns(names[1..]);
      ResolveColumns(names[1..], all);
    }
  }

  lemma EvalColumns(k: nat, names: seq<string>, row: Row, env: Env)
    requires Distinct(names) && |row| == |names| && k <= |names|
    requires ResolveAll(AllColumns(names[k..]), names)
    ensures EvalAll(AllColumns(names[k..]), names, row, env) == row[k..]
    decreases |names| - k
  {
    if k < |names| {
      assert AllColumns(names[k..])[1..] == AllColumns(names[k + 1..]);
      EvalColumns(k + 1, names, row, env);
      CountPositive(names[k], names);
      assert IndexOf(names[k], names) == k;
      assert row[k..] == [row[k]] + row[k + 1..];
    }
  }

  lemma FillResolves(names: seq<string>)
    ensures ResolveAll(FILL, names)
  {
    assert FILL[1..] == [];
    assert Resolves(FILL[0], names) == Resolves(FILL[0].inner, names);
  }

  lemma FillEvaluates(names: seq<string>, row: Row, env: Env)
    requires |row| == |names|
    ensures ResolveAll(FILL, names)
    ensures EvalAll(FILL, names, row, env) == [INSERT]
  {
    FillResolves(names);
    assert FILL[1..] == [];
    assert Eval(FILL[0], names, row, env) == Eval(FILL[0].inner, names, row, env);
  }

  /** The filling projection can be built exactly when no two columns share a name. */
  lemma AlignInputShape(p: Plan)
    requires WellFormed(p)
    ensures WellFormed(AlignInput(p))
    ensures HasOp(Schema(p)) ==> AlignInput(p) == p
    ensures !HasOp(Schema(p)) && !Distinct(Schema(p)) ==> AlignInput(p) == p
    ensures !HasOp(Schema(p)) && Distinct(Schema(p)) ==>
      && OP !in Schema(p)
      && AlignInput(p) == Projection(AllColumns(Schema(p)) + FILL, p)
      && Schema(AlignInput(p)) == Schema(p) + [OP]
  {
    var names := Schema(p);
    var exprs := AllColumns(names) + FILL;
    ResolveAllAppend(AllColumns(names), FILL, names);
    FillResolves(names);
    ResolveColumns(names, names);
    assert OutputNames(exprs) == names + [OP];
    if !HasOp(names) && Distinct(names) {
      DistinctCount(OP, names);
      CountPositive(OP, names);
      forall n | n in names ensures Unambiguous(n, names) {
        DistinctCount(n, names);
        CountPositive(n, names);
      }
      assert ResolveAll(exprs, names) && Distinct(OutputNames(exprs));
    } else if !HasOp(names) && forall n | n in names :: Unambiguous(n, names) {
      CountsDistinct(names);
      assert false;
    }
  }

  lemma AlignInputRows(p: Plan, env: Env)
    requires Runnable(p, env) && !HasOp(Schema(p)) && Distinct(Schema(p))
    ensures Runnable(AlignInput(p), env)
    ensures Rows(AlignInput(p), env) == Attach(Rows(p, env), seq(|Rows(p, env)|, _ => INSERT))
  {
    AlignInputShape(p);
    var names, rows := Schema(p), Rows(p, env);
    ResolveAllAppend(AllColumns(names), FILL, names);
    assert names[0..] == names;
    forall i | 0 <= i < |rows|
      ensures EvalAll(AllColumns(names) + FILL, names, rows[i], env) == rows[i] + [INSERT]
    {
      FillEvaluates(names, rows[i], env);
      EvalAllAppend(AllColumns(names), FILL, names, rows[i], env);
      EvalColumns(0, names, rows[i], env);
    }
  }

  // ---------------------------------------------------------------- chained unions

  predicate SameWidth(first: Plan, rest: seq<Plan>) {
    forall q | q in rest :: |Schema(q)| == |Schema(first)|
  }

  /** Chaining succeeds exactly when all widths agree, and keeps the first input's columns. */
  lemma ChainShape(first: Plan, rest: seq<Plan>)
    requires WellFormed(first) && forall q | q in rest :: WellFormed(q)
    ensures ChainUnions(first, rest).Some? <==> SameWidth(first, rest)
    ensures ChainUnions(first, rest).Some? ==>
      && WellFormed(ChainUnions(first, rest).value)
      && Schema(ChainUnions(first, rest).value) == Schema(first)
    decreases |rest|
  {
    if rest != [] && BuildUnion(first, rest[0]).Some? {
      ChainShape(Union([first, rest[0]]), rest[1..]);
      assert rest == [rest[0]] + rest[1..];
    }
  }

  lemma PairRows(left: Plan, right: Plan, env: Env)
    requires Runnable(left, env) && Runnable(right, env) && |Schema(left)| == |Schema(right)|
    ensures Runnable(Union([left, right]), env)
    ensures Rows(Union([left, right]), env) == Rows(left, env) + Rows(right, env)
  {
    var pair, width := [left, right], |Schema(left)|;
    assert forall q | q in pair :: q == left || q == right;
    assert pair[1..] == [right] && [right][1..] == [];
    assert UnionRows([right], width, env) == Rows(right, env) + UnionRows([], width, env);
    assert UnionRows(pair, width, env) == Rows(left, env) + UnionRows([right], width, env);
  }

  lemma {:induction false} ChainRows(first: Plan, rest: seq<Plan>, env: Env)
    requires Runnable(first, env) && forall q | q in rest :: Runnable(q, env)
    requires SameWidth(first, rest)
    ensures ChainUnions(first, rest).Some? && Runnable(ChainUnions(first, rest).value, env)
    ensures Rows(ChainUnions(first, rest).value, env)
         == Rows(first, env) + UnionRows(rest, |Schema(first)|, env)
    decreases |rest|
  {
    if rest != [] {
      var u, width := Union([first, rest[0]]), |Schema(first)|;
      PairRows(first, rest[0], env);
      assert BuildUnion(first, rest[0]) == Some(u) && |Schema(u)| == width;
      assert forall q | q in rest[1..] :: q in rest;
      ChainRows(u, rest[1..], env);
      assert ChainUnions(first, rest) == ChainUnions(u, rest[1..]);
      assert UnionRows(rest, width, env) == Rows(rest[0], env) + UnionRows(rest[1..], width, env);
    }
  }
}
