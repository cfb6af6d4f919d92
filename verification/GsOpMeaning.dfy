/** What the `_gs_op` rewrite preserves: schemas, rows and the op each row carries; and that a second
    run changes nothing. */
module GsOpMeaning {
  import opened Wrappers
  import opened Plans
  import opened GsOp

  // ---------------------------------------------------------------- schemas and fallbacks

  /** Whether a union input is one column wider after rewriting and aligning. */
  predicate Grows(q: Plan, someCarries: bool) {
    Extended(q) || (someCarries && !Carries(q) && Distinct(Schema(q)))
  }

  predicate SomeCarries(ps: seq<Plan>) {
    exists q | q in ps :: Carries(q)
  }

  /** Some but not all inputs grow, so that the widened inputs cannot be unioned. */
  predicate Mixed(ps: seq<Plan>) {
    && (exists q | q in ps :: Grows(q, SomeCarries(ps)))
    && (exists q | q in ps :: !Grows(q, SomeCarries(ps)))
  }

  function Grown(names: seq<string>, grows: bool): seq<string> {
    if grows then names + [OP] else names
  }

  lemma HasOpGrown(names: seq<string>)
    requires OP !in names
    ensures HasOp(names + [OP])
  {
    CountAppend(OP, names, [OP]);
    CountPositive(OP, names);
  }

  /** The rewritten plan is one the builder accepts, and its columns are the old ones, with
      `_gs_op` added last exactly when `Extended` says so. */
  lemma {:induction false} RewriteShape(p: Plan)
    requires WellFormed(p)
    ensures WellFormed(AppendGsOp(p))
    ensures Schema(AppendGsOp(p)) == Grown(Schema(p), Extended(p))
    ensures Extended(p) ==> OP !in Schema(p)
    ensures HasOp(Schema(AppendGsOp(p))) <==> Carries(p)
    decreases p, 1
  {
    match p
    case Projection(exprs, input) =>
      RewriteShape(input);
      ProjectionShape(exprs, input);
    case Filter(pred, input) =>
      RewriteShape(input);
      if Extended(input) {
        ResolvesExtended(pred, Schema(input));
        HasOpGrown(Schema(input));
      }
    case Union(inputs) =>
      RewriteShapes(inputs);
      UnionShape(inputs);
    case _ =>
  }

  lemma RewriteShapes(ps: seq<Plan>)
    requires forall q | q in ps :: WellFormed(q)
    ensures forall i | 0 <= i < |ps| :: Rewritten(ps[i], AppendGsOpAll(ps)[i])
    decreases ps, 0
  {
    forall i | 0 <= i < |ps| ensures Rewritten(ps[i], AppendGsOpAll(ps)[i]) {
      RewriteShape(ps[i]);
      AppendAllAt(ps, i);
    }
  }

  /** What `RewriteShape` says, as one fact per plan. */
  ghost predicate Rewritten(p: Plan, r: Plan) {
    && r == AppendGsOp(p)
    && WellFormed(r)
    && Schema(r) == Grown(Schema(p), Extended(p))
    && (Extended(p) ==> OP !in Schema(p))
    && (HasOp(Schema(r)) <==> Carries(p))
  }

  /** Rebuilding a planned projection over its rewritten input always succeeds, and so does
      appending the op. */
  lemma ProjectionShape(exprs: seq<Expr>, input: Plan)
    requires WellFormed(Projection(exprs, input)) && Rewritten(input, AppendGsOp(input))
    ensures var p, child := Projection(exprs, input), AppendGsOp(input);
      && AppendGsOp(p) == Projection(exprs + (if Extended(p) then [Column(OP)] else []), child)
      && Rewritten(p, AppendGsOp(p))
  {
    var p, child := Projection(exprs, input), AppendGsOp(input);
    if Extended(input) {
      ResolveAllExtended(exprs, Schema(input));
    }
    assert BuildProjection(exprs, child) == Some(Projection(exprs, child));
    if Extended(p) {
      DistinctCount(OP, Schema(p));
      CountPositive(OP, Schema(p));
      assert [Column(OP)][1..] == [];
      assert Resolves([Column(OP)][0], Schema(child));
      ResolveAllAppend(exprs, [Column(OP)], Schema(child));
      assert OutputNames(exprs + [Column(OP)]) == Schema(p) + [OP];
      HasOpGrown(Schema(p));
    } else {
      assert exprs + [] == exprs;
    }
  }

  ghost predicate AllRewritten(ps: seq<Plan>) {
    forall j | 0 <= j < |ps| :: WellFormed(ps[j]) && Rewritten(ps[j], AppendGsOpAll(ps)[j])
  }

  lemma AnyHasOpMeans(ps: seq<Plan>)
    requires AllRewritten(ps)
    ensures AnyHasOp(AppendGsOpAll(ps)) <==> SomeCarries(ps)
  {
    var rs := AppendGsOpAll(ps);
    if q :| q in rs && HasOp(Schema(q)) {
      var j :| 0 <= j < |rs| && rs[j] == q;
      assert ps[j] in ps && Carries(ps[j]);
    }
    if q :| q in ps && Carries(q) {
      var j :| 0 <= j < |ps| && ps[j] == q;
      assert rs[j] in rs && HasOp(Schema(rs[j]));
    }
  }

  ghost predicate AlignedAs(q: Plan, a: Plan, grows: bool) {
    && WellFormed(a)
    && Schema(a) == Grown(Schema(q), grows)
    && (grows ==> OP !in Schema(q))
  }

  lemma AlignedShape(ps: seq<Plan>, i: nat)
    requires AllRewritten(ps) && i < |ps|
    ensures AlignedAs(ps[i], Align(AppendGsOpAll(ps))[i], Grows(ps[i], SomeCarries(ps)))
  {
    AnyHasOpMeans(ps);
    var r := AppendGsOpAll(ps)[i];
    assert Rewritten(ps[i], r);
    AlignInputShape(r);
    assert Align(AppendGsOpAll(ps))[i] == if SomeCarries(ps) then AlignInput(r) else r;
    if Carries(ps[i]) {
      assert ps[i] in ps;
    }
  }

  /** When the aligned inputs have one width. */
  lemma AlignedWidths(ps: seq<Plan>, a: seq<Plan>, w: nat, some: bool)
    requires ps != [] && |a| == |ps|
    requires forall i | 0 <= i < |ps| :: |Schema(a[i])| == if Grows(ps[i], some) then w + 1 else w
    ensures SameWidth(a[0], a[1..])
       <==> !((exists q | q in ps :: Grows(q, some)) && exists q | q in ps :: !Grows(q, some))
  {
    assert ps[0] in ps;
    if q, r :| q in ps && r in ps && Grows(q, some) && !Grows(r, some) {
      var i :| 0 <= i < |ps| && ps[i] == q;
      var j :| 0 <= j < |ps| && ps[j] == r;
      var k := if |Schema(a[i])| != |Schema(a[0])| then i else j;
      assert a[k] == a[1..][k - 1];
    } else {
      forall q | q in a[1..] ensures |Schema(q)| == |Schema(a[0])| {
        var i :| 0 <= i < |a| && a[i] == q;
        assert ps[i] in ps;
      }
    }
  }

  lemma ExtendedUnion(ps: seq<Plan>)
    ensures Extended(Union(ps)) <==> SomeCarries(ps) && forall q | q in ps :: Grows(q, true)
  {
    assert SomeCarries(ps) <==> exists q | q in ps :: HasOp(Schema(q)) || Extended(q);
    assert forall q | q in ps ::
      Grows(q, true) <==> Extended(q) || (!HasOp(Schema(q)) && Distinct(Schema(q)));
  }

  lemma AlignedAll(ps: seq<Plan>)
    requires ps != [] && AllRewritten(ps)
    requires forall i | 0 <= i < |ps| :: |Schema(ps[i])| == |Schema(ps[0])|
    ensures forall q | q in Align(AppendGsOpAll(ps)) :: WellFormed(q)
    ensures SameWidth(Align(AppendGsOpAll(ps))[0], Align(AppendGsOpAll(ps))[1..]) <==> !Mixed(ps)
  {
    var a := Align(AppendGsOpAll(ps));
    forall i | 0 <= i < |ps|
      ensures WellFormed(a[i])
      ensures |Schema(a[i])| == if Grows(ps[i], SomeCarries(ps)) then |Schema(ps[0])| + 1 else |Schema(ps[0])|
    {
      AlignedShape(ps, i);
    }
    AlignedWidths(ps, a, |Schema(ps[0])|, SomeCarries(ps));
  }

  lemma InputWidths(ps: seq<Plan>)
    requires WellFormed(Union(ps))
    ensures forall i | 0 <= i < |ps| :: |Schema(ps[i])| == |Schema(ps[0])|
  {
    forall i | 0 <= i < |ps| ensures |Schema(ps[i])| == |Schema(ps[0])| {
      assert ps[i] in ps;
    }
  }

  /** A union falls back to its original inputs exactly when they are mixed. */
  lemma UnionFallsBack(ps: seq<Plan>)
    requires WellFormed(Union(ps)) && AllRewritten(ps)
    ensures var a := Align(AppendGsOpAll(ps));
      && (ChainUnions(a[0], a[1..]).None? <==> Mixed(ps))
      && AppendGsOp(Union(ps)) == ChainUnions(a[0], a[1..]).GetOr(Union(ps))
      && WellFormed(AppendGsOp(Union(ps)))
      && Schema(AppendGsOp(Union(ps))) == if Mixed(ps) then Schema(ps[0]) else Schema(a[0])
  {
    var a := Align(AppendGsOpAll(ps));
    InputWidths(ps);
    AlignedAll(ps);
    assert forall q | q in a[1..] :: q in a;
    ChainShape(a[0], a[1..]);
  }

  lemma UnionShape(ps: seq<Plan>)
    requires WellFormed(Union(ps)) && AllRewritten(ps)
    ensures Rewritten(Union(ps), AppendGsOp(Union(ps)))
  {
    UnionFallsBack(ps);
    AlignedShape(ps, 0);
    ExtendedUnion(ps);
    assert ps[0] in ps;
    if Mixed(ps) {
      assert !Extended(Union(ps));
    } else {
      assert Extended(Union(ps)) <==> Grows(ps[0], SomeCarries(ps));
    }
    if Extended(Union(ps)) {
      HasOpGrown(Schema(ps[0]));
    }
  }

  // ---------------------------------------------------------------- rows

  /** The rewritten plan runs wherever the original does. Its rows are the original rows, in the
      same order, each followed by the op it carried when the plan was extended. */
  lemma {:induction false} RewriteRows(p: Plan, env: Env)
    requires Runnable(p, env)
    ensures RowsKept(p, AppendGsOp(p), env)
    decreases p, 1
  {
    RewriteShape(p);
    match p
    case Projection(exprs, input) =>
      RewriteRows(input, env);
      RewriteShape(input);
      ProjectionShape(exprs, input);
      ProjectionRows(exprs, input, env);
    case Filter(pred, input) =>
      RewriteRows(input, env);
      RewriteShape(input);
      FilterRows(pred, input, env);
    case Union(inputs) =>
      RewriteShapes(inputs);
      RewriteRowsAll(inputs, env);
      UnionRowsKept(inputs, env);
    case _ =>
  }

  ghost predicate RowsKept(p: Plan, r: Plan, env: Env)
    requires Runnable(p, env)
  {
    && Runnable(r, env)
    && Rows(r, env) == if Extended(p) then Attach(Rows(p, env), Ops(p, env)) else Rows(p, env)
  }

  lemma RewriteRowsAll(ps: seq<Plan>, env: Env)
    requires forall q | q in ps :: Runnable(q, env)
    ensures forall i | 0 <= i < |ps| :: RowsKept(ps[i], AppendGsOpAll(ps)[i], env)
    decreases ps, 0
  {
    forall i | 0 <= i < |ps| ensures RowsKept(ps[i], AppendGsOpAll(ps)[i], env) {
      RewriteRows(ps[i], env);
      AppendAllAt(ps, i);
    }
  }

  /** `_gs_op` read from a rewritten row is the op that the original row carried. */
  lemma OpOfRewrittenRow(p: Plan, env: Env, i: nat)
    requires Runnable(p, env) && Carries(p) && i < |Rows(p, env)|
    requires Rewritten(p, AppendGsOp(p)) && RowsKept(p, AppendGsOp(p), env)
    ensures OP in Schema(AppendGsOp(p)) && i < |Rows(AppendGsOp(p), env)|
    ensures Rows(AppendGsOp(p), env)[i][IndexOf(OP, Schema(AppendGsOp(p)))] == Ops(p, env)[i]
  {
    CountPositive(OP, Schema(AppendGsOp(p)));
    if Extended(p) {
      CountPositive(OP, Schema(p));
      IndexOfLast(OP, Schema(p));
    }
  }

  lemma ProjectionRows(exprs: seq<Expr>, input: Plan, env: Env)
    requires var p, child := Projection(exprs, input), AppendGsOp(input);
      && Runnable(p, env)
      && Rewritten(input, child) && RowsKept(input, child, env)
      && Rewritten(p, AppendGsOp(p))
      && AppendGsOp(p) == Projection(exprs + (if Extended(p) then [Column(OP)] else []), child)
    ensures RowsKept(Projection(exprs, input), AppendGsOp(Projection(exprs, input)), env)
  {
    var p, child := Projection(exprs, input), AppendGsOp(input);
    var added := if Extended(p) then [Column(OP)] else [];
    var rows, childRows := Rows(input, env), Rows(child, env);
    var names, childNames := Schema(input), Schema(child);
    if Extended(input) {
      ResolveAllExtended(exprs, names);
    }
    ResolveAllAppend(exprs, added, childNames);
    forall i | 0 <= i < |rows|
      ensures EvalAll(exprs + added, childNames, childRows[i], env)
           == if Extended(p) then EvalAll(exprs, names, rows[i], env) + [Ops(input, env)[i]]
              else EvalAll(exprs, names, rows[i], env)
    {
      EvalAllAppend(exprs, added, childNames, childRows[i], env);
      if Extended(input) {
        EvalAllExtended(exprs, names, rows[i], Ops(input, env)[i], env);
      }
      if Extended(p) {
        OpOfRewrittenRow(input, env, i);
        assert added[1..] == [];
        assert EvalAll(added, childNames, childRows[i], env) == [Eval(added[0], childNames, childRows[i], env)];
      }
    }
    assert Rows(AppendGsOp(p), env) == ProjectRows(exprs + added, childNames, childRows, env);
    assert Rows(p, env) == ProjectRows(exprs, names, rows, env);
    if Extended(p) {
      assert Ops(p, env) == Ops(input, env);
      assert Rows(AppendGsOp(p), env) == Attach(Rows(p, env), Ops(p, env));
    } else {
      assert Rows(AppendGsOp(p), env) == Rows(p, env);
    }
  }

  lemma FilterRows(pred: Expr, input: Plan, env: Env)
    requires var p, child := Filter(pred, input), AppendGsOp(input);
      Runnable(p, env) && Rewritten(input, child) && RowsKept(input, child, env)
    ensures RowsKept(Filter(pred, input), AppendGsOp(Filter(pred, input)), env)
  {
    var names, child := Schema(input), AppendGsOp(input);
    if Extended(input) {
      ResolvesExtended(pred, names);
      CountPositive(OP, names);
      assert AppendGsOp(Filter(pred, input)) == Filter(pred, child);
      KeepExtended(pred, names, Rows(input, env), Ops(input, env), env);
    } else {
      assert child == input || Schema(child) == names;
    }
  }

  /** One aligned union input: its rows, with the op of each row when the input grows. */
  lemma AlignedRows(ps: seq<Plan>, i: nat, env: Env)
    requires AllRewritten(ps) && i < |ps|
    requires Runnable(ps[i], env) && RowsKept(ps[i], AppendGsOpAll(ps)[i], env)
    ensures Runnable(Align(AppendGsOpAll(ps))[i], env)
    ensures Rows(Align(AppendGsOpAll(ps))[i], env) == WithOps(ps[i], Grows(ps[i], SomeCarries(ps)), env)
  {
    AnyHasOpMeans(ps);
    var r := AppendGsOpAll(ps)[i];
    assert Rewritten(ps[i], r);
    AlignInputShape(r);
    if Carries(ps[i]) {
      assert ps[i] in ps;
    } else if SomeCarries(ps) && Distinct(Schema(ps[i])) {
      AlignInputRows(r, env);
    }
  }

  ghost function OpsOrInsert(q: Plan, env: Env): (r: seq<Value>)
    requires Runnable(q, env)
    ensures |r| == |Rows(q, env)|
  {
    if Carries(q) then Ops(q, env) else seq(|Rows(q, env)|, _ => INSERT)
  }

  ghost function WithOps(q: Plan, grows: bool, env: Env): seq<Row>
    requires Runnable(q, env)
  {
    if grows then Attach(Rows(q, env), OpsOrInsert(q, env)) else Rows(q, env)
  }

  lemma AttachAppend(rows: seq<Row>, ops: seq<Value>, rows': seq<Row>, ops': seq<Value>)
    requires |rows| == |ops| && |rows'| == |ops'|
    ensures Attach(rows + rows', ops + ops') == Attach(rows, ops) + Attach(rows', ops')
  {
  }

  lemma {:induction false} AlignedUnionRows(ps: seq<Plan>, a: seq<Plan>, grows: bool, width: nat, env: Env)
    requires |a| == |ps|
    requires forall i | 0 <= i < |ps| ::
      && Runnable(ps[i], env) && |Schema(ps[i])| == width
      && Runnable(a[i], env) && |Schema(a[i])| == (if grows then width + 1 else width)
      && Rows(a[i], env) == WithOps(ps[i], grows, env)
    ensures UnionRows(a, if grows then width + 1 else width, env)
         == if grows then Attach(UnionRows(ps, width, env), UnionOps(ps, width, env)) else UnionRows(ps, width, env)
    decreases |ps|
  {
    if ps != [] {
      AlignedUnionRows(ps[1..], a[1..], grows, width, env);
      if grows {
        AttachAppend(Rows(ps[0], env), OpsOrInsert(ps[0], env),
                     UnionRows(ps[1..], width, env), UnionOps(ps[1..], width, env));
      }
    }
  }

  lemma UnionRowsKept(ps: seq<Plan>, env: Env)
    requires Runnable(Union(ps), env) && AllRewritten(ps)
    requires forall i | 0 <= i < |ps| :: Runnable(ps[i], env) && RowsKept(ps[i], AppendGsOpAll(ps)[i], env)
    ensures RowsKept(Union(ps), AppendGsOp(Union(ps)), env)
  {
    UnionFallsBack(ps);
    ExtendedUnion(ps);
    if Mixed(ps) {
      assert !Extended(Union(ps));
    } else {
      UnmixedUnionRows(ps, env);
    }
  }

  lemma UnmixedInputRows(ps: seq<Plan>, i: nat, env: Env)
    requires Runnable(Union(ps), env) && AllRewritten(ps) && !Mixed(ps) && i < |ps|
    requires Runnable(ps[i], env) && RowsKept(ps[i], AppendGsOpAll(ps)[i], env)
    ensures var a, grows, width := Align(AppendGsOpAll(ps)), Extended(Union(ps)), |Schema(ps[0])|;
            && Runnable(a[i], env) && |Schema(ps[i])| == width && |Schema(a[i])| == (if grows then width + 1 else width)
            && Rows(a[i], env) == WithOps(ps[i], grows, env)
  {
    ExtendedUnion(ps);
    InputWidths(ps);
    assert ps[0] in ps && ps[i] in ps;
    AlignedShape(ps, i);
    AlignedRows(ps, i, env);
  }

  /** The aligned inputs yield the rows of the inputs, with ops if they have grown. */
  ghost predicate AlignedInputs(ps: seq<Plan>, a: seq<Plan>, grows: bool, width: nat, env: Env) {
    && |a| == |ps|
    && forall i | 0 <= i < |ps| ::
         && Runnable(ps[i], env) && |Schema(ps[i])| == width
         && Runnable(a[i], env) && |Schema(a[i])| == (if grows then width + 1 else width)
         && Rows(a[i], env) == WithOps(ps[i], grows, env)
  }

  lemma UnmixedInputsRows(ps: seq<Plan>, env: Env)
    requires Runnable(Union(ps), env) && AllRewritten(ps) && !Mixed(ps)
    requires forall i | 0 <= i < |ps| :: Runnable(ps[i], env) && RowsKept(ps[i], AppendGsOpAll(ps)[i], env)
    ensures AlignedInputs(ps, Align(AppendGsOpAll(ps)), Extended(Union(ps)), |Schema(ps[0])|, env)
  {
    var a, grows, width := Align(AppendGsOpAll(ps)), Extended(Union(ps)), |Schema(ps[0])|;
    forall i | 0 <= i < |ps|
      ensures Runnable(a[i], env) && |Schema(ps[i])| == width && |Schema(a[i])| == (if grows then width + 1 else width)
      ensures Rows(a[i], env) == WithOps(ps[i], grows, env)
    {
      UnmixedInputRows(ps, i, env);
    }
  }

  /** The rows of the union, with ops if it has grown. */
  ghost function UnionWithOps(ps: seq<Plan>, grows: bool, width: nat, env: Env): seq<Row>
    requires forall i | 0 <= i < |ps| :: Runnable(ps[i], env) && |Schema(ps[i])| == width
  {
    if grows then Attach(UnionRows(ps, width, env), UnionOps(ps, width, env)) else UnionRows(ps, width, env)
  }

  lemma ChainedUnionRows(ps: seq<Plan>, a: seq<Plan>, grows: bool, width: nat, env: Env)
    requires ps != [] && AlignedInputs(ps, a, grows, width, env)
    ensures ChainUnions(a[0], a[1..]).Some? && Runnable(ChainUnions(a[0], a[1..]).value, env)
    ensures Rows(ChainUnions(a[0], a[1..]).value, env) == UnionWithOps(ps, grows, width, env)
  {
    AlignedUnionRows(ps, a, grows, width, env);
    ChainedRows(a, if grows then width + 1 else width, env);
  }

  lemma UnionYields(ps: seq<Plan>, env: Env)
    requires Runnable(Union(ps), env)
    ensures Schema(Union(ps)) == Schema(ps[0])
    ensures forall q | q in ps :: Runnable(q, env) && |Schema(q)| == |Schema(ps[0])|
    ensures Rows(Union(ps), env) == UnionRows(ps, |Schema(ps[0])|, env)
  {
  }

  /** A plan that the rewrite extends does not select the op itself. */
  lemma {:induction false} ExtendedLacksOp(p: Plan)
    requires Extended(p)
    ensures !HasOp(Schema(p))
    decreases p
  {
    match p
    case Projection(_, _) =>
    case Filter(_, input) => ExtendedLacksOp(input);
    case Union(inputs) =>
      assert inputs != [] && inputs[0] in inputs;
      if Extended(inputs[0]) {
        ExtendedLacksOp(inputs[0]);
      }
  }

  lemma UnionCarries(ps: seq<Plan>, env: Env)
    requires Runnable(Union(ps), env) && Extended(Union(ps))
    requires forall q | q in ps :: Runnable(q, env) && |Schema(q)| == |Schema(ps[0])|
    ensures Carries(Union(ps)) && Ops(Union(ps), env) == UnionOps(ps, |Schema(ps[0])|, env)
  {
    ExtendedLacksOp(Union(ps));
  }

  lemma KeptAsUnion(ps: seq<Plan>, r: Plan, env: Env)
    requires Runnable(Union(ps), env) && Runnable(r, env)
    requires forall i | 0 <= i < |ps| :: Runnable(ps[i], env) && |Schema(ps[i])| == |Schema(ps[0])|
    requires Rows(r, env) == UnionWithOps(ps, Extended(Union(ps)), |Schema(ps[0])|, env)
    ensures RowsKept(Union(ps), r, env)
  {
    UnionYields(ps, env);
    if Extended(Union(ps)) {
      UnionCarries(ps, env);
    }
  }

  lemma ChainedUnionKept(ps: seq<Plan>, a: seq<Plan>, r: Plan, env: Env)
    requires Runnable(Union(ps), env) && AlignedInputs(ps, a, Extended(Union(ps)), |Schema(ps[0])|, env)
    requires ChainUnions(a[0], a[1..]).Some? && r == ChainUnions(a[0], a[1..]).value
    ensures RowsKept(Union(ps), r, env)
  {
    ChainedUnionRows(ps, a, Extended(Union(ps)), |Schema(ps[0])|, env);
    KeptAsUnion(ps, r, env);
  }

  lemma UnmixedUnionRows(ps: seq<Plan>, env: Env)
    requires Runnable(Union(ps), env) && AllRewritten(ps) && !Mixed(ps)
    requires forall i | 0 <= i < |ps| :: Runnable(ps[i], env) && RowsKept(ps[i], AppendGsOpAll(ps)[i], env)
    ensures RowsKept(Union(ps), AppendGsOp(Union(ps)), env)
  {
    UnmixedInputsRows(ps, env);
    UnionIsChain(ps);
    ChainedUnionKept(ps, Align(AppendGsOpAll(ps)), AppendGsOp(Union(ps)), env);
  }

  lemma UnionIsChain(ps: seq<Plan>)
    requires WellFormed(Union(ps)) && AllRewritten(ps) && !Mixed(ps)
    ensures var a := Align(AppendGsOpAll(ps));
      ChainUnions(a[0], a[1..]).Some? && AppendGsOp(Union(ps)) == ChainUnions(a[0], a[1..]).value
  {
    UnionFallsBack(ps);
  }

  lemma ChainedRows(a: seq<Plan>, width: nat, env: Env)
    requires a != [] && forall i | 0 <= i < |a| :: Runnable(a[i], env) && |Schema(a[i])| == width
    ensures ChainUnions(a[0], a[1..]).Some? && Runnable(ChainUnions(a[0], a[1..]).value, env)
    ensures Rows(ChainUnions(a[0], a[1..]).value, env) == UnionRows(a, width, env)
  {
    assert forall q | q in a[1..] :: Runnable(q, env) && |Schema(q)| == width;
    ChainRows(a[0], a[1..], env);
  }

  /** The main result. The columns are the old ones, or the old ones and `_gs_op` last; every
      row is the original row in the same position; its op is the one it carried, and an op the
      query computes itself is left alone. */
  lemma MeaningPreserved(p: Plan, env: Env)
    requires Runnable(p, env)
    ensures Runnable(AppendGsOp(p), env)
    ensures Schema(AppendGsOp(p)) == Schema(p)
         || ("_gs_op" !in Schema(p) && Schema(AppendGsOp(p)) == Schema(p) + ["_gs_op"])
    ensures |Rows(AppendGsOp(p), env)| == |Rows(p, env)|
    ensures forall i | 0 <= i < |Rows(p, env)| ::
      Rows(AppendGsOp(p), env)[i][..|Schema(p)|] == Rows(p, env)[i]
    ensures HasOp(Schema(AppendGsOp(p))) <==> Carries(p)
    ensures Carries(p) ==> OP in Schema(AppendGsOp(p)) && forall i | 0 <= i < |Rows(p, env)| ::
      Rows(AppendGsOp(p), env)[i][IndexOf(OP, Schema(AppendGsOp(p)))] == Ops(p, env)[i]
    ensures HasOp(Schema(p)) ==> Rows(AppendGsOp(p), env) == Rows(p, env)
  {
    RewriteShape(p);
    RewriteRows(p, env);
    CountPositive(OP, Schema(p));
    if Carries(p) {
      CountPositive(OP, Schema(AppendGsOp(p)));
      forall i | 0 <= i < |Rows(p, env)|
        ensures Rows(AppendGsOp(p), env)[i][IndexOf(OP, Schema(AppendGsOp(p)))] == Ops(p, env)[i]
      {
        OpOfRewrittenRow(p, env, i);
      }
    }
  }

  // ---------------------------------------------------------------- branches without an op

  lemma Parts(ps: seq<Plan>, i: nat)
    requires 0 < i <= |ps|
    ensures ps[..i] == [ps[0]] + ps[1..][..i - 1] && ps[..i][1..] == ps[1..][..i - 1] && ps[1..][i - 1..] == ps[i..]
  {
  }

  lemma UnionHead(ps: seq<Plan>, width: nat, env: Env)
    requires ps != [] && forall q | q in ps :: Runnable(q, env) && |Schema(q)| == width
    ensures Runnable(ps[0], env)
    ensures UnionRows(ps, width, env) == Rows(ps[0], env) + UnionRows(ps[1..], width, env)
    ensures UnionOps(ps, width, env) == OpsOrInsert(ps[0], env) + UnionOps(ps[1..], width, env)
  {
  }

  lemma Regroup<T>(a: seq<T>, b: seq<T>, c: seq<T>)
    ensures a + (b + c) == (a + b) + c
  {
  }

  lemma At<T>(a: seq<T>, b: seq<T>, c: seq<T>, j: nat)
    requires j < |b|
    ensures (a + (b + c))[|a| + j] == b[j]
  {
  }

  /** A union's rows, and their ops, are those of its first branches and then those of the others. */
  lemma {:induction false} UnionInTwo(ps: seq<Plan>, width: nat, i: nat, env: Env)
    requires i <= |ps| && forall q | q in ps :: Runnable(q, env) && |Schema(q)| == width
    ensures UnionRows(ps, width, env) == UnionRows(ps[..i], width, env) + UnionRows(ps[i..], width, env)
    ensures UnionOps(ps, width, env) == UnionOps(ps[..i], width, env) + UnionOps(ps[i..], width, env)
  {
    if i == 0 {
      assert ps[..0] == [] && ps[0..] == ps;
    } else {
      Parts(ps, i);
      UnionInTwo(ps[1..], width, i - 1, env);
      UnionHead(ps, width, env);
      UnionHead(ps[..i], width, env);
      Regroup(Rows(ps[0], env), UnionRows(ps[..i][1..], width, env), UnionRows(ps[i..], width, env));
      Regroup(OpsOrInsert(ps[0], env), UnionOps(ps[..i][1..], width, env), UnionOps(ps[i..], width, env));
    }
  }

  lemma BranchApart(ps: seq<Plan>, width: nat, i: nat, env: Env)
    requires i < |ps| && forall q | q in ps :: Runnable(q, env) && |Schema(q)| == width
    ensures UnionRows(ps, width, env)
      == UnionRows(ps[..i], width, env) + (Rows(ps[i], env) + UnionRows(ps[i + 1..], width, env))
    ensures UnionOps(ps, width, env)
      == UnionOps(ps[..i], width, env) + (OpsOrInsert(ps[i], env) + UnionOps(ps[i + 1..], width, env))
  {
    UnionInTwo(ps, width, i, env);
    assert ps[i..][1..] == ps[i + 1..];
    UnionHead(ps[i..], width, env);
  }

  /** Where the j-th row of the i-th branch stands in the union, and its op. */
  lemma BranchAt(ps: seq<Plan>, width: nat, i: nat, j: nat, k: nat, env: Env)
    requires i < |ps| && forall q | q in ps :: Runnable(q, env) && |Schema(q)| == width
    requires Runnable(ps[i], env) && j < |Rows(ps[i], env)| && k == |UnionRows(ps[..i], width, env)| + j
    ensures k < |UnionRows(ps, width, env)| && UnionRows(ps, width, env)[k] == Rows(ps[i], env)[j]
    ensures UnionOps(ps, width, env)[k] == OpsOrInsert(ps[i], env)[j]
  {
    BranchApart(ps, width, i, env);
    At(UnionRows(ps[..i], width, env), Rows(ps[i], env), UnionRows(ps[i + 1..], width, env), j);
    At(UnionOps(ps[..i], width, env), OpsOrInsert(ps[i], env), UnionOps(ps[i + 1..], width, env), j);
  }

  /** The k-th row of a union that the rewrite extends. */
  lemma ExtendedUnionAt(ps: seq<Plan>, width: nat, k: nat, env: Env)
    requires Runnable(Union(ps), env) && Extended(Union(ps)) && width == |Schema(ps[0])|
    requires forall q | q in ps :: Runnable(q, env) && |Schema(q)| == width
    requires k < |UnionRows(ps, width, env)|
    ensures Runnable(AppendGsOp(Union(ps)), env) && k < |Rows(AppendGsOp(Union(ps)), env)|
    ensures Rows(AppendGsOp(Union(ps)), env)[k] == UnionRows(ps, width, env)[k] + [UnionOps(ps, width, env)[k]]
  {
    RewriteRows(Union(ps), env);
    UnionYields(ps, env);
    UnionCarries(ps, env);
  }

  lemma InsertIsI(q: Plan, j: nat, env: Env)
    requires Runnable(q, env) && !Carries(q) && j < |Rows(q, env)|
    ensures OpsOrInsert(q, env)[j] == Str("i")
  {
  }

  /** In the rewritten union the rows of a branch that had no op are inserts: they end with the op "i". */
  lemma FilledBranchInserts(ps: seq<Plan>, width: nat, i: nat, j: nat, k: nat, env: Env)
    requires Runnable(Union(ps), env) && Extended(Union(ps)) && width == |Schema(ps[0])|
    requires forall q | q in ps :: Runnable(q, env) && |Schema(q)| == width
    requires i < |ps| && Runnable(ps[i], env) && !Carries(ps[i])
    requires j < |Rows(ps[i], env)| && k == |UnionRows(ps[..i], width, env)| + j
    ensures Runnable(AppendGsOp(Union(ps)), env) && k < |Rows(AppendGsOp(Union(ps)), env)|
    ensures Rows(AppendGsOp(Union(ps)), env)[k] == Rows(ps[i], env)[j] + [Str("i")]
  {
    BranchAt(ps, width, i, j, k, env);
    InsertIsI(ps[i], j, env);
    ExtendedUnionAt(ps, width, k, env);
  }

  /** Rebuilding a projection or a filter never falls back on a planned query; a union falls back
      to its original inputs exactly when some of them, but not all, would gain the column. */
  lemma FallbackOnlyForMixedUnions(p: Plan)
    requires WellFormed(p)
    ensures p.Projection? ==> BuildProjection(p.exprs, AppendGsOp(p.input)).Some?
    ensures p.Filter? ==> AppendGsOp(p) == Filter(p.condition, AppendGsOp(p.input))
    ensures p.Union? ==>
      var a := Align(AppendGsOpAll(p.inputs));
      ChainUnions(a[0], a[1..]).None? <==> Mixed(p.inputs)
  {
    match p
    case Projection(exprs, input) =>
      RewriteShape(input);
      if Extended(input) {
        ResolveAllExtended(exprs, Schema(input));
      }
    case Filter(pred, input) =>
      RewriteShape(input);
      if Extended(input) {
        ResolvesExtended(pred, Schema(input));
      }
    case Union(inputs) =>
      RewriteShapes(inputs);
      UnionFallsBack(inputs);
    case _ =>
  }

  /** A union with an op in some branch comes out with an op exactly when its first branch has
      one of its own or every branch can gain one. */
  lemma UnionCarriesOp(ps: seq<Plan>)
    requires WellFormed(Union(ps)) && SomeCarries(ps)
    ensures HasOp(Schema(AppendGsOp(Union(ps))))
       <==> HasOp(Schema(ps[0])) || forall q | q in ps :: Grows(q, true)
  {
    RewriteShape(Union(ps));
    ExtendedUnion(ps);
  }

  lemma SelectOne(name: string, scan: Plan)
    requires WellFormed(scan) && Unambiguous(name, Schema(scan))
    ensures WellFormed(Projection([Column(name)], scan))
  {
    var exprs := [Column(name)];
    assert exprs[1..] == [] && Resolves(exprs[0], Schema(scan));
    assert |exprs| == 1;
    assert |OutputNames(exprs)| == 1;
    assert ResolveAll(exprs, Schema(scan));
    assert BuildProjection(exprs, scan).Some?;
  }

  /** A union of `SELECT id` and `SELECT _gs_op`: both inputs read an op, but the second computes
      it in the place of the first one's `id`, so the union falls back and has none. */
  lemma UnionThatDropsTheOp(scan: Plan, ps: seq<Plan>)
    requires scan == TableScan("t", ["id", OP])
    requires ps == [Projection([Column("id")], scan), Projection([Column(OP)], scan)]
    ensures WellFormed(Union(ps)) && Carries(ps[0]) && Carries(ps[1])
    ensures AppendGsOp(Union(ps)) == Union(ps) && !HasOp(Schema(Union(ps)))
  {
    var names := ["id", OP];
    assert |"id"| == 2 && |OP| == 6;
    assert names[1..] == [OP] && names[1..][1..] == [];
    assert [OP][1..] == [] && Count(OP, [OP]) == 1 && Count("id", [OP]) == 0;
    assert Count("id", names) == 1 + Count("id", [OP]) && Count(OP, names) == 0 + Count(OP, [OP]);
    assert Schema(ps[0]) == ["id"] && ["id"][1..] == [] && Schema(ps[1]) == [OP] && [OP][1..] == [];
    assert Extended(ps[0]) && HasOp(Schema(ps[1])) && !Extended(ps[1]);
    SelectOne("id", scan);
    SelectOne(OP, scan);
    assert forall q | q in ps :: q == ps[0] || q == ps[1];
    assert ps[0] in ps && ps[1] in ps;
    assert Carries(ps[0]) && Grows(ps[0], true) && !Grows(ps[1], true);
    RewriteShapes(ps);
    UnionFallsBack(ps);
  }

  // ---------------------------------------------------------------- a second run

  predicate Fixed(p: Plan) {
    AppendGsOp(p) == p
  }

  /** Aligning would leave these union inputs as they are. */
  predicate Steady(ps: seq<Plan>) {
    || (forall q | q in ps :: !HasOp(Schema(q)))
    || (forall q | q in ps :: HasOp(Schema(q)) || !Distinct(Schema(q)))
  }

  lemma PairFixed(left: Plan, right: Plan)
    requires WellFormed(left) && WellFormed(right) && Fixed(left) && Fixed(right)
    requires |Schema(left)| == |Schema(right)| && Steady([left, right])
    ensures Fixed(Union([left, right]))
  {
    var ps := [left, right];
    assert left in ps && right in ps;
    assert ps[1..] == [right] && [right][1..] == [];
    assert AppendGsOpAll([right]) == [right] + AppendGsOpAll([]);
    assert AppendGsOpAll(ps) == ps;
    if AnyHasOp(ps) {
      AlignInputShape(left);
      AlignInputShape(right);
    }
    assert Align(ps) == ps;
    assert ChainUnions(Union(ps), []) == Some(Union(ps));
  }

  lemma {:induction false} ChainFixed(first: Plan, rest: seq<Plan>)
    requires WellFormed(first) && Fixed(first)
    requires forall q | q in rest :: WellFormed(q) && Fixed(q)
    requires SameWidth(first, rest) && Steady([first] + rest)
    ensures ChainUnions(first, rest).Some? && Fixed(ChainUnions(first, rest).value)
    decreases |rest|
  {
    if rest != [] {
      var u := Union([first, rest[0]]);
      assert first in [first] + rest && forall q | q in rest :: q in [first] + rest;
      PairFixed(first, rest[0]);
      ChainFixed(u, rest[1..]);
    }
  }

  lemma AlignedFixed(ps: seq<Plan>, i: nat)
    requires AllRewritten(ps) && i < |ps| && Fixed(AppendGsOpAll(ps)[i])
    ensures Fixed(Align(AppendGsOpAll(ps))[i])
    ensures SomeCarries(ps) ==>
      var names := Schema(Align(AppendGsOpAll(ps))[i]);
      HasOp(names) || !Distinct(names)
    ensures !SomeCarries(ps) ==> !HasOp(Schema(Align(AppendGsOpAll(ps))[i]))
  {
    AnyHasOpMeans(ps);
    var r := AppendGsOpAll(ps)[i];
    assert Rewritten(ps[i], r);
    AlignInputShape(r);
    if Carries(ps[i]) {
      assert ps[i] in ps;
    } else if SomeCarries(ps) && Distinct(Schema(r)) {
      HasOpGrown(Schema(r));
    }
  }

  lemma {:induction false} RewriteIdempotent(p: Plan)
    requires WellFormed(p)
    ensures AppendGsOp(AppendGsOp(p)) == AppendGsOp(p)
    decreases p, 1
  {
    match p
    case Projection(exprs, input) =>
      RewriteIdempotent(input);
      RewriteShape(input);
      ProjectionShape(exprs, input);
    case Filter(pred, input) =>
      RewriteIdempotent(input);
      RewriteShape(p);
      FallbackOnlyForMixedUnions(p);
    case Union(inputs) =>
      RewriteShapes(inputs);
      RewriteIdempotentAll(inputs);
      UnionFallsBack(inputs);
      if !Mixed(inputs) {
        UnmixedUnionFixed(inputs);
      }
    case _ =>
  }

  lemma RewriteIdempotentAll(ps: seq<Plan>)
    requires forall q | q in ps :: WellFormed(q)
    ensures forall i | 0 <= i < |ps| :: Fixed(AppendGsOpAll(ps)[i])
    decreases ps, 0
  {
    forall i | 0 <= i < |ps| ensures Fixed(AppendGsOpAll(ps)[i]) {
      RewriteIdempotent(ps[i]);
      AppendAllAt(ps, i);
    }
  }

  lemma AlignedSteady(ps: seq<Plan>)
    requires AllRewritten(ps) && forall i | 0 <= i < |ps| :: Fixed(AppendGsOpAll(ps)[i])
    ensures forall q | q in Align(AppendGsOpAll(ps)) :: Fixed(q)
    ensures Steady(Align(AppendGsOpAll(ps)))
  {
    forall i | 0 <= i < |ps|
      ensures var q := Align(AppendGsOpAll(ps))[i];
        Fixed(q) && if SomeCarries(ps) then HasOp(Schema(q)) || !Distinct(Schema(q)) else !HasOp(Schema(q))
    {
      AlignedFixed(ps, i);
    }
  }

  lemma SteadyChainFixed(a: seq<Plan>)
    requires a != [] && (forall q | q in a :: WellFormed(q) && Fixed(q)) && SameWidth(a[0], a[1..]) && Steady(a)
    ensures ChainUnions(a[0], a[1..]).Some? && Fixed(ChainUnions(a[0], a[1..]).value)
  {
    assert [a[0]] + a[1..] == a && forall q | q in a[1..] :: q in a;
    ChainFixed(a[0], a[1..]);
  }

  lemma UnmixedUnionFixed(ps: seq<Plan>)
    requires WellFormed(Union(ps)) && AllRewritten(ps) && !Mixed(ps)
    requires forall i | 0 <= i < |ps| :: Fixed(AppendGsOpAll(ps)[i])
    ensures Fixed(AppendGsOp(Union(ps)))
  {
    InputWidths(ps);
    AlignedAll(ps);
    AlignedSteady(ps);
    SteadyChainFixed(Align(AppendGsOpAll(ps)));
    UnionIsChain(ps);
  }
}
