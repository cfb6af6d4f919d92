/** Dynamic tables whose query reads an unaliased derived table: only the first filter is found, and
    what the filters beneath it do is lost. Exactly when that matters. */
module StackedFilters {
  import opened Wrappers
  import opened Plans
  import opened DynamicTable

  /** Aliases, filters and selections of columns over the source: what `SELECT columns FROM ... WHERE`
      nests into. */
  predicate Selecting(p: Plan) {
    match p
    case TableScan(_, _) => true
    case Extension(_, _, _) => true
    case SubqueryAlias(_, input) => Selecting(input)
    case Filter(_, input) => Selecting(input)
    case Projection(exprs, input) => (forall e | e in exprs :: e.Column?) && Selecting(input)
    case _ => false
  }

  function Bottom(p: Plan): (q: Plan)
    requires Selecting(p)
    ensures IsBase(q)
  {
    match p
    case SubqueryAlias(_, input) => Bottom(input)
    case Filter(_, input) => Bottom(input)
    case Projection(_, input) => Bottom(input)
    case _ => p
  }

  /** A source row as it comes out of the plan, unless a filter drops it. */
  function Arrives(p: Plan, env: Env, row: Row): (r: Option<Row>)
    requires Selecting(p) && WellFormed(p) && |row| == |Schema(Bottom(p))|
    ensures r.Some? ==> |r.value| == |Schema(p)|
  {
    match p
    case SubqueryAlias(_, input) => Arrives(input, env, row)
    case Filter(condition, input) =>
      var r := Arrives(input, env, row);
      if r.Some? && Keeps(condition, Schema(input), r.value, env) then r else None
    case Projection(exprs, input) =>
      (match Arrives(input, env, row)
       case Some(r) => Some(EvalAll(exprs, Schema(input), r, env))
       case None => None)
    case _ => Some(row)
  }

  function Arriving(p: Plan, env: Env, rows: seq<Row>): (r: seq<Row>)
    requires Selecting(p) && WellFormed(p) && Wide(rows, |Schema(Bottom(p))|)
    ensures Wide(r, |Schema(p)|)
  {
    if rows == [] then []
    else
      (match Arrives(p, env, rows[0])
       case Some(r) => [r]
       case None => [])
      + Arriving(p, env, rows[1..])
  }

  lemma {:induction false} BottomRuns(p: Plan, env: Env)
    requires Selecting(p) && Runnable(p, env)
    ensures Runnable(Bottom(p), env)
  {
    match p
    case SubqueryAlias(_, input) => BottomRuns(input, env);
    case Filter(_, input) => BottomRuns(input, env);
    case Projection(_, input) => BottomRuns(input, env);
    case _ =>
  }

  lemma {:induction false} FilterArriving(condition: Expr, input: Plan, env: Env, rows: seq<Row>)
    requires Selecting(input) && WellFormed(Filter(condition, input)) && Wide(rows, |Schema(Bottom(input))|)
    ensures Arriving(Filter(condition, input), env, rows)
         == KeepRows(condition, Schema(input), Arriving(input, env, rows), env)
    decreases |rows|
  {
    if rows != [] {
      FilterArriving(condition, input, env, rows[1..]);
      var rest := Arriving(input, env, rows[1..]);
      match Arrives(input, env, rows[0])
      case Some(r) => KeepRowsStep(condition, Schema(input), r, rest, env);
      case None => assert Arriving(input, env, rows) == rest;
    }
  }

  lemma {:induction false} ProjectStep(exprs: seq<Expr>, names: seq<string>, row: Row, rows: seq<Row>, env: Env)
    requires ResolveAll(exprs, names) && |row| == |names| && Wide(rows, |names|)
    ensures Wide([row] + rows, |names|)
    ensures ProjectRows(exprs, names, [row] + rows, env)
         == [EvalAll(exprs, names, row, env)] + ProjectRows(exprs, names, rows, env)
  {
  }

  lemma {:induction false} ProjectArriving(exprs: seq<Expr>, input: Plan, env: Env, rows: seq<Row>)
    requires Selecting(Projection(exprs, input)) && WellFormed(Projection(exprs, input))
    requires Wide(rows, |Schema(Bottom(input))|)
    ensures Arriving(Projection(exprs, input), env, rows)
         == ProjectRows(exprs, Schema(input), Arriving(input, env, rows), env)
    decreases |rows|
  {
    if rows != [] {
      ProjectArriving(exprs, input, env, rows[1..]);
      var rest := Arriving(input, env, rows[1..]);
      match Arrives(input, env, rows[0])
      case Some(r) => ProjectStep(exprs, Schema(input), r, rest, env);
      case None => assert Arriving(input, env, rows) == rest;
    }
  }

  lemma {:induction false} AllArrive(p: Plan, env: Env, rows: seq<Row>)
    requires IsBase(p) && WellFormed(p) && Wide(rows, |Schema(p)|)
    ensures Arriving(p, env, rows) == rows
    decreases |rows|
  {
    if rows != [] {
      AllArrive(p, env, rows[1..]);
      assert rows == [rows[0]] + rows[1..];
    }
  }

  lemma {:induction false} AliasArriving(alias: string, input: Plan, env: Env, rows: seq<Row>)
    requires Selecting(input) && WellFormed(input) && Wide(rows, |Schema(Bottom(input))|)
    ensures Arriving(SubqueryAlias(alias, input), env, rows) == Arriving(input, env, rows)
    decreases |rows|
  {
    if rows != [] {
      AliasArriving(alias, input, env, rows[1..]);
    }
  }

  /** The rows of a selecting plan are those source rows that arrive, as they arrive. */
  lemma {:induction false} RowsArrive(p: Plan, env: Env)
    requires Selecting(p) && Runnable(p, env)
    ensures Runnable(Bottom(p), env)
    ensures Rows(p, env) == Arriving(p, env, Rows(Bottom(p), env))
    decreases p
  {
    BottomRuns(p, env);
    var rows := Rows(Bottom(p), env);
    match p
    case SubqueryAlias(alias, input) =>
      RowsArrive(input, env);
      AliasArriving(alias, input, env, rows);
    case Filter(condition, input) =>
      RowsArrive(input, env);
      FilterArriving(condition, input, env, rows);
    case Projection(exprs, input) =>
      RowsArrive(input, env);
      ProjectArriving(exprs, input, env, rows);
    case _ => AllArrive(p, env, rows);
  }

  // ---------------------------------------------------------------- expressions see the same columns

  lemma {:induction false} EvalAllAt(es: seq<Expr>, names: seq<string>, row: Row, env: Env, i: nat)
    requires ResolveAll(es, names) && |row| == |names| && i < |es|
    ensures Resolves(es[i], names) && EvalAll(es, names, row, env)[i] == Eval(es[i], names, row, env)
  {
    if i > 0 {
      EvalAllAt(es[1..], names, row, env, i - 1);
    }
  }

  /** An expression over selected columns means what it means over all columns. */
  lemma {:induction false} EvalSelected(e: Expr, es: seq<Expr>, names: seq<string>, row: Row, env: Env)
    requires (forall x | x in es :: x.Column?) && ResolveAll(es, names) && |row| == |names|
    requires Resolves(e, OutputNames(es))
    ensures Resolves(e, names)
    ensures Eval(e, OutputNames(es), EvalAll(es, names, row, env), env) == Eval(e, names, row, env)
    decreases e, 1
  {
    match e
    case Column(name) =>
      CountPositive(name, OutputNames(es));
      var j := IndexOf(name, OutputNames(es));
      assert es[j] in es;
      EvalAllAt(es, names, row, env, j);
    case Literal(_, _) =>
    case Call(_, args, _) => EvalSelectedAll(args, es, names, row, env);
    case Alias(inner, _) => EvalSelected(inner, es, names, row, env);
  }

  lemma {:induction false} EvalSelectedAll(args: seq<Expr>, es: seq<Expr>, names: seq<string>, row: Row, env: Env)
    requires (forall x | x in es :: x.Column?) && ResolveAll(es, names) && |row| == |names|
    requires ResolveAll(args, OutputNames(es))
    ensures ResolveAll(args, names)
    ensures EvalAll(args, OutputNames(es), EvalAll(es, names, row, env), env) == EvalAll(args, names, row, env)
    decreases args, 0
  {
    if args != [] {
      EvalSelected(args[0], es, names, row, env);
      EvalSelectedAll(args[1..], es, names, row, env);
    }
  }

  /** So what arrives evaluates as the source row does. */
  lemma {:induction false} EvalArrived(e: Expr, p: Plan, env: Env, row: Row)
    requires Selecting(p) && WellFormed(p) && |row| == |Schema(Bottom(p))| && Resolves(e, Schema(p))
    requires Arrives(p, env, row).Some?
    ensures Resolves(e, Schema(Bottom(p)))
    ensures Eval(e, Schema(p), Arrives(p, env, row).value, env) == Eval(e, Schema(Bottom(p)), row, env)
    decreases p
  {
    match p
    case SubqueryAlias(_, input) => EvalArrived(e, input, env, row);
    case Filter(_, input) => EvalArrived(e, input, env, row);
    case Projection(exprs, input) =>
      EvalSelected(e, exprs, Schema(input), Arrives(input, env, row).value, env);
      EvalArrived(e, input, env, row);
    case _ =>
  }

  // ---------------------------------------------------------------- row by row

  /** What a source row adds to the table: only the found filter is applied. */
  function StoredOf(o: SideOutput, names: seq<string>, row: Row, env: Env): seq<string>
    requires Usable(o, names) && |row| == |names|
  {
    if o.filter.Some? && !Keeps(o.filter.value, names, row, env) then []
    else Strings([Eval(o.projection, names, row, env)])
  }

  /** What it adds to the query's result: the filters beneath are applied as well. */
  function QueriedOf(o: SideOutput, under: Plan, row: Row, env: Env): seq<string>
    requires Selecting(under) && WellFormed(under) && Usable(o, Schema(Bottom(under)))
    requires |row| == |Schema(Bottom(under))|
  {
    if Arrives(under, env, row).Some? then StoredOf(o, Schema(Bottom(under)), row, env) else []
  }

  function Stored(o: SideOutput, names: seq<string>, rows: seq<Row>, env: Env): seq<string>
    requires Usable(o, names) && Wide(rows, |names|)
  {
    if rows == [] then [] else StoredOf(o, names, rows[0], env) + Stored(o, names, rows[1..], env)
  }

  function Queried(o: SideOutput, under: Plan, rows: seq<Row>, env: Env): seq<string>
    requires Selecting(under) && WellFormed(under) && Usable(o, Schema(Bottom(under)))
    requires Wide(rows, |Schema(Bottom(under))|)
  {
    if rows == [] then [] else QueriedOf(o, under, rows[0], env) + Queried(o, under, rows[1..], env)
  }

  lemma {:induction false} AppendedOne(o: SideOutput, names: seq<string>, row: Row, env: Env)
    requires Usable(o, names) && |row| == |names| && !Constant(o.projection)
    ensures Appended(o, names, [row], env) == StoredOf(o, names, row, env)
  {
    var one := [row];
    assert one[1..] == [];
    if o.filter.Some? && !Keeps(o.filter.value, names, row, env) {
      assert Kept(o, names, one, env) == [];
    } else {
      assert Kept(o, names, one, env) == one;
      assert EvalEach(o.projection, names, one, env) == [Eval(o.projection, names, row, env)];
    }
  }

  lemma {:induction false} StoredHead(o: SideOutput, names: seq<string>, row: Row, rest: seq<Row>, env: Env)
    requires Usable(o, names) && |row| == |names| && Wide(rest, |names|)
    ensures Stored(o, names, [row] + rest, env) == StoredOf(o, names, row, env) + Stored(o, names, rest, env)
  {
    assert ([row] + rest)[1..] == rest;
  }

  lemma {:induction false} AppendedIsStored(o: SideOutput, names: seq<string>, rows: seq<Row>, env: Env)
    requires Usable(o, names) && Wide(rows, |names|) && !Constant(o.projection)
    ensures Appended(o, names, rows, env) == Stored(o, names, rows, env)
    decreases |rows|
  {
    if rows == [] {
      assert Kept(o, names, rows, env) == [];
    } else {
      var row, rest := rows[0], rows[1..];
      AppendedIsStored(o, names, rest, env);
      AppendedOne(o, names, row, env);
      AppendedSum(o, names, [row], rest, env);
      StoredHead(o, names, row, rest, env);
      assert rows == [row] + rest;
    }
  }

  /** The strings that a projection over a filter yields for the given rows of its input. */
  function Yielded(o: SideOutput, names: seq<string>, rows: seq<Row>, env: Env): seq<string>
    requires Usable(o, names) && Wide(rows, |names|)
  {
    Strings(EvalEach(o.projection, names, Kept(o, names, rows, env), env))
  }

  lemma {:induction false} YieldedIsAppended(o: SideOutput, names: seq<string>, rows: seq<Row>, env: Env)
    requires Usable(o, names) && Wide(rows, |names|) && !Constant(o.projection)
    ensures Yielded(o, names, rows, env) == Stored(o, names, rows, env)
  {
    AppendedIsStored(o, names, rows, env);
  }

  lemma {:induction false} ArrivedStores(o: SideOutput, under: Plan, env: Env, row: Row)
    requires Selecting(under) && WellFormed(under) && Usable(o, Schema(under)) && Usable(o, Schema(Bottom(under)))
    requires |row| == |Schema(Bottom(under))| && Arrives(under, env, row).Some?
    ensures StoredOf(o, Schema(under), Arrives(under, env, row).value, env)
         == StoredOf(o, Schema(Bottom(under)), row, env)
  {
    EvalArrived(o.projection, under, env, row);
    if o.filter.Some? {
      EvalArrived(o.filter.value, under, env, row);
    }
  }

  lemma {:induction false} StoredFromArriving(o: SideOutput, under: Plan, rows: seq<Row>, env: Env)
    requires Selecting(under) && WellFormed(under) && Usable(o, Schema(under)) && Usable(o, Schema(Bottom(under)))
    requires Wide(rows, |Schema(Bottom(under))|)
    ensures Stored(o, Schema(under), Arriving(under, env, rows), env) == Queried(o, under, rows, env)
    decreases |rows|
  {
    if rows != [] {
      StoredFromArriving(o, under, rows[1..], env);
      var rest := Arriving(under, env, rows[1..]);
      match Arrives(under, env, rows[0])
      case Some(r) =>
        ArrivedStores(o, under, env, rows[0]);
        assert ([r] + rest)[1..] == rest;
      case None => assert Arriving(under, env, rows) == rest;
    }
  }

  // ---------------------------------------------------------------- the exact condition

  /** Every row that the found filter keeps with a string value is kept by the filters beneath. */
  ghost predicate NothingDropped(o: SideOutput, under: Plan, rows: seq<Row>, env: Env)
    requires Selecting(under) && WellFormed(under) && Usable(o, Schema(Bottom(under)))
    requires Wide(rows, |Schema(Bottom(under))|)
  {
    forall i | 0 <= i < |rows| && StoredOf(o, Schema(Bottom(under)), rows[i], env) != [] ::
      Arrives(under, env, rows[i]).Some?
  }

  lemma {:induction false} SameExactly(o: SideOutput, under: Plan, rows: seq<Row>, env: Env)
    requires Selecting(under) && WellFormed(under) && Usable(o, Schema(Bottom(under)))
    requires Wide(rows, |Schema(Bottom(under))|)
    ensures |Queried(o, under, rows, env)| <= |Stored(o, Schema(Bottom(under)), rows, env)|
    ensures Stored(o, Schema(Bottom(under)), rows, env) == Queried(o, under, rows, env)
       <==> NothingDropped(o, under, rows, env)
    ensures |Stored(o, Schema(Bottom(under)), rows, env)| == |Queried(o, under, rows, env)| ==>
              NothingDropped(o, under, rows, env)
    decreases |rows|
  {
    if rows != [] {
      var tail := rows[1..];
      SameExactly(o, under, tail, env);
      assert forall i | 0 <= i < |tail| :: tail[i] == rows[i + 1];
      if NothingDropped(o, under, tail, env)
          && (StoredOf(o, Schema(Bottom(under)), rows[0], env) != [] ==> Arrives(under, env, rows[0]).Some?) {
        forall i | 0 <= i < |rows| && StoredOf(o, Schema(Bottom(under)), rows[i], env) != []
          ensures Arrives(under, env, rows[i]).Some?
        {
          assert i > 0 ==> rows[i] == tail[i - 1];
        }
      }
      if NothingDropped(o, under, rows, env) {
        forall i | 0 <= i < |tail| && StoredOf(o, Schema(Bottom(under)), tail[i], env) != []
          ensures Arrives(under, env, tail[i]).Some?
        {
          assert tail[i] == rows[i + 1];
        }
      }
    }
  }

  /** A query whose first filter stands on further filters and column selections. */
  predicate Stacked(p: Plan) {
    match BelowAliases(p)
    case Projection(_, input) =>
      (match BelowAliases(input)
       case Filter(_, under) => Selecting(under)
       case _ => false)
    case _ => false
  }

  function Beneath(p: Plan): (under: Plan)
    requires Stacked(p)
    ensures Selecting(under)
  {
    BelowAliases(BelowAliases(p).input).input
  }

  // ---------------------------------------------------------------- such queries are taken

  lemma {:induction false} ResolvesSelected(e: Expr, es: seq<Expr>, names: seq<string>)
    requires (forall x | x in es :: x.Column?) && ResolveAll(es, names) && Resolves(e, OutputNames(es))
    ensures Resolves(e, names)
    decreases e, 1
  {
    match e
    case Column(name) =>
      CountPositive(name, OutputNames(es));
      var j := IndexOf(name, OutputNames(es));
      assert es[j] in es;
      ResolveAllAt(es, names, j);
    case Literal(_, _) =>
    case Call(_, args, _) => ResolvesSelectedAll(args, es, names);
    case Alias(inner, _) => ResolvesSelected(inner, es, names);
  }

  lemma {:induction false} ResolveAllAt(es: seq<Expr>, names: seq<string>, i: nat)
    requires ResolveAll(es, names) && i < |es|
    ensures Resolves(es[i], names)
  {
    if i > 0 {
      ResolveAllAt(es[1..], names, i - 1);
    }
  }

  lemma {:induction false} ResolvesSelectedAll(args: seq<Expr>, es: seq<Expr>, names: seq<string>)
    requires (forall x | x in es :: x.Column?) && ResolveAll(es, names) && ResolveAll(args, OutputNames(es))
    ensures ResolveAll(args, names)
    decreases args, 0
  {
    if args != [] {
      ResolvesSelected(args[0], es, names);
      ResolvesSelectedAll(args[1..], es, names);
    }
  }

  lemma {:induction false} ResolvesAtBottom(e: Expr, p: Plan)
    requires Selecting(p) && WellFormed(p) && Resolves(e, Schema(p))
    ensures Resolves(e, Schema(Bottom(p)))
    decreases p
  {
    match p
    case SubqueryAlias(_, input) => ResolvesAtBottom(e, input);
    case Filter(_, input) => ResolvesAtBottom(e, input);
    case Projection(exprs, input) =>
      ResolvesSelected(e, exprs, Schema(input));
      ResolvesAtBottom(e, input);
    case _ =>
  }

  function StackedOutput(p: Plan): SideOutput
    requires Stacked(p) && |BelowAliases(p).exprs| == 1
  {
    var top := BelowAliases(p);
    SideOutput(top.exprs[0], Some(BelowAliases(top.input).condition))
  }

  /** Every stacked query with one expression that the planner accepts is taken. */
  lemma StackedIsTaken(p: Plan)
    requires WellFormed(p) && Stacked(p) && |BelowAliases(p).exprs| == 1
    ensures SetUp(p, Schema(Bottom(Beneath(p)))) == Ok(StackedOutput(p))
  {
    AliasesAreWellFormed(p);
    var top := BelowAliases(p);
    AliasesAreWellFormed(top.input);
    var filter := BelowAliases(top.input);
    assert top.exprs == [top.exprs[0]] && Resolves(top.exprs[0], Schema(top.input));
    ResolvesAtBottom(top.exprs[0], Beneath(p));
    ResolvesAtBottom(filter.condition, Beneath(p));
  }

  lemma {:induction false} StackedRows(p: Plan, o: SideOutput, env: Env)
    requires Runnable(p, env) && Stacked(p) && |BelowAliases(p).exprs| == 1
    requires o == StackedOutput(p) && !Constant(o.projection)
    ensures Usable(o, Schema(Bottom(Beneath(p))))
    ensures Runnable(Bottom(Beneath(p)), env) && WellFormed(Beneath(p))
    ensures Wide(Rows(p, env), 1)
    ensures Strings(Column0(Rows(p, env))) == Queried(o, Beneath(p), Rows(Bottom(Beneath(p)), env), env)
  {
    StackedIsTaken(p);
    AliasesAreTransparent(p, env);
    var projection := BelowAliases(p);
    AliasesAreTransparent(projection.input, env);
    var filter := BelowAliases(projection.input);
    assert projection == Projection([o.projection], projection.input);
    assert filter == Filter(o.filter.value, Beneath(p));
    FilteredRows(o, Beneath(p), env);
  }

  lemma {:induction false} FilteredRows(o: SideOutput, under: Plan, env: Env)
    requires o.filter.Some? && !Constant(o.projection) && Selecting(under)
    requires Runnable(Filter(o.filter.value, under), env) && ResolveAll([o.projection], Schema(under))
    requires Usable(o, Schema(Bottom(under)))
    ensures Runnable(Bottom(under), env)
    ensures var rows := ProjectRows([o.projection], Schema(under), Rows(Filter(o.filter.value, under), env), env);
            Wide(rows, 1) && Strings(Column0(rows)) == Queried(o, under, Rows(Bottom(under), env), env)
  {
    var names := Schema(under);
    assert Resolves([o.projection][0], names);
    RowsArrive(under, env);
    var rows := Rows(under, env);
    ProjectOne(o.projection, names, Kept(o, names, rows, env), env);
    YieldedIsAppended(o, names, rows, env);
    StoredFromArriving(o, under, Rows(Bottom(under), env), env);
  }

  lemma {:induction false} ProjectOne(e: Expr, names: seq<string>, rows: seq<Row>, env: Env)
    requires Resolves(e, names) && ResolveAll([e], names) && Wide(rows, |names|)
    ensures Wide(ProjectRows([e], names, rows, env), 1)
    ensures Column0(ProjectRows([e], names, rows, env)) == EvalEach(e, names, rows, env)
  {
    forall i | 0 <= i < |rows| ensures EvalAll([e], names, rows[i], env)[0] == Eval(e, names, rows[i], env) {
    }
  }

  /** For every such query, stream and split into batches: the query is taken, and the values appended are the query's
      exactly when no row that the found filter keeps, with a string value, is dropped beneath. */
  lemma {:induction false} TableHoldsStackedQuery(p: Plan, batches: seq<seq<Row>>, env: Env)
    requires Runnable(p, env) && Stacked(p) && |BelowAliases(p).exprs| == 1 && !Constant(BelowAliases(p).exprs[0])
    requires Runnable(Bottom(Beneath(p)), env) && Concat(batches) == Rows(Bottom(Beneath(p)), env)
    requires forall b | b in batches :: Wide(b, |Schema(Bottom(Beneath(p)))|)
    ensures SetUp(p, Schema(Bottom(Beneath(p)))).Ok? && Wide(Rows(p, env), 1) && WellFormed(Beneath(p))
    ensures var o := SetUp(p, Schema(Bottom(Beneath(p)))).value;
      && Usable(o, Schema(Bottom(Beneath(p))))
      && (AppendedAll(o, Schema(Bottom(Beneath(p))), batches, env) == Strings(Column0(Rows(p, env))) <==>
            NothingDropped(o, Beneath(p), Rows(Bottom(Beneath(p)), env), env))
  {
    var o, names := StackedOutput(p), Schema(Bottom(Beneath(p)));
    StackedIsTaken(p);
    StackedRows(p, o, env);
    BatchingDoesNotMatter(o, names, batches, env);
    AppendedIsStored(o, names, Concat(batches), env);
    SameExactly(o, Beneath(p), Rows(Bottom(Beneath(p)), env), env);
  }

  /** `SELECT c FROM (SELECT c FROM t WHERE false) WHERE true`, as it is planned: the query yields
      nothing and the table holds "x". */
  lemma {:induction false} StackedFilterIsLost(env: Env)
    requires env.table("t") == [[Str("x")]]
    ensures var scan, c := TableScan("t", ["c"]), [Column("c")];
            var yes, no := Literal(Bool(true), "true"), Literal(Bool(false), "false");
            var p, o := Projection(c, Filter(yes, Projection(c, Filter(no, scan)))), SideOutput(Column("c"), Some(yes));
            && Stacked(p) && Runnable(p, env) && Rows(p, env) == []
            && SetUp(p, ["c"]) == Ok(o) && Appended(o, ["c"], [[Str("x")]], env) == ["x"]
  {
    var scan, c := TableScan("t", ["c"]), [Column("c")];
    var yes, no := Literal(Bool(true), "true"), Literal(Bool(false), "false");
    var inner := Filter(no, scan);
    var middle := Projection(c, inner);
    var outer := Filter(yes, middle);
    var p := Projection(c, outer);
    assert Fits(scan, env) && Fits(inner, env) && Fits(middle, env) && Fits(outer, env) && Fits(p, env);
    assert Unambiguous("c", ["c"]) by { assert ["c"][1..] == []; }
    assert OutputNames(c) == ["c"];
    OneResolves(Column("c"), ["c"]);
    assert WellFormed(inner) && WellFormed(middle) && WellFormed(outer) && WellFormed(p);
    var rows := [[Str("x")]];
    assert rows[1..] == [];
    assert !Keeps(no, ["c"], rows[0], env) && Keeps(yes, ["c"], rows[0], env);
    assert KeepRows(no, ["c"], rows, env) == [];
    assert Rows(inner, env) == [] && Rows(middle, env) == [] && Rows(outer, env) == [];
    assert Kept(SideOutput(Column("c"), Some(yes)), ["c"], rows, env) == rows;
    assert EvalEach(Column("c"), ["c"], rows, env) == [Str("x")];
    OneString("x");
  }
}
