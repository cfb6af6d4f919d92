/** Logical query plans, the part of the plan builder the rewrites rely on, and what a plan
    means: the sequence of rows it yields over an environment that interprets tables,
    functions and the operators the rewrites never look into. */
module Plans {
  import opened Wrappers

  datatype Value = Null | Bool(b: bool) | Str(s: string) | Num(n: int)

  type Row = seq<Value>

  /** `text` is the output name the planner derives for an expression that has no alias. */
  datatype Expr =
    | Column(name: string)
    | Literal(value: Value, text: string)
    | Call(fn: string, args: seq<Expr>, text: string)
    | Alias(inner: Expr, name: string)

  /** `Other` is every node kind that validation rejects. */
  datatype Plan =
    | TableScan(table: string, columns: seq<string>)
    | Projection(exprs: seq<Expr>, input: Plan)
    | Filter(condition: Expr, input: Plan)
    | SubqueryAlias(alias: string, input: Plan)
    | Unnest(spec: string, columns: seq<string>, input: Plan)
    | Union(inputs: seq<Plan>)
    | Extension(name: string, columns: seq<string>, inputs: seq<Plan>)
    | Other(display: string, columns: seq<string>)

  datatype Env = Env(
    table: string -> seq<Row>,
    call: (string, seq<Value>) -> Value,
    unnest: (string, Row) -> seq<Row>,
    extension: (string, seq<seq<Row>>) -> seq<Row>,
    other: string -> seq<Row>)

  // ---------------------------------------------------------------- schemas

  function Count(name: string, names: seq<string>): nat {
    if names == [] then 0 else (if names[0] == name then 1 else 0) + Count(name, names[1..])
  }

  /** Name lookup succeeds only when the name occurs exactly once. */
  predicate Unambiguous(name: string, names: seq<string>) {
    Count(name, names) == 1
  }

  predicate Distinct(names: seq<string>) {
    forall i, j | 0 <= i < j < |names| :: names[i] != names[j]
  }

  function IndexOf(name: string, names: seq<string>): (i: nat)
    requires name in names
    ensures i < |names| && names[i] == name
  {
    if names[0] == name then 0 else 1 + IndexOf(name, names[1..])
  }

  lemma CountPositive(name: string, names: seq<string>)
    ensures Count(name, names) > 0 <==> name in names
  {
  }

  function OutputName(e: Expr): string {
    match e
    case Column(name) => name
    case Literal(_, text) => text
    case Call(_, _, text) => text
    case Alias(_, name) => name
  }

  function OutputNames(exprs: seq<Expr>): (names: seq<string>)
    ensures |names| == |exprs|
  {
    seq(|exprs|, i requires 0 <= i < |exprs| => OutputName(exprs[i]))
  }

  function Schema(p: Plan): seq<string> {
    match p
    case TableScan(_, columns) => columns
    case Projection(exprs, _) => OutputNames(exprs)
    case Filter(_, input) => Schema(input)
    case SubqueryAlias(_, input) => Schema(input)
    case Unnest(_, columns, _) => columns
    case Union(inputs) => if inputs == [] then [] else Schema(inputs[0])
    case Extension(_, columns, _) => columns
    case Other(_, columns) => columns
  }

  /** The nodes met when one always goes on to the first input. */
  function FirstInputs(p: Plan): (path: seq<Plan>)
    ensures path != [] && path[0] == p
  {
    [p] + match p
          case TableScan(_, _) => []
          case Projection(_, input) => FirstInputs(input)
          case Filter(_, input) => FirstInputs(input)
          case SubqueryAlias(_, input) => FirstInputs(input)
          case Unnest(_, _, input) => FirstInputs(input)
          case Union(inputs) => if inputs == [] then [] else FirstInputs(inputs[0])
          case Extension(_, _, inputs) => if inputs == [] then [] else FirstInputs(inputs[0])
          case Other(_, _) => []
  }

  // ---------------------------------------------------------------- plan builder

  /** Every column an expression mentions is found in `names`. */
  predicate Resolves(e: Expr, names: seq<string>) {
    match e
    case Column(name) => Unambiguous(name, names)
    case Literal(_, _) => true
    case Call(_, args, _) => ResolveAll(args, names)
    case Alias(inner, _) => Resolves(inner, names)
  }

  predicate ResolveAll(es: seq<Expr>, names: seq<string>) {
    es == [] || (Resolves(es[0], names) && ResolveAll(es[1..], names))
  }

  function BuildProjection(exprs: seq<Expr>, input: Plan): Option<Plan> {
    if ResolveAll(exprs, Schema(input)) && Distinct(OutputNames(exprs))
    then Some(Projection(exprs, input))
    else None
  }

  function BuildFilter(condition: Expr, input: Plan): Option<Plan> {
    if Resolves(condition, Schema(input)) then Some(Filter(condition, input)) else None
  }

  /** Unions are positional: only the widths have to agree. */
  function BuildUnion(left: Plan, right: Plan): Option<Plan> {
    if |Schema(left)| == |Schema(right)| then Some(Union([left, right])) else None
  }

  /** A plan the SQL planner can produce: every node passed the builder's own checks. */
  predicate WellFormed(p: Plan) {
    match p
    case TableScan(_, _) => true
    case Projection(exprs, input) => WellFormed(input) && BuildProjection(exprs, input).Some?
    case Filter(pred, input) => WellFormed(input) && BuildFilter(pred, input).Some?
    case SubqueryAlias(_, input) => WellFormed(input)
    case Unnest(_, _, input) => WellFormed(input)
    case Union(inputs) =>
      && inputs != []
      && (forall q | q in inputs :: WellFormed(q))
      && (forall q | q in inputs :: |Schema(q)| == |Schema(p)|)
    case Extension(_, _, inputs) => forall q | q in inputs :: WellFormed(q)
    case Other(_, _) => true
  }

  // ---------------------------------------------------------------- meaning

  function Eval(e: Expr, names: seq<string>, row: Row, env: Env): Value
    requires Resolves(e, names) && |row| == |names|
  {
    match e
    case Column(name) => CountPositive(name, names); row[IndexOf(name, names)]
    case Literal(v, _) => v
    case Call(fn, args, _) => env.call(fn, EvalAll(args, names, row, env))
    case Alias(inner, _) => Eval(inner, names, row, env)
  }

  function EvalAll(es: seq<Expr>, names: seq<string>, row: Row, env: Env): (r: Row)
    requires ResolveAll(es, names) && |row| == |names|
    ensures |r| == |es|
  {
    if es == [] then [] else [Eval(es[0], names, row, env)] + EvalAll(es[1..], names, row, env)
  }

  predicate Wide(rows: seq<Row>, width: nat) {
    forall i | 0 <= i < |rows| :: |rows[i]| == width
  }

  function ProjectRows(es: seq<Expr>, names: seq<string>, rows: seq<Row>, env: Env): (r: seq<Row>)
    requires ResolveAll(es, names) && Wide(rows, |names|)
    ensures |r| == |rows| && Wide(r, |es|)
  {
    seq(|rows|, i requires 0 <= i < |rows| => EvalAll(es, names, rows[i], env))
  }

  /** A predicate keeps a row only when it is true; null counts as false. */
  predicate Keeps(pred: Expr, names: seq<string>, row: Row, env: Env)
    requires Resolves(pred, names) && |row| == |names|
  {
    Eval(pred, names, row, env) == Bool(true)
  }

  function KeepRows(pred: Expr, names: seq<string>, rows: seq<Row>, env: Env): (r: seq<Row>)
    requires Resolves(pred, names) && Wide(rows, |names|)
    ensures |r| <= |rows| && Wide(r, |names|)
  {
    if rows == [] then []
    else (if Keeps(pred, names, rows[0], env) then [rows[0]] else [])
         + KeepRows(pred, names, rows[1..], env)
  }

  function UnnestRows(spec: string, rows: seq<Row>, env: Env): seq<Row> {
    if rows == [] then [] else env.unnest(spec, rows[0]) + UnnestRows(spec, rows[1..], env)
  }

  /** The environment gives every opaque node rows of that node's width. */
  ghost predicate Fits(p: Plan, env: Env) {
    match p
    case TableScan(table, columns) => Wide(env.table(table), |columns|)
    case Projection(_, input) => Fits(input, env)
    case Filter(_, input) => Fits(input, env)
    case SubqueryAlias(_, input) => Fits(input, env)
    case Unnest(spec, columns, input) =>
      Fits(input, env) && forall row :: Wide(env.unnest(spec, row), |columns|)
    case Union(inputs) => forall q | q in inputs :: Fits(q, env)
    case Extension(name, columns, inputs) =>
      && (forall q | q in inputs :: Fits(q, env))
      && forall ins :: Wide(env.extension(name, ins), |columns|)
    case Other(display, columns) => Wide(env.other(display), |columns|)
  }

  /** A plan this environment can run. */
  ghost predicate Runnable(p: Plan, env: Env) {
    WellFormed(p) && Fits(p, env)
  }

  lemma UnnestWide(spec: string, width: nat, rows: seq<Row>, env: Env)
    requires forall row :: Wide(env.unnest(spec, row), width)
    ensures Wide(UnnestRows(spec, rows, env), width)
  {
    if rows != [] {
      UnnestWide(spec, width, rows[1..], env);
    }
  }

  ghost function Rows(p: Plan, env: Env): (r: seq<Row>)
    requires Runnable(p, env)
    ensures Wide(r, |Schema(p)|)
    decreases p, 1
  {
    match p
    case TableScan(table, _) => env.table(table)
    case Projection(exprs, input) => ProjectRows(exprs, Schema(input), Rows(input, env), env)
    case Filter(pred, input) => KeepRows(pred, Schema(input), Rows(input, env), env)
    case SubqueryAlias(_, input) => Rows(input, env)
    case Unnest(spec, columns, input) =>
      UnnestWide(spec, |columns|, Rows(input, env), env);
      UnnestRows(spec, Rows(input, env), env)
    case Union(inputs) => UnionRows(inputs, |Schema(p)|, env)
    case Extension(name, _, inputs) => env.extension(name, RowsOfEach(inputs, env))
    case Other(display, _) => env.other(display)
  }

  ghost function RowsOfEach(inputs: seq<Plan>, env: Env): seq<seq<Row>>
    requires forall q | q in inputs :: Runnable(q, env)
    decreases inputs, 0
  {
    if inputs == [] then [] else [Rows(inputs[0], env)] + RowsOfEach(inputs[1..], env)
  }

  /** Rows of every input in turn, matched to the first input's columns by position. */
  ghost function UnionRows(inputs: seq<Plan>, width: nat, env: Env): (r: seq<Row>)
    requires forall q | q in inputs :: Runnable(q, env) && |Schema(q)| == width
    ensures Wide(r, width)
    decreases inputs, 0
  {
    if inputs == [] then [] else Rows(inputs[0], env) + UnionRows(inputs[1..], width, env)
  }
}
