/** The physical optimizer rule that merges every input of which an operator reads only the first
    partition. A plan means a relation between it and the partitioned streams it may yield, since a
    merge may interleave its inputs anyhow. */
module SinglePartition {
  import opened Plans

  datatype Distribution = Unspecified | Single | Hashed

  type Streams = seq<seq<Row>>

  /** What an operator does is its kind and its own parameters: a predicate, expressions, columns. */
  datatype Operator = Operator(name: string, parameters: string)

  /** An operator pulls only partition 0 of an input it requires to be `Single`. */
  datatype Exec =
    | Node(op: Operator, requirements: seq<Distribution>, children: seq<Exec>)
    | Coalesce(input: Exec, bufferSize: nat)

  /** How many partitions an operator declares over inputs with the given counts, and what it
      yields for the streams it reads. */
  datatype Ops = Ops(parts: (Operator, seq<nat>) -> nat, run: (Operator, seq<Streams>) -> Streams)

  ghost predicate Sound(m: Ops) {
    && (forall op, counts :: m.parts(op, counts) >= 1)
    && (forall op, views :: |m.run(op, views)| == m.parts(op, Counts(views)))
  }

  function Counts(views: seq<Streams>): (r: seq<nat>)
    ensures |r| == |views|
  {
    seq(|views|, i requires 0 <= i < |views| => |views[i]|)
  }

  /** Operators declare one requirement per child. */
  predicate WellFormedExec(p: Exec) {
    match p
    case Node(_, requirements, children) =>
      |requirements| == |children| && forall c | c in children :: WellFormedExec(c)
    case Coalesce(input, _) => WellFormedExec(input)
  }

  function Partitions(m: Ops, p: Exec): nat {
    match p
    case Node(op, _, children) => m.parts(op, PartitionsAll(m, children))
    case Coalesce(_, _) => 1
  }

  function PartitionsAll(m: Ops, ps: seq<Exec>): (r: seq<nat>)
    ensures |r| == |ps|
    ensures forall i | 0 <= i < |ps| :: r[i] == Partitions(m, ps[i])
  {
    if ps == [] then [] else [Partitions(m, ps[0])] + PartitionsAll(m, ps[1..])
  }

  // ---------------------------------------------------------------- the rule

  predicate Violates(m: Ops, d: Distribution, child: Exec) {
    d.Single? && Partitions(m, child) > 1
  }

  predicate Violated(m: Ops, requirements: seq<Distribution>, children: seq<Exec>) {
    exists i | 0 <= i < |requirements| && i < |children| :: Violates(m, requirements[i], children[i])
  }

  function MergeChild(m: Ops, buffer: nat, d: Distribution, child: Exec): Exec {
    if Violates(m, d, child) then Coalesce(child, buffer) else child
  }

  function MergeChildren(m: Ops, buffer: nat, requirements: seq<Distribution>, children: seq<Exec>): (r: seq<Exec>)
    requires |requirements| == |children|
    ensures |r| == |children|
    ensures forall i | 0 <= i < |children| :: r[i] == MergeChild(m, buffer, requirements[i], children[i])
  {
    seq(|children|, i requires 0 <= i < |children| => MergeChild(m, buffer, requirements[i], children[i]))
  }

  /** Bottom up. */
  function Enforce(m: Ops, buffer: nat, p: Exec): Exec
    requires WellFormedExec(p)
    decreases p, 1
  {
    match p
    case Node(op, requirements, children) =>
      var cs := EnforceAll(m, buffer, children);
      if Violated(m, requirements, cs)
      then Node(op, requirements, MergeChildren(m, buffer, requirements, cs))
      else Node(op, requirements, cs)
    case Coalesce(input, size) => Coalesce(Enforce(m, buffer, input), size)
  }

  function EnforceAll(m: Ops, buffer: nat, ps: seq<Exec>): (r: seq<Exec>)
    requires forall p | p in ps :: WellFormedExec(p)
    ensures |r| == |ps|
    decreases ps, 0
  {
    if ps == [] then [] else [Enforce(m, buffer, ps[0])] + EnforceAll(m, buffer, ps[1..])
  }

  lemma EnforceAllAt(m: Ops, buffer: nat, ps: seq<Exec>, i: nat)
    requires (forall p | p in ps :: WellFormedExec(p)) && i < |ps|
    ensures ps[i] in ps && EnforceAll(m, buffer, ps)[i] == Enforce(m, buffer, ps[i])
  {
    if i > 0 {
      EnforceAllAt(m, buffer, ps[1..], i - 1);
    }
  }

  // ---------------------------------------------------------------- meaning

  /** `merged` takes its rows from the partitions one by one, each in its own order. */
  ghost predicate Interleaving(parts: Streams, merged: seq<Row>)
    decreases |merged|
  {
    if merged == [] then forall i | 0 <= i < |parts| :: parts[i] == []
    else exists i | 0 <= i < |parts| && parts[i] != [] ::
      parts[i][0] == merged[0] && Interleaving(parts[i := parts[i][1..]], merged[1..])
  }

  /** What an operator reads of an input: partition 0 when it requires a single one. */
  function View(d: Distribution, s: Streams): Streams {
    if d.Single? && s != [] then [s[0]] else s
  }

  function Views(requirements: seq<Distribution>, ins: seq<Streams>): (r: seq<Streams>)
    requires |requirements| == |ins|
    ensures |r| == |ins|
    ensures forall i | 0 <= i < |ins| :: r[i] == View(requirements[i], ins[i])
  {
    seq(|ins|, i requires 0 <= i < |ins| => View(requirements[i], ins[i]))
  }

  /** What the engine may yield for a plan. */
  ghost predicate Yields(m: Ops, p: Exec, out: Streams)
    requires WellFormedExec(p)
    decreases p, 1
  {
    match p
    case Node(op, requirements, children) =>
      exists ins: seq<Streams> ::
        |ins| == |children| && YieldsAll(m, children, ins) && out == m.run(op, Views(requirements, ins))
    case Coalesce(input, _) =>
      exists ins: Streams, merged: seq<Row> ::
        Yields(m, input, ins) && Interleaving(ins, merged) && out == [merged]
  }

  ghost predicate YieldsAll(m: Ops, ps: seq<Exec>, ins: seq<Streams>)
    requires |ins| == |ps| && forall p | p in ps :: WellFormedExec(p)
    decreases ps, 0
  {
    ps == [] || (Yields(m, ps[0], ins[0]) && YieldsAll(m, ps[1..], ins[1..]))
  }

  /** An input of which no row may be missed: all partitions, in some interleaving when the
      operator wants one. */
  ghost predicate WholeView(d: Distribution, s: Streams, view: Streams) {
    if d.Single? && |s| > 1 then |view| == 1 && Interleaving(s, view[0]) else view == s
  }

  /** What a plan is supposed to yield: no operator misses a row of an input. */
  ghost predicate Meant(m: Ops, p: Exec, out: Streams)
    requires WellFormedExec(p)
    decreases p, 1
  {
    match p
    case Node(op, requirements, children) =>
      exists ins: seq<Streams>, views: seq<Streams> ::
        && |ins| == |views| == |children|
        && MeantAll(m, children, ins)
        && (forall i | 0 <= i < |children| :: WholeView(requirements[i], ins[i], views[i]))
        && out == m.run(op, views)
    case Coalesce(input, _) =>
      exists ins: Streams, merged: seq<Row> ::
        Meant(m, input, ins) && Interleaving(ins, merged) && out == [merged]
  }

  ghost predicate MeantAll(m: Ops, ps: seq<Exec>, ins: seq<Streams>)
    requires |ins| == |ps| && forall p | p in ps :: WellFormedExec(p)
    decreases ps, 0
  {
    ps == [] || (Meant(m, ps[0], ins[0]) && MeantAll(m, ps[1..], ins[1..]))
  }

  lemma {:induction false} YieldsAllAt(m: Ops, ps: seq<Exec>, ins: seq<Streams>, i: nat)
    requires |ins| == |ps| && (forall p | p in ps :: WellFormedExec(p)) && YieldsAll(m, ps, ins) && i < |ps|
    ensures ps[i] in ps && Yields(m, ps[i], ins[i])
    decreases |ps|
  {
    if i > 0 {
      YieldsAllAt(m, ps[1..], ins[1..], i - 1);
    }
  }

  lemma {:induction false} YieldsAllFrom(m: Ops, ps: seq<Exec>, ins: seq<Streams>)
    requires |ins| == |ps| && forall p | p in ps :: WellFormedExec(p)
    requires forall i | 0 <= i < |ps| :: ps[i] in ps && Yields(m, ps[i], ins[i])
    ensures YieldsAll(m, ps, ins)
    decreases |ps|
  {
    if ps != [] {
      var qs, rest := ps[1..], ins[1..];
      forall i | 0 <= i < |qs| ensures qs[i] in qs && Yields(m, qs[i], rest[i]) {
        assert qs[i] == ps[i + 1] && rest[i] == ins[i + 1];
      }
      YieldsAllFrom(m, qs, rest);
    }
  }

  lemma YieldsAllMeans(m: Ops, ps: seq<Exec>, ins: seq<Streams>)
    requires |ins| == |ps| && forall p | p in ps :: WellFormedExec(p)
    ensures YieldsAll(m, ps, ins) <==> forall i | 0 <= i < |ps| :: ps[i] in ps && Yields(m, ps[i], ins[i])
  {
    if YieldsAll(m, ps, ins) {
      forall i | 0 <= i < |ps| ensures ps[i] in ps && Yields(m, ps[i], ins[i]) {
        YieldsAllAt(m, ps, ins, i);
      }
    } else if forall i | 0 <= i < |ps| :: ps[i] in ps && Yields(m, ps[i], ins[i]) {
      YieldsAllFrom(m, ps, ins);
    }
  }

  lemma {:induction false} MeantAllAt(m: Ops, ps: seq<Exec>, ins: seq<Streams>, i: nat)
    requires |ins| == |ps| && (forall p | p in ps :: WellFormedExec(p)) && MeantAll(m, ps, ins) && i < |ps|
    ensures ps[i] in ps && Meant(m, ps[i], ins[i])
    decreases |ps|
  {
    if i > 0 {
      MeantAllAt(m, ps[1..], ins[1..], i - 1);
    }
  }

  lemma {:induction false} MeantAllFrom(m: Ops, ps: seq<Exec>, ins: seq<Streams>)
    requires |ins| == |ps| && forall p | p in ps :: WellFormedExec(p)
    requires forall i | 0 <= i < |ps| :: ps[i] in ps && Meant(m, ps[i], ins[i])
    ensures MeantAll(m, ps, ins)
    decreases |ps|
  {
    if ps != [] {
      var qs, rest := ps[1..], ins[1..];
      forall i | 0 <= i < |qs| ensures qs[i] in qs && Meant(m, qs[i], rest[i]) {
        assert qs[i] == ps[i + 1] && rest[i] == ins[i + 1];
      }
      MeantAllFrom(m, qs, rest);
    }
  }

  lemma MeantAllMeans(m: Ops, ps: seq<Exec>, ins: seq<Streams>)
    requires |ins| == |ps| && forall p | p in ps :: WellFormedExec(p)
    ensures MeantAll(m, ps, ins) <==> forall i | 0 <= i < |ps| :: ps[i] in ps && Meant(m, ps[i], ins[i])
  {
    if MeantAll(m, ps, ins) {
      forall i | 0 <= i < |ps| ensures ps[i] in ps && Meant(m, ps[i], ins[i]) {
        MeantAllAt(m, ps, ins, i);
      }
    } else if forall i | 0 <= i < |ps| :: ps[i] in ps && Meant(m, ps[i], ins[i]) {
      MeantAllFrom(m, ps, ins);
    }
  }

  // ---------------------------------------------------------------- normal form

  /** No operator that reads only partition 0 has an input with more. */
  predicate Normal(m: Ops, p: Exec) {
    match p
    case Node(_, requirements, children) =>
      && !Violated(m, requirements, children)
      && forall c | c in children :: Normal(m, c)
    case Coalesce(input, _) => Normal(m, input)
  }

  lemma {:induction false} EnforceNormalizes(m: Ops, buffer: nat, p: Exec)
    requires WellFormedExec(p)
    ensures WellFormedExec(Enforce(m, buffer, p)) && Normal(m, Enforce(m, buffer, p))
    decreases p
  {
    match p
    case Node(op, requirements, children) =>
      var cs := EnforceAll(m, buffer, children);
      forall i | 0 <= i < |cs| ensures WellFormedExec(cs[i]) && Normal(m, cs[i]) {
        EnforceAllAt(m, buffer, children, i);
        EnforceNormalizes(m, buffer, children[i]);
      }
    case Coalesce(input, _) => EnforceNormalizes(m, buffer, input);
  }

  /** A plan without violating edges is left alone, so a second run changes nothing. */
  lemma {:induction false} NormalUnchanged(m: Ops, buffer: nat, p: Exec)
    requires WellFormedExec(p) && Normal(m, p)
    ensures Enforce(m, buffer, p) == p
    decreases p
  {
    match p
    case Node(op, requirements, children) =>
      forall i | 0 <= i < |children| ensures EnforceAll(m, buffer, children)[i] == children[i] {
        EnforceAllAt(m, buffer, children, i);
        NormalUnchanged(m, buffer, children[i]);
      }
      assert EnforceAll(m, buffer, children) == children;
    case Coalesce(input, _) => NormalUnchanged(m, buffer, input);
  }

  lemma EnforceIdempotent(m: Ops, buffer: nat, p: Exec)
    requires WellFormedExec(p)
    ensures WellFormedExec(Enforce(m, buffer, p))
    ensures Enforce(m, buffer, Enforce(m, buffer, p)) == Enforce(m, buffer, p)
  {
    EnforceNormalizes(m, buffer, p);
    NormalUnchanged(m, buffer, Enforce(m, buffer, p));
  }
}
