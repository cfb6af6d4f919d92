/** The physical optimizer's rules in their order: stock operators become streaming ones, then
    single partitions are enforced. */
module OptimizerRules {
  import opened SinglePartition
  import opened EnforcedPlans

  /** Replaces one kind of operator by another, parameters kept, top down. */
  function Retag(from: string, to: string, p: Exec): Exec
    decreases p, 1
  {
    match p
    case Node(op, requirements, children) =>
      Node(if op.name == from then op.(name := to) else op, requirements, RetagAll(from, to, children))
    case Coalesce(input, size) => Coalesce(Retag(from, to, input), size)
  }

  function RetagAll(from: string, to: string, ps: seq<Exec>): (r: seq<Exec>)
    ensures |r| == |ps|
    decreases ps, 0
  {
    if ps == [] then [] else [Retag(from, to, ps[0])] + RetagAll(from, to, ps[1..])
  }

  lemma RetagAllAt(from: string, to: string, ps: seq<Exec>, i: nat)
    requires i < |ps|
    ensures RetagAll(from, to, ps)[i] == Retag(from, to, ps[i])
  {
    if i > 0 {
      RetagAllAt(from, to, ps[1..], i - 1);
    }
  }

  /** The four rules the session installs, first to last. */
  function Rules(m: Ops, buffer: nat, p: Exec): Exec
    requires WellFormedExec(p)
  {
    RetagWellFormed("FilterExec", "StreamingFilterExec", p);
    var filters := Retag("FilterExec", "StreamingFilterExec", p);
    RetagWellFormed("ProjectionExec", "StreamingProjectionExec", filters);
    var projections := Retag("ProjectionExec", "StreamingProjectionExec", filters);
    RetagWellFormed("UnnestExec", "StreamingUnnestExec", projections);
    Enforce(m, buffer, Retag("UnnestExec", "StreamingUnnestExec", projections))
  }

  lemma {:induction false} RetagWellFormed(from: string, to: string, p: Exec)
    requires WellFormedExec(p)
    ensures WellFormedExec(Retag(from, to, p))
    decreases p
  {
    match p
    case Node(op, requirements, children) =>
      forall i | 0 <= i < |children| ensures WellFormedExec(RetagAll(from, to, children)[i]) {
        RetagAllAt(from, to, children, i);
        RetagWellFormed(from, to, children[i]);
      }
    case Coalesce(input, _) => RetagWellFormed(from, to, input);
  }

  /** With the same parameters, the streaming operator yields what the stock one does. */
  ghost predicate SameOperator(m: Ops, from: string, to: string) {
    && (forall ps, counts :: m.parts(Operator(to, ps), counts) == m.parts(Operator(from, ps), counts))
    && (forall ps, views :: m.run(Operator(to, ps), views) == m.run(Operator(from, ps), views))
  }

  lemma {:induction false} RetagMeant(m: Ops, from: string, to: string, p: Exec, out: Streams)
    requires SameOperator(m, from, to) && WellFormedExec(p)
    ensures WellFormedExec(Retag(from, to, p))
    ensures Meant(m, Retag(from, to, p), out) <==> Meant(m, p, out)
    decreases p
  {
    RetagWellFormed(from, to, p);
    match p
    case Node(op, requirements, children) =>
      var cs := RetagAll(from, to, children);
      forall ins: seq<Streams> | |ins| == |children| ensures MeantAll(m, cs, ins) <==> MeantAll(m, children, ins) {
        RetagMeantAll(m, from, to, children, ins);
      }
    case Coalesce(input, _) =>
      forall s ensures Meant(m, Retag(from, to, input), s) <==> Meant(m, input, s) {
        RetagMeant(m, from, to, input, s);
      }
  }

  lemma {:induction false} RetagMeantAll(m: Ops, from: string, to: string, ps: seq<Exec>, ins: seq<Streams>)
    requires SameOperator(m, from, to) && |ins| == |ps| && forall p | p in ps :: WellFormedExec(p)
    ensures forall c | c in RetagAll(from, to, ps) :: WellFormedExec(c)
    ensures MeantAll(m, RetagAll(from, to, ps), ins) <==> MeantAll(m, ps, ins)
    decreases ps
  {
    if ps != [] {
      RetagMeant(m, from, to, ps[0], ins[0]);
      RetagMeantAll(m, from, to, ps[1..], ins[1..]);
      assert RetagAll(from, to, ps)[1..] == RetagAll(from, to, ps[1..]);
    }
  }

  /** The merges of a plan, in order from the top, with their buffer sizes. */
  function BufferSizes(p: Exec): seq<nat>
    decreases p, 1
  {
    match p
    case Node(_, _, children) => BufferSizesOfAll(children)
    case Coalesce(input, size) => [size] + BufferSizes(input)
  }

  function BufferSizesOfAll(ps: seq<Exec>): seq<nat>
    decreases ps, 0
  {
    if ps == [] then [] else BufferSizes(ps[0]) + BufferSizesOfAll(ps[1..])
  }

  /** Replacing operators leaves the merges that a plan has as they are. */
  lemma {:induction false} RetagKeepsBuffers(from: string, to: string, p: Exec)
    ensures BufferSizes(Retag(from, to, p)) == BufferSizes(p)
    decreases p, 1
  {
    match p
    case Node(_, _, children) => RetagKeepsAllBuffers(from, to, children);
    case Coalesce(input, _) => RetagKeepsBuffers(from, to, input);
  }

  lemma {:induction false} RetagKeepsAllBuffers(from: string, to: string, ps: seq<Exec>)
    ensures BufferSizesOfAll(RetagAll(from, to, ps)) == BufferSizesOfAll(ps)
    decreases ps, 0
  {
    if ps != [] {
      RetagKeepsBuffers(from, to, ps[0]);
      RetagKeepsAllBuffers(from, to, ps[1..]);
      assert RetagAll(from, to, ps)[1..] == RetagAll(from, to, ps[1..]);
    }
  }

  predicate Mentions(op: string, p: Exec) {
    match p
    case Node(o, _, children) => o.name == op || exists c | c in children :: Mentions(op, c)
    case Coalesce(input, _) => Mentions(op, input)
  }

  lemma {:induction false} RetagMentions(from: string, to: string, p: Exec, op: string)
    requires from != to
    ensures Mentions(op, Retag(from, to, p))
       <==> (op != from && (Mentions(op, p) || (op == to && Mentions(from, p))))
    decreases p
  {
    match p
    case Node(o, requirements, children) =>
      var cs := RetagAll(from, to, children);
      forall i | 0 <= i < |children|
        ensures children[i] in children && cs[i] in cs
        ensures Mentions(op, cs[i])
           <==> (op != from && (Mentions(op, children[i]) || (op == to && Mentions(from, children[i]))))
      {
        RetagAllAt(from, to, children, i);
        RetagMentions(from, to, children[i], op);
      }
    case Coalesce(input, _) => RetagMentions(from, to, input, op);
  }

  lemma {:induction false} EnforceMentions(m: Ops, buffer: nat, p: Exec, op: string)
    requires WellFormedExec(p)
    ensures Mentions(op, Enforce(m, buffer, p)) <==> Mentions(op, p)
    decreases p
  {
    match p
    case Node(o, requirements, children) =>
      var cs := EnforceAll(m, buffer, children);
      var ms := MergeChildren(m, buffer, requirements, cs);
      EnforcedNode(m, buffer, o, requirements, children);
      forall i | 0 <= i < |children|
        ensures children[i] in children && ms[i] in ms && (Mentions(op, ms[i]) <==> Mentions(op, children[i]))
      {
        EnforceAllAt(m, buffer, children, i);
        EnforceMentions(m, buffer, children[i], op);
        assert ms[i] == MergeChild(m, buffer, requirements[i], cs[i]);
      }
    case Coalesce(input, _) => EnforceMentions(m, buffer, input, op);
  }

  ghost predicate StreamingTwins(m: Ops) {
    && SameOperator(m, "FilterExec", "StreamingFilterExec")
    && SameOperator(m, "ProjectionExec", "StreamingProjectionExec")
    && SameOperator(m, "UnnestExec", "StreamingUnnestExec")
  }

  /** The whole optimizer: what comes out yields exactly what the stock plan is meant to, and has
      no stock operator and no input of which rows would be missed. */
  lemma RulesAreSound(m: Ops, buffer: nat, p: Exec, out: Streams)
    requires Sound(m) && StreamingTwins(m) && WellFormedExec(p)
    ensures WellFormedExec(Rules(m, buffer, p)) && Normal(m, Rules(m, buffer, p))
    ensures Yields(m, Rules(m, buffer, p), out) <==> Meant(m, p, out)
  {
    RetagMeant(m, "FilterExec", "StreamingFilterExec", p, out);
    var filters := Retag("FilterExec", "StreamingFilterExec", p);
    RetagMeant(m, "ProjectionExec", "StreamingProjectionExec", filters, out);
    var projections := Retag("ProjectionExec", "StreamingProjectionExec", filters);
    RetagMeant(m, "UnnestExec", "StreamingUnnestExec", projections, out);
    var last := Retag("UnnestExec", "StreamingUnnestExec", projections);
    EnforceNormalizes(m, buffer, last);
    EnforceIsSound(m, buffer, last, out);
  }

  lemma RulesLeaveNoStockOperator(m: Ops, buffer: nat, p: Exec)
    requires WellFormedExec(p)
    ensures forall op | op in ["FilterExec", "ProjectionExec", "UnnestExec"] :: !Mentions(op, Rules(m, buffer, p))
  {
    forall op | op in ["FilterExec", "ProjectionExec", "UnnestExec"] ensures !Mentions(op, Rules(m, buffer, p)) {
      var filters := Retag("FilterExec", "StreamingFilterExec", p);
      RetagWellFormed("FilterExec", "StreamingFilterExec", p);
      var projections := Retag("ProjectionExec", "StreamingProjectionExec", filters);
      RetagWellFormed("ProjectionExec", "StreamingProjectionExec", filters);
      var last := Retag("UnnestExec", "StreamingUnnestExec", projections);
      RetagWellFormed("UnnestExec", "StreamingUnnestExec", projections);
      OperatorNames();
      RetagMentions("FilterExec", "StreamingFilterExec", p, op);
      RetagMentions("ProjectionExec", "StreamingProjectionExec", filters, op);
      RetagMentions("UnnestExec", "StreamingUnnestExec", projections, op);
      EnforceMentions(m, buffer, last, op);
    }
  }

  lemma OperatorNames()
    ensures forall op | op in ["FilterExec", "ProjectionExec", "UnnestExec"] ::
              op !in ["StreamingFilterExec", "StreamingProjectionExec", "StreamingUnnestExec"]
  {
    assert |"FilterExec"| == 10 && |"ProjectionExec"| == 14 && |"UnnestExec"| == 10;
    assert |"StreamingFilterExec"| == 19 && |"StreamingProjectionExec"| == 23 && |"StreamingUnnestExec"| == 19;
  }
}
