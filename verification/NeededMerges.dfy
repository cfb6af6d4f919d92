/** The enforced plan differs from the original by added merges alone, and each of them is needed. */
module NeededMerges {
  import opened SinglePartition
  import opened EnforcedPlans

  /** `q` is `p` with merges of the given buffer size put on violating edges and nowhere else. The
      merges that `p` already has are matched one to one. */
  predicate Plus(m: Ops, buffer: nat, p: Exec, q: Exec)
    decreases p
  {
    match p
    case Coalesce(input, size) => q.Coalesce? && q.bufferSize == size && Plus(m, buffer, input, q.input)
    case Node(op, requirements, children) =>
      && q.Node? && q.op == op && q.requirements == requirements
      && |q.children| == |children| == |requirements|
      && forall i | 0 <= i < |children| ::
           || Plus(m, buffer, children[i], q.children[i])
           || (Added(m, buffer, requirements[i], q.children[i]) && Plus(m, buffer, children[i], q.children[i].input))
  }

  /** A merge between an operator that needs a single input and a plan that yields several. */
  predicate Added(m: Ops, buffer: nat, d: Distribution, q: Exec) {
    q.Coalesce? && q.bufferSize == buffer && Violates(m, d, q.input)
  }

  lemma {:induction false} EnforceAddsOnlyNeeded(m: Ops, buffer: nat, p: Exec)
    requires WellFormedExec(p)
    ensures Plus(m, buffer, p, Enforce(m, buffer, p))
    decreases p
  {
    match p
    case Coalesce(input, _) => EnforceAddsOnlyNeeded(m, buffer, input);
    case Node(op, requirements, children) =>
      var cs := EnforceAll(m, buffer, children);
      var ms := MergeChildren(m, buffer, requirements, cs);
      EnforcedNode(m, buffer, op, requirements, children);
      forall i | 0 <= i < |children|
        ensures Plus(m, buffer, children[i], cs[i]) && ms[i] == MergeChild(m, buffer, requirements[i], cs[i])
      {
        EnforceAllAt(m, buffer, children, i);
        EnforceAddsOnlyNeeded(m, buffer, children[i]);
      }
  }

  lemma {:induction false} NormalPlusIsEnforced(m: Ops, buffer: nat, p: Exec, q: Exec)
    requires WellFormedExec(p) && Normal(m, q) && Plus(m, buffer, p, q)
    ensures q == Enforce(m, buffer, p)
    decreases p
  {
    match p
    case Coalesce(input, _) => NormalPlusIsEnforced(m, buffer, input, q.input);
    case Node(op, requirements, children) =>
      var cs := EnforceAll(m, buffer, children);
      var ms := MergeChildren(m, buffer, requirements, cs);
      EnforcedNode(m, buffer, op, requirements, children);
      forall i | 0 <= i < |ms| ensures q.children[i] == ms[i] {
        assert q.children[i] in q.children && Normal(m, q.children[i]);
        EnforceAllAt(m, buffer, children, i);
        if Plus(m, buffer, children[i], q.children[i]) {
          NormalPlusIsEnforced(m, buffer, children[i], q.children[i]);
          assert !Violates(m, requirements[i], q.children[i]);
        } else {
          NormalPlusIsEnforced(m, buffer, children[i], q.children[i].input);
        }
        assert ms[i] == MergeChild(m, buffer, requirements[i], cs[i]);
      }
      assert q.children == ms;
  }

  /** The enforced plan is the one normal plan that is the original with merges added on violating
      edges only. */
  lemma EnforceIsUnique(m: Ops, buffer: nat, p: Exec, q: Exec)
    requires WellFormedExec(p)
    ensures q == Enforce(m, buffer, p) <==> Normal(m, q) && Plus(m, buffer, p, q)
  {
    EnforceNormalizes(m, buffer, p);
    EnforceAddsOnlyNeeded(m, buffer, p);
    if Normal(m, q) && Plus(m, buffer, p, q) {
      NormalPlusIsEnforced(m, buffer, p, q);
    }
  }
}
