/** Soundness of enforcing single partitions: the enforced plan yields what the original is meant
    to. */
module EnforcedPlans {
  import opened SinglePartition

  /** A normal plan yields as many partitions as it declares. */
  lemma {:induction false} YieldsCount(m: Ops, p: Exec, out: Streams)
    requires Sound(m) && WellFormedExec(p) && Normal(m, p) && Yields(m, p, out)
    ensures |out| == Partitions(m, p)
    decreases p
  {
    match p
    case Node(op, requirements, children) =>
      var ins: seq<Streams> :|
        |ins| == |children| && YieldsAll(m, children, ins) && out == m.run(op, Views(requirements, ins));
      forall i | 0 <= i < |children| ensures |Views(requirements, ins)[i]| == Partitions(m, children[i]) {
        YieldsAllAt(m, children, ins, i);
        YieldsCount(m, children[i], ins[i]);
        assert !Violates(m, requirements[i], children[i]);
        ViewCount(m, requirements[i], children[i], ins[i]);
      }
      CountsAre(m, children, Views(requirements, ins));
    case Coalesce(_, _) =>
  }

  lemma ViewCount(m: Ops, d: Distribution, child: Exec, s: Streams)
    requires Sound(m) && |s| == Partitions(m, child) && !Violates(m, d, child)
    ensures |View(d, s)| == Partitions(m, child)
  {
    PartitionsPositive(m, child);
  }

  lemma CountsAre(m: Ops, children: seq<Exec>, views: seq<Streams>)
    requires |views| == |children| && forall i | 0 <= i < |children| :: |views[i]| == Partitions(m, children[i])
    ensures Counts(views) == PartitionsAll(m, children)
  {
  }

  lemma PartitionsPositive(m: Ops, p: Exec)
    requires Sound(m)
    ensures Partitions(m, p) >= 1
  {
  }

  /** One edge of an enforced plan, read by its operator: exactly the whole views of the child. */
  lemma EdgeViews(m: Ops, buffer: nat, d: Distribution, child: Exec, view: Streams)
    requires Sound(m) && WellFormedExec(child) && Normal(m, child)
    ensures (exists s :: Yields(m, MergeChild(m, buffer, d, child), s) && view == View(d, s))
       <==> (exists s :: Yields(m, child, s) && WholeView(d, s, view))
  {
    PartitionsPositive(m, child);
    if Violates(m, d, child) {
      if s :| Yields(m, Coalesce(child, buffer), s) && view == View(d, s) {
        var ins, merged :| Yields(m, child, ins) && Interleaving(ins, merged) && s == [merged];
        YieldsCount(m, child, ins);
        assert WholeView(d, ins, view);
      }
      if s :| Yields(m, child, s) && WholeView(d, s, view) {
        YieldsCount(m, child, s);
        assert view == [view[0]];
        assert Yields(m, Coalesce(child, buffer), [view[0]]);
        assert view == View(d, [view[0]]);
      }
    } else {
      forall s | Yields(m, child, s) ensures View(d, s) == s && (WholeView(d, s, view) <==> view == s) {
        YieldsCount(m, child, s);
      }
    }
  }

  /** An enforced child agrees with the child it came from. */
  ghost predicate Agrees(m: Ops, enforced: Exec, child: Exec) {
    && WellFormedExec(child) && WellFormedExec(enforced) && Normal(m, enforced)
    && forall s :: Yields(m, enforced, s) <==> Meant(m, child, s)
  }

  ghost predicate AllAgree(m: Ops, cs: seq<Exec>, children: seq<Exec>) {
    |cs| == |children| && forall i | 0 <= i < |cs| :: Agrees(m, cs[i], children[i])
  }

  /** `s` is what `child` is meant to yield and `view` all of it. */
  ghost predicate MeantView(m: Ops, d: Distribution, child: Exec, s: Streams, view: Streams)
    requires WellFormedExec(child)
  {
    Meant(m, child, s) && WholeView(d, s, view)
  }

  ghost predicate ReadView(m: Ops, d: Distribution, child: Exec, s: Streams, view: Streams)
    requires WellFormedExec(child)
  {
    Yields(m, child, s) && view == View(d, s)
  }

  lemma EdgeMeant(m: Ops, buffer: nat, d: Distribution, c: Exec, child: Exec, s: Streams)
    requires Sound(m) && Agrees(m, c, child) && Yields(m, MergeChild(m, buffer, d, c), s)
    ensures exists t :: MeantView(m, d, child, t, View(d, s))
  {
    EdgeViews(m, buffer, d, c, View(d, s));
    var t :| Yields(m, c, t) && WholeView(d, t, View(d, s));
    assert MeantView(m, d, child, t, View(d, s));
  }

  lemma EdgeRead(m: Ops, buffer: nat, d: Distribution, c: Exec, child: Exec, t: Streams, view: Streams)
    requires Sound(m) && Agrees(m, c, child) && MeantView(m, d, child, t, view)
    ensures exists s :: ReadView(m, d, MergeChild(m, buffer, d, c), s, view)
  {
    EdgeViews(m, buffer, d, c, view);
    assert Yields(m, c, t);
    var s :| Yields(m, MergeChild(m, buffer, d, c), s) && view == View(d, s);
    assert ReadView(m, d, MergeChild(m, buffer, d, c), s, view);
  }

  ghost predicate HasMeantView(m: Ops, d: Distribution, child: Exec, view: Streams)
    requires WellFormedExec(child)
  {
    exists s :: MeantView(m, d, child, s, view)
  }

  ghost predicate HasReadView(m: Ops, d: Distribution, child: Exec, view: Streams)
    requires WellFormedExec(child)
  {
    exists s :: ReadView(m, d, child, s, view)
  }

  /** Every edge of a node has a view of the wanted kind, and together they make up the node's. */
  lemma TailViews(m: Ops, requirements: seq<Distribution>, children: seq<Exec>, views: seq<Streams>)
    requires |requirements| == |children| == |views| > 0
    requires forall c | c in children :: WellFormedExec(c)
    requires forall i | 0 <= i < |children| ::
      children[i] in children && HasMeantView(m, requirements[i], children[i], views[i])
    ensures forall i | 0 <= i < |children| - 1 ::
      children[1..][i] in children[1..] && HasMeantView(m, requirements[1..][i], children[1..][i], views[1..][i])
  {
    forall i | 0 <= i < |children| - 1
      ensures HasMeantView(m, requirements[1..][i], children[1..][i], views[1..][i])
    {
      assert HasMeantView(m, requirements[i + 1], children[i + 1], views[i + 1]);
    }
  }

  lemma {:induction false} GatherMeant(m: Ops, requirements: seq<Distribution>, children: seq<Exec>,
      views: seq<Streams>)
      returns (ins: seq<Streams>)
    requires |requirements| == |children| == |views|
    requires forall c | c in children :: WellFormedExec(c)
    requires forall i | 0 <= i < |children| ::
      children[i] in children && HasMeantView(m, requirements[i], children[i], views[i])
    ensures |ins| == |children| && MeantAll(m, children, ins)
    ensures forall i | 0 <= i < |children| :: WholeView(requirements[i], ins[i], views[i])
  {
    if children == [] {
      ins := [];
    } else {
      assert HasMeantView(m, requirements[0], children[0], views[0]);
      var s :| MeantView(m, requirements[0], children[0], s, views[0]);
      TailViews(m, requirements, children, views);
      var rest := GatherMeant(m, requirements[1..], children[1..], views[1..]);
      ins := [s] + rest;
      assert ins[1..] == rest;
      forall i | 0 < i < |children| ensures WholeView(requirements[i], ins[i], views[i]) {
        assert WholeView(requirements[1..][i - 1], rest[i - 1], views[1..][i - 1]);
      }
    }
  }

  lemma {:induction false} GatherRead(m: Ops, requirements: seq<Distribution>, children: seq<Exec>, views: seq<Streams>)
      returns (ins: seq<Streams>)
    requires |requirements| == |children| == |views|
    requires forall c | c in children :: WellFormedExec(c)
    requires forall i | 0 <= i < |children| ::
      children[i] in children && HasReadView(m, requirements[i], children[i], views[i])
    ensures |ins| == |children| && YieldsAll(m, children, ins)
    ensures views == Views(requirements, ins)
  {
    if children == [] {
      ins := [];
    } else {
      assert HasReadView(m, requirements[0], children[0], views[0]);
      var s :| ReadView(m, requirements[0], children[0], s, views[0]);
      forall i | 0 <= i < |children| - 1 ensures HasReadView(m, requirements[1..][i], children[1..][i], views[1..][i]) {
        assert HasReadView(m, requirements[i + 1], children[i + 1], views[i + 1]);
      }
      var rest := GatherRead(m, requirements[1..], children[1..], views[1..]);
      ins := [s] + rest;
      assert ins[1..] == rest;
      assert Views(requirements, ins)[1..] == Views(requirements[1..], rest);
      assert views == [views[0]] + views[1..];
    }
  }

  lemma NodeMeant(m: Ops, buffer: nat, op: Operator, requirements: seq<Distribution>, cs: seq<Exec>,
      children: seq<Exec>, out: Streams)
    requires Sound(m) && AllAgree(m, cs, children) && |requirements| == |cs|
    requires WellFormedExec(Node(op, requirements, children))
    requires WellFormedExec(Node(op, requirements, MergeChildren(m, buffer, requirements, cs)))
    requires Yields(m, Node(op, requirements, MergeChildren(m, buffer, requirements, cs)), out)
    ensures Meant(m, Node(op, requirements, children), out)
  {
    var ms := MergeChildren(m, buffer, requirements, cs);
    var ins: seq<Streams> :|
      |ins| == |ms| && YieldsAll(m, ms, ins) && out == m.run(op, Views(requirements, ins));
    var views := Views(requirements, ins);
    YieldsAllMeans(m, ms, ins);
    forall i | 0 <= i < |children|
      ensures children[i] in children && HasMeantView(m, requirements[i], children[i], views[i])
    {
      assert Agrees(m, cs[i], children[i]);
      EdgeMeant(m, buffer, requirements[i], cs[i], children[i], ins[i]);
    }
    var whole := GatherMeant(m, requirements, children, views);
  }

  lemma NodeRead(m: Ops, buffer: nat, op: Operator, requirements: seq<Distribution>, cs: seq<Exec>,
      children: seq<Exec>, out: Streams)
    requires Sound(m) && AllAgree(m, cs, children) && |requirements| == |cs|
    requires WellFormedExec(Node(op, requirements, children))
    requires WellFormedExec(Node(op, requirements, MergeChildren(m, buffer, requirements, cs)))
    requires Meant(m, Node(op, requirements, children), out)
    ensures Yields(m, Node(op, requirements, MergeChildren(m, buffer, requirements, cs)), out)
  {
    var ms := MergeChildren(m, buffer, requirements, cs);
    var ins: seq<Streams>, views: seq<Streams> :|
      && |ins| == |views| == |children|
      && MeantAll(m, children, ins)
      && (forall i | 0 <= i < |children| :: WholeView(requirements[i], ins[i], views[i]))
      && out == m.run(op, views);
    MeantAllMeans(m, children, ins);
    forall i | 0 <= i < |ms| ensures ms[i] in ms && HasReadView(m, requirements[i], ms[i], views[i]) {
      assert Agrees(m, cs[i], children[i]);
      assert MeantView(m, requirements[i], children[i], ins[i], views[i]);
      EdgeRead(m, buffer, requirements[i], cs[i], children[i], ins[i], views[i]);
      assert ms[i] in ms;
    }
    var read := GatherRead(m, requirements, ms, views);
  }

  /** The main result: the enforced plan yields exactly what the original plan is meant to. */
  lemma {:induction false} EnforceIsSound(m: Ops, buffer: nat, p: Exec, out: Streams)
    requires Sound(m) && WellFormedExec(p)
    ensures WellFormedExec(Enforce(m, buffer, p))
    ensures Yields(m, Enforce(m, buffer, p), out) <==> Meant(m, p, out)
    decreases p
  {
    match p
    case Node(op, requirements, children) =>
      var cs := EnforceAll(m, buffer, children);
      forall i | 0 <= i < |children| ensures Agrees(m, cs[i], children[i]) {
        EnforceAllAt(m, buffer, children, i);
        EnforceNormalizes(m, buffer, children[i]);
        forall s ensures Yields(m, cs[i], s) <==> Meant(m, children[i], s) {
          EnforceIsSound(m, buffer, children[i], s);
        }
      }
      EnforcedNode(m, buffer, op, requirements, children);
      if Meant(m, p, out) {
        NodeRead(m, buffer, op, requirements, cs, children, out);
      }
      if Yields(m, Enforce(m, buffer, p), out) {
        NodeMeant(m, buffer, op, requirements, cs, children, out);
      }
    case Coalesce(input, size) =>
      forall s
        ensures WellFormedExec(Enforce(m, buffer, input))
        ensures Yields(m, Enforce(m, buffer, input), s) <==> Meant(m, input, s)
      {
        EnforceIsSound(m, buffer, input, s);
      }
      EnforceNormalizes(m, buffer, input);
  }

  lemma EnforcedNode(m: Ops, buffer: nat, op: Operator, requirements: seq<Distribution>, children: seq<Exec>)
    requires WellFormedExec(Node(op, requirements, children))
    ensures WellFormedExec(Enforce(m, buffer, Node(op, requirements, children)))
    ensures Enforce(m, buffer, Node(op, requirements, children))
         == Node(op, requirements, MergeChildren(m, buffer, requirements, EnforceAll(m, buffer, children)))
  {
    var cs := EnforceAll(m, buffer, children);
    EnforceNormalizes(m, buffer, Node(op, requirements, children));
    if !Violated(m, requirements, cs) {
      assert MergeChildren(m, buffer, requirements, cs) == cs;
    }
  }
}
