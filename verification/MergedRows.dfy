/** What a merge does to rows: none is lost, none is doubled, and no partition is reordered. */
module MergedRows {
  import opened Plans
  import opened SinglePartition
  import opened EnforcedPlans

  function AllRows(parts: Streams): multiset<Row> {
    if parts == [] then multiset{} else multiset(parts[0]) + AllRows(parts[1..])
  }

  ghost predicate Subsequence(part: seq<Row>, whole: seq<Row>) {
    if part == [] then true
    else whole != [] && (Subsequence(part, whole[1..]) || (part[0] == whole[0] && Subsequence(part[1..], whole[1..])))
  }

  lemma {:induction false} TakeOne(parts: Streams, i: nat)
    requires i < |parts| && parts[i] != []
    ensures AllRows(parts) == AllRows(parts[i := parts[i][1..]]) + multiset{parts[i][0]}
  {
    var next := parts[i := parts[i][1..]];
    if i == 0 {
      assert parts[0] == [parts[0][0]] + parts[0][1..];
      assert next[1..] == parts[1..];
    } else {
      TakeOne(parts[1..], i - 1);
      assert next[1..] == parts[1..][i - 1 := parts[i][1..]];
    }
  }

  lemma {:induction false} EmptyParts(parts: Streams)
    requires forall i | 0 <= i < |parts| :: parts[i] == []
    ensures AllRows(parts) == multiset{}
  {
    if parts != [] {
      EmptyParts(parts[1..]);
    }
  }

  lemma SubsequenceMore(part: seq<Row>, row: Row, whole: seq<Row>)
    requires Subsequence(part, whole)
    ensures Subsequence(part, [row] + whole) && Subsequence([row] + part, [row] + whole)
  {
    assert ([row] + whole)[1..] == whole && ([row] + part)[1..] == part;
  }

  /** A merge passes on every row of every partition, and each partition in its own order. */
  lemma {:induction false} MergeKeepsRows(parts: Streams, merged: seq<Row>)
    requires Interleaving(parts, merged)
    ensures multiset(merged) == AllRows(parts)
    ensures forall k | 0 <= k < |parts| :: Subsequence(parts[k], merged)
    decreases |merged|
  {
    if merged == [] {
      EmptyParts(parts);
    } else {
      var i := FirstTaken(parts, merged);
      MergeKeepsRows(parts[i := parts[i][1..]], merged[1..]);
      TakenRows(parts, i, merged);
      forall k | 0 <= k < |parts| ensures Subsequence(parts[k], merged) {
        TakenSubsequence(parts, i, k, merged);
      }
    }
  }

  lemma FirstTaken(parts: Streams, merged: seq<Row>) returns (i: nat)
    requires Interleaving(parts, merged) && merged != []
    ensures i < |parts| && parts[i] != [] && parts[i][0] == merged[0]
    ensures Interleaving(parts[i := parts[i][1..]], merged[1..])
  {
    i :| 0 <= i < |parts| && parts[i] != [] && parts[i][0] == merged[0]
      && Interleaving(parts[i := parts[i][1..]], merged[1..]);
  }

  lemma TakenRows(parts: Streams, i: nat, merged: seq<Row>)
    requires i < |parts| && parts[i] != [] && merged != [] && parts[i][0] == merged[0]
    requires multiset(merged[1..]) == AllRows(parts[i := parts[i][1..]])
    ensures multiset(merged) == AllRows(parts)
  {
    TakeOne(parts, i);
    assert merged == [merged[0]] + merged[1..];
  }

  lemma TakenSubsequence(parts: Streams, i: nat, k: nat, merged: seq<Row>)
    requires i < |parts| && k < |parts| && parts[i] != [] && merged != [] && parts[i][0] == merged[0]
    requires Subsequence(parts[i := parts[i][1..]][k], merged[1..])
    ensures Subsequence(parts[k], merged)
  {
    SubsequenceMore(parts[i := parts[i][1..]][k], merged[0], merged[1..]);
    assert merged == [merged[0]] + merged[1..];
    assert parts[i] == [parts[i][0]] + parts[i][1..];
  }

  function Flatten(parts: Streams): seq<Row> {
    if parts == [] then [] else parts[0] + Flatten(parts[1..])
  }

  /** There is always some way to merge. */
  lemma {:induction false} SomeMerge(parts: Streams)
    ensures Interleaving(parts, Flatten(parts))
    decreases |Flatten(parts)|
  {
    if i :| 0 <= i < |parts| && parts[i] != [] && forall j | 0 <= j < i :: parts[j] == [] {
      FlattenFrom(parts, i);
      SomeMerge(parts[i := parts[i][1..]]);
      assert parts[i][0] == Flatten(parts)[0];
    } else {
      NoFirst(parts, |parts|);
    }
  }

  lemma {:induction false} FlattenFrom(parts: Streams, i: nat)
    requires i < |parts| && parts[i] != [] && forall j | 0 <= j < i :: parts[j] == []
    ensures Flatten(parts) == [parts[i][0]] + Flatten(parts[i := parts[i][1..]])
  {
    var next := parts[i := parts[i][1..]];
    if i == 0 {
      assert next[1..] == parts[1..];
    } else {
      FlattenFrom(parts[1..], i - 1);
      assert next[1..] == parts[1..][i - 1 := parts[i][1..]];
    }
  }

  lemma {:induction false} NoFirst(parts: Streams, n: nat)
    requires n <= |parts|
    requires !exists i :: 0 <= i < |parts| && parts[i] != [] && forall j | 0 <= j < i :: parts[j] == []
    ensures forall i | 0 <= i < n :: parts[i] == []
    ensures n == |parts| ==> Flatten(parts) == []
  {
    if n > 0 {
      NoFirst(parts, n - 1);
    }
    if n == |parts| {
      FlattenEmpty(parts);
    }
  }

  lemma FlattenEmpty(parts: Streams)
    requires forall i | 0 <= i < |parts| :: parts[i] == []
    ensures Flatten(parts) == []
  {
  }

  /** Why the rule is needed: reading partition 0 alone loses a row exactly when another partition
      has one. */
  lemma {:induction false} FirstPartitionAlone(s: Streams)
    requires s != []
    ensures AllRows(View(Single, s)) == AllRows(s) <==> forall i | 1 <= i < |s| :: s[i] == []
  {
    assert View(Single, s)[1..] == [];
    assert AllRows(View(Single, s)) == multiset(s[0]);
    if forall i | 1 <= i < |s| :: s[i] == [] {
      EmptyParts(s[1..]);
    } else {
      var i :| 1 <= i < |s| && s[i] != [];
      RowsOfPart(s[1..], i - 1);
      assert |AllRows(s)| == |multiset(s[0])| + |AllRows(s[1..])|;
    }
  }

  lemma {:induction false} RowsOfPart(parts: Streams, i: nat)
    requires i < |parts|
    ensures multiset(parts[i]) <= AllRows(parts) && |parts[i]| <= |AllRows(parts)|
  {
    if i > 0 {
      RowsOfPart(parts[1..], i - 1);
    }
  }

  ghost predicate SeesAll(s: Streams, view: Streams) {
    && |view| == 1
    && AllRows(view) == AllRows(s)
    && forall k | 0 <= k < |s| :: Subsequence(s[k], view[0])
  }

  lemma WholeViewSeesAll(d: Distribution, s: Streams, view: Streams)
    requires d.Single? && s != [] && WholeView(d, s, view)
    ensures SeesAll(s, view)
  {
    if |s| > 1 {
      MergeKeepsRows(s, view[0]);
      assert view[1..] == [];
    } else {
      Itself(s[0]);
    }
  }

  /** In an enforced plan, an operator that pulls one partition sees every row its child yields,
      each of the child's partitions in order. */
  lemma SingleInputSeesAll(m: Ops, buffer: nat, d: Distribution, child: Exec, view: Streams)
    requires Sound(m) && WellFormedExec(child) && d.Single?
    requires WellFormedExec(Enforce(m, buffer, child))
    requires exists s :: Yields(m, MergeChild(m, buffer, d, Enforce(m, buffer, child)), s) && view == View(d, s)
    ensures exists s :: Meant(m, child, s) && SeesAll(s, view)
  {
    var c := Enforce(m, buffer, child);
    EnforceNormalizes(m, buffer, child);
    EdgeViews(m, buffer, d, c, view);
    var s :| Yields(m, c, s) && WholeView(d, s, view);
    YieldsCount(m, c, s);
    PartitionsPositive(m, c);
    EnforceIsSound(m, buffer, child, s);
    WholeViewSeesAll(d, s, view);
  }

  lemma {:induction false} Itself(part: seq<Row>)
    ensures Subsequence(part, part)
  {
    if part != [] {
      Itself(part[1..]);
    }
  }

  // ---------------------------------------------------------------- every plan yields something

  lemma {:induction false} SomeOutput(m: Ops, p: Exec) returns (out: Streams)
    requires WellFormedExec(p)
    ensures Yields(m, p, out)
    decreases p, 1
  {
    match p
    case Node(op, requirements, children) =>
      var ins := SomeOutputs(m, children);
      out := m.run(op, Views(requirements, ins));
    case Coalesce(input, _) =>
      var ins := SomeOutput(m, input);
      SomeMerge(ins);
      out := [Flatten(ins)];
  }

  lemma {:induction false} SomeOutputs(m: Ops, ps: seq<Exec>) returns (ins: seq<Streams>)
    requires forall p | p in ps :: WellFormedExec(p)
    ensures |ins| == |ps| && YieldsAll(m, ps, ins)
    decreases ps, 0
  {
    if ps == [] {
      ins := [];
    } else {
      var first := SomeOutput(m, ps[0]);
      var rest := SomeOutputs(m, ps[1..]);
      ins := [first] + rest;
      assert ins[1..] == rest;
    }
  }

  /** Soundness is not about nothing: every enforced plan yields some output, and the original is
      meant to yield it. */
  lemma EnforcedPlanYields(m: Ops, buffer: nat, p: Exec)
    requires Sound(m) && WellFormedExec(p)
    ensures WellFormedExec(Enforce(m, buffer, p))
    ensures exists out :: Yields(m, Enforce(m, buffer, p), out) && Meant(m, p, out)
  {
    EnforceNormalizes(m, buffer, p);
    var out := SomeOutput(m, Enforce(m, buffer, p));
    EnforceIsSound(m, buffer, p, out);
  }
}
