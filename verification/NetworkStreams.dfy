/** What stands behind a marker, and behind the end, of a stream at any depth of merging. */
module NetworkStreams {
  import opened MarkerAlignment
  import opened Network
  import A = AlignmentRuns
  import P = AtLeastOnce

  // ---------------------------------------------------------------- markers in a stream

  lemma MarksSnoc(items: seq<Item>, item: Item)
    ensures Marks(items + [item]) == Marks(items) + if item.Mark? then [item.epoch] else []
  {
    assert (items + [item])[..|items|] == items;
  }

  lemma {:induction false} MarkAt(items: seq<Item>, e: Epoch)
    ensures e in Marks(items) <==> Mark(e) in items
    decreases |items|
  {
    if items != [] {
      var n := |items| - 1;
      MarkAt(items[..n], e);
      assert items == items[..n] + [items[n]];
    }
  }

  lemma {:induction false} MarksPrefix(items: seq<Item>, n: nat)
    requires n <= |items|
    ensures Marks(items[..n]) <= Marks(items)
    decreases |items|
  {
    if n == |items| {
      assert items[..n] == items;
    } else {
      var last := |items| - 1;
      MarksPrefix(items[..last], n);
      assert items[..last][..n] == items[..n];
    }
  }

  lemma {:induction false} MarksOfMarks(items: seq<Item>, epochs: seq<Epoch>)
    ensures Marks(items + MarkItems(epochs)) == Marks(items) + epochs
  {
    if epochs == [] {
      assert items + MarkItems(epochs) == items;
    } else {
      var n := |epochs| - 1;
      MarksOfMarks(items, epochs[..n]);
      MarksSnoc(items + MarkItems(epochs[..n]), Mark(epochs[n]));
      assert items + MarkItems(epochs) == items + MarkItems(epochs[..n]) + [Mark(epochs[n])];
    }
  }

  /** A marker among the first n items stands at a position below n. */
  lemma MarkPosition(items: seq<Item>, n: nat, e: Epoch) returns (q: nat)
    requires n <= |items| && e in Marks(items[..n])
    ensures q < n && items[q] == Mark(e)
  {
    MarkAt(items[..n], e);
    q :| 0 <= q < n && items[..n][q] == Mark(e);
  }

  lemma NextMarker(items: seq<Item>, n: nat)
    requires n < |items|
    ensures Marks(items[..n + 1]) == Marks(items[..n]) + if items[n].Mark? then [items[n].epoch] else []
  {
    assert items[..n + 1] == items[..n] + [items[n]];
    MarksSnoc(items[..n], items[n]);
  }

  /** A marker that is still to pass has not passed before. */
  lemma NextIsNew(items: seq<Item>, n: nat)
    requires n < |items| && items[n].Mark? && A.Unique(Marks(items))
    ensures items[n].epoch !in Marks(items[..n])
  {
    NextMarker(items, n);
    MarksPrefix(items, n + 1);
    var some, all := Marks(items[..n + 1]), Marks(items);
    forall i | 0 <= i < |Marks(items[..n])| ensures Marks(items[..n])[i] != items[n].epoch {
      assert some[i] == Marks(items[..n])[i] && all[i] == some[i];
      assert all[|some| - 1] == some[|some| - 1] == items[n].epoch;
    }
  }

  // ---------------------------------------------------------------- logs as streams

  lemma {:induction false} LogMarkAt(log: seq<P.Item>, e: Epoch)
    ensures e in LogMarks(log) <==> P.Mark(e) in log
    decreases |log|
  {
    if log != [] {
      var n := |log| - 1;
      LogMarkAt(log[..n], e);
      assert log == log[..n] + [log[n]];
    }
  }

  lemma LogMarksSnoc(log: seq<P.Item>, item: P.Item)
    ensures LogMarks(log + [item]) == LogMarks(log) + if item.Mark? then [item.epoch] else []
  {
    assert (log + [item])[..|log|] == log;
  }

  lemma {:induction false} MarksOfLog(s: nat, src: P.Source, n: nat)
    requires n <= |src.log|
    ensures Marks(LogItems(s, src)[..n]) == LogMarks(src.log[..n])
  {
    if n == 0 {
      assert LogItems(s, src)[..0] == [] && src.log[..0] == [];
    } else {
      MarksOfLog(s, src, n - 1);
      NextMarker(LogItems(s, src), n - 1);
      assert src.log[..n] == src.log[..n - 1] + [src.log[n - 1]];
      LogMarksSnoc(src.log[..n - 1], src.log[n - 1]);
      assert LogItems(s, src)[n - 1] == LogItem(s, src, n - 1);
    }
  }

  /** The rows among the first n items of a log are the next ones from its start. */
  lemma {:induction false} RowsOfLog(s: nat, src: P.Source, n: nat)
    requires n <= |src.log|
    ensures RowsIn(LogItems(s, src)[..n], s, src.start, src.start + P.Records(src.log[..n]))
  {
    var items := LogItems(s, src);
    if n == 0 {
      assert src.log[..0] == [];
    } else {
      RowsOfLog(s, src, n - 1);
      assert items[..n] == items[..n - 1] + [items[n - 1]];
      assert src.log[..n] == src.log[..n - 1] + [src.log[n - 1]];
      P.RecordsAppend(src.log[..n - 1], src.log[n - 1]);
      assert items[n - 1] == LogItem(s, src, n - 1);
    }
  }

  lemma LogsExtend(s: nat, src: P.Source, src': P.Source)
    requires src.start == src'.start && src.log <= src'.log
    ensures LogItems(s, src) <= LogItems(s, src')
  {
    forall i | 0 <= i < |src.log| ensures LogItem(s, src, i) == LogItem(s, src', i) {
      assert src'.log[..i] == src.log[..i];
    }
  }

  // ---------------------------------------------------------------- what stands behind a marker

  lemma AheadMore(t: P.Topology, w: P.World, s: nat, o: nat, e: Epoch, items: seq<Item>, all: seq<Item>)
    requires P.Shaped(t, w) && Ahead(t, w, s, o, e, items) && (Row(s, o) in items ==> Row(s, o) in all)
    ensures Ahead(t, w, s, o, e, all)
  {
    if !AllAhead(t, w, s, o, items) {
      var m: nat :| AheadAt(w.sources[s], s, o, e, items, m) && Sent(t, w, s, m + 1);
      assert AheadAt(w.sources[s], s, o, e, all, m);
    }
  }

  lemma SourceCovers(t: P.Topology, w: P.World, s: nat, o: nat, q: nat)
    requires P.Shaped(t, w) && s < |w.sources| && q < |w.sources[s].log| && w.sources[s].log[q].Mark?
    requires Sent(t, w, s, q + 1)
    ensures Ahead(t, w, s, o, w.sources[s].log[q].epoch, LogItems(s, w.sources[s])[..q])
  {
    var src := w.sources[s];
    RowsOfLog(s, src, q);
    assert AheadAt(src, s, o, src.log[q].epoch, LogItems(s, src)[..q], q);
  }

  /** A marker in a stream, at any depth of merging, stands behind every row that comes by on the
      stream and was sent before its source's own marker, or by a source that has ended. */
  lemma MarkerStandsBehind(p: Plant, st: State, x: Stream, q: nat, s: nat, o: nat)
    requires Sized(p, st) && NodesOk(p, st)
    requires q < |Items(st, x)| && Items(st, x)[q].Mark? && Feeds(p, s, o, x)
    requires x.FromSource? ==> Sent(p.topology, st.world, s, q + 1)
    ensures Ahead(p.topology, st.world, s, o, Items(st, x)[q].epoch, Items(st, x)[..q])
  {
    match x
    case FromSource(_) =>
      assert Items(st, x)[q] == LogItem(s, st.world.sources[s], q);
      SourceCovers(p.topology, st.world, s, o, q);
    case FromMerge(n) =>
      var i := FedBy(p, s, o, n);
      assert Inputs(p, Merge(n))[i] == p.merges[n][i] && Under(p, s, o, Merge(n));
      assert NodeOk(p, st, Merge(n), EntryOf(st, Merge(n)));
      assert MarkerOk(p, st, Merge(n), st.merges[n], q);
  }

  lemma FedBy(p: Plant, s: nat, o: nat, n: nat) returns (i: nat)
    requires Feeds(p, s, o, FromMerge(n))
    ensures n < |p.merges| && i < |p.merges[n]| && p.takes(Merge(n), i, s, o)
    ensures Rank(p.merges[n][i]) <= n && Feeds(p, s, o, p.merges[n][i])
  {
    i :| 0 <= i < |p.merges[n]| && p.takes(Merge(n), i, s, o) && Rank(p.merges[n][i]) < Rank(FromMerge(n))
      && Feeds(p, s, o, p.merges[n][i]);
  }

  /** What an ended input has let pass. */
  lemma EndedInput(p: Plant, st: State, node: Node, en: Entry, i: nat)
    requires Sized(p, st) && NodeOk(p, st, node, en) && i < |Inputs(p, node)| && en.done[i]
    ensures var x := Inputs(p, node)[i];
      && Ends(st, x) && en.told[i] == |Items(st, x)| && TakenAmong(p, node, i, Items(st, x), en.merged)
      && (x.FromSource? ==> Sent(p.topology, st.world, x.s, |Items(st, x)|))
  {
    var r, x := Run(p, node, en), Inputs(p, node)[i];
    assert InputOk(p, st, node, en, i, r.delivered[i], r.ended[i]);
    assert Items(st, x)[..|Items(st, x)|] == Items(st, x);
  }

  lemma SourceEnds(t: P.Topology, w: P.World, s: nat, o: nat)
    requires P.Shaped(t, w) && s < |w.sources| && w.sources[s].ended && Sent(t, w, s, |w.sources[s].log|)
    ensures AllAhead(t, w, s, o, LogItems(s, w.sources[s]))
  {
    var src := w.sources[s];
    RowsOfLog(s, src, |src.log|);
    assert LogItems(s, src)[..|src.log|] == LogItems(s, src) && src.log[..|src.log|] == src.log;
  }

  lemma TakenPasses(p: Plant, node: Node, i: nat, items: seq<Item>, all: seq<Item>, s: nat, o: nat)
    requires TakenAmong(p, node, i, items, all) && p.takes(node, i, s, o) && Row(s, o) in items
    ensures Row(s, o) in all
  {
    var j :| 0 <= j < |items| && items[j] == Row(s, o);
    assert Takes(p, node, i, items[j]);
  }

  /** When a stream has ended, every row that comes by on it and was ever sent has passed. */
  lemma {:induction false} EndStandsBehind(p: Plant, st: State, x: Stream, s: nat, o: nat)
    requires Sized(p, st) && NodesOk(p, st) && Ends(st, x) && Feeds(p, s, o, x)
    requires x.FromSource? ==> Sent(p.topology, st.world, s, |Items(st, x)|)
    ensures s < |st.world.sources| && AllAhead(p.topology, st.world, s, o, Items(st, x))
    decreases Rank(x)
  {
    match x
    case FromSource(_) => SourceEnds(p.topology, st.world, s, o);
    case FromMerge(n) =>
      var i := FedBy(p, s, o, n);
      var y, en := p.merges[n][i], st.merges[n];
      assert y == Inputs(p, Merge(n))[i] && en == EntryOf(st, Merge(n));
      assert NodeOk(p, st, Merge(n), en) && en.done[i];
      EndedInput(p, st, Merge(n), en, i);
      assert y.FromSource? ==> y.s == s;
      EndStandsBehind(p, st, y, s, o);
      if Row(s, o) in Items(st, y) {
        TakenPasses(p, Merge(n), i, Items(st, y), en.merged, s, o);
      }
  }

  /** What an input delivered, or its end, stands behind the rows that the node takes from it. */
  lemma InputStandsBehind(p: Plant, st: State, node: Node, en: Entry, i: nat, delivered: seq<Epoch>, ended: bool,
      e: Epoch, s: nat, o: nat)
    requires Sized(p, st) && NodesOk(p, st) && ValidNode(p, node) && Fits(p, node, en) && i < |Inputs(p, node)|
    requires InputOk(p, st, node, en, i, delivered, ended) && (e in delivered || ended)
    requires p.takes(node, i, s, o) && Feeds(p, s, o, Inputs(p, node)[i])
    ensures Ahead(p.topology, st.world, s, o, e, en.merged)
  {
    var x, n := Inputs(p, node)[i], en.told[i];
    assert x.FromSource? ==> x.s == s;
    var q := |Items(st, x)|;
    if e in delivered {
      q := MarkPosition(Items(st, x), n, e);
      MarkerStandsBehind(p, st, x, q, s, o);
    } else {
      EndStandsBehind(p, st, x, s, o);
      assert Items(st, x)[..q] == Items(st, x);
    }
    RowPasses(p, node, i, Items(st, x), q, n, en.merged, s, o);
    AheadMore(p.topology, st.world, s, o, e, Items(st, x)[..q], en.merged);
  }

  lemma RowPasses(p: Plant, node: Node, i: nat, items: seq<Item>, q: nat, n: nat, all: seq<Item>, s: nat, o: nat)
    requires q <= n <= |items| && TakenAmong(p, node, i, items[..n], all) && p.takes(node, i, s, o)
    ensures Row(s, o) in items[..q] ==> Row(s, o) in all
  {
    if Row(s, o) in items[..q] {
      var j :| 0 <= j < q && items[..q][j] == Row(s, o);
      assert items[..n][j] == Row(s, o);
      TakenPasses(p, node, i, items[..n], all, s, o);
    }
  }
}
