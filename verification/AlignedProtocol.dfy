/** The protocol over a network of merge points, as a whole. What `AtLeastOnce` asks of an ack and what
    `AlignmentRuns` asks of finalizers is derived here from what the program does. */
module AlignedProtocol {
  import opened MarkerAlignment
  import opened Network
  import opened NetworkStreams
  import opened NetworkNodes
  import A = AlignmentRuns
  import P = AtLeastOnce

  // ---------------------------------------------------------------- acks

  lemma StoredRow(p: Plant, w: P.World, k: nat, i: nat, items: seq<Item>, s: nat, o: nat)
    requires TakenStored(p, w, k, i, items) && p.takes(Gate(k), i, s, o) && Row(s, o) in items
    ensures k < |w.durable| && (s, o) in w.durable[k]
  {
    var j :| 0 <= j < |items| && items[j] == Row(s, o);
    assert Takes(p, Gate(k), i, items[j]);
  }

  predicate InPlace(t: P.Topology, w: P.World, s: nat, k: nat) {
    P.Shaped(t, w) && (s, k) in t.wired && s < |w.sources| && k < |w.durable|
  }

  /** The marker for e at position m of s's log has reached k, and the row is stored there if it was
      sent before. */
  predicate RowMarked(t: P.Topology, w: P.World, s: nat, k: nat, o: nat, e: Epoch, m: nat)
    requires InPlace(t, w, s, k)
  {
    && m < w.read[(s, k)] && w.sources[s].log[m] == P.Mark(e)
    && (w.sources[s].start <= o < w.sources[s].start + P.Records(w.sources[s].log[..m]) ==> (s, o) in w.durable[k])
  }

  predicate RowEnded(t: P.Topology, w: P.World, s: nat, k: nat, o: nat)
    requires InPlace(t, w, s, k)
  {
    && w.sources[s].ended && w.read[(s, k)] == |w.sources[s].log|
    && (w.sources[s].start <= o < P.Position(w.sources[s]) ==> (s, o) in w.durable[k])
  }

  ghost predicate RowFlushed(t: P.Topology, w: P.World, s: nat, k: nat, o: nat, e: Epoch)
    requires InPlace(t, w, s, k)
  {
    (exists m: nat :: RowMarked(t, w, s, k, o, e, m)) || RowEnded(t, w, s, k, o)
  }

  lemma AllAheadIsFlushed(p: Plant, w: P.World, s: nat, k: nat, o: nat, i: nat, items: seq<Item>)
    requires InPlace(p.topology, w, s, k) && p.takes(Gate(k), i, s, o)
    requires AllAhead(p.topology, w, s, o, items) && TakenStored(p, w, k, i, items)
    ensures RowEnded(p.topology, w, s, k, o)
  {
    if Row(s, o) in items {
      StoredRow(p, w, k, i, items, s, o);
    }
  }

  lemma AheadIsFlushed(p: Plant, w: P.World, s: nat, k: nat, o: nat, e: Epoch, i: nat, items: seq<Item>)
    requires InPlace(p.topology, w, s, k) && p.takes(Gate(k), i, s, o)
    requires Ahead(p.topology, w, s, o, e, items) && TakenStored(p, w, k, i, items)
    ensures RowFlushed(p.topology, w, s, k, o, e)
  {
    if AllAhead(p.topology, w, s, o, items) {
      AllAheadIsFlushed(p, w, s, k, o, i, items);
    } else {
      var m: nat :| AheadAt(w.sources[s], s, o, e, items, m) && Sent(p.topology, w, s, m + 1);
      if Row(s, o) in items {
        StoredRow(p, w, k, i, items, s, o);
      }
      assert RowMarked(p.topology, w, s, k, o, e, m);
    }
  }

  /** A write stream that reported an epoch, or its end, has flushed the rows it takes from before. */
  lemma ReportIsFlushed(p: Plant, st: State, k: nat, i: nat, delivered: seq<Epoch>, ended: bool, e: Epoch, s: nat,
      o: nat)
    requires Sized(p, st) && NodesOk(p, st) && k < |p.gates| && i < |p.gates[k]|
    requires InPlace(p.topology, st.world, s, k)
    requires Fits(p, Gate(k), st.gates[k]) && InputOk(p, st, Gate(k), st.gates[k], i, delivered, ended)
    requires (e in delivered || ended) && p.takes(Gate(k), i, s, o) && Feeds(p, s, o, p.gates[k][i])
    ensures ended ==> RowEnded(p.topology, st.world, s, k, o)
    ensures RowFlushed(p.topology, st.world, s, k, o, e)
  {
    var x := p.gates[k][i];
    assert x == Inputs(p, Gate(k))[i] && (x.FromSource? ==> x.s == s);
    if ended {
      EndStandsBehind(p, st, x, s, o);
      AllAheadIsFlushed(p, st.world, s, k, o, i, Items(st, x));
    } else {
      var q := MarkPosition(Items(st, x), st.gates[k].told[i], e);
      MarkerStandsBehind(p, st, x, q, s, o);
      AheadIsFlushed(p, st.world, s, k, o, e, i, Items(st, x)[..q]);
    }
  }

  /** Row by row, whichever write stream took it: all that the source sent before its marker is stored. */
  lemma RowsAreFlushed(t: P.Topology, w: P.World, s: nat, k: nat, e: Epoch)
    requires InPlace(t, w, s, k) && P.RecordsMatch(w.sources[s])
    requires forall o: nat :: RowFlushed(t, w, s, k, o, e)
    ensures P.FlushedMarker(w, s, k, e) || P.FlushedEnd(w, s, k)
  {
    var src := w.sources[s];
    if a: nat, m: nat :| RowMarked(t, w, s, k, a, e, m) {
      P.RecordsMonotone(src.log, m);
      forall o | src.start <= o < src.start + P.Records(src.log[..m]) ensures (s, o) in w.durable[k] {
        assert RowFlushed(t, w, s, k, o, e);
        if i: nat :| RowMarked(t, w, s, k, o, e, i) {
          assert src.log[i].Mark? && src.log[m].Mark?;
        }
      }
    } else {
      forall o: nat ensures RowEnded(t, w, s, k, o) {
        assert RowFlushed(t, w, s, k, o, e);
      }
      RowsHaveEnded(t, w, s, k);
    }
  }

  lemma RowsHaveEnded(t: P.Topology, w: P.World, s: nat, k: nat)
    requires InPlace(t, w, s, k) && forall o: nat :: RowEnded(t, w, s, k, o)
    ensures P.FlushedEnd(w, s, k)
  {
    assert RowEnded(t, w, s, k, 0);
    forall o | w.sources[s].start <= o < P.Position(w.sources[s]) ensures (s, o) in w.durable[k] {
      assert RowEnded(t, w, s, k, o);
    }
  }

  lemma WiredInput(p: Plant, s: nat, k: nat, o: nat) returns (i: nat)
    requires WellBuilt(p) && (s, k) in p.topology.wired
    ensures k < |p.gates| && i < |p.gates[k]| && p.takes(Gate(k), i, s, o) && Feeds(p, s, o, p.gates[k][i])
  {
    assert Under(p, s, o, Gate(k));
    i :| 0 <= i < |Inputs(p, Gate(k))| && p.takes(Gate(k), i, s, o) && Feeds(p, s, o, Inputs(p, Gate(k))[i]);
  }

  /** A row of a wired source stands stored behind what the gate let through, or behind the end. */
  lemma GateCoversRow(p: Plant, st: State, k: nat, e: Epoch, s: nat, o: nat)
    requires Sized(p, st) && NodesOk(p, st) && k < |p.gates| && InPlace(p.topology, st.world, s, k)
    requires LetThrough(p, Gate(k), st.gates[k], e) || Finished(p, Gate(k), st.gates[k])
    ensures RowFlushed(p.topology, st.world, s, k, o, e)
    ensures Finished(p, Gate(k), st.gates[k]) ==> RowEnded(p.topology, st.world, s, k, o)
  {
    var en := st.gates[k];
    assert NodeOk(p, st, Gate(k), EntryOf(st, Gate(k)));
    var r := Run(p, Gate(k), en);
    A.ReleasesAreSafe(|p.gates[k]|, en.events);
    var i := WiredInput(p, s, k, o);
    assert InputOk(p, st, Gate(k), en, i, r.delivered[i], r.ended[i]);
    assert e in r.delivered[i] || r.ended[i];
    ReportIsFlushed(p, st, k, i, r.delivered[i], r.ended[i], e, s, o);
  }

  /** What a gate releases may be acked: each write stream reported the epoch after it had flushed the
      rows it takes, or was flushed and finished. Streams may hold unflushed rows behind the marker. */
  lemma GateReleaseMayBeAcked(p: Plant, st: State, k: nat, e: Epoch)
    requires Sized(p, st) && NodesOk(p, st) && P.Inv(p.topology, st.world)
    requires k < |p.gates| && LetThrough(p, Gate(k), st.gates[k], e)
    ensures P.MayAck(p.topology, st.world, k, e)
  {
    var t, w := p.topology, st.world;
    forall s | 0 <= s < t.sources && (s, k) in t.wired
      ensures P.FlushedMarker(w, s, k, e) || P.FlushedEnd(w, s, k)
    {
      forall o: nat ensures RowFlushed(t, w, s, k, o, e) {
        GateCoversRow(p, st, k, e, s, o);
      }
      RowsAreFlushed(t, w, s, k, e);
    }
  }

  lemma FinishedMayComplete(p: Plant, st: State, k: nat)
    requires Sized(p, st) && NodesOk(p, st) && k < |p.gates| && Finished(p, Gate(k), st.gates[k])
    ensures P.MayComplete(p.topology, st.world, k)
  {
    var t, w := p.topology, st.world;
    forall s | 0 <= s < t.sources && (s, k) in t.wired ensures P.FlushedEnd(w, s, k) {
      forall o: nat ensures RowEnded(t, w, s, k, o) {
        GateCoversRow(p, st, k, 0, s, o);
      }
      RowsHaveEnded(t, w, s, k);
    }
  }

  /** The rule for acks in `AtLeastOnce` is what sinks and aligners do, not an assumption. */
  lemma PlainStepsAreEnabled(p: Plant, st: State, step: P.Step)
    requires Inv(p, st) && EnabledPlain(p, st, step)
    ensures P.Enabled(p.topology, st.world, step)
  {
    match step
    case SinkAck(k, e) => GateReleaseMayBeAcked(p, st, k, e);
    case SinkComplete(k) => FinishedMayComplete(p, st, k);
    case _ =>
  }

  // ---------------------------------------------------------------- growth

  /** Streams only grow, and ended ones stay as they are. */
  ghost predicate Extends(p: Plant, st: State, st': State) {
    && Sized(p, st) && Sized(p, st') && P.Grows(p.topology, st.world, st'.world)
    && forall n | 0 <= n < |p.merges| :: MergeExtends(st.merges[n], st'.merges[n])
  }

  predicate MergeExtends(en: Entry, en': Entry) {
    en.merged <= en'.merged && (Closed(en) ==> Closed(en') && en'.merged == en.merged)
  }

  lemma StreamExtends(p: Plant, st: State, st': State, x: Stream)
    requires Extends(p, st, st')
    ensures Items(st, x) <= Items(st', x)
    ensures Ends(st, x) ==> Ends(st', x) && Items(st', x) == Items(st, x)
  {
    match x
    case FromSource(s) =>
      if s < |st.world.sources| {
        LogsExtend(s, st.world.sources[s], st'.world.sources[s]);
      }
    case FromMerge(n) =>
      assert n < |p.merges| ==> MergeExtends(st.merges[n], st'.merges[n]);
  }

  lemma SentStays(t: P.Topology, w: P.World, w': P.World, s: nat, n: nat)
    requires P.Grows(t, w, w') && Sent(t, w, s, n)
    ensures Sent(t, w', s, n)
  {
    forall k: nat | (s, k) in t.wired ensures n <= w'.read[(s, k)] {
      assert w.read[(s, k)] <= w'.read[(s, k)];
    }
  }

  lemma AheadStays(t: P.Topology, w: P.World, w': P.World, s: nat, o: nat, e: Epoch, items: seq<Item>)
    requires P.Grows(t, w, w') && Ahead(t, w, s, o, e, items)
    ensures Ahead(t, w', s, o, e, items)
  {
    var src, src' := w.sources[s], w'.sources[s];
    if AllAhead(t, w, s, o, items) {
      SentStays(t, w, w', s, |src.log|);
      assert AllAhead(t, w', s, o, items);
    } else {
      var m: nat :| AheadAt(src, s, o, e, items, m) && Sent(t, w, s, m + 1);
      SentStays(t, w, w', s, m + 1);
      assert src'.log[m] == P.Mark(e) && src'.log[..m] == src.log[..m];
      assert AheadAt(src', s, o, e, items, m);
    }
  }

  lemma StoredStays(p: Plant, w: P.World, w': P.World, k: nat, i: nat, items: seq<Item>)
    requires P.Grows(p.topology, w, w') && TakenStored(p, w, k, i, items)
    ensures TakenStored(p, w', k, i, items)
  {
    assert k < p.topology.sinks ==> w.durable[k] <= w'.durable[k];
  }

  lemma FlushedStays(p: Plant, st: State, st': State, node: Node, i: nat, x: Stream, n: nat, ended: bool)
    requires Extends(p, st, st') && InputFlushed(p, st, node, i, x, n, ended) && n <= |Items(st, x)|
    requires ended ==> Ends(st, x)
    ensures InputFlushed(p, st', node, i, x, n, ended)
  {
    StreamExtends(p, st, st', x);
    var items, items' := Items(st, x), Items(st', x);
    if node.Gate? {
      forall q | 0 <= q < n && items'[q].Mark? ensures TakenStored(p, st'.world, node.k, i, items'[..q]) {
        assert items'[q] == items[q] && items'[..q] == items[..q];
        StoredStays(p, st.world, st'.world, node.k, i, items[..q]);
      }
      if ended {
        StoredStays(p, st.world, st'.world, node.k, i, items);
      }
    }
  }

  lemma InputStays(p: Plant, st: State, st': State, node: Node, en: Entry, i: nat, delivered: seq<Epoch>, ended: bool)
    requires Extends(p, st, st') && ValidNode(p, node) && Fits(p, node, en) && i < |Inputs(p, node)|
    requires InputOk(p, st, node, en, i, delivered, ended)
    ensures InputOk(p, st', node, en, i, delivered, ended)
  {
    var x, n := Inputs(p, node)[i], en.told[i];
    StreamExtends(p, st, st', x);
    assert Items(st', x)[..n] == Items(st, x)[..n];
    if x.FromSource? {
      SentStays(p.topology, st.world, st'.world, x.s, n);
    }
    FlushedStays(p, st, st', node, i, x, n, ended);
  }

  lemma MarkersStay(p: Plant, st: State, st': State, node: Node, en: Entry)
    requires Extends(p, st, st') && Legal(p, node, en) && MarkersOk(p, st, node, en)
    ensures MarkersOk(p, st', node, en)
  {
    forall q | 0 <= q < |en.merged| && en.merged[q].Mark? ensures MarkerOk(p, st', node, en, q) {
      assert MarkerOk(p, st, node, en, q);
      forall s: nat, o: nat | Under(p, s, o, node)
        ensures Ahead(p.topology, st'.world, s, o, en.merged[q].epoch, en.merged[..q])
      {
        AheadStays(p.topology, st.world, st'.world, s, o, en.merged[q].epoch, en.merged[..q]);
      }
    }
  }

  lemma NodeStays(p: Plant, st: State, st': State, node: Node, en: Entry)
    requires Extends(p, st, st') && NodeOk(p, st, node, en)
    ensures NodeOk(p, st', node, en)
  {
    var r := Run(p, node, en);
    forall i | 0 <= i < |Inputs(p, node)| ensures InputOk(p, st', node, en, i, r.delivered[i], r.ended[i]) {
      assert InputOk(p, st, node, en, i, r.delivered[i], r.ended[i]);
      InputStays(p, st, st', node, en, i, r.delivered[i], r.ended[i]);
    }
    MarkersStay(p, st, st', node, en);
  }

  // ---------------------------------------------------------------- one step of the whole

  lemma WithEntryFits(p: Plant, st: State, node: Node, en': Entry)
    requires Sized(p, st) && ValidNode(p, node) && Fits(p, node, en')
    ensures Sized(p, WithEntry(st, node, en'))
    ensures forall x | ValidNode(p, x) ::
              EntryOf(WithEntry(st, node, en'), x) == if x == node then en' else EntryOf(st, x)
  {
    forall x | ValidNode(p, x) ensures Fits(p, x, EntryOf(WithEntry(st, node, en'), x)) {
      assert Fits(p, x, EntryOf(st, x));
    }
  }

  lemma WithEntryExtends(p: Plant, st: State, node: Node, en': Entry)
    requires Sized(p, st) && ValidNode(p, node) && Advances(p, st, node, EntryOf(st, node), en')
    ensures Extends(p, st, WithEntry(st, node, en'))
    ensures forall x | ValidNode(p, x) ::
              EntryOf(WithEntry(st, node, en'), x) == if x == node then en' else EntryOf(st, x)
  {
    WithEntryFits(p, st, node, en');
    assert P.Grows(p.topology, st.world, st.world);
    var st' := WithEntry(st, node, en');
    forall n | 0 <= n < |p.merges| ensures MergeExtends(st.merges[n], st'.merges[n]) {
      assert EntryOf(st', Merge(n)) == if Merge(n) == node then en' else EntryOf(st, Merge(n));
    }
  }

  lemma NodesAfterPass(p: Plant, st: State, node: Node, en': Entry)
    requires Sized(p, st) && NodesOk(p, st) && ValidNode(p, node)
    requires Advances(p, st, node, EntryOf(st, node), en')
    ensures Sized(p, WithEntry(st, node, en')) && NodesOk(p, WithEntry(st, node, en'))
  {
    WithEntryExtends(p, st, node, en');
    NodesStay(p, st, WithEntry(st, node, en'), node, en');
  }

  /** One entry is new and in order, the others are as they were. */
  lemma NodesStay(p: Plant, st: State, st': State, node: Node, en': Entry)
    requires Extends(p, st, st') && NodesOk(p, st) && NodeOk(p, st, node, en')
    requires forall x | ValidNode(p, x) :: EntryOf(st', x) == if x == node then en' else EntryOf(st, x)
    ensures NodesOk(p, st')
  {
    forall x | ValidNode(p, x) ensures NodeOk(p, st', x, EntryOf(st', x)) {
      assert NodeOk(p, st, x, EntryOf(st, x));
      NodeStays(p, st, st', x, EntryOf(st', x));
    }
  }

  lemma StillThrough(p: Plant, st: State, node: Node, en': Entry)
    requires Sized(p, st) && ValidNode(p, node) && Advances(p, st, node, EntryOf(st, node), en')
    ensures forall k: nat, e: P.Epoch | Through(p, st)(k, e) :: Through(p, WithEntry(st, node, en'))(k, e)
  {
  }

  /** A broadcast finalizer's epoch went through every gate. */
  lemma DecidedWentThrough(p: Plant, st: State, e: Epoch)
    requires Inv(p, st) && e in st.world.finalizers
    ensures forall k: nat | k < |p.gates| :: WentThrough(p, st, Gate(k), e)
  {
    assert P.Everyone(p.topology, e, Through(p, st));
    forall k: nat | k < |p.gates| ensures WentThrough(p, st, Gate(k), e) {
      assert Through(p, st)(k, e);
    }
  }

  lemma ItemAdvances(p: Plant, st: State, step: Step)
    requires Inv(p, st) && Enabled(p, st, step) && (step.PassRow? || step.PassMarker? || step.PassEnd?)
    ensures ValidNode(p, step.node) && Advances(p, st, step.node, EntryOf(st, step.node), PassTo(p, st, step))
  {
    match step
    case PassRow(node, i) => RowAdvances(p, st, node, i);
    case PassMarker(node, i, ms) => MarkerAdvances(p, st, node, i, ms);
    case PassEnd(node, i, now) => EndAdvances(p, st, node, i, now);
  }

  lemma PassAdvances(p: Plant, st: State, step: Step)
    requires Inv(p, st) && Enabled(p, st, step) && !step.Plain?
    ensures ValidNode(p, step.node) && Advances(p, st, step.node, EntryOf(st, step.node), PassTo(p, st, step))
  {
    if step.SendOut? {
      SendAdvances(p, st, step.node, step.i);
    } else if step.PassNotice? {
      if step.m.Finalizer? {
        DecidedWentThrough(p, st, step.m.epoch);
      }
      NoticeAdvances(p, st, step.node, step.m);
    } else {
      ItemAdvances(p, st, step);
    }
  }

  lemma EntryChangeKeeps(p: Plant, st: State, node: Node, en': Entry)
    requires Inv(p, st) && ValidNode(p, node) && Advances(p, st, node, EntryOf(st, node), en')
    ensures Inv(p, WithEntry(st, node, en'))
  {
    NodesAfterPass(p, st, node, en');
    StillThrough(p, st, node, en');
    P.BeliefsStay(p.topology, st.world, Through(p, st), Through(p, WithEntry(st, node, en')));
  }

  lemma PassKeeps(p: Plant, st: State, step: Step)
    requires Inv(p, st) && Enabled(p, st, step) && !step.Plain?
    ensures Inv(p, Do(p, st, step))
  {
    PassAdvances(p, st, step);
    EntryChangeKeeps(p, st, step.node, PassTo(p, st, step));
  }

  // ---------------------------------------------------------------- plain steps

  /** New markers are greater than all issued ones. */
  lemma MarkersGrow(t: P.Topology, w: P.World, step: P.Step)
    requires P.Shaped(t, w) && P.Enabled(t, w, step) && P.Ledger(w) && !step.Crash?
    ensures w.markers <= P.Do(t, w, step).markers
    ensures forall e, x | e in P.Do(t, w, step).markers && e !in w.markers && x in w.markers :: x < e
  {
    if step.MintTimer? || step.BeginTerminal? {
      assert forall x | x in w.markers :: x < w.coordinator.nextEpoch;
    } else {
      assert P.Do(t, w, step).markers == w.markers;
    }
  }

  lemma StillOrdered(inOrder: bool, markers: set<Epoch>, more: set<Epoch>, log: seq<P.Item>)
    requires OrderedLog(inOrder, markers, log) && markers <= more
    requires forall e, x | e in more && e !in markers && x in markers :: x < e
    ensures OrderedLog(inOrder, more, log)
  {
  }

  lemma EmittedInOrder(inOrder: bool, markers: set<Epoch>, log: seq<P.Item>, e: Epoch)
    requires OrderedLog(inOrder, markers, log) && e in markers && e !in LogMarks(log)
    requires inOrder ==> forall x | x in markers && x < e :: P.Mark(x) in log
    requires forall x | x in LogMarks(log) :: x < e
    ensures OrderedLog(inOrder, markers, log + [P.Mark(e)])
  {
    LogMarksSnoc(log, P.Mark(e));
    forall x ensures x in LogMarks(log) <==> P.Mark(x) in log {
      LogMarkAt(log, x);
    }
    assert forall i | 0 <= i < |LogMarks(log)| :: LogMarks(log)[i] in LogMarks(log);
  }

  lemma EmitOrders(inOrder: bool, markers: set<Epoch>, src: P.Source, e: Epoch)
    requires P.RecordsMatch(src) && OrderedLog(inOrder, markers, src.log) && e in markers
    requires inOrder ==> forall x | x in markers && x < e :: P.Mark(x) in src.log
    requires forall x | x in src.recorded :: x < e
    ensures OrderedLog(inOrder, markers, src.log + [P.Mark(e)])
  {
    forall x | x in LogMarks(src.log) ensures x < e {
      LogMarkAt(src.log, x);
      var i :| 0 <= i < |src.log| && src.log[i] == P.Mark(x);
      assert src.log[i].Mark? && src.log[i].epoch in src.recorded;
    }
    EmittedInOrder(inOrder, markers, src.log, e);
  }

  lemma EmittedLog(t: P.Topology, w: P.World, x: nat, e: Epoch, s: nat)
    requires P.Shaped(t, w) && P.Enabled(t, w, P.EmitMarker(x, e)) && s < t.sources
    ensures var w' := P.Do(t, w, P.EmitMarker(x, e));
      && w'.markers == w.markers
      && w'.sources[s].log == if s == x then w.sources[s].log + [P.Mark(e)] else w.sources[s].log
  {
  }

  lemma LogsUntouched(t: P.Topology, w: P.World, step: P.Step, s: nat)
    requires P.Shaped(t, w) && P.Enabled(t, w, step) && s < t.sources
    requires !step.EmitMarker? && !step.Crash?
    ensures var log, log' := w.sources[s].log, P.Do(t, w, step).sources[s].log;
      log' == log || log' == log + [P.Record]
  {
  }

  lemma SameMarks(inOrder: bool, markers: set<Epoch>, log: seq<P.Item>, log': seq<P.Item>)
    requires OrderedLog(inOrder, markers, log) && LogMarks(log') == LogMarks(log)
    ensures OrderedLog(inOrder, markers, log')
  {
  }

  lemma LogStaysOrdered(t: P.Topology, w: P.World, inOrder: bool, step: P.Step, s: nat)
    requires P.Shaped(t, w) && P.Enabled(t, w, step) && P.Ledger(w) && !step.Crash? && s < t.sources
    requires P.RecordsMatch(w.sources[s]) && OrderedLog(inOrder, w.markers, w.sources[s].log)
    requires step.EmitMarker? && inOrder ==>
               forall x | x in w.markers && x < step.e :: P.Mark(x) in w.sources[step.s].log
    ensures var w' := P.Do(t, w, step);
            s < |w'.sources| && OrderedLog(inOrder, w'.markers, w'.sources[s].log)
  {
    if step.EmitMarker? {
      EmittedLog(t, w, step.s, step.e, s);
      if s == step.s {
        EmitOrders(inOrder, w.markers, w.sources[s], step.e);
      }
    } else {
      QuietLogStaysOrdered(t, w, inOrder, step, s);
    }
  }

  lemma QuietLogStaysOrdered(t: P.Topology, w: P.World, inOrder: bool, step: P.Step, s: nat)
    requires P.Shaped(t, w) && P.Enabled(t, w, step) && P.Ledger(w) && !step.Crash? && !step.EmitMarker?
    requires s < t.sources && OrderedLog(inOrder, w.markers, w.sources[s].log)
    ensures var w' := P.Do(t, w, step);
            s < |w'.sources| && OrderedLog(inOrder, w'.markers, w'.sources[s].log)
  {
    var log := w.sources[s].log;
    MarkersGrow(t, w, step);
    StillOrdered(inOrder, w.markers, P.Do(t, w, step).markers, log);
    LogMarksSnoc(log, P.Record);
    LogsUntouched(t, w, step, s);
    SameMarks(inOrder, P.Do(t, w, step).markers, log, P.Do(t, w, step).sources[s].log);
  }

  lemma LogsStayOrdered(p: Plant, st: State, step: P.Step)
    requires Inv(p, st) && EnabledPlain(p, st, step) && !step.Crash?
    requires P.Enabled(p.topology, st.world, step)
    ensures LogsOk(p, P.Do(p.topology, st.world, step))
  {
    var t, w := p.topology, st.world;
    P.StepGrows(t, w, step);
    forall s | 0 <= s < |P.Do(t, w, step).sources|
      ensures OrderedLog(p.inOrder, P.Do(t, w, step).markers, P.Do(t, w, step).sources[s].log)
    {
      assert P.RecordsMatch(w.sources[s]) && OrderedLog(p.inOrder, w.markers, w.sources[s].log);
      LogStaysOrdered(t, w, p.inOrder, step, s);
    }
  }

  lemma WorldGrows(p: Plant, st: State, w': P.World)
    requires Sized(p, st) && NodesOk(p, st) && P.Grows(p.topology, st.world, w')
    ensures Sized(p, st.(world := w')) && NodesOk(p, st.(world := w'))
  {
    var st' := st.(world := w');
    assert forall node | ValidNode(p, node) :: EntryOf(st', node) == EntryOf(st, node);
    assert Extends(p, st, st');
    forall node | ValidNode(p, node) ensures NodeOk(p, st', node, EntryOf(st', node)) {
      assert NodeOk(p, st, node, EntryOf(st, node));
      NodeStays(p, st, st', node, EntryOf(st, node));
    }
  }

  lemma BooksUntouched(t: P.Topology, w: P.World, step: P.Step)
    requires P.Shaped(t, w) && P.Enabled(t, w, step)
    requires !P.OfCoordinator(step) && !step.Crash? && !step.SinkAck? && !step.SinkComplete?
    ensures var w' := P.Do(t, w, step);
      && w'.coordinator == w.coordinator && w'.snapshots == w.snapshots && w'.admitted == w.admitted
      && w'.unsent == w.unsent && w'.finalizers == w.finalizers
      && w'.acks == w.acks && w'.completed == w.completed
  {
  }

  lemma SinkFacts(p: Plant, st: State, step: P.Step)
    requires Sized(p, st) && EnabledPlain(p, st, step) && !step.Crash?
    requires P.Enabled(p.topology, st.world, step) && !P.OfCoordinator(step)
    ensures var w, w', ok := st.world, P.Do(p.topology, st.world, step), Through(p, st);
      && w'.coordinator == w.coordinator && w'.snapshots == w.snapshots && w'.admitted == w.admitted
      && w'.unsent == w.unsent && w'.finalizers == w.finalizers
      && (forall a | a in w'.acks && a !in w.acks :: ok(a.1, a.0))
      && w.completed <= w'.completed
      && (forall k: nat, e: Epoch | k in w'.completed && k !in w.completed :: ok(k, e))
  {
    match step
    case SinkAck(k, e) => assert Through(p, st)(k, e);
    case SinkComplete(k) => assert forall e: Epoch :: Through(p, st)(k, e);
    case _ => BooksUntouched(p.topology, st.world, step);
  }

  lemma PlainBelieves(p: Plant, st: State, step: P.Step)
    requires Inv(p, st) && EnabledPlain(p, st, step) && !step.Crash?
    requires P.Enabled(p.topology, st.world, step)
    ensures P.Believes(p.topology, P.Do(p.topology, st.world, step), Through(p, st))
  {
    var t, w, ok := p.topology, st.world, Through(p, st);
    if P.OfCoordinator(step) {
      P.CoordinatorBelieves(t, w, step, ok);
    } else {
      SinkFacts(p, st, step);
      P.SinkStepBelieves(t, w, P.Do(t, w, step), ok);
    }
  }

  lemma PlainKeeps(p: Plant, st: State, step: P.Step)
    requires Inv(p, st) && EnabledPlain(p, st, step) && !step.Crash?
    requires P.Enabled(p.topology, st.world, step)
    ensures Inv(p, st.(world := P.Do(p.topology, st.world, step)))
  {
    var t, w := p.topology, st.world;
    P.StepKeeps(t, w, step);
    P.LedgerStep(t, w, step);
    P.StepGrows(t, w, step);
    WorldGrows(p, st, P.Do(t, w, step));
    LogsStayOrdered(p, st, step);
    PlainBelieves(p, st, step);
    P.BeliefsStay(t, P.Do(t, w, step), Through(p, st), Through(p, st.(world := P.Do(t, w, step))));
  }

  // ---------------------------------------------------------------- the start of a process

  /** Nothing has been sent, acked or decided. */
  ghost predicate Idle(p: Plant, w: P.World) {
    && P.Inv(p.topology, w) && P.Ledger(w)
    && (forall s | 0 <= s < |w.sources| :: w.sources[s].log == [] && !w.sources[s].ended)
    && w.acks == {} && w.admitted == {} && w.completed == {} && w.unsent == [] && w.finalizers == []
    && w.coordinator.epochs == map[] && w.snapshots == []
    && P.Waits(p.topology, w.coordinator.expected, w.completed)
  }

  lemma StartedIsSized(p: Plant, w: P.World)
    requires WellBuilt(p) && P.Shaped(p.topology, w)
    ensures Sized(p, Started(p, w))
    ensures forall node | ValidNode(p, node) :: EntryOf(Started(p, w), node) == Fresh(|Inputs(p, node)|)
  {
    forall node | ValidNode(p, node) ensures EntryOf(Started(p, w), node) == Fresh(|Inputs(p, node)|) {
    }
  }

  lemma FreshNodeOk(p: Plant, w: P.World, node: Node)
    requires WellBuilt(p) && Idle(p, w) && ValidNode(p, node) && Sized(p, Started(p, w))
    ensures NodeOk(p, Started(p, w), node, Fresh(|Inputs(p, node)|))
  {
    var st, en := Started(p, w), Fresh(|Inputs(p, node)|);
    var r := Run(p, node, en);
    WaitingEmpty(en.outbox);
    forall i | 0 <= i < |Inputs(p, node)| ensures InputOk(p, st, node, en, i, r.delivered[i], r.ended[i]) {
      assert Items(st, Inputs(p, node)[i])[..0] == [];
    }
  }

  lemma StartedIsOk(p: Plant, w: P.World)
    requires WellBuilt(p) && Idle(p, w)
    ensures Inv(p, Started(p, w))
  {
    var st := Started(p, w);
    StartedIsSized(p, w);
    forall node | ValidNode(p, node) ensures NodeOk(p, st, node, EntryOf(st, node)) {
      FreshNodeOk(p, w, node);
    }
    assert LogsOk(p, w);
    assert P.Believes(p.topology, w, Through(p, st));
  }

  lemma CrashIsIdle(p: Plant, w: P.World)
    requires WellBuilt(p) && P.Inv(p.topology, w) && P.Ledger(w)
    ensures Idle(p, P.Do(p.topology, w, P.Crash))
  {
    P.StepKeeps(p.topology, w, P.Crash);
    P.LedgerStep(p.topology, w, P.Crash);
  }

  lemma CrashKeeps(p: Plant, st: State)
    requires Inv(p, st)
    ensures Inv(p, Started(p, P.Do(p.topology, st.world, P.Crash)))
  {
    CrashIsIdle(p, st.world);
    StartedIsOk(p, P.Do(p.topology, st.world, P.Crash));
  }

  lemma PlainStepKeeps(p: Plant, st: State, step: P.Step)
    requires Inv(p, st) && EnabledPlain(p, st, step)
    ensures P.Enabled(p.topology, st.world, step)
    ensures step.Crash? ==> Inv(p, Started(p, P.Do(p.topology, st.world, step)))
    ensures !step.Crash? ==> Inv(p, st.(world := P.Do(p.topology, st.world, step)))
  {
    PlainStepsAreEnabled(p, st, step);
    if step.Crash? {
      CrashKeeps(p, st);
    } else {
      PlainKeeps(p, st, step);
    }
  }

  lemma StepKeeps(p: Plant, st: State, step: Step)
    requires Inv(p, st) && Enabled(p, st, step)
    ensures Inv(p, Do(p, st, step))
  {
    if step.Plain? {
      PlainStepKeeps(p, st, step.step);
    } else {
      PassKeeps(p, st, step);
    }
  }

  // ---------------------------------------------------------------- what every run guarantees

  function Boot(p: Plant): State {
    Started(p, P.Boot(p.topology))
  }

  ghost predicate CanRun(p: Plant, st: State, steps: seq<Step>)
    decreases |steps|
  {
    steps == [] || (Enabled(p, st, steps[0]) && CanRun(p, Do(p, st, steps[0]), steps[1..]))
  }

  ghost function Reach(p: Plant, st: State, steps: seq<Step>): State
    requires CanRun(p, st, steps)
    decreases |steps|
  {
    if steps == [] then st else Reach(p, Do(p, st, steps[0]), steps[1..])
  }

  lemma BootIsOk(p: Plant)
    requires WellBuilt(p)
    ensures Inv(p, Boot(p))
  {
    P.RunKeeps(p.topology, []);
    P.RunLedger(p.topology, []);
    StartedIsOk(p, P.Boot(p.topology));
  }

  lemma {:induction false} RunFrom(p: Plant, st: State, steps: seq<Step>)
    requires Inv(p, st) && CanRun(p, st, steps)
    ensures Inv(p, Reach(p, st, steps))
    decreases |steps|
  {
    if steps != [] {
      StepKeeps(p, st, steps[0]);
      RunFrom(p, Do(p, st, steps[0]), steps[1..]);
    }
  }

  lemma RunKeeps(p: Plant, steps: seq<Step>)
    requires WellBuilt(p) && CanRun(p, Boot(p), steps)
    ensures Inv(p, Reach(p, Boot(p), steps))
  {
    BootIsOk(p);
    RunFrom(p, Boot(p), steps);
  }

  /** In every run a sink may ack whatever its gate, and the flushes of its write streams, make it
      ack, and may be dropped when they make it complete. No step the network allows is refused. */
  lemma AcksAreDurable(p: Plant, steps: seq<Step>, step: P.Step)
    requires WellBuilt(p) && CanRun(p, Boot(p), steps) && Enabled(p, Reach(p, Boot(p), steps), Plain(step))
    ensures P.Shaped(p.topology, Reach(p, Boot(p), steps).world)
    ensures P.Enabled(p.topology, Reach(p, Boot(p), steps).world, step)
    ensures step.SinkAck? ==> P.MayAck(p.topology, Reach(p, Boot(p), steps).world, step.k, step.e)
    ensures step.SinkComplete? ==> P.MayComplete(p.topology, Reach(p, Boot(p), steps).world, step.k)
  {
    RunKeeps(p, steps);
    PlainStepsAreEnabled(p, Reach(p, Boot(p), steps), step);
  }

  /** In every run, with crashes, of sources that pass on every marker, no finalizer overtakes a
      marker at any merge point or gate of the network, so what each has let through is exactly what
      nothing can still arrive before. */
  lemma FinalizersKeepBehind(p: Plant, steps: seq<Step>, node: Node)
    requires WellBuilt(p) && CanRun(p, Boot(p), steps) && ValidNode(p, node) && p.inOrder && p.inTurn
    ensures var st := Reach(p, Boot(p), steps);
      && Sized(p, st) && Legal(p, node, EntryOf(st, node))
      && A.PromptRun(|Inputs(p, node)|, EntryOf(st, node).events)
      && var r := Run(p, node, EntryOf(st, node));
         |r.delivered| == |r.ended| && forall e :: e in r.out <==> A.Accounted(r, e)
  {
    RunKeeps(p, steps);
    var st := Reach(p, Boot(p), steps);
    assert NodeOk(p, st, node, EntryOf(st, node));
    A.ReleasesAreComplete(|Inputs(p, node)|, EntryOf(st, node).events);
  }

  /** Every stream of such a run, at any depth of merging, carries the issued markers in order and
      skips none. */
  lemma StreamsStayInOrder(p: Plant, steps: seq<Step>, x: Stream)
    requires WellBuilt(p) && CanRun(p, Boot(p), steps) && p.inOrder && p.inTurn
    ensures Marks(Items(Reach(p, Boot(p), steps), x)) <= Ascending(Reach(p, Boot(p), steps).world.markers)
  {
    RunKeeps(p, steps);
    StreamIsOrdered(p, Reach(p, Boot(p), steps), x);
  }

  /** In every run a marker that came out of a merge point stands behind every row that comes by there,
      from however deep beneath, and was sent before its source's own marker for the epoch, or by a
      source that has ended. */
  lemma MergedMarkersStandBehind(p: Plant, steps: seq<Step>, n: nat, q: nat, s: nat, o: nat)
    requires WellBuilt(p) && CanRun(p, Boot(p), steps) && n < |p.merges| && Feeds(p, s, o, FromMerge(n))
    ensures var st := Reach(p, Boot(p), steps);
      && Sized(p, st) && n < |st.merges|
      && (q < |st.merges[n].merged| && st.merges[n].merged[q].Mark? ==>
            Ahead(p.topology, st.world, s, o, st.merges[n].merged[q].epoch, st.merges[n].merged[..q]))
  {
    RunKeeps(p, steps);
    MergedMarkerStands(p, Reach(p, Boot(p), steps), n, q, s, o);
  }

  lemma MergedMarkerStands(p: Plant, st: State, n: nat, q: nat, s: nat, o: nat)
    requires Sized(p, st) && NodesOk(p, st) && n < |p.merges| && Feeds(p, s, o, FromMerge(n))
    ensures n < |st.merges|
    ensures q < |st.merges[n].merged| && st.merges[n].merged[q].Mark? ==>
              Ahead(p.topology, st.world, s, o, st.merges[n].merged[q].epoch, st.merges[n].merged[..q])
  {
    if q < |st.merges[n].merged| && st.merges[n].merged[q].Mark? {
      MarkerStandsBehind(p, st, FromMerge(n), q, s, o);
    }
  }

  /** In every run each marker that a merge point's aligner released was sent once, or waits with one
      forwarder to be sent. */
  lemma ReleasedMarkersAreSentOnce(p: Plant, steps: seq<Step>, n: nat)
    requires WellBuilt(p) && CanRun(p, Boot(p), steps) && n < |p.merges|
    ensures var st := Reach(p, Boot(p), steps);
      && n < |st.merges| && Legal(p, Merge(n), st.merges[n])
      && multiset(Marks(st.merges[n].merged)) + Waiting(st.merges[n].outbox)
         == multiset(Run(p, Merge(n), st.merges[n]).out)
      && A.Unique(Run(p, Merge(n), st.merges[n]).out)
  {
    RunKeeps(p, steps);
    ReleasedAreSentOnce(p, Reach(p, Boot(p), steps), n);
  }

  lemma ReleasedAreSentOnce(p: Plant, st: State, n: nat)
    requires Sized(p, st) && NodesOk(p, st) && n < |p.merges|
    ensures n < |st.merges| && Legal(p, Merge(n), st.merges[n])
    ensures multiset(Marks(st.merges[n].merged)) + Waiting(st.merges[n].outbox)
         == multiset(Run(p, Merge(n), st.merges[n]).out)
    ensures A.Unique(Run(p, Merge(n), st.merges[n]).out)
  {
    assert NodeOk(p, st, Merge(n), EntryOf(st, Merge(n)));
    A.ReleasesAreSafe(|p.merges[n]|, st.merges[n].events);
  }

  lemma PrefixesMeet(a: seq<Epoch>, b: seq<Epoch>, all: seq<Epoch>)
    requires a <= all && b <= all
    ensures a <= b <==> |a| <= |b|
  {
  }

  lemma SentSizes(p: Plant, node: Node, en: Entry, i: nat)
    requires Legal(p, node, en) && Fits(p, node, en) && BooksOk(p, node, en) && i < |en.outbox|
    ensures |Marks(en.merged)| <= |Run(p, node, en).out|
    ensures |Marks(PastSend(en, i).merged)| <= |Run(p, node, en).out|
  {
    SendConserves(p, node, en, i);
    assert |multiset(Marks(en.merged))| <= |multiset(Run(p, node, en).out)|;
    assert |multiset(Marks(PastSend(en, i).merged))| <= |multiset(Run(p, node, en).out)|;
  }

  lemma SendKeepsOrderAt(p: Plant, node: Node, en: Entry, i: nat, issued: seq<Epoch>)
    requires Legal(p, node, en) && Fits(p, node, en) && BooksOk(p, node, en) && i < |en.outbox|
    requires A.PromptRun(|Inputs(p, node)|, en.events) && A.InOrder(Run(p, node, en), issued) && A.Increasing(issued)
    requires Marks(en.merged) <= issued
    ensures Marks(PastSend(en, i).merged) <= issued <==> InTurn(en.outbox, i)
  {
    A.MergedStreamInOrder(|Inputs(p, node)|, en.events, issued);
    SentSizes(p, node, en, i);
    OrderOfSend(p, node, en, i, issued);
  }

  lemma OrderOfSend(p: Plant, node: Node, en: Entry, i: nat, issued: seq<Epoch>)
    requires Legal(p, node, en) && Fits(p, node, en) && BooksOk(p, node, en) && i < |en.outbox|
    requires A.InOrder(Run(p, node, en), issued) && A.Increasing(issued) && Run(p, node, en).out <= issued
    requires Marks(en.merged) <= issued && |Marks(en.merged)| <= |Run(p, node, en).out|
    requires |Marks(PastSend(en, i).merged)| <= |Run(p, node, en).out|
    ensures Marks(PastSend(en, i).merged) <= issued <==> InTurn(en.outbox, i)
  {
    var out := Run(p, node, en).out;
    BeginningIncreases(out, issued);
    BeginningIncreases(Run(p, node, en).delivered[i], issued);
    PrefixesMeet(Marks(en.merged), out, issued);
    if Marks(PastSend(en, i).merged) <= issued {
      PrefixesMeet(Marks(PastSend(en, i).merged), out, issued);
    }
    SendInTurn(p, node, en, i);
  }

  /** A forwarder that still holds a marker when another one holds a later one has shown the aligner
      more: the later marker, or the end of its input. */
  lemma HeldTooLong(p: Plant, node: Node, en: Entry, i: nat, j: nat, d: Epoch)
    requires Legal(p, node, en) && Fits(p, node, en) && BooksOk(p, node, en) && i < |en.outbox| && j < |en.outbox|
    requires d in en.outbox[i]
    ensures j < |Run(p, node, en).ended| && j < |Run(p, node, en).delivered|
    ensures Run(p, node, en).ended[j] || d in Run(p, node, en).delivered[j]
  {
    ReleasedIfWaiting(p, node, en, d);
    A.ReleasesAreSafe(|Inputs(p, node)|, en.events);
  }

  /** What keeps a merge point's markers in order, in every run and at every depth. While its inputs
      carry the issued markers in order, a forwarder that sends what it had released keeps them so
      exactly when no other forwarder has yet to send an earlier marker. One that has showed the
      aligner more before it sent: the later marker, in the same batch, or the end of its input. */
  lemma SendKeepsOrder(p: Plant, steps: seq<Step>, n: nat, i: nat)
    requires WellBuilt(p) && CanRun(p, Boot(p), steps) && n < |p.merges| && i < |p.merges[n]|
    requires var st := Reach(p, Boot(p), steps);
      && n < |st.merges| && Legal(p, Merge(n), st.merges[n])
      && A.PromptRun(|p.merges[n]|, st.merges[n].events)
      && A.InOrder(Run(p, Merge(n), st.merges[n]), Ascending(st.world.markers))
      && Marks(st.merges[n].merged) <= Ascending(st.world.markers)
    ensures var st, en := Reach(p, Boot(p), steps), Reach(p, Boot(p), steps).merges[n];
      && |en.outbox| == |en.done| == |en.told| == |p.merges[n]|
      && (Marks(PastSend(en, i).merged) <= Ascending(st.world.markers) <==> InTurn(en.outbox, i))
      && (forall j, d | 0 <= j < |en.outbox| && d in en.outbox[i] :: ShownMore(p, st, n, j, d))
  {
    RunKeeps(p, steps);
    var st := Reach(p, Boot(p), steps);
    var en := st.merges[n];
    assert NodeOk(p, st, Merge(n), EntryOf(st, Merge(n)));
    AscendingLists(st.world.markers);
    SendKeepsOrderAt(p, Merge(n), en, i, Ascending(st.world.markers));
    forall j, d | 0 <= j < |en.outbox| && d in en.outbox[i] ensures ShownMore(p, st, n, j, d) {
      HeldTooLong(p, Merge(n), en, i, j, d);
      assert InputOk(p, st, Merge(n), en, j, Run(p, Merge(n), en).delivered[j], Run(p, Merge(n), en).ended[j]);
    }
  }

  /** The forwarder of input j has shown marker d, or the end of the input, to the aligner. */
  predicate ShownMore(p: Plant, st: State, n: nat, j: nat, d: Epoch) {
    && n < |p.merges| && n < |st.merges| && j < |p.merges[n]|
    && j < |st.merges[n].done| && j < |st.merges[n].told|
    && st.merges[n].told[j] <= |Items(st, p.merges[n][j])|
    && (st.merges[n].done[j] || d in Marks(Items(st, p.merges[n][j])[..st.merges[n].told[j]]))
  }

  /** At-least-once with the network in place: what a restart skips is stored at every sink. */
  lemma CommittedIsStored(p: Plant, steps: seq<Step>, s: nat, k: nat, o: nat)
    requires WellBuilt(p) && CanRun(p, Boot(p), steps) && (s, k) in p.topology.wired
    ensures var w := Reach(p, Boot(p), steps).world;
      && s < |w.sources| && k < |w.durable|
      && (o < w.sources[s].committed ==> (s, o) in w.durable[k])
  {
    RunKeeps(p, steps);
    var w := Reach(p, Boot(p), steps).world;
    assert P.SafeOffsets(p.topology, w);
    assert P.Stored(w, (s, k).0, (s, k).1, 0, w.sources[(s, k).0].committed);
  }
}
