/** Two runs of the whole protocol that show what order needs. Two sources meet at a merge point in
    front of one sink. In the first run a source that shutdown ends skips a marker, and a finalizer
    overtakes it at the merge point. In the second no source skips any, but the forwarder of a source
    that has ended is overtaken before it sends what the end released. */
module OvertakenMarkers {
  import opened Wrappers
  import opened MarkerAlignment
  import opened Network
  import opened AlignedProtocol
  import A = AlignmentRuns
  import C = Coordinator
  import P = AtLeastOnce

  function Joined(inOrder: bool, inTurn: bool): Plant {
    Plant(P.Topology(2, 1, {(0, 0), (1, 0)}), [[FromSource(0), FromSource(1)]], [[FromMerge(0)]],
          (node, i, s, o) => true, inOrder, inTurn)
  }

  ghost predicate Joins(p: Plant) {
    && p.topology == P.Topology(2, 1, {(0, 0), (1, 0)})
    && p.merges == [[FromSource(0), FromSource(1)]] && p.gates == [[FromMerge(0)]]
    && forall node, i, s, o :: p.takes(node, i, s, o)
  }

  lemma SourcesFeed(p: Plant, s: nat, o: nat)
    requires Joins(p) && s < 2
    ensures Feeds(p, s, o, FromMerge(0))
  {
    assert p.merges[0][s] == FromSource(s) && p.takes(Merge(0), s, s, o);
    assert Feeds(p, s, o, p.merges[0][s]);
  }

  lemma JoinedIsWellBuilt(p: Plant)
    requires Joins(p)
    ensures WellBuilt(p)
  {
    forall s: nat, k: nat, o: nat | (s, k) in p.topology.wired ensures k < |p.gates| && Under(p, s, o, Gate(k)) {
      SourcesFeed(p, s, o);
      assert p.takes(Gate(k), 0, s, o) && Feeds(p, s, o, Inputs(p, Gate(k))[0]);
    }
    assert Reads(p, Gate(0), 0, 0);
    assert forall n: nat | n < |p.merges| :: IsRead(p, n);
  }

  // ---------------------------------------------------------------- runs, one step at a time

  ghost predicate Reached(p: Plant, st: State, steps: seq<Step>) {
    CanRun(p, Boot(p), steps) && Reach(p, Boot(p), steps) == st
  }

  ghost predicate Reachable(p: Plant, st: State) {
    exists steps :: Reached(p, st, steps)
  }

  /** A set of states that contains the first one, is closed under steps, and holds only states in
      which the invariant does. */
  ghost predicate Runs(p: Plant, r: iset<State>) {
    && Boot(p) in r
    && (forall st, step | st in r && Enabled(p, st, step) :: Do(p, st, step) in r)
    && (forall st {:trigger Inv(p, st)} | st in r :: Inv(p, st))
  }

  lemma {:induction false} OneMore(p: Plant, st: State, steps: seq<Step>, step: Step)
    requires CanRun(p, st, steps) && Enabled(p, Reach(p, st, steps), step)
    ensures CanRun(p, st, steps + [step]) && Reach(p, st, steps + [step]) == Do(p, Reach(p, st, steps), step)
    decreases |steps|
  {
    if steps == [] {
      OnlyOne(p, st, step);
      assert [] + [step] == [step];
    } else {
      assert (steps + [step])[0] == steps[0] && (steps + [step])[1..] == steps[1..] + [step];
      OneMore(p, Do(p, st, steps[0]), steps[1..], step);
    }
  }

  lemma OnlyOne(p: Plant, st: State, step: Step)
    requires Enabled(p, st, step)
    ensures CanRun(p, st, [step]) && Reach(p, st, [step]) == Do(p, st, step)
  {
    assert [step][1..] == [];
    assert CanRun(p, Do(p, st, step), []);
  }

  lemma ReachedGoesOn(p: Plant, st: State, steps: seq<Step>, step: Step)
    requires Reached(p, st, steps) && Enabled(p, st, step)
    ensures Reached(p, Do(p, st, step), steps + [step])
  {
    OneMore(p, Boot(p), steps, step);
  }

  lemma ReachableGoesOn(p: Plant, st: State, step: Step)
    requires Reachable(p, st) && Enabled(p, st, step)
    ensures Reachable(p, Do(p, st, step))
  {
    var steps :| Reached(p, st, steps);
    ReachedGoesOn(p, st, steps, step);
  }

  lemma ReachableIsOk(p: Plant, st: State)
    requires WellBuilt(p) && Reachable(p, st)
    ensures Inv(p, st)
  {
    var steps :| Reached(p, st, steps);
    RunKeeps(p, steps);
  }

  lemma ReachableRuns(p: Plant, r: iset<State>)
    requires WellBuilt(p) && forall st :: st in r <==> Reachable(p, st)
    ensures Runs(p, r)
  {
    assert Reached(p, Boot(p), []);
    forall st, step | st in r && Enabled(p, st, step) ensures Do(p, st, step) in r {
      ReachableGoesOn(p, st, step);
    }
    forall st | st in r ensures Inv(p, st) {
      ReachableIsOk(p, st);
    }
  }

  lemma Goes(p: Plant, r: iset<State>, st: State, step: Step, st': State)
    requires Runs(p, r) && st in r && Enabled(p, st, step) && st' == Do(p, st, step)
    ensures st' in r
  {
  }

  lemma InShape(p: Plant, r: iset<State>, st: State)
    requires Runs(p, r) && st in r
    ensures Sized(p, st)
  {
    assert Inv(p, st);
  }

  /** A step of the world alone. */
  lemma PlainGoes(p: Plant, r: iset<State>, st: State, step: P.Step, w': P.World)
    requires Runs(p, r) && st in r && Sized(p, st) && P.Enabled(p.topology, st.world, step)
    requires !step.Crash? && !step.Flush? && !step.SinkComplete? && !step.SinkAck?
    requires step.EmitMarker? ==> EnabledPlain(p, st, step)
    requires w' == P.Do(p.topology, st.world, step)
    ensures st.(world := w') in r
  {
    Goes(p, r, st, Plain(step), st.(world := w'));
  }

  // ---------------------------------------------------------------- steps of sources and coordinator

  function Minted(): C.State {
    C.State(map[1 := C.Started], 2, {0}, false, None)
  }

  function Terminal(): C.State {
    C.State(map[1 := C.Started, 2 := C.Started], 3, {0}, true, Some(2))
  }

  lemma Mints(p: Plant, r: iset<State>, st: State, w': P.World)
    requires Runs(p, r) && st in r && st.world.coordinator == C.Fresh({0}) && st.world.markers == {}
    requires w' == st.world.(coordinator := Minted(), markers := {1})
    ensures st.(world := w') in r
  {
    InShape(p, r, st);
    PlainGoes(p, r, st, P.MintTimer, w');
  }

  lemma TerminalBegins(p: Plant, r: iset<State>, st: State, w': P.World)
    requires Runs(p, r) && st in r && st.world.coordinator == Minted() && st.world.markers == {1}
    requires w' == st.world.(coordinator := Terminal(), markers := {1, 2})
    ensures st.(world := w') in r
  {
    InShape(p, r, st);
    PlainGoes(p, r, st, P.BeginTerminal, w');
  }

  /** The source with one more marker. */
  function Marked(src: P.Source, e: Epoch): P.Source {
    src.(log := src.log + [P.Mark(e)], recorded := src.recorded[e := P.Position(src)])
  }

  lemma Emits(p: Plant, r: iset<State>, st: State, s: nat, e: Epoch, w': P.World)
    requires Runs(p, r) && st in r && s < p.topology.sources == |st.world.sources| && e in st.world.markers
    requires !st.world.sources[s].ended && forall x | x in st.world.sources[s].recorded :: x < e
    requires p.inOrder ==> forall x | x in st.world.markers && x < e :: P.Mark(x) in st.world.sources[s].log
    requires w' == st.world.(sources := st.world.sources[s := Marked(st.world.sources[s], e)])
    ensures st.(world := w') in r
  {
    InShape(p, r, st);
    PlainGoes(p, r, st, P.EmitMarker(s, e), w');
  }

  lemma EndsSource(p: Plant, r: iset<State>, st: State, s: nat, w': P.World)
    requires Runs(p, r) && st in r && s < p.topology.sources == |st.world.sources|
    requires w' == st.world.(sources := st.world.sources[s := st.world.sources[s].(ended := true)])
    ensures st.(world := w') in r
  {
    InShape(p, r, st);
    PlainGoes(p, r, st, P.End(s), w');
  }

  lemma SendIsEnabled(t: P.Topology, w: P.World, s: nat)
    requires P.Shaped(t, w) && s < t.sources && (s, 0) in t.wired && w.read[(s, 0)] < |w.sources[s].log|
    ensures P.Enabled(t, w, P.Receive(s, 0))
    ensures P.Do(t, w, P.Receive(s, 0)) == w.(read := w.read[(s, 0) := w.read[(s, 0)] + 1])
  {
  }

  lemma Sends(p: Plant, r: iset<State>, st: State, s: nat, w': P.World)
    requires Joins(p) && Runs(p, r) && st in r && s < 2 == |st.world.sources|
    requires (s, 0) in st.world.read && st.world.read[(s, 0)] < |st.world.sources[s].log|
    requires w' == st.world.(read := st.world.read[(s, 0) := st.world.read[(s, 0)] + 1])
    ensures st.(world := w') in r
  {
    InShape(p, r, st);
    assert (s, 0) in p.topology.wired;
    SendIsEnabled(p.topology, st.world, s);
    PlainGoes(p, r, st, P.Receive(s, 0), w');
  }

  // ---------------------------------------------------------------- steps of the merge point and the gate

  lemma OneEntry(w: P.World, m: Entry, g: Entry, en: Entry)
    ensures EntryOf(State(w, [m], [g]), Merge(0)) == m && EntryOf(State(w, [m], [g]), Gate(0)) == g
    ensures WithEntry(State(w, [m], [g]), Merge(0), en) == State(w, [en], [g])
    ensures WithEntry(State(w, [m], [g]), Gate(0), en) == State(w, [m], [en])
  {
    assert [m][0 := en] == [en] && [g][0 := en] == [en];
  }

  /** The marker for e waits at input i of the node, behind no row. */
  ghost predicate Waits(p: Plant, st: State, node: Node, i: nat, e: Epoch)
    requires Sized(p, st)
  {
    && Available(p, st, node, i)
    && Items(st, Inputs(p, node)[i])[EntryOf(st, node).told[i]] == Mark(e)
    && (node.Gate? ==> EntryOf(st, node).told[i] == 0)
  }

  lemma SourceWaits(p: Plant, st: State, i: nat, told: nat, e: Epoch)
    requires Joins(p) && Sized(p, st) && i < 2 == |st.world.sources|
    requires EntryOf(st, Merge(0)).told[i] == told && EntryOf(st, Merge(0)).outbox[i] == []
    requires told < |st.world.sources[i].log| && st.world.sources[i].log[told] == P.Mark(e)
    requires (i, 0) in st.world.read && told < st.world.read[(i, 0)]
    ensures Waits(p, st, Merge(0), i, e)
  {
    assert Inputs(p, Merge(0))[i] == FromSource(i);
    assert LogItems(i, st.world.sources[i])[told] == LogItem(i, st.world.sources[i], told);
    assert forall k: nat | (i, k) in p.topology.wired :: k == 0;
  }

  lemma MarkerGoes(p: Plant, r: iset<State>, st: State, node: Node, i: nat, e: Epoch, en': Entry)
    requires Runs(p, r) && st in r && Sized(p, st) && Waits(p, st, node, i, e)
    requires en' == PastMarker(p, node, EntryOf(st, node), i, e, 0)
    ensures WithEntry(st, node, en') in r
  {
    Goes(p, r, st, PassMarker(node, i, 0), WithEntry(st, node, en'));
  }

  lemma MergeTakes(p: Plant, r: iset<State>, w: P.World, m: Entry, g: Entry, i: nat, e: Epoch, m': Entry)
    requires Joins(p) && Runs(p, r) && State(w, [m], [g]) in r && i < 2 == |w.sources| == |m.told| == |m.outbox|
    requires m.outbox[i] == [] && m.told[i] < |w.sources[i].log| && w.sources[i].log[m.told[i]] == P.Mark(e)
    requires (i, 0) in w.read && m.told[i] < w.read[(i, 0)] && m' == PastMarker(p, Merge(0), m, i, e, 0)
    ensures State(w, [m'], [g]) in r
  {
    var st := State(w, [m], [g]);
    InShape(p, r, st);
    OneEntry(w, m, g, m');
    SourceWaits(p, st, i, m.told[i], e);
    MarkerGoes(p, r, st, Merge(0), i, e, m');
  }

  lemma MergeSends(p: Plant, r: iset<State>, w: P.World, m: Entry, g: Entry, i: nat, m': Entry)
    requires Joins(p) && Runs(p, r) && State(w, [m], [g]) in r && i < |m.outbox| == 2 && m.outbox[i] != []
    requires (p.inTurn ==> InTurn(m.outbox, i)) && m' == PastSend(m, i)
    ensures State(w, [m'], [g]) in r
  {
    var st := State(w, [m], [g]);
    InShape(p, r, st);
    OneEntry(w, m, g, m');
    Goes(p, r, st, SendOut(Merge(0), i), WithEntry(st, Merge(0), m'));
  }

  lemma EndWaits(p: Plant, st: State, i: nat)
    requires Joins(p) && Sized(p, st) && i < 2 == |st.world.sources| && !EntryOf(st, Merge(0)).done[i]
    requires EntryOf(st, Merge(0)).outbox[i] == [] && st.world.sources[i].ended
    requires EntryOf(st, Merge(0)).told[i] == |st.world.sources[i].log|
    ensures Enabled(p, st, PassEnd(Merge(0), i, 0))
  {
    assert Inputs(p, Merge(0))[i] == FromSource(i);
  }

  lemma EndGoes(p: Plant, r: iset<State>, st: State, i: nat, en': Entry)
    requires Runs(p, r) && st in r && Enabled(p, st, PassEnd(Merge(0), i, 0))
    requires en' == PastEnd(p, Merge(0), EntryOf(st, Merge(0)), i, 0)
    ensures WithEntry(st, Merge(0), en') in r
  {
    Goes(p, r, st, PassEnd(Merge(0), i, 0), WithEntry(st, Merge(0), en'));
  }

  lemma MergeEnds(p: Plant, r: iset<State>, w: P.World, m: Entry, g: Entry, i: nat, m': Entry)
    requires Joins(p) && Runs(p, r) && State(w, [m], [g]) in r
    requires i < 2 == |w.sources| == |m.told| == |m.outbox| == |m.done| && !m.done[i] && m.outbox[i] == []
    requires w.sources[i].ended && m.told[i] == |w.sources[i].log| && m' == PastEnd(p, Merge(0), m, i, 0)
    ensures State(w, [m'], [g]) in r
  {
    var st := State(w, [m], [g]);
    InShape(p, r, st);
    OneEntry(w, m, g, m');
    EndWaits(p, st, i);
    EndGoes(p, r, st, i, m');
  }

  lemma MergedWaits(p: Plant, st: State, e: Epoch)
    requires Joins(p) && Sized(p, st) && EntryOf(st, Merge(0)).merged == [Mark(e)]
    requires EntryOf(st, Gate(0)).told[0] == 0 && EntryOf(st, Gate(0)).outbox[0] == []
    ensures Waits(p, st, Gate(0), 0, e)
  {
    assert Inputs(p, Gate(0))[0] == FromMerge(0);
  }

  lemma GateTakes(p: Plant, r: iset<State>, w: P.World, m: Entry, g: Entry, e: Epoch, g': Entry)
    requires Joins(p) && Runs(p, r) && State(w, [m], [g]) in r && m.merged == [Mark(e)]
    requires g.told == [0] && g.outbox == [[]] && g' == PastMarker(p, Gate(0), g, 0, e, 0)
    ensures State(w, [m], [g']) in r
  {
    var st := State(w, [m], [g]);
    InShape(p, r, st);
    OneEntry(w, m, g, g');
    MergedWaits(p, st, e);
    MarkerGoes(p, r, st, Gate(0), 0, e, g');
  }

  lemma MergeNotices(p: Plant, r: iset<State>, w: P.World, m: Entry, g: Entry, e: Epoch, m': Entry)
    requires Joins(p) && Runs(p, r) && State(w, [m], [g]) in r && e in w.finalizers
    requires m' == Took(p, Merge(0), m, A.Notice(Finalizer(e)))
    ensures State(w, [m'], [g]) in r
  {
    var st := State(w, [m], [g]);
    InShape(p, r, st);
    OneEntry(w, m, g, m');
    Goes(p, r, st, PassNotice(Merge(0), Finalizer(e)), WithEntry(st, Merge(0), m'));
  }

  /** The node's aligner releases `more` on the event. */
  ghost predicate Releases(p: Plant, node: Node, en: Entry, ev: A.Event, more: seq<Epoch>)
    requires ValidNode(p, node)
  {
    var n, evs := |Inputs(p, node)|, en.events + [ev];
    && A.LegalRun(n, en.events) && A.LegalRun(n, evs)
    && A.After(n, evs).out == A.After(n, en.events).out + more
  }

  lemma NewsAre(p: Plant, node: Node, en: Entry, ev: A.Event, more: seq<Epoch>)
    requires ValidNode(p, node) && Releases(p, node, en, ev, more)
    ensures News(p, node, en, ev) == more
  {
    var out := Run(p, node, en).out;
    assert (out + more)[|out|..] == more;
  }

  /** A node takes a marker. */
  lemma Takes(p: Plant, node: Node, en: Entry, i: nat, e: Epoch, more: seq<Epoch>, en': Entry)
    requires ValidNode(p, node) && i < |en.told| && i < |en.outbox| && en.outbox[i] == []
    requires Releases(p, node, en, A.Deliver(i, e, 0), more)
    requires en' == Entry(en.events + [A.Deliver(i, e, 0)], en.told[i := en.told[i] + 1], en.done,
                          en.outbox[i := more], en.merged)
    ensures en' == PastMarker(p, node, en, i, e, 0)
  {
    NewsAre(p, node, en, A.Deliver(i, e, 0), more);
    assert [] + more == more;
  }

  /** A node takes the end of an input. */
  lemma TakesEnd(p: Plant, node: Node, en: Entry, i: nat, more: seq<Epoch>, en': Entry)
    requires ValidNode(p, node) && i < |en.done| && i < |en.outbox| && en.outbox[i] == []
    requires Releases(p, node, en, A.Done(i, 0), more)
    requires en' == Entry(en.events + [A.Done(i, 0)], en.told, en.done[i := true], en.outbox[i := more], en.merged)
    ensures en' == PastEnd(p, node, en, i, 0)
  {
    NewsAre(p, node, en, A.Done(i, 0), more);
    assert [] + more == more;
  }

  // ---------------------------------------------------------------- acking and finalizing

  lemma AckIsEnabled(p: Plant, st: State, k: nat, e: Epoch)
    requires Inv(p, st) && k < |p.gates| && LetThrough(p, Gate(k), EntryOf(st, Gate(k)), e)
    ensures EnabledPlain(p, st, P.SinkAck(k, e)) && P.Enabled(p.topology, st.world, P.SinkAck(k, e))
  {
    assert EnabledPlain(p, st, P.SinkAck(k, e));
    PlainStepsAreEnabled(p, st, P.SinkAck(k, e));
  }

  /** A sink acks what its gate released. */
  lemma Acks(p: Plant, r: iset<State>, st: State, k: nat, e: Epoch, w': P.World)
    requires Runs(p, r) && st in r && Sized(p, st) && k < |p.gates| && LetThrough(p, Gate(k), EntryOf(st, Gate(k)), e)
    requires w' == st.world.(acks := st.world.acks + {(e, k)})
    ensures st.(world := w') in r
  {
    assert Inv(p, st);
    AckIsEnabled(p, st, k, e);
    Goes(p, r, st, Plain(P.SinkAck(k, e)), st.(world := w'));
  }

  /** The terminal epoch 2 is open, and nothing was acked or decided yet. */
  predicate Open(w: P.World) {
    && w.acks == {} && w.admitted == {} && w.unsent == [] && w.finalizers == [] && w.coordinator.expected == {0}
    && 2 in w.coordinator.epochs && w.coordinator.epochs[2].Started?
  }

  /** The world once the sink acked epoch 2, and after each of the coordinator's next steps. */
  function Acked(w: P.World): P.World {
    w.(acks := {(2, 0)})
  }

  function Admitted(w: P.World): P.World {
    Acked(w).(admitted := {(2, 0)})
  }

  function Recorded(w: P.World): P.World {
    Admitted(w).(coordinator := w.coordinator.(epochs := w.coordinator.epochs[2 := C.Finalized]), unsent := [2])
  }

  function Broadcast(w: P.World): P.World {
    Recorded(w).(unsent := [], finalizers := [2])
  }

  lemma Admits(p: Plant, r: iset<State>, st: State, w: P.World)
    requires Runs(p, r) && st in r && Open(w) && st.world == Acked(w)
    ensures st.(world := Admitted(w)) in r
  {
    InShape(p, r, st);
    PlainGoes(p, r, st, P.AdmitAck(2, 0), Admitted(w));
  }

  lemma Records(p: Plant, r: iset<State>, st: State, w: P.World)
    requires Runs(p, r) && st in r && Open(w) && st.world == Admitted(w)
    ensures st.(world := Recorded(w)) in r
  {
    InShape(p, r, st);
    PlainGoes(p, r, st, P.RecordAck(2, 0), Recorded(w));
  }

  lemma Broadcasts(p: Plant, r: iset<State>, st: State, w: P.World)
    requires Runs(p, r) && st in r && Open(w) && st.world == Recorded(w)
    ensures st.(world := Broadcast(w)) in r
  {
    InShape(p, r, st);
    PlainGoes(p, r, st, P.SendFinalizer(0), Broadcast(w));
  }

  lemma Finalizes(p: Plant, r: iset<State>, st: State, w: P.World, e: Epoch)
    requires Joins(p) && Runs(p, r) && st in r && w == st.world && Open(w) && e == 2 && |st.gates| == 1
    requires LetThrough(p, Gate(0), st.gates[0], e)
    ensures st.(world := Broadcast(w)) in r
  {
    InShape(p, r, st);
    assert w.acks + {(e, 0)} == {(2, 0)};
    Acks(p, r, st, 0, e, Acked(w));
    Admits(p, r, st.(world := Acked(w)), w);
    Records(p, r, st.(world := Admitted(w)), w);
    Broadcasts(p, r, st.(world := Recorded(w)), w);
  }

  // ---------------------------------------------------------------- what the sources send

  /** Nothing was sent yet. */
  predicate Blank(w: P.World) {
    && |w.sources| == 2 && w.sources[0] == w.sources[1] == P.Source(0, 0, [], map[], false)
    && w.read == map[(0, 0) := 0, (1, 0) := 0] && w.markers == {} && w.coordinator == C.Fresh({0})
    && w.acks == {} && w.admitted == {} && w.unsent == [] && w.finalizers == []
  }

  lemma BootIsBlank(p: Plant)
    requires Joins(p)
    ensures Blank(Boot(p).world)
  {
    assert P.Numbers(1) == [0];
    assert P.AllSinks(p.topology) == {0};
    assert Boot(p).world.read == map[(0, 0) := 0, (1, 0) := 0];
  }

  lemma NoRecords()
    ensures P.Records([]) == 0 && P.Records([P.Mark(1)]) == 0
    ensures [] + [P.Mark(1)] == [P.Mark(1)] && [] + [P.Mark(2)] == [P.Mark(2)]
    ensures [P.Mark(1)] + [P.Mark(2)] == [P.Mark(1), P.Mark(2)]
  {
    assert P.Records([P.Mark(1)]) == P.Records([P.Mark(1)][..0]);
  }

  /** The timer mints epoch 1, and source a passes its marker on; then so with the terminal epoch 2. */
  function FirstMark(w: P.World, a: nat): P.World
    requires a < |w.sources|
  {
    w.(coordinator := Minted(), markers := {1}, sources := w.sources[a := Marked(w.sources[a], 1)])
  }

  function SecondMark(w: P.World, a: nat): P.World
    requires a < |w.sources|
  {
    w.(coordinator := Terminal(), markers := {1, 2}, sources := w.sources[a := Marked(w.sources[a], 2)])
  }

  lemma SendsFirstMark(p: Plant, r: iset<State>, st: State, a: nat)
    requires Joins(p) && Runs(p, r) && st in r && Blank(st.world) && a < 2
    ensures st.(world := FirstMark(st.world, a)) in r
  {
    var w := st.world;
    Mints(p, r, st, w.(coordinator := Minted(), markers := {1}));
    Emits(p, r, st.(world := w.(coordinator := Minted(), markers := {1})), a, 1, FirstMark(w, a));
  }

  lemma SendsSecondMark(p: Plant, r: iset<State>, st: State, a: nat)
    requires Joins(p) && Runs(p, r) && st in r && st.world.coordinator == Minted() && st.world.markers == {1}
    requires a < 2 == |st.world.sources| && !st.world.sources[a].ended
    requires st.world.sources[a].log == [P.Mark(1)] && st.world.sources[a].recorded.Keys == {1}
    ensures st.(world := SecondMark(st.world, a)) in r
  {
    var w := st.world;
    TerminalBegins(p, r, st, w.(coordinator := Terminal(), markers := {1, 2}));
    Emits(p, r, st.(world := w.(coordinator := Terminal(), markers := {1, 2})), a, 2, SecondMark(w, a));
  }

  lemma SendsTwo(p: Plant, r: iset<State>, st: State, a: nat, w': P.World)
    requires Joins(p) && Runs(p, r) && st in r && a < 2 == |st.world.sources| && |st.world.sources[a].log| == 2
    requires (a, 0) in st.world.read && st.world.read[(a, 0)] == 0
    requires w' == st.world.(read := st.world.read[(a, 0) := 2])
    ensures st.(world := w') in r
  {
    var w := st.world.(read := st.world.read[(a, 0) := 1]);
    assert w.(read := w.read[(a, 0) := 2]) == w';
    Sends(p, r, st, a, w);
    Sends(p, r, st.(world := w), a, w');
  }

  /** In the first run source 1 skips epoch 1. */
  predicate SkipsOne(w: P.World) {
    && |w.sources| == 2 && w.sources[0].log == [P.Mark(1), P.Mark(2)] && w.sources[1].log == [P.Mark(2)]
    && w.read == map[(0, 0) := 2, (1, 0) := 1] && w.markers == {1, 2} && Open(w)
  }

  lemma SkippingWorld(p: Plant, r: iset<State>) returns (w: P.World)
    requires Joins(p) && Runs(p, r) && !p.inOrder
    ensures SkipsOne(w) && Boot(p).(world := w) in r
  {
    var st := Boot(p);
    BootIsBlank(p);
    NoRecords();
    SendsFirstMark(p, r, st, 0);
    var w1 := FirstMark(st.world, 0);
    SendsSecondMark(p, r, st.(world := w1), 0);
    var w2 := SecondMark(w1, 0);
    var w3 := w2.(sources := w2.sources[1 := Marked(w2.sources[1], 2)]);
    Emits(p, r, st.(world := w2), 1, 2, w3);
    var w4 := w3.(read := w3.read[(0, 0) := 2]);
    SendsTwo(p, r, st.(world := w3), 0, w4);
    w := w4.(read := w4.read[(1, 0) := 1]);
    Sends(p, r, st.(world := w4), 1, w);
    assert w.read == map[(0, 0) := 2, (1, 0) := 1];
  }

  /** In the second run source 0 ends before any marker, and source 1 passes both on. */
  predicate OneEnds(w: P.World) {
    && |w.sources| == 2 && w.sources[0].log == [] && w.sources[0].ended
    && w.sources[1].log == [P.Mark(1), P.Mark(2)]
    && w.read == map[(0, 0) := 0, (1, 0) := 2] && w.markers == {1, 2}
  }

  lemma EndingWorld(p: Plant, r: iset<State>) returns (w: P.World)
    requires Joins(p) && Runs(p, r)
    ensures OneEnds(w) && Boot(p).(world := w) in r
  {
    var st := Boot(p);
    BootIsBlank(p);
    NoRecords();
    SendsFirstMark(p, r, st, 1);
    var w1 := FirstMark(st.world, 1);
    SendsSecondMark(p, r, st.(world := w1), 1);
    var w2 := SecondMark(w1, 1);
    var w3 := w2.(sources := w2.sources[0 := w2.sources[0].(ended := true)]);
    EndsSource(p, r, st.(world := w2), 0, w3);
    w := w3.(read := w3.read[(1, 0) := 2]);
    SendsTwo(p, r, st.(world := w3), 1, w);
    assert w.read == map[(0, 0) := 0, (1, 0) := 2];
  }

  lemma BootIsFresh(p: Plant, w: P.World, m: Entry, g: Entry)
    requires Joins(p) && m == Entry([], [0, 0], [false, false], [[], []], []) && g == Entry([], [0], [false], [[]], [])
    ensures Boot(p).(world := w) == State(w, [m], [g])
  {
    var a, b := Fresh(2), Fresh(1);
    assert a.told == [0, 0] && a.done == [false, false] && a.outbox == [[], []];
    assert b.told == [0] && b.done == [false] && b.outbox == [[]];
    assert FreshMerges(p) == [m] && FreshGates(p) == [g];
  }

  // ---------------------------------------------------------------- the finalizer overtakes

  /** The entries of the merge point in the first run, event by event; `e` is [0, 1, 2]. */
  ghost predicate Skipping(p: Plant, m: seq<Entry>, e: seq<nat>)
    requires Joins(p)
  {
    && |m| == 5 && e == [0, 1, 2]
    && (forall i | 0 <= i < 3 :: m[i].told == [e[i], 0] && m[i].outbox == [[], []])
    && m[1] == PastMarker(p, Merge(0), m[0], 0, e[1], 0) && m[2] == PastMarker(p, Merge(0), m[1], 0, e[2], 0)
    && m[3] == PastMarker(p, Merge(0), m[2], 1, e[2], 0) && m[3].outbox == [[], [e[2]]]
    && m[4] == PastSend(m[3], 1) && m[4].merged == [Mark(e[2])]
  }

  /** Those of the gate. */
  ghost predicate Opening(p: Plant, g: seq<Entry>, e: Epoch)
    requires Joins(p)
  {
    && |g| == 2 && g[0].told == [0] && g[0].outbox == [[]]
    && g[1] == PastMarker(p, Gate(0), g[0], 0, e, 0) && LetThrough(p, Gate(0), g[1], e)
  }

  lemma SkippingRuns(p: Plant, r: iset<State>, w: P.World, m: seq<Entry>, g: seq<Entry>, e: seq<nat>, last: Entry)
    requires Joins(p) && Runs(p, r) && SkipsOne(w) && Skipping(p, m, e) && Opening(p, g, e[2])
    requires State(w, [m[0]], [g[0]]) in r
    requires last == Took(p, Merge(0), m[4], A.Notice(Finalizer(e[2])))
    ensures State(Broadcast(w), [last], [g[1]]) in r
  {
    MergeTakes(p, r, w, m[0], g[0], 0, e[1], m[1]);
    MergeTakes(p, r, w, m[1], g[0], 0, e[2], m[2]);
    MergeTakes(p, r, w, m[2], g[0], 1, e[2], m[3]);
    MergeSends(p, r, w, m[3], g[0], 1, m[4]);
    GateTakes(p, r, w, m[4], g[0], e[2], g[1]);
    Finalizes(p, r, State(w, [m[4]], [g[1]]), w, e[2]);
    MergeNotices(p, r, Broadcast(w), m[4], g[1], e[2], last);
  }

  lemma Aligning(d: seq<A.Event>)
    requires d == [A.Deliver(0, 1, 0), A.Deliver(0, 2, 0), A.Deliver(1, 2, 0)]
    ensures A.LegalRun(2, []) && A.After(2, []).out == []
    ensures A.LegalRun(2, [] + [d[0]]) && A.After(2, [] + [d[0]]).out == [] + []
    ensures A.LegalRun(2, [d[0]] + [d[1]]) && A.After(2, [d[0]] + [d[1]]).out == [] + []
    ensures A.LegalRun(2, [d[0], d[1]] + [d[2]]) && A.After(2, [d[0], d[1]] + [d[2]]).out == [] + [2]
  {
    var r1 := A.OneMarker();
    var r, r2 := A.TwoMarkers();
    A.ThreeMarkers();
    assert [] + [d[0]] == [d[0]] && [d[0]] + [d[1]] == [d[0], d[1]] && [d[0], d[1]] + [d[2]] == d;
  }

  lemma Gating(ev: A.Event)
    requires ev == A.Deliver(0, 2, 0)
    ensures A.LegalRun(1, []) && A.After(1, []).out == []
    ensures A.LegalRun(1, [] + [ev]) && A.After(1, [] + [ev]).out == [] + [2]
  {
    A.RunOfOne(1, [], ev);
    assert RequiredCopies(1, [], 2) == 1;
    var released := [Marker(2, 0)];
    assert released[1..] == [] && A.MarkerEpochs(released) == [2] + [];
  }

  predicate Shapes(m: seq<Entry>, d: seq<A.Event>, e: seq<nat>) {
    && |m| == 5 && d == [A.Deliver(0, 1, 0), A.Deliver(0, 2, 0), A.Deliver(1, 2, 0)] && e == [0, 1, 2]
    && m[0] == Entry([], [0, 0], [false, false], [[], []], [])
    && m[1] == Entry([d[0]], [1, 0], [false, false], [[], []], [])
    && m[2] == Entry([d[0], d[1]], [2, 0], [false, false], [[], []], [])
    && m[3] == Entry(d, [2, 1], [false, false], [[], [2]], [])
    && m[4] == Entry(d, [2, 1], [false, false], [[], []], [Mark(2)])
  }

  lemma FirstIsHeld(p: Plant, m: seq<Entry>, d: seq<A.Event>, e: seq<nat>)
    requires Joins(p) && Shapes(m, d, e)
    ensures m[1] == PastMarker(p, Merge(0), m[0], 0, e[1], 0)
  {
    Aligning(d);
    assert [] + [d[0]] == [d[0]];
    Takes(p, Merge(0), m[0], 0, e[1], [], m[1]);
  }

  lemma SecondIsHeld(p: Plant, m: seq<Entry>, d: seq<A.Event>, e: seq<nat>)
    requires Joins(p) && Shapes(m, d, e)
    ensures m[2] == PastMarker(p, Merge(0), m[1], 0, e[2], 0)
  {
    Aligning(d);
    assert [] + [d[0]] == [d[0]] && [d[0]] + [d[1]] == [d[0], d[1]];
    Takes(p, Merge(0), m[1], 0, e[2], [], m[2]);
  }

  lemma SecondIsReleased(p: Plant, m: seq<Entry>, d: seq<A.Event>, e: seq<nat>)
    requires Joins(p) && Shapes(m, d, e)
    ensures m[3] == PastMarker(p, Merge(0), m[2], 1, e[2], 0)
  {
    Aligning(d);
    assert [d[0]] + [d[1]] == [d[0], d[1]] && [d[0], d[1]] + [d[2]] == d;
    Takes(p, Merge(0), m[2], 1, e[2], [2], m[3]);
  }

  lemma MergeSkips(p: Plant, m: seq<Entry>, d: seq<A.Event>, e: seq<nat>)
    requires Joins(p) && Shapes(m, d, e)
    ensures Skipping(p, m, e)
  {
    FirstIsHeld(p, m, d, e);
    SecondIsHeld(p, m, d, e);
    SecondIsReleased(p, m, d, e);
    assert [] + MarkItems([2]) == [Mark(2)];
  }

  lemma GateOpens(p: Plant, g: seq<Entry>, ev: A.Event, e: Epoch)
    requires Joins(p) && ev == A.Deliver(0, e, 0) && e == 2 && |g| == 2
    requires g[0] == Entry([], [0], [false], [[]], []) && g[1] == Entry([ev], [1], [false], [[2]], [])
    ensures Opening(p, g, e)
  {
    Gating(ev);
    assert [] + [ev] == [ev] && [] + [2] == [2];
    Takes(p, Gate(0), g[0], 0, e, [2], g[1]);
  }

  /** The count of epoch 1 is gone while the epoch is held back. */
  ghost predicate Wiped(events: seq<A.Event>) {
    && A.LegalRun(2, events) && !A.PromptRun(2, events)
    && A.After(2, events).out == [2] && 1 !in A.After(2, events).a.epochs
    && A.Deliverers(A.After(2, events), 1) != {}
  }

  lemma LastEntry(p: Plant, m: Entry, d: seq<A.Event>, e: Epoch, last: Entry)
    requires d == [A.Deliver(0, 1, 0), A.Deliver(0, 2, 0), A.Deliver(1, 2, 0)] && e == 2 && m.events == d
    requires last == Took(p, Merge(0), m, A.Notice(Finalizer(e)))
    ensures Wiped(last.events)
  {
    A.SkippedMarkerIsLost();
    assert last.events == [A.Deliver(0, 1, 0), A.Deliver(0, 2, 0), A.Deliver(1, 2, 0), A.Notice(Finalizer(2))];
  }

  ghost predicate Overtaken(p: Plant, steps: seq<Step>) {
    && CanRun(p, Boot(p), steps) && |Reach(p, Boot(p), steps).merges| == 1
    && Wiped(Reach(p, Boot(p), steps).merges[0].events)
  }

  /** With a source that skips a marker the protocol has a run in which a finalizer overtakes: timer
      mint, marker 1 from source 0, terminal epoch, marker 2 from both, all passed on; ack, finalizer,
      and its notice. The count of epoch 1 is wiped at the merge point while it is held back there,
      and as `AlignmentRuns.LostForGood` shows it never goes downstream. */
  lemma FinalizerOvertakes(p: Plant)
    requires p == Joined(false, true)
    ensures WellBuilt(p) && exists steps :: Overtaken(p, steps)
  {
    JoinedIsWellBuilt(p);
    var d, e, f := [A.Deliver(0, 1, 0), A.Deliver(0, 2, 0), A.Deliver(1, 2, 0)], [0, 1, 2], [false, false];
    var m := [Entry([], [0, 0], f, [[], []], []), Entry([d[0]], [1, 0], f, [[], []], []),
              Entry([d[0], d[1]], [2, 0], f, [[], []], []), Entry(d, [2, 1], f, [[], [2]], []),
              Entry(d, [2, 1], f, [[], []], [Mark(2)])];
    var g := [Entry([], [0], [false], [[]], []), Entry([d[1]], [1], [false], [[2]], [])];
    MergeSkips(p, m, d, e);
    GateOpens(p, g, d[1], e[2]);
    SkippingEnds(p, m, g, d, e);
  }

  lemma SkippingEnds(p: Plant, m: seq<Entry>, g: seq<Entry>, d: seq<A.Event>, e: seq<nat>)
    requires Joins(p) && WellBuilt(p) && !p.inOrder && Skipping(p, m, e) && Opening(p, g, e[2])
    requires m[0] == Entry([], [0, 0], [false, false], [[], []], []) && g[0] == Entry([], [0], [false], [[]], [])
    requires d == [A.Deliver(0, 1, 0), A.Deliver(0, 2, 0), A.Deliver(1, 2, 0)] && m[4].events == d
    ensures exists steps :: Overtaken(p, steps)
  {
    var last := Took(p, Merge(0), m[4], A.Notice(Finalizer(e[2])));
    var r := iset st | Reachable(p, st);
    ReachableRuns(p, r);
    var w := SkippingWorld(p, r);
    BootIsFresh(p, w, m[0], g[0]);
    SkippingRuns(p, r, w, m, g, e, last);
    LastEntry(p, m[4], d, e[2], last);
    var steps :| Reached(p, State(Broadcast(w), [last], [g[1]]), steps);
    assert Overtaken(p, steps);
  }

  // ---------------------------------------------------------------- a marker overtakes

  /** What the aligner releases in the second run. */
  lemma AligningEnds(d: seq<A.Event>)
    requires d == [A.Deliver(1, 1, 0), A.Done(0, 0), A.Deliver(1, 2, 0)]
    ensures A.LegalRun(2, []) && A.After(2, []).out == []
    ensures A.LegalRun(2, [] + [d[0]]) && A.After(2, [] + [d[0]]).out == []
    ensures var r := A.After(2, [] + [d[0]]);
      && r.delivered == [[], [1]] && r.ended == [false, false]
      && r.a.inputs == 2 && r.a.finished == [] && r.a.epochs == map[1 := MarkerState(1, false)]
  {
    A.RunOfOne(2, [], d[0]);
    A.RunKeeps(2, []);
    A.DeliverOut(A.Start(2), 1, 1, 0);
    assert RequiredCopies(2, [], 1) == 2;
    assert [] + [1] == [1];
  }

  lemma EndReleases(r: A.Run)
    requires r.delivered == [[], [1]] && r.ended == [false, false] && r.out == []
    requires r.a.inputs == 2 && r.a.finished == [] && r.a.epochs == map[1 := MarkerState(1, false)]
    ensures A.Legal(r, A.Done(0, 0))
    ensures var r' := A.Next(r, A.Done(0, 0));
      && r'.out == [1] && r'.delivered == [[], [1]] && r'.ended == [true, false]
      && r'.a.inputs == 2 && r'.a.finished == [None] && r'.a.epochs == map[1 := MarkerState(1, true)]
  {
    A.DoneOut(r, 0, 0);
    var a := A.EndedAligner(r, 0);
    assert a.finished == [None];
    assert a.finished[..0] == [] && FinishedBefore([], 1) == 0;
    assert RequiredCopies(2, [None], 1) == 1;
    assert ReadySet(a) == {1};
    AscendingOne(1);
    assert [] + [1] == [1];
  }

  lemma AscendingOne(e: Epoch)
    ensures Ascending({e}) == [e]
  {
    assert {e} - {e} == {};
  }

  lemma NextReleases(r: A.Run)
    requires A.Inv(r) && r.delivered == [[], [1]] && r.ended == [true, false] && r.out == [1]
    requires r.a.inputs == 2 && r.a.finished == [None] && r.a.epochs == map[1 := MarkerState(1, true)]
    ensures A.Legal(r, A.Deliver(1, 2, 0)) && A.Next(r, A.Deliver(1, 2, 0)).out == [1] + [2]
  {
    A.DeliverOut(r, 1, 2, 0);
    assert r.a.finished[..0] == [] && FinishedBefore([], 2) == 0;
    assert RequiredCopies(2, r.a.finished, 2) == 1;
  }

  lemma AligningAfterEnd(d: seq<A.Event>)
    requires d == [A.Deliver(1, 1, 0), A.Done(0, 0), A.Deliver(1, 2, 0)]
    ensures A.LegalRun(2, [d[0]] + [d[1]]) && A.After(2, [d[0]] + [d[1]]).out == [] + [1]
    ensures A.LegalRun(2, [d[0], d[1]] + [d[2]]) && A.After(2, [d[0], d[1]] + [d[2]]).out == [1] + [2]
  {
    AligningEnds(d);
    assert [] + [d[0]] == [d[0]] && [d[0]] + [d[1]] == [d[0], d[1]];
    EndReleases(A.After(2, [d[0]]));
    A.RunOfOne(2, [d[0]], d[1]);
    A.RunKeeps(2, [d[0], d[1]]);
    NextReleases(A.After(2, [d[0], d[1]]));
    A.RunOfOne(2, [d[0], d[1]], d[2]);
  }

  /** The entries of the merge point in the second run, event by event. */
  predicate EndShapes(n: seq<Entry>, d: seq<A.Event>, e: seq<nat>) {
    && |n| == 6 && d == [A.Deliver(1, 1, 0), A.Done(0, 0), A.Deliver(1, 2, 0)] && e == [0, 1, 2]
    && n[0] == Entry([], [0, 0], [false, false], [[], []], [])
    && n[1] == Entry([d[0]], [0, 1], [false, false], [[], []], [])
    && n[2] == Entry([d[0], d[1]], [0, 1], [true, false], [[1], []], [])
    && n[3] == Entry(d, [0, 2], [true, false], [[1], [2]], [])
    && n[4] == Entry(d, [0, 2], [true, false], [[1], []], [Mark(2)])
    && n[5] == Entry(d, [0, 2], [true, false], [[], []], [Mark(2), Mark(1)])
  }

  lemma FirstIsCounted(p: Plant, n: seq<Entry>, d: seq<A.Event>, e: seq<nat>)
    requires Joins(p) && EndShapes(n, d, e)
    ensures n[1] == PastMarker(p, Merge(0), n[0], 1, e[1], 0)
  {
    AligningEnds(d);
    assert [] + [d[0]] == [d[0]] && [] + [] == A.After(2, []).out;
    Takes(p, Merge(0), n[0], 1, e[1], [], n[1]);
  }

  lemma EndReleasesFirst(p: Plant, n: seq<Entry>, d: seq<A.Event>, e: seq<nat>)
    requires Joins(p) && EndShapes(n, d, e)
    ensures Releases(p, Merge(0), n[1], A.Done(0, 0), [1])
  {
    AligningEnds(d);
    AligningAfterEnd(d);
    assert [] + [d[0]] == [d[0]];
  }

  lemma EndIsTaken(p: Plant, n: seq<Entry>, d: seq<A.Event>, e: seq<nat>)
    requires Joins(p) && EndShapes(n, d, e)
    ensures n[2] == PastEnd(p, Merge(0), n[1], 0, 0)
  {
    EndReleasesFirst(p, n, d, e);
    assert [d[0]] + [d[1]] == [d[0], d[1]];
    TakesEnd(p, Merge(0), n[1], 0, [1], n[2]);
  }

  lemma NextIsTaken(p: Plant, n: seq<Entry>, d: seq<A.Event>, e: seq<nat>)
    requires Joins(p) && EndShapes(n, d, e)
    ensures n[3] == PastMarker(p, Merge(0), n[2], 1, e[2], 0)
  {
    AligningAfterEnd(d);
    assert [d[0]] + [d[1]] == [d[0], d[1]] && [d[0], d[1]] + [d[2]] == d;
    Takes(p, Merge(0), n[2], 1, e[2], [2], n[3]);
  }

  lemma BothAreSent(n: seq<Entry>, d: seq<A.Event>, e: seq<nat>)
    requires EndShapes(n, d, e)
    ensures n[4] == PastSend(n[3], 1) && n[5] == PastSend(n[4], 0)
    ensures Marks(n[5].merged) == [2, 1]
  {
    assert [] + MarkItems([2]) == [Mark(2)] && [Mark(2)] + MarkItems([1]) == [Mark(2), Mark(1)];
    assert [Mark(2), Mark(1)][..1] == [Mark(2)] && [Mark(2)][..0] == [];
  }

  /** The merge point passes on what it released, in the order in which the forwarders come to it. */
  ghost predicate Ending(p: Plant, n: seq<Entry>, e: seq<nat>)
    requires Joins(p)
  {
    && |n| == 6 && e == [0, 1, 2]
    && n[0].told == [e[0], e[0]] && n[1].told == [e[0], e[1]] && n[2].told == [e[0], e[1]]
    && n[0].outbox == n[1].outbox == [[], []] && |n[2].outbox| == |n[3].outbox| == |n[4].outbox| == 2
    && |n[1].done| == 2 && !n[1].done[0] && n[2].outbox[1] == [] && n[3].outbox[1] != [] && n[4].outbox[0] != []
    && n[1] == PastMarker(p, Merge(0), n[0], 1, e[1], 0) && n[2] == PastEnd(p, Merge(0), n[1], 0, 0)
    && n[3] == PastMarker(p, Merge(0), n[2], 1, e[2], 0)
    && n[4] == PastSend(n[3], 1) && n[5] == PastSend(n[4], 0)
  }

  lemma EndingHolds(p: Plant, n: seq<Entry>, d: seq<A.Event>, e: seq<nat>)
    requires Joins(p) && EndShapes(n, d, e)
    ensures Ending(p, n, e)
  {
    FirstIsCounted(p, n, d, e);
    EndIsTaken(p, n, d, e);
    NextIsTaken(p, n, d, e);
    BothAreSent(n, d, e);
  }

  lemma EndingRuns(p: Plant, r: iset<State>, w: P.World, n: seq<Entry>, g: Entry, e: seq<nat>)
    requires Joins(p) && !p.inTurn && Runs(p, r) && OneEnds(w) && Ending(p, n, e) && State(w, [n[0]], [g]) in r
    ensures State(w, [n[5]], [g]) in r
  {
    MergeTakes(p, r, w, n[0], g, 1, e[1], n[1]);
    MergeEnds(p, r, w, n[1], g, 0, n[2]);
    MergeTakes(p, r, w, n[2], g, 1, e[2], n[3]);
    MergeSends(p, r, w, n[3], g, 1, n[4]);
    MergeSends(p, r, w, n[4], g, 0, n[5]);
  }

  /** The merged markers are out of order although no source skipped one. */
  ghost predicate OutOfOrder(p: Plant, steps: seq<Step>) {
    && CanRun(p, Boot(p), steps)
    && var st := Reach(p, Boot(p), steps);
       && |st.merges| == 1 && st.world.markers == {1, 2} && Marks(st.merges[0].merged) == [2, 1]
  }

  /** Even if no source skips a marker the protocol has a run in which one overtakes another: timer mint,
      marker 1 from source 1, terminal epoch, marker 2 from source 1, end of source 0. The end releases
      marker 1 at the merge point; before its forwarder sends it, that of source 1 releases and sends
      marker 2. */
  lemma MarkerOvertakes(p: Plant)
    requires p == Joined(true, false)
    ensures WellBuilt(p) && exists steps :: OutOfOrder(p, steps)
  {
    JoinedIsWellBuilt(p);
    var d, e, f, h := [A.Deliver(1, 1, 0), A.Done(0, 0), A.Deliver(1, 2, 0)], [0, 1, 2], [false, false], [true, false];
    var n := [Entry([], [0, 0], f, [[], []], []), Entry([d[0]], [0, 1], f, [[], []], []),
              Entry([d[0], d[1]], [0, 1], h, [[1], []], []), Entry(d, [0, 2], h, [[1], [2]], []),
              Entry(d, [0, 2], h, [[1], []], [Mark(2)]), Entry(d, [0, 2], h, [[], []], [Mark(2), Mark(1)])];
    EndingHolds(p, n, d, e);
    BothAreSent(n, d, e);
    EndingEnds(p, n, e);
  }

  lemma EndingEnds(p: Plant, n: seq<Entry>, e: seq<nat>)
    requires Joins(p) && WellBuilt(p) && !p.inTurn && Ending(p, n, e)
    requires n[0] == Entry([], [0, 0], [false, false], [[], []], []) && Marks(n[5].merged) == [2, 1]
    ensures exists steps :: OutOfOrder(p, steps)
  {
    var g := Entry([], [0], [false], [[]], []);
    var r := iset st | Reachable(p, st);
    ReachableRuns(p, r);
    var w := EndingWorld(p, r);
    BootIsFresh(p, w, n[0], g);
    EndingRuns(p, r, w, n, g, e);
    var steps :| Reached(p, State(w, [n[5]], [g]), steps);
    assert OutOfOrder(p, steps);
  }
}
