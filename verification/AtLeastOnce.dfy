/** The checkpoint protocol end to end: sources that record and commit offsets, FIFO streams,
    sinks that ack after a durable flush, the coordinator, crashes and restarts. */
module AtLeastOnce {
  import C = Coordinator

  type Epoch = nat

  /** Sources and sinks are numbered; `wired` says which source's rows reach which sink. */
  datatype Topology = Topology(sources: nat, sinks: nat, wired: set<(nat, nat)>)

  datatype Item = Record | Mark(epoch: Epoch)

  /** `log` is what the source has emitted since it started at offset `start`; every stream out of
      it carries the log in order. `committed` is the offset a restart resumes from. */
  datatype Source = Source(
    committed: nat,
    start: nat,
    log: seq<Item>,
    recorded: map<Epoch, nat>,
    ended: bool)

  /** `durable[k]` are the (source, offset) pairs stored at sink k; `read[(s, k)]` is how much of
      s's log sink k has received. `committed` and `durable` survive a crash, the rest does not.
      `admitted` are the acks past the ack arm's first look; `unsent` are the epochs that were
      turned final and whose finalizer is still to be broadcast. */
  datatype World = World(
    sources: seq<Source>,
    durable: seq<set<(nat, nat)>>,
    read: map<(nat, nat), nat>,
    completed: set<nat>,
    markers: set<Epoch>,
    acks: set<(Epoch, nat)>,
    admitted: set<(Epoch, nat)>,
    coordinator: C.State,
    snapshots: seq<set<nat>>,
    unsent: seq<Epoch>,
    finalizers: seq<Epoch>)

  datatype Step =
    | Emit(s: nat)
    | EmitMarker(s: nat, e: Epoch)
    | End(s: nat)
    | Receive(s: nat, k: nat)
    | Flush(k: nat, rows: set<(nat, nat)>)
    | SinkAck(k: nat, e: Epoch)
    | SinkComplete(k: nat)
    | AdmitAck(e: Epoch, k: nat)
    | RecordAck(e: Epoch, k: nat)
    | DropSink(k: nat)
    | FinalizeReady(snapshot: nat)
    | SendFinalizer(i: nat)
    | MintTimer
    | BeginTerminal
    | Sweep(stale: set<Epoch>)
    | Commit(s: nat, e: Epoch)
    | Crash

  function Records(items: seq<Item>): nat {
    if items == [] then 0 else Records(items[..|items| - 1]) + if items[|items| - 1].Record? then 1 else 0
  }

  function Position(src: Source): nat {
    src.start + Records(src.log)
  }

  predicate Shaped(t: Topology, w: World) {
    && |w.sources| == t.sources
    && |w.durable| == t.sinks
    && (forall p | p in t.wired :: p.0 < t.sources && p.1 < t.sinks)
    && w.read.Keys == t.wired
    && (forall p | p in t.wired :: w.read[p] <= |w.sources[p.0].log|)
  }

  /** Source s's offsets in [from, to) are all stored at sink k. */
  predicate Stored(w: World, s: nat, k: nat, from: nat, to: nat)
    requires k < |w.durable|
  {
    forall o | from <= o < to :: (s, o) in w.durable[k]
  }

  function ReceivedEnd(w: World, s: nat, k: nat): nat
    requires (s, k) in w.read && s < |w.sources| && w.read[(s, k)] <= |w.sources[s].log|
  {
    w.sources[s].start + Records(w.sources[s].log[..w.read[(s, k)]])
  }

  /** Everything source s sent before its marker for e is stored at sink k. */
  predicate FlushedMarker(w: World, s: nat, k: nat, e: Epoch)
    requires (s, k) in w.read && s < |w.sources| && k < |w.durable| && w.read[(s, k)] <= |w.sources[s].log|
  {
    exists i | 0 <= i < w.read[(s, k)] ::
      && w.sources[s].log[i] == Mark(e)
      && Stored(w, s, k, w.sources[s].start, w.sources[s].start + Records(w.sources[s].log[..i]))
  }

  /** Source s has ended and all it sent is stored at sink k. */
  predicate FlushedEnd(w: World, s: nat, k: nat)
    requires (s, k) in w.read && s < |w.sources| && k < |w.durable| && w.read[(s, k)] <= |w.sources[s].log|
  {
    && w.sources[s].ended
    && w.read[(s, k)] == |w.sources[s].log|
    && Stored(w, s, k, w.sources[s].start, Position(w.sources[s]))
  }

  /** The durability rule of an ack: on every input stream the marker has arrived, or the stream
      has ended, and all that came before is stored. */
  predicate MayAck(t: Topology, w: World, k: nat, e: Epoch)
    requires Shaped(t, w)
  {
    k < t.sinks && forall s | 0 <= s < t.sources && (s, k) in t.wired ::
      FlushedMarker(w, s, k, e) || FlushedEnd(w, s, k)
  }

  predicate MayComplete(t: Topology, w: World, k: nat)
    requires Shaped(t, w)
  {
    k < t.sinks && forall s | 0 <= s < t.sources && (s, k) in t.wired :: FlushedEnd(w, s, k)
  }

  predicate Received(t: Topology, w: World, k: nat, row: (nat, nat))
    requires Shaped(t, w)
  {
    (row.0, k) in t.wired && w.sources[row.0].start <= row.1 < ReceivedEnd(w, row.0, k)
  }

  predicate Enabled(t: Topology, w: World, step: Step)
    requires Shaped(t, w)
  {
    match step
    case Emit(s) => s < t.sources && !w.sources[s].ended
    case EmitMarker(s, e) =>
      && s < t.sources && !w.sources[s].ended && e in w.markers
      && forall x | x in w.sources[s].recorded :: x < e
    case End(s) => s < t.sources
    case Receive(s, k) => (s, k) in t.wired && w.read[(s, k)] < |w.sources[s].log|
    case Flush(k, rows) => k < t.sinks && forall row | row in rows :: Received(t, w, k, row)
    case SinkAck(k, e) => MayAck(t, w, k, e)
    case SinkComplete(k) => MayComplete(t, w, k)
    case AdmitAck(e, k) => (e, k) in w.acks && C.Admits(w.coordinator, k)
    case RecordAck(e, k) => (e, k) in w.admitted
    case DropSink(k) => k in w.completed
    case FinalizeReady(i) => i < |w.snapshots|
    case SendFinalizer(i) => i < |w.unsent|
    case MintTimer => C.NewestFinalized(w.coordinator.epochs)
    case BeginTerminal => true
    case Sweep(_) => true
    case Commit(s, e) => s < t.sources && e in w.finalizers
    case Crash => true
  }

  function SetSource(w: World, s: nat, src: Source): World
    requires s < |w.sources|
  {
    w.(sources := w.sources[s := src])
  }

  function Restarted(src: Source): Source {
    Source(src.committed, src.committed, [], map[], false)
  }

  function AllSinks(t: Topology): set<nat> {
    set k | k in Numbers(t.sinks)
  }

  function Numbers(n: nat): (r: seq<nat>)
    ensures |r| == n && forall i | 0 <= i < n :: r[i] == i
  {
    if n == 0 then [] else Numbers(n - 1) + [n - 1]
  }

  function Reset(t: Topology, sources: seq<Source>, durable: seq<set<(nat, nat)>>): World {
    World(
      seq(|sources|, i requires 0 <= i < |sources| => Restarted(sources[i])),
      durable,
      map p | p in t.wired :: 0,
      {}, {}, {}, {}, C.Fresh(AllSinks(t)), [], [], [])
  }

  /** The members of `s` in some order. */
  ghost function Listed(s: set<Epoch>): (r: seq<Epoch>)
    ensures forall e :: e in r <==> e in s
    ensures forall i, j | 0 <= i < j < |r| :: r[i] != r[j]
  {
    if s == {} then [] else var e :| e in s; [e] + Listed(s - {e})
  }

  ghost function Do(t: Topology, w: World, step: Step): World
    requires Shaped(t, w) && Enabled(t, w, step)
  {
    match step
    case Emit(s) => SetSource(w, s, w.sources[s].(log := w.sources[s].log + [Record]))
    case EmitMarker(s, e) =>
      var src := w.sources[s];
      SetSource(w, s, src.(log := src.log + [Mark(e)], recorded := src.recorded[e := Position(src)]))
    case End(s) => SetSource(w, s, w.sources[s].(ended := true))
    case Receive(s, k) => w.(read := w.read[(s, k) := w.read[(s, k)] + 1])
    case Flush(k, rows) => w.(durable := w.durable[k := w.durable[k] + rows])
    case SinkAck(k, e) => w.(acks := w.acks + {(e, k)})
    case SinkComplete(k) => w.(completed := w.completed + {k})
    case AdmitAck(e, k) => w.(admitted := w.admitted + {(e, k)})
    case RecordAck(e, k) =>
      var (c, finalized) := C.RecordAck(w.coordinator, e, k);
      w.(coordinator := c, unsent := if finalized then w.unsent + [e] else w.unsent)
    case DropSink(k) =>
      if k !in w.coordinator.expected then w
      else
        var rest := w.coordinator.expected - {k};
        w.(coordinator := w.coordinator.(expected := rest), snapshots := w.snapshots + [rest])
    case FinalizeReady(i) =>
      var c, expected := w.coordinator, w.snapshots[i];
      w.(coordinator := c.(epochs := C.FinalizeReady(c.epochs, expected)),
         unsent := w.unsent + Listed(C.ReadyEpochs(c.epochs, expected)))
    case SendFinalizer(i) =>
      w.(unsent := w.unsent[..i] + w.unsent[i + 1..], finalizers := w.finalizers + [w.unsent[i]])
    case MintTimer =>
      var (c, minted) := C.MintTimer(w.coordinator);
      w.(coordinator := c, markers := if minted.Some? then w.markers + {minted.value} else w.markers)
    case BeginTerminal =>
      var (c, e) := C.BeginTerminal(w.coordinator);
      w.(coordinator := c, markers := w.markers + {e})
    case Sweep(stale) => w.(coordinator := C.Sweep(w.coordinator, stale))
    case Commit(s, e) =>
      var src := w.sources[s];
      if e in src.recorded then SetSource(w, s, src.(committed := src.recorded[e])) else w
    case Crash => Reset(t, w.sources, w.durable)
  }

  predicate Wellformed(t: Topology) {
    forall p | p in t.wired :: p.0 < t.sources && p.1 < t.sinks
  }

  function Boot(t: Topology): World {
    Reset(t, seq(t.sources, _ => Source(0, 0, [], map[], false)), seq(t.sinks, _ => {}))
  }

  ghost predicate Behaviour(t: Topology, steps: seq<Step>)
    decreases |steps|, 0
  {
    steps == [] ||
    (var before := steps[..|steps| - 1];
     Behaviour(t, before) && Shaped(t, After(t, before)) && Enabled(t, After(t, before), steps[|steps| - 1]))
  }

  ghost function After(t: Topology, steps: seq<Step>): World
    requires Behaviour(t, steps)
    decreases |steps|, 1
  {
    if steps == [] then Boot(t)
    else Do(t, After(t, steps[..|steps| - 1]), steps[|steps| - 1])
  }

  // ---------------------------------------------------------------- what every run keeps

  /** The offset recorded at a marker is the number of rows sent before it. */
  predicate RecordsMatch(src: Source) {
    && (forall i | 0 <= i < |src.log| && src.log[i].Mark? ::
          && src.log[i].epoch in src.recorded
          && src.recorded[src.log[i].epoch] == src.start + Records(src.log[..i]))
    && (forall e | e in src.recorded :: src.recorded[e] <= Position(src))
  }

  /** What a restart would skip is stored at every sink the source feeds. */
  predicate SafeOffsets(t: Topology, w: World)
    requires Shaped(t, w)
  {
    forall p | p in t.wired ::
      Stored(w, p.0, p.1, 0, w.sources[p.0].committed) && Stored(w, p.0, p.1, 0, w.sources[p.0].start)
  }

  /** `ok(k, e)`: what an ack of e by sink k stands for, or why k need not ack any more. */
  type Fact = (nat, Epoch) -> bool

  ghost predicate Everyone(t: Topology, e: Epoch, ok: Fact) {
    forall k: nat | k < t.sinks :: ok(k, e)
  }

  /** What the coordinator believes about an epoch is true of the sinks. */
  ghost predicate Truthful(t: Topology, e: Epoch, state: C.EpochState, ok: Fact) {
    match state
    case Started => true
    case InProgress(acked) => forall k: nat | k in acked :: ok(k, e)
    case Finalized => Everyone(t, e, ok)
  }

  ghost predicate Waits(t: Topology, expected: set<nat>, completed: set<nat>) {
    forall k: nat | k < t.sinks :: k in expected || k in completed
  }

  /** Acks, finished sinks and finalizers all tell the truth, and no sink is forgotten. */
  ghost predicate Believes(t: Topology, w: World, ok: Fact) {
    && (forall a | a in w.acks :: ok(a.1, a.0))
    && (forall a | a in w.admitted :: ok(a.1, a.0))
    && (forall k: nat, e: Epoch | k in w.completed :: ok(k, e))
    && (forall e | e in w.coordinator.epochs :: Truthful(t, e, w.coordinator.epochs[e], ok))
    && Waits(t, w.coordinator.expected, w.completed)
    && (forall i | 0 <= i < |w.snapshots| :: Waits(t, w.snapshots[i], w.completed))
    && (forall e | e in w.unsent :: Everyone(t, e, ok))
    && (forall e | e in w.finalizers :: Everyone(t, e, ok))
  }

  ghost function CanAck(t: Topology, w: World): Fact {
    (k: nat, e: Epoch) => Shaped(t, w) && MayAck(t, w, k, e)
  }

  ghost predicate Inv(t: Topology, w: World) {
    && Shaped(t, w)
    && (forall s | 0 <= s < t.sources :: RecordsMatch(w.sources[s]))
    && SafeOffsets(t, w)
    && Believes(t, w, CanAck(t, w))
  }

  /** Between crashes logs, reads and stores only grow, and an ended source stays as it is. */
  ghost predicate Grows(t: Topology, w: World, w': World) {
    && Shaped(t, w) && Shaped(t, w')
    && (forall s | 0 <= s < t.sources ::
         && w'.sources[s].start == w.sources[s].start
         && w.sources[s].log <= w'.sources[s].log
         && (w.sources[s].ended ==> w'.sources[s].ended && w'.sources[s].log == w.sources[s].log))
    && (forall p | p in t.wired :: w.read[p] <= w'.read[p])
    && (forall k | 0 <= k < t.sinks :: w.durable[k] <= w'.durable[k])
  }

  lemma SourceStepGrows(t: Topology, w: World, step: Step)
    requires Shaped(t, w) && Enabled(t, w, step)
    requires step.Emit? || step.EmitMarker? || step.End? || step.Commit?
    ensures Grows(t, w, Do(t, w, step))
  {
  }

  lemma StepGrows(t: Topology, w: World, step: Step)
    requires Shaped(t, w) && Enabled(t, w, step) && !step.Crash?
    ensures Grows(t, w, Do(t, w, step))
  {
    if step.Emit? || step.EmitMarker? || step.End? || step.Commit? {
      SourceStepGrows(t, w, step);
    } else {
      assert Do(t, w, step).sources == w.sources;
    }
  }

  lemma MayAckStays(t: Topology, w: World, w': World, k: nat, e: Epoch)
    requires Grows(t, w, w') && MayAck(t, w, k, e)
    ensures MayAck(t, w', k, e)
  {
    forall s | 0 <= s < t.sources && (s, k) in t.wired
      ensures FlushedMarker(w', s, k, e) || FlushedEnd(w', s, k)
    {
      if FlushedMarker(w, s, k, e) {
        FlushedMarkerStays(t, w, w', s, k, e);
      } else {
        FlushedEndStays(t, w, w', s, k);
      }
    }
  }

  lemma FlushedMarkerStays(t: Topology, w: World, w': World, s: nat, k: nat, e: Epoch)
    requires Grows(t, w, w') && (s, k) in t.wired && FlushedMarker(w, s, k, e)
    ensures FlushedMarker(w', s, k, e)
  {
    var log, log' := w.sources[s].log, w'.sources[s].log;
    var i :| 0 <= i < w.read[(s, k)] && log[i] == Mark(e)
      && Stored(w, s, k, w.sources[s].start, w.sources[s].start + Records(log[..i]));
    assert log'[i] == Mark(e) && log'[..i] == log[..i];
    assert w.read[(s, k)] <= w'.read[(s, k)];
    StoredStays(t, w, w', s, k, w.sources[s].start, w.sources[s].start + Records(log[..i]));
  }

  lemma StoredStays(t: Topology, w: World, w': World, s: nat, k: nat, from: nat, to: nat)
    requires Grows(t, w, w') && k < t.sinks && Stored(w, s, k, from, to)
    ensures Stored(w', s, k, from, to)
  {
    assert w.durable[k] <= w'.durable[k];
  }

  lemma FlushedEndStays(t: Topology, w: World, w': World, s: nat, k: nat)
    requires Grows(t, w, w') && (s, k) in t.wired && FlushedEnd(w, s, k)
    ensures FlushedEnd(w', s, k)
  {
  }

  /** A finished sink has nothing more to ack. */
  lemma CompletedAcksAll(t: Topology, w: World, k: nat, e: Epoch)
    requires Shaped(t, w) && MayComplete(t, w, k)
    ensures MayAck(t, w, k, e)
  {
  }

  /** Facts that outlive a step leave what is believed true. */
  lemma BeliefsStay(t: Topology, w: World, ok: Fact, ok': Fact)
    requires Believes(t, w, ok) && forall k: nat, e: Epoch | ok(k, e) :: ok'(k, e)
    ensures Believes(t, w, ok')
  {
    forall e | e in w.coordinator.epochs ensures Truthful(t, e, w.coordinator.epochs[e], ok') {
      assert Truthful(t, e, w.coordinator.epochs[e], ok);
    }
    forall e | Everyone(t, e, ok) ensures Everyone(t, e, ok') {
    }
  }

  lemma GrowthKeepsAcks(t: Topology, w: World, w': World)
    requires Grows(t, w, w')
    ensures forall k: nat, e: Epoch | CanAck(t, w)(k, e) :: CanAck(t, w')(k, e)
  {
    forall k: nat, e: Epoch | CanAck(t, w)(k, e) ensures CanAck(t, w')(k, e) {
      MayAckStays(t, w, w', k, e);
    }
  }

  // ---------------------------------------------------------------- the coordinator, one step at a time

  predicate OfCoordinator(step: Step) {
    || step.AdmitAck? || step.RecordAck? || step.DropSink? || step.FinalizeReady?
    || step.SendFinalizer? || step.MintTimer? || step.BeginTerminal? || step.Sweep?
  }

  /** Once every sink still waited for has acked, all have. */
  lemma AckedByAll(t: Topology, w: World, ok: Fact, e: Epoch, expected: set<nat>, acked: set<nat>)
    requires Believes(t, w, ok) && Waits(t, expected, w.completed) && expected <= acked
    requires forall k: nat | k in acked :: ok(k, e)
    ensures Everyone(t, e, ok)
  {
  }

  lemma RecordAckBelieves(t: Topology, w: World, e: Epoch, k: nat, ok: Fact)
    requires Shaped(t, w) && Enabled(t, w, RecordAck(e, k)) && Believes(t, w, ok)
    ensures Believes(t, Do(t, w, RecordAck(e, k)), ok)
  {
    var c, w' := w.coordinator, Do(t, w, RecordAck(e, k));
    assert ok((e, k).1, (e, k).0);
    if e in c.epochs && !c.epochs[e].Finalized? {
      var acked := C.AckedBy(c.epochs[e]) + {k};
      assert Truthful(t, e, c.epochs[e], ok);
      if c.expected <= acked {
        AckedByAll(t, w, ok, e, c.expected, acked);
      }
    }
    forall x | x in w'.coordinator.epochs ensures Truthful(t, x, w'.coordinator.epochs[x], ok) {
      assert x in c.epochs ==> Truthful(t, x, c.epochs[x], ok);
    }
  }

  lemma FinalizeReadyBelieves(t: Topology, w: World, i: nat, ok: Fact)
    requires Shaped(t, w) && Enabled(t, w, FinalizeReady(i)) && Believes(t, w, ok)
    ensures Believes(t, Do(t, w, FinalizeReady(i)), ok)
  {
    var c, expected, w' := w.coordinator, w.snapshots[i], Do(t, w, FinalizeReady(i));
    forall e | e in C.ReadyEpochs(c.epochs, expected) ensures Everyone(t, e, ok) {
      assert Truthful(t, e, c.epochs[e], ok);
      AckedByAll(t, w, ok, e, expected, C.AckedBy(c.epochs[e]));
    }
    forall e | e in w'.coordinator.epochs ensures Truthful(t, e, w'.coordinator.epochs[e], ok) {
      assert Truthful(t, e, c.epochs[e], ok);
    }
  }

  lemma DropSinkBelieves(t: Topology, w: World, k: nat, ok: Fact)
    requires Shaped(t, w) && Enabled(t, w, DropSink(k)) && Believes(t, w, ok)
    ensures Believes(t, Do(t, w, DropSink(k)), ok)
  {
    assert Waits(t, w.coordinator.expected - {k}, w.completed);
  }

  lemma SendFinalizerBelieves(t: Topology, w: World, i: nat, ok: Fact)
    requires Shaped(t, w) && Enabled(t, w, SendFinalizer(i)) && Believes(t, w, ok)
    ensures Believes(t, Do(t, w, SendFinalizer(i)), ok)
  {
    assert w.unsent[i] in w.unsent;
    assert forall e | e in w.unsent[..i] + w.unsent[i + 1..] :: e in w.unsent;
  }

  lemma MintBelieves(t: Topology, w: World, step: Step, ok: Fact)
    requires Shaped(t, w) && Enabled(t, w, step) && Believes(t, w, ok)
    requires step.MintTimer? || step.BeginTerminal? || step.Sweep?
    ensures Believes(t, Do(t, w, step), ok)
  {
    var c, w' := w.coordinator, Do(t, w, step);
    forall e | e in w'.coordinator.epochs ensures Truthful(t, e, w'.coordinator.epochs[e], ok) {
      assert w'.coordinator.epochs[e].Started? || (e in c.epochs && w'.coordinator.epochs[e] == c.epochs[e]);
    }
  }

  lemma CoordinatorBelieves(t: Topology, w: World, step: Step, ok: Fact)
    requires Shaped(t, w) && Enabled(t, w, step) && OfCoordinator(step) && Believes(t, w, ok)
    ensures Believes(t, Do(t, w, step), ok)
  {
    match step
    case RecordAck(e, k) => RecordAckBelieves(t, w, e, k, ok);
    case DropSink(k) => DropSinkBelieves(t, w, k, ok);
    case FinalizeReady(i) => FinalizeReadyBelieves(t, w, i, ok);
    case SendFinalizer(i) => SendFinalizerBelieves(t, w, i, ok);
    case AdmitAck(_, _) =>
    case _ => MintBelieves(t, w, step, ok);
  }

  /** Coordinator steps leave sources, streams and stores alone. */
  lemma CoordinatorOnly(t: Topology, w: World, step: Step)
    requires Shaped(t, w) && Enabled(t, w, step) && OfCoordinator(step)
    ensures var w' := Do(t, w, step);
      && w'.sources == w.sources && w'.durable == w.durable && w'.read == w.read
      && w'.completed == w.completed && w'.acks == w.acks && Shaped(t, w')
  {
  }

  /** What a sink may ack depends on sources, streams and stores alone. */
  lemma SameStreams(t: Topology, w: World, w': World, k: nat, e: Epoch)
    requires Shaped(t, w) && Shaped(t, w')
    requires w'.sources == w.sources && w'.durable == w.durable && w'.read == w.read
    ensures MayAck(t, w', k, e) <==> MayAck(t, w, k, e)
  {
    forall s | 0 <= s < t.sources && (s, k) in t.wired
      ensures FlushedMarker(w', s, k, e) == FlushedMarker(w, s, k, e)
      ensures FlushedEnd(w', s, k) == FlushedEnd(w, s, k)
    {
      assert forall a, b :: Stored(w', s, k, a, b) == Stored(w, s, k, a, b);
    }
  }

  lemma SameOffsets(t: Topology, w: World, w': World)
    requires Shaped(t, w) && Shaped(t, w') && SafeOffsets(t, w)
    requires w'.sources == w.sources && w'.durable == w.durable
    ensures SafeOffsets(t, w')
  {
    forall p | p in t.wired
      ensures Stored(w', p.0, p.1, 0, w'.sources[p.0].committed)
      ensures Stored(w', p.0, p.1, 0, w'.sources[p.0].start)
    {
      assert Stored(w, p.0, p.1, 0, w.sources[p.0].committed);
      assert Stored(w, p.0, p.1, 0, w.sources[p.0].start);
    }
  }

  lemma CoordinatorKeeps(t: Topology, w: World, step: Step)
    requires Inv(t, w) && Enabled(t, w, step) && OfCoordinator(step)
    ensures Inv(t, Do(t, w, step))
  {
    var w' := Do(t, w, step);
    CoordinatorOnly(t, w, step);
    SameOffsets(t, w, w');
    CoordinatorBelieves(t, w, step, CanAck(t, w));
    forall k: nat, e: Epoch | CanAck(t, w)(k, e) ensures CanAck(t, w')(k, e) {
      SameStreams(t, w, w', k, e);
    }
    BeliefsStay(t, w', CanAck(t, w), CanAck(t, w'));
  }

  // ---------------------------------------------------------------- sources and sinks, one step at a time

  lemma RecordsAppend(items: seq<Item>, item: Item)
    ensures Records(items + [item]) == Records(items) + if item.Record? then 1 else 0
    ensures forall i | 0 <= i <= |items| :: (items + [item])[..i] == items[..i]
  {
    assert (items + [item])[..|items|] == items;
  }

  lemma RecordsMonotone(items: seq<Item>, n: nat)
    requires n <= |items|
    ensures Records(items[..n]) <= Records(items)
  {
    if n < |items| {
      RecordsMonotone(items[..|items| - 1], n);
      assert items[..|items| - 1][..n] == items[..n];
    } else {
      assert items[..n] == items;
    }
  }

  lemma EmitKeepsRecords(src: Source)
    requires RecordsMatch(src)
    ensures RecordsMatch(src.(log := src.log + [Record]))
  {
    var src' := src.(log := src.log + [Record]);
    RecordsAppend(src.log, Record);
    forall i | 0 <= i < |src'.log| && src'.log[i].Mark?
      ensures src'.log[i].epoch in src'.recorded
      ensures src'.recorded[src'.log[i].epoch] == src'.start + Records(src'.log[..i])
    {
      assert src'.log[i] == src.log[i] && src'.log[..i] == src.log[..i];
    }
  }

  lemma EmitMarkerKeepsRecords(src: Source, e: Epoch)
    requires RecordsMatch(src) && e !in src.recorded
    ensures RecordsMatch(src.(log := src.log + [Mark(e)], recorded := src.recorded[e := Position(src)]))
  {
    var src' := src.(log := src.log + [Mark(e)], recorded := src.recorded[e := Position(src)]);
    RecordsAppend(src.log, Mark(e));
    forall i | 0 <= i < |src'.log| && src'.log[i].Mark?
      ensures src'.log[i].epoch in src'.recorded
      ensures src'.recorded[src'.log[i].epoch] == src'.start + Records(src'.log[..i])
    {
      if i < |src.log| {
        assert src'.log[i] == src.log[i] && src'.log[..i] == src.log[..i];
        assert src.log[i].epoch in src.recorded && src.log[i].epoch != e;
      } else {
        assert src'.log[..i] == src.log && src'.log[i] == Mark(e);
      }
    }
  }

  lemma SourceKeepsRecords(t: Topology, w: World, step: Step, s: nat)
    requires Inv(t, w) && Enabled(t, w, step) && !step.Crash? && s < t.sources
    ensures RecordsMatch(Do(t, w, step).sources[s])
  {
    assert RecordsMatch(w.sources[s]);
    match step
    case Emit(x) => EmitKeepsRecords(w.sources[x]);
    case EmitMarker(x, e) => EmitMarkerKeepsRecords(w.sources[x], e);
    case Commit(x, e) =>
    case _ =>
  }

  /** Acks and completions that are new are justified in the new world. */
  lemma SinkStepBelieves(t: Topology, w: World, w': World, ok: Fact)
    requires Believes(t, w, ok)
    requires w'.coordinator == w.coordinator && w'.snapshots == w.snapshots && w'.admitted == w.admitted
    requires w'.unsent == w.unsent && w'.finalizers == w.finalizers
    requires forall a | a in w'.acks && a !in w.acks :: ok(a.1, a.0)
    requires w.completed <= w'.completed
    requires forall k: nat, e: Epoch | k in w'.completed && k !in w.completed :: ok(k, e)
    ensures Believes(t, w', ok)
  {
  }

  lemma SinkStepKeeps(t: Topology, w: World, step: Step)
    requires Inv(t, w) && Enabled(t, w, step) && (step.SinkAck? || step.SinkComplete?)
    ensures Inv(t, Do(t, w, step))
  {
    var w' := Do(t, w, step);
    SameOffsets(t, w, w');
    forall k: nat, e: Epoch | CanAck(t, w)(k, e) ensures CanAck(t, w')(k, e) {
      SameStreams(t, w, w', k, e);
    }
    if step.SinkComplete? {
      forall e: Epoch ensures CanAck(t, w)(step.k, e) {
        CompletedAcksAll(t, w, step.k, e);
      }
    }
    SinkStepBelieves(t, w, w', CanAck(t, w));
    BeliefsStay(t, w', CanAck(t, w), CanAck(t, w'));
  }

  /** Emitting, ending, receiving and flushing. */
  lemma StreamStepKeeps(t: Topology, w: World, step: Step)
    requires Inv(t, w) && Enabled(t, w, step)
    requires step.Emit? || step.EmitMarker? || step.End? || step.Receive? || step.Flush?
    ensures Inv(t, Do(t, w, step))
  {
    var w' := Do(t, w, step);
    StepGrows(t, w, step);
    forall s | 0 <= s < t.sources ensures RecordsMatch(w'.sources[s]) {
      SourceKeepsRecords(t, w, step, s);
    }
    OffsetsGrow(t, w, w');
    GrowthKeepsAcks(t, w, w');
    SinkStepBelieves(t, w, w', CanAck(t, w));
    BeliefsStay(t, w', CanAck(t, w), CanAck(t, w'));
  }

  lemma OffsetsGrow(t: Topology, w: World, w': World)
    requires Grows(t, w, w') && SafeOffsets(t, w)
    requires forall s | 0 <= s < t.sources :: w'.sources[s].committed == w.sources[s].committed
    ensures SafeOffsets(t, w')
  {
    forall p | p in t.wired
      ensures Stored(w', p.0, p.1, 0, w'.sources[p.0].committed)
      ensures Stored(w', p.0, p.1, 0, w'.sources[p.0].start)
    {
      assert Stored(w, p.0, p.1, 0, w.sources[p.0].committed);
      assert Stored(w, p.0, p.1, 0, w.sources[p.0].start);
    }
  }

  /** The offset of a finalized epoch is safe to commit. */
  lemma FinalizedOffsetStored(t: Topology, w: World, s: nat, k: nat, e: Epoch)
    requires Inv(t, w) && e in w.finalizers && (s, k) in t.wired && e in w.sources[s].recorded
    ensures Stored(w, s, k, 0, w.sources[s].recorded[e])
  {
    assert Everyone(t, e, CanAck(t, w)) && CanAck(t, w)(k, e);
    assert Stored(w, (s, k).0, (s, k).1, 0, w.sources[(s, k).0].start);
    assert RecordsMatch(w.sources[s]);
  }

  lemma CommitKeeps(t: Topology, w: World, s: nat, e: Epoch)
    requires Inv(t, w) && Enabled(t, w, Commit(s, e))
    ensures Inv(t, Do(t, w, Commit(s, e)))
  {
    var w' := Do(t, w, Commit(s, e));
    SourceStepGrows(t, w, Commit(s, e));
    GrowthKeepsAcks(t, w, w');
    SinkStepBelieves(t, w, w', CanAck(t, w));
    BeliefsStay(t, w', CanAck(t, w), CanAck(t, w'));
    forall x | 0 <= x < t.sources ensures RecordsMatch(w'.sources[x]) {
      SourceKeepsRecords(t, w, Commit(s, e), x);
    }
    CommitIsSafe(t, w, s, e);
  }

  lemma CommitIsSafe(t: Topology, w: World, s: nat, e: Epoch)
    requires Inv(t, w) && Enabled(t, w, Commit(s, e))
    ensures SafeOffsets(t, Do(t, w, Commit(s, e)))
  {
    var w' := Do(t, w, Commit(s, e));
    forall p | p in t.wired
      ensures Stored(w', p.0, p.1, 0, w'.sources[p.0].committed)
      ensures Stored(w', p.0, p.1, 0, w'.sources[p.0].start)
    {
      assert Stored(w, p.0, p.1, 0, w.sources[p.0].committed);
      assert Stored(w, p.0, p.1, 0, w.sources[p.0].start);
      if p.0 == s && e in w.sources[s].recorded {
        FinalizedOffsetStored(t, w, s, p.1, e);
      }
    }
  }

  lemma ResetKeeps(t: Topology, sources: seq<Source>, durable: seq<set<(nat, nat)>>)
    requires Wellformed(t) && |sources| == t.sources && |durable| == t.sinks
    requires forall p | p in t.wired ::
      forall o | 0 <= o < sources[p.0].committed :: (p.0, o) in durable[p.1]
    ensures Inv(t, Reset(t, sources, durable))
  {
    var w := Reset(t, sources, durable);
    forall p | p in t.wired
      ensures Stored(w, p.0, p.1, 0, w.sources[p.0].committed) && Stored(w, p.0, p.1, 0, w.sources[p.0].start)
    {
    }
    forall k: nat | k < t.sinks ensures k in w.coordinator.expected {
      assert Numbers(t.sinks)[k] == k;
    }
  }

  lemma CrashKeeps(t: Topology, w: World)
    requires Wellformed(t) && Inv(t, w)
    ensures Inv(t, Do(t, w, Crash))
  {
    forall p | p in t.wired
      ensures forall o | 0 <= o < w.sources[p.0].committed :: (p.0, o) in w.durable[p.1]
    {
      assert Stored(w, p.0, p.1, 0, w.sources[p.0].committed);
    }
    ResetKeeps(t, w.sources, w.durable);
  }

  lemma StepKeeps(t: Topology, w: World, step: Step)
    requires Wellformed(t) && Inv(t, w) && Enabled(t, w, step)
    ensures Inv(t, Do(t, w, step))
  {
    if step.Commit? {
      CommitKeeps(t, w, step.s, step.e);
    } else if step.Crash? {
      CrashKeeps(t, w);
    } else if OfCoordinator(step) {
      CoordinatorKeeps(t, w, step);
    } else if step.SinkAck? || step.SinkComplete? {
      SinkStepKeeps(t, w, step);
    } else {
      StreamStepKeeps(t, w, step);
    }
  }

  lemma {:induction false} RunKeeps(t: Topology, steps: seq<Step>)
    requires Wellformed(t) && Behaviour(t, steps)
    ensures Inv(t, After(t, steps))
  {
    if steps == [] {
      ResetKeeps(t, seq(t.sources, _ => Source(0, 0, [], map[], false)), seq(t.sinks, _ => {}));
    } else {
      RunKeeps(t, steps[..|steps| - 1]);
      StepKeeps(t, After(t, steps[..|steps| - 1]), steps[|steps| - 1]);
    }
  }

  // ---------------------------------------------------------------- the guarantees

  /** At-least-once, in every run with any number of crashes and any finalizers withheld: a
      restart never skips a record that some sink fed by the source has not stored. */
  lemma CommittedIsDurable(t: Topology, steps: seq<Step>, s: nat, k: nat, o: nat)
    requires Wellformed(t) && Behaviour(t, steps) && (s, k) in t.wired
    ensures s < |After(t, steps).sources| && k < |After(t, steps).durable|
    ensures o < After(t, steps).sources[s].committed ==> (s, o) in After(t, steps).durable[k]
  {
    RunKeeps(t, steps);
    var w := After(t, steps);
    assert SafeOffsets(t, w);
    assert Stored(w, (s, k).0, (s, k).1, 0, w.sources[(s, k).0].committed);
  }

  /** After a crash every record is stored at the sink or emitted again from the committed offset. */
  lemma NothingLostByCrash(t: Topology, steps: seq<Step>, s: nat, k: nat, o: nat)
    requires Wellformed(t) && Behaviour(t, steps) && (s, k) in t.wired
    ensures Shaped(t, After(t, steps))
    ensures var w := Do(t, After(t, steps), Crash);
      && s < |w.sources| && k < |w.durable|
      && ((s, o) in w.durable[k] || (w.sources[s].log == [] && Position(w.sources[s]) <= o))
  {
    RunKeeps(t, steps);
    CommittedIsDurable(t, steps, s, k, o);
    CrashRestarts(t, After(t, steps), s);
  }

  lemma CrashRestarts(t: Topology, w: World, s: nat)
    requires Shaped(t, w) && s < t.sources
    ensures var w' := Do(t, w, Crash);
      && |w'.sources| == t.sources && w'.durable == w.durable
      && w'.sources[s].log == [] && Position(w'.sources[s]) == w.sources[s].committed
  {
    assert Do(t, w, Crash).sources[s] == Restarted(w.sources[s]);
  }

  /** A drain that ends in a finalized terminal epoch leaves nothing to replay: once a source that
      sent its terminal marker last commits it, all it ever sent is stored at every sink it feeds. */
  lemma GracefulDrainCommitsAll(t: Topology, steps: seq<Step>, s: nat, e: Epoch)
    requires Wellformed(t) && Behaviour(t, steps + [Commit(s, e)]) && s < |After(t, steps).sources|
    requires var src := After(t, steps).sources[s];
      src.log != [] && src.log[|src.log| - 1] == Mark(e)
    ensures var w := After(t, steps + [Commit(s, e)]);
      && s < |w.sources| && w.sources[s].committed == Position(w.sources[s])
      && forall k | (s, k) in t.wired && k < |w.durable| :: Stored(w, s, k, 0, Position(w.sources[s]))
  {
    LastStep(t, steps, Commit(s, e));
    RunKeeps(t, steps);
    LastMarkerCommits(t, After(t, steps), s, e);
    RunKeeps(t, steps + [Commit(s, e)]);
    WholeLogStored(t, After(t, steps + [Commit(s, e)]), s);
  }

  lemma LastStep(t: Topology, steps: seq<Step>, step: Step)
    requires Behaviour(t, steps + [step])
    ensures Behaviour(t, steps) && Shaped(t, After(t, steps)) && Enabled(t, After(t, steps), step)
    ensures After(t, steps + [step]) == Do(t, After(t, steps), step)
  {
    var run := steps + [step];
    assert run[..|run| - 1] == steps && run[|run| - 1] == step;
  }

  lemma LastMarkerCommits(t: Topology, w: World, s: nat, e: Epoch)
    requires Inv(t, w) && Enabled(t, w, Commit(s, e))
    requires w.sources[s].log != [] && w.sources[s].log[|w.sources[s].log| - 1] == Mark(e)
    ensures var src := Do(t, w, Commit(s, e)).sources[s];
      src.committed == Position(src)
  {
    assert RecordsMatch(w.sources[s]);
    LastRecorded(w.sources[s], e);
  }

  lemma LastRecorded(src: Source, e: Epoch)
    requires RecordsMatch(src) && src.log != [] && src.log[|src.log| - 1] == Mark(e)
    ensures e in src.recorded && src.recorded[e] == Position(src)
  {
    var n := |src.log| - 1;
    assert src.log == src.log[..n] + [Mark(e)];
    RecordsAppend(src.log[..n], Mark(e));
  }

  lemma WholeLogStored(t: Topology, w: World, s: nat)
    requires Inv(t, w) && s < t.sources && w.sources[s].committed == Position(w.sources[s])
    ensures forall k | (s, k) in t.wired && k < |w.durable| :: Stored(w, s, k, 0, Position(w.sources[s]))
  {
    forall k | (s, k) in t.wired && k < |w.durable| ensures Stored(w, s, k, 0, Position(w.sources[s])) {
      assert Stored(w, (s, k).0, (s, k).1, 0, w.sources[(s, k).0].committed);
    }
  }

  // ---------------------------------------------------------------- finalizers and the terminal epoch

  /** Turned final in this process, whether broadcast yet or not. */
  function Decided(w: World): seq<Epoch> {
    w.finalizers + w.unsent
  }

  predicate Unique(s: seq<Epoch>) {
    forall i, j | 0 <= i < j < |s| :: s[i] != s[j]
  }

  /** Epoch numbers are never reused, an epoch is turned final once, and the terminal epoch stays in
      the map once minted. */
  ghost predicate Ledger(w: World) {
    var c := w.coordinator;
    && (forall e | e in c.epochs :: e < c.nextEpoch)
    && (forall e | e in w.markers :: e < c.nextEpoch)
    && (forall e | e in Decided(w) :: e < c.nextEpoch && (e in c.epochs ==> c.epochs[e].Finalized?))
    && (forall e | e in c.epochs && c.epochs[e].Finalized? :: e in Decided(w))
    && Unique(Decided(w))
    && (c.terminal.Some? ==> c.terminalStarted && c.terminal.value in c.epochs && c.terminal.value in w.markers)
  }

  lemma DecideMore(decided: seq<Epoch>, more: seq<Epoch>)
    requires Unique(decided) && Unique(more) && forall e | e in more :: e !in decided
    ensures Unique(decided + more)
  {
    var all := decided + more;
    forall i, j | 0 <= i < j < |all| ensures all[i] != all[j] {
      if i < |decided| <= j {
        assert more[j - |decided|] in more && decided[i] in decided;
      }
    }
  }

  lemma FinalizeReadyLedger(t: Topology, w: World, i: nat)
    requires Shaped(t, w) && Enabled(t, w, FinalizeReady(i)) && Ledger(w)
    ensures Ledger(Do(t, w, FinalizeReady(i)))
  {
    var w' := Do(t, w, FinalizeReady(i));
    var more := Listed(C.ReadyEpochs(w.coordinator.epochs, w.snapshots[i]));
    assert Decided(w') == Decided(w) + more;
    DecideMore(Decided(w), more);
  }

  lemma RecordAckLedger(t: Topology, w: World, e: Epoch, k: nat)
    requires Shaped(t, w) && Enabled(t, w, RecordAck(e, k)) && Ledger(w)
    ensures Ledger(Do(t, w, RecordAck(e, k)))
  {
    var w' := Do(t, w, RecordAck(e, k));
    if C.RecordAck(w.coordinator, e, k).1 {
      assert Decided(w') == Decided(w) + [e];
      DecideMore(Decided(w), [e]);
    }
  }

  lemma SendFinalizerLedger(t: Topology, w: World, i: nat)
    requires Shaped(t, w) && Enabled(t, w, SendFinalizer(i)) && Ledger(w)
    ensures Ledger(Do(t, w, SendFinalizer(i)))
  {
    MovedUp(w.finalizers, w.unsent, i);
  }

  lemma MovedUp(a: seq<Epoch>, b: seq<Epoch>, i: nat)
    requires i < |b| && Unique(a + b)
    ensures var moved := (a + [b[i]]) + (b[..i] + b[i + 1..]);
      Unique(moved) && forall e :: e in moved <==> e in a + b
  {
    var all, moved := a + b, (a + [b[i]]) + (b[..i] + b[i + 1..]);
    forall x, y | 0 <= x < y < |moved| ensures moved[x] != moved[y] {
      assert moved[x] == all[Origin(|a|, i, x)] && moved[y] == all[Origin(|a|, i, y)];
    }
    assert b == b[..i] + [b[i]] + b[i + 1..];
  }

  /** Where the element at `x` stood before the `i`-th behind the first `n` was moved up to `n`. */
  function Origin(n: nat, i: nat, x: nat): nat {
    if x < n then x else if x == n then n + i else if x <= n + i then x - 1 else x
  }

  lemma MintLedger(t: Topology, w: World, step: Step)
    requires Shaped(t, w) && Enabled(t, w, step) && Ledger(w)
    requires step.MintTimer? || step.BeginTerminal? || step.Sweep?
    ensures Ledger(Do(t, w, step))
  {
    assert Decided(Do(t, w, step)) == Decided(w);
  }

  lemma LedgerStep(t: Topology, w: World, step: Step)
    requires Shaped(t, w) && Enabled(t, w, step) && Ledger(w)
    ensures Ledger(Do(t, w, step))
  {
    if step.FinalizeReady? {
      FinalizeReadyLedger(t, w, step.snapshot);
    } else if step.RecordAck? {
      RecordAckLedger(t, w, step.e, step.k);
    } else if step.SendFinalizer? {
      SendFinalizerLedger(t, w, step.i);
    } else if step.MintTimer? || step.BeginTerminal? || step.Sweep? {
      MintLedger(t, w, step);
    } else if !step.Crash? {
      SameBooks(t, w, step);
    }
  }

  lemma SameBooks(t: Topology, w: World, step: Step)
    requires Shaped(t, w) && Enabled(t, w, step) && Ledger(w)
    requires !step.FinalizeReady? && !step.RecordAck? && !step.SendFinalizer? && !step.Crash?
    requires !step.MintTimer? && !step.BeginTerminal? && !step.Sweep?
    ensures Ledger(Do(t, w, step))
  {
    var w' := Do(t, w, step);
    assert w'.coordinator.epochs == w.coordinator.epochs && w'.coordinator.nextEpoch == w.coordinator.nextEpoch;
    assert w'.coordinator.terminal == w.coordinator.terminal && w'.markers == w.markers;
    assert Decided(w') == Decided(w);
  }

  lemma {:induction false} RunLedger(t: Topology, steps: seq<Step>)
    requires Wellformed(t) && Behaviour(t, steps)
    ensures Ledger(After(t, steps))
  {
    if steps != [] {
      RunLedger(t, steps[..|steps| - 1]);
      LedgerStep(t, After(t, steps[..|steps| - 1]), steps[|steps| - 1]);
    }
  }

  /** In every run each epoch is finalized at most once per process, and a minted terminal epoch is
      still tracked: neither the producer's clearing nor a timeout sweep removes it. */
  lemma FinalizedOnce(t: Topology, steps: seq<Step>)
    requires Wellformed(t) && Behaviour(t, steps)
    ensures var w := After(t, steps);
      && Unique(w.finalizers + w.unsent)
      && (w.coordinator.terminal.Some? ==> w.coordinator.terminal.value in w.coordinator.epochs)
  {
    RunLedger(t, steps);
  }

  lemma TerminalStep(t: Topology, w: World, step: Step)
    requires Shaped(t, w) && Enabled(t, w, step) && !step.Crash?
    requires w.coordinator.terminal.Some? && Ledger(w)
    ensures Do(t, w, step).markers <= w.markers + {w.coordinator.terminal.value}
    ensures Do(t, w, step).coordinator.terminal == w.coordinator.terminal
  {
  }

  /** Once the terminal epoch began, a process issues no other marker, however it goes on. */
  lemma {:induction false} NoMarkerAfterTerminal(t: Topology, before: seq<Step>, after: seq<Step>)
    requires Wellformed(t) && Behaviour(t, before + after) && Behaviour(t, before)
    requires After(t, before).coordinator.terminal.Some? && forall step | step in after :: !step.Crash?
    ensures var w, w' := After(t, before), After(t, before + after);
      && w'.coordinator.terminal == w.coordinator.terminal
      && w'.markers <= w.markers + {w.coordinator.terminal.value}
    decreases |after|
  {
    if after == [] {
      assert before + after == before;
    } else {
      var n, run := |after| - 1, before + after;
      assert run[..|run| - 1] == before + after[..n] && run[|run| - 1] == after[n];
      NoMarkerAfterTerminal(t, before, after[..n]);
      RunLedger(t, before + after[..n]);
      RunKeeps(t, before + after[..n]);
      TerminalStep(t, After(t, before + after[..n]), after[n]);
    }
  }

  // ---------------------------------------------------------------- nothing waits for an ack it has

  /** The sinks whose acks of e the coordinator has worked off while it tracked e. */
  ghost function Heard(t: Topology, steps: seq<Step>, e: Epoch): set<nat>
    requires Behaviour(t, steps)
    decreases |steps|
  {
    if steps == [] then {}
    else
      var before, step := steps[..|steps| - 1], steps[|steps| - 1];
      if step.Crash? then {}
      else Heard(t, before, e)
           + if step.RecordAck? && step.e == e && e in After(t, before).coordinator.epochs then {step.k} else {}
  }

  /** Since the expected sinks last became fewer, the second half of `sink_completed` ran with them. */
  ghost predicate Settled(t: Topology, steps: seq<Step>)
    requires Behaviour(t, steps)
    decreases |steps|
  {
    if steps == [] then true
    else
      var before, step := steps[..|steps| - 1], steps[|steps| - 1];
      var w := After(t, before);
      match step
      case Crash => true
      case DropSink(k) => Settled(t, before) && k !in w.coordinator.expected
      case FinalizeReady(i) => Settled(t, before) || w.snapshots[i] == w.coordinator.expected
      case _ => Settled(t, before)
  }

  /** An open epoch lacks the ack of an expected sink; or it was issued when none was left. */
  predicate Waiting(c: C.State, e: Epoch)
    requires e in c.epochs
  {
    c.epochs[e].Finalized? || !(c.expected <= C.AckedBy(c.epochs[e])) || (c.expected == {} && c.epochs[e].Started?)
  }

  predicate AllWaiting(c: C.State) {
    forall e | e in c.epochs :: Waiting(c, e)
  }

  /** After the second half with the sinks that are expected now. */
  lemma FinalizeReadySettles(t: Topology, w: World, i: nat)
    requires Shaped(t, w) && Enabled(t, w, FinalizeReady(i)) && w.snapshots[i] == w.coordinator.expected
    ensures AllWaiting(Do(t, w, FinalizeReady(i)).coordinator)
  {
  }

  lemma WaitingStays(t: Topology, w: World, step: Step)
    requires Shaped(t, w) && Enabled(t, w, step) && AllWaiting(w.coordinator)
    requires step.DropSink? ==> step.k !in w.coordinator.expected
    ensures AllWaiting(Do(t, w, step).coordinator)
  {
    var c, c' := w.coordinator, Do(t, w, step).coordinator;
    if step.RecordAck? {
      RecordAckWaits(c, step.e, step.k);
    } else if OfCoordinator(step) {
      forall e | e in c'.epochs ensures Waiting(c', e) {
        assert e in c.epochs ==> Waiting(c, e);
      }
    } else if !step.Crash? {
      SameCoordinator(t, w, step);
    }
  }

  lemma SameCoordinator(t: Topology, w: World, step: Step)
    requires Shaped(t, w) && Enabled(t, w, step) && !OfCoordinator(step) && !step.Crash?
    ensures Do(t, w, step).coordinator == w.coordinator && Do(t, w, step).snapshots == w.snapshots
  {
  }

  lemma RecordAckWaits(c: C.State, e: Epoch, k: nat)
    requires AllWaiting(c)
    ensures AllWaiting(C.RecordAck(c, e, k).0)
  {
    var c' := C.RecordAck(c, e, k).0;
    forall x | x in c'.epochs ensures Waiting(c', x) {
      assert x in c.epochs && Waiting(c, x);
    }
  }

  lemma {:induction false} SettledWaits(t: Topology, steps: seq<Step>)
    requires Behaviour(t, steps) && Settled(t, steps)
    ensures AllWaiting(After(t, steps).coordinator)
    decreases |steps|
  {
    if steps != [] {
      var before, step := steps[..|steps| - 1], steps[|steps| - 1];
      if Settled(t, before) && !step.Crash? {
        SettledWaits(t, before);
        WaitingStays(t, After(t, before), step);
      } else if step.FinalizeReady? {
        FinalizeReadySettles(t, After(t, before), step.snapshot);
      }
    }
  }

  /** What one step does to the acks of an epoch that stays open. */
  lemma StepHears(t: Topology, w: World, step: Step, e: Epoch)
    requires Shaped(t, w) && Enabled(t, w, step) && Ledger(w) && !step.Crash?
    requires e in Do(t, w, step).coordinator.epochs && !Do(t, w, step).coordinator.epochs[e].Finalized?
    ensures w.coordinator.nextEpoch <= Do(t, w, step).coordinator.nextEpoch
    ensures if e in w.coordinator.epochs then
              && !w.coordinator.epochs[e].Finalized?
              && C.AckedBy(Do(t, w, step).coordinator.epochs[e])
                 == C.AckedBy(w.coordinator.epochs[e]) + if step.RecordAck? && step.e == e then {step.k} else {}
            else e >= w.coordinator.nextEpoch && Do(t, w, step).coordinator.epochs[e].Started? && !step.RecordAck?
  {
    if step.RecordAck? {
      RecordAckHears(w.coordinator, step.e, step.k, e);
    } else if !OfCoordinator(step) {
      SameCoordinator(t, w, step);
    }
  }

  lemma RecordAckHears(c: C.State, x: Epoch, k: nat, e: Epoch)
    requires e in C.RecordAck(c, x, k).0.epochs && !C.RecordAck(c, x, k).0.epochs[e].Finalized?
    ensures C.RecordAck(c, x, k).0.nextEpoch == c.nextEpoch && e in c.epochs && !c.epochs[e].Finalized?
    ensures C.AckedBy(C.RecordAck(c, x, k).0.epochs[e]) == C.AckedBy(c.epochs[e]) + if x == e then {k} else {}
  {
  }

  lemma NumbersGrow(t: Topology, w: World, step: Step)
    requires Shaped(t, w) && Enabled(t, w, step) && !step.Crash?
    ensures w.coordinator.nextEpoch <= Do(t, w, step).coordinator.nextEpoch
  {
    if !OfCoordinator(step) {
      SameCoordinator(t, w, step);
    }
  }

  /** No ack is lost: an open epoch has exactly the acks that were heard for it. */
  lemma {:induction false} AcksAreKept(t: Topology, steps: seq<Step>, e: Epoch)
    requires Wellformed(t) && Behaviour(t, steps)
    ensures Heard(t, steps, e) != {} ==> e < After(t, steps).coordinator.nextEpoch
    ensures var c := After(t, steps).coordinator;
      e in c.epochs && !c.epochs[e].Finalized? ==> C.AckedBy(c.epochs[e]) == Heard(t, steps, e)
    decreases |steps|
  {
    if steps != [] {
      var before, step := steps[..|steps| - 1], steps[|steps| - 1];
      AcksAreKept(t, before, e);
      RunLedger(t, before);
      if !step.Crash? {
        NumbersGrow(t, After(t, before), step);
        var c := After(t, steps).coordinator;
        if e in c.epochs && !c.epochs[e].Finalized? {
          StepHears(t, After(t, before), step, e);
        }
      }
    }
  }

  /** Finalization comes about: in every run, once the second half of `sink_completed` has run with the
      sinks that are expected now, an epoch that is still open lacks the ack of one of them. Only one
      that was issued after the last sink had completed stays open without. */
  lemma NothingIsStuck(t: Topology, steps: seq<Step>, e: Epoch)
    requires Wellformed(t) && Behaviour(t, steps) && Settled(t, steps)
    requires e in After(t, steps).coordinator.epochs && !After(t, steps).coordinator.epochs[e].Finalized?
    ensures var c := After(t, steps).coordinator;
      (exists k :: k in c.expected && k !in Heard(t, steps, e)) || (c.expected == {} && c.epochs[e].Started?)
  {
    SettledWaits(t, steps);
    AcksAreKept(t, steps, e);
    assert Waiting(After(t, steps).coordinator, e);
  }

  /** Of sinks that complete at once, the one whose removal came last has them all removed. */
  lemma {:induction false} LastSnapshotIsLive(t: Topology, steps: seq<Step>)
    requires Behaviour(t, steps)
    ensures var w := After(t, steps);
      w.snapshots != [] ==> w.snapshots[|w.snapshots| - 1] == w.coordinator.expected
    decreases |steps|
  {
    if steps != [] {
      var before, step := steps[..|steps| - 1], steps[|steps| - 1];
      LastSnapshotIsLive(t, before);
      if !OfCoordinator(step) && !step.Crash? {
        SameCoordinator(t, After(t, before), step);
      }
    }
  }

  /** So its second half finishes the job, whatever the others' did. */
  lemma LastCompletionSettles(t: Topology, steps: seq<Step>, i: nat)
    requires Behaviour(t, steps + [FinalizeReady(i)]) && i == |After(t, steps).snapshots| - 1
    ensures Settled(t, steps + [FinalizeReady(i)])
  {
    LastStep(t, steps, FinalizeReady(i));
    var run := steps + [FinalizeReady(i)];
    assert run[..|run| - 1] == steps && run[|run| - 1] == FinalizeReady(i);
    LastSnapshotIsLive(t, steps);
  }
}
