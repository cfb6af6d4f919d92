/** The checkpoint protocol with marker alignment in it. Streams run from the sources through merge
    points, which may feed one another, to the write streams of the sinks; each merge point aligns
    the markers of its inputs, and each sink has a gate that aligns the epochs its write streams
    report as flushed. */
module Network {
  import opened MarkerAlignment
  import A = AlignmentRuns
  import P = AtLeastOnce

  datatype Stream = FromSource(s: nat) | FromMerge(n: nat)

  /** The inputs of every merge point and the write streams of every sink, and which rows each takes: an
      exchange deals the rows of a stream out to several readers, markers go to all. `inOrder` says that every
      source passes on every marker; a plugin source that shutdown ends may skip some. `inTurn` says
      that no forwarder sends a marker while another one of the merge point has yet to send an
      earlier one; the program does not enforce it. */
  datatype Plant = Plant(
    topology: P.Topology,
    merges: seq<seq<Stream>>,
    gates: seq<seq<Stream>>,
    takes: (Node, nat, nat, nat) -> bool,
    inOrder: bool,
    inTurn: bool)

  datatype Node = Merge(n: nat) | Gate(k: nat)

  datatype Item = Row(source: nat, offset: nat) | Mark(epoch: Epoch)

  /** What an aligner has seen, how far into each input that is, which inputs it has seen the end of,
      and what came out of it: the merged stream, or what the sink received. `outbox[i]` is what the
      i-th input's forwarder made the aligner release and has yet to send. */
  datatype Entry = Entry(
    events: seq<A.Event>,
    told: seq<nat>,
    done: seq<bool>,
    outbox: seq<seq<Epoch>>,
    merged: seq<Item>)

  datatype State = State(world: P.World, merges: seq<Entry>, gates: seq<Entry>)

  /** One task for each input of a merge point or gate: it passes the next row on, shows the aligner a
      marker, or all those of a batch, or the end of the input, and then sends what that released. A
      merge point passes on a message that is no marker. */
  datatype Step =
    | Plain(step: P.Step)
    | PassRow(node: Node, i: nat)
    | PassMarker(node: Node, i: nat, createdAtMs: nat)
    | PassEnd(node: Node, i: nat, nowMs: nat)
    | SendOut(node: Node, i: nat)
    | PassNotice(node: Node, m: Message)

  // ---------------------------------------------------------------- the network

  predicate ValidNode(p: Plant, node: Node) {
    match node
    case Merge(n) => n < |p.merges|
    case Gate(k) => k < |p.gates|
  }

  function Inputs(p: Plant, node: Node): seq<Stream>
    requires ValidNode(p, node)
  {
    match node
    case Merge(n) => p.merges[n]
    case Gate(k) => p.gates[k]
  }

  function Rank(x: Stream): nat {
    match x
    case FromSource(_) => 0
    case FromMerge(n) => n + 1
  }

  /** How high the inputs of a node may stand. */
  function Level(p: Plant, node: Node): nat {
    match node
    case Merge(n) => n
    case Gate(_) => |p.merges|
  }

  predicate ValidStream(p: Plant, x: Stream, level: nat) {
    match x
    case FromSource(s) => s < p.topology.sources
    case FromMerge(n) => n < level && n < |p.merges|
  }

  /** Merge points read sources and earlier merge points. */
  ghost predicate Layered(p: Plant) {
    && |p.gates| == p.topology.sinks
    && forall node, i | ValidNode(p, node) && 0 <= i < |Inputs(p, node)| ::
         ValidStream(p, Inputs(p, node)[i], Level(p, node))
  }

  /** The row at offset o of source s comes by on the stream. */
  ghost predicate Feeds(p: Plant, s: nat, o: nat, x: Stream)
    decreases Rank(x)
  {
    match x
    case FromSource(r) => r == s
    case FromMerge(n) =>
      n < |p.merges| && exists i | 0 <= i < |p.merges[n]| ::
        p.takes(Merge(n), i, s, o) && Rank(p.merges[n][i]) < Rank(x) && Feeds(p, s, o, p.merges[n][i])
  }

  /** The node takes the row from one of its inputs. */
  ghost predicate Under(p: Plant, s: nat, o: nat, node: Node)
    requires ValidNode(p, node)
  {
    exists i | 0 <= i < |Inputs(p, node)| :: p.takes(node, i, s, o) && Feeds(p, s, o, Inputs(p, node)[i])
  }

  /** A node reads merge point n. */
  ghost predicate Reads(p: Plant, node: Node, i: nat, n: nat) {
    ValidNode(p, node) && i < |Inputs(p, node)| && Inputs(p, node)[i] == FromMerge(n)
  }

  ghost predicate IsRead(p: Plant, n: nat) {
    exists node: Node, i: nat :: Reads(p, node, i, n)
  }

  /** Every row reaches the sinks that its source is wired to, on one way or another, and no merge
      point is left dangling. */
  ghost predicate Connected(p: Plant) {
    && (forall s: nat, k: nat, o: nat | (s, k) in p.topology.wired :: k < |p.gates| && Under(p, s, o, Gate(k)))
    && (forall n: nat | n < |p.merges| :: IsRead(p, n))
  }

  ghost predicate WellBuilt(p: Plant) {
    P.Wellformed(p.topology) && Layered(p) && Connected(p)
  }

  // ---------------------------------------------------------------- streams

  function LogItem(s: nat, src: P.Source, i: nat): Item
    requires i < |src.log|
  {
    match src.log[i]
    case Record => Row(s, src.start + P.Records(src.log[..i]))
    case Mark(e) => Mark(e)
  }

  function LogItems(s: nat, src: P.Source): (r: seq<Item>)
    ensures |r| == |src.log| && forall i | 0 <= i < |r| :: r[i] == LogItem(s, src, i)
  {
    seq(|src.log|, i requires 0 <= i < |src.log| => LogItem(s, src, i))
  }

  function Items(st: State, x: Stream): seq<Item> {
    match x
    case FromSource(s) => if s < |st.world.sources| then LogItems(s, st.world.sources[s]) else []
    case FromMerge(n) => if n < |st.merges| then st.merges[n].merged else []
  }

  predicate AllDone(en: Entry) {
    forall i | 0 <= i < |en.done| :: en.done[i]
  }

  /** All inputs have ended and all that was released is sent. */
  predicate Closed(en: Entry) {
    AllDone(en) && forall i | 0 <= i < |en.outbox| :: en.outbox[i] == []
  }

  predicate Ends(st: State, x: Stream) {
    match x
    case FromSource(s) => s < |st.world.sources| && st.world.sources[s].ended
    case FromMerge(n) => n < |st.merges| && Closed(st.merges[n])
  }

  function Marks(items: seq<Item>): seq<Epoch> {
    if items == [] then []
    else
      var last := items[|items| - 1];
      Marks(items[..|items| - 1]) + if last.Mark? then [last.epoch] else []
  }

  /** The first n items of source s's log are on their way to every sink that s is wired to. */
  ghost predicate Sent(t: P.Topology, w: P.World, s: nat, n: nat)
    requires P.Shaped(t, w)
  {
    forall k: nat | (s, k) in t.wired :: n <= w.read[(s, k)]
  }

  /** The rows that the i-th write stream of sink k takes are stored. */
  predicate TakenStored(p: Plant, w: P.World, k: nat, i: nat, items: seq<Item>) {
    forall j | 0 <= j < |items| && Takes(p, Gate(k), i, items[j]) ::
      k < |w.durable| && (items[j].source, items[j].offset) in w.durable[k]
  }

  predicate Takes(p: Plant, node: Node, i: nat, item: Item) {
    item.Row? && p.takes(node, i, item.source, item.offset)
  }

  // ---------------------------------------------------------------- steps

  function EntryOf(st: State, node: Node): Entry
    requires match node case Merge(n) => n < |st.merges| case Gate(k) => k < |st.gates|
  {
    match node
    case Merge(n) => st.merges[n]
    case Gate(k) => st.gates[k]
  }

  function WithEntry(st: State, node: Node, en: Entry): State
    requires match node case Merge(n) => n < |st.merges| case Gate(k) => k < |st.gates|
  {
    match node
    case Merge(n) => st.(merges := st.merges[n := en])
    case Gate(k) => st.(gates := st.gates[k := en])
  }

  ghost predicate Legal(p: Plant, node: Node, en: Entry) {
    ValidNode(p, node) && A.LegalRun(|Inputs(p, node)|, en.events)
  }

  ghost function Run(p: Plant, node: Node, en: Entry): A.Run
    requires Legal(p, node, en)
  {
    A.After(|Inputs(p, node)|, en.events)
  }

  ghost predicate LetThrough(p: Plant, node: Node, en: Entry, e: Epoch) {
    Legal(p, node, en) && e in Run(p, node, en).out
  }

  ghost predicate Finished(p: Plant, node: Node, en: Entry) {
    Legal(p, node, en) && A.AllEnded(Run(p, node, en))
  }

  ghost predicate Fits(p: Plant, node: Node, en: Entry)
    requires ValidNode(p, node)
  {
    |en.told| == |en.done| == |en.outbox| == |Inputs(p, node)|
  }

  /** States of the right shape. */
  ghost predicate Sized(p: Plant, st: State) {
    && WellBuilt(p) && P.Shaped(p.topology, st.world)
    && |st.merges| == |p.merges| && |st.gates| == |p.gates|
    && forall node | ValidNode(p, node) :: Fits(p, node, EntryOf(st, node))
  }

  /** A source that skips no marker passes the broadcast ones on in turn. A sink stores rows it has
      received, acks what its gate released and is through when all its write streams are. */
  ghost predicate EnabledPlain(p: Plant, st: State, step: P.Step)
    requires Sized(p, st)
  {
    var t, w := p.topology, st.world;
    match step
    case EmitMarker(s, e) =>
      P.Enabled(t, w, step) && (p.inOrder ==> forall x | x in w.markers && x < e :: P.Mark(x) in w.sources[s].log)
    case SinkAck(k, e) => k < t.sinks && LetThrough(p, Gate(k), st.gates[k], e)
    case SinkComplete(k) => k < t.sinks && Finished(p, Gate(k), st.gates[k])
    case Flush(k, rows) =>
      P.Enabled(t, w, step) && forall row | row in rows :: Row(row.0, row.1) in st.gates[k].merged
    case _ => P.Enabled(t, w, step)
  }

  /** The next item of an input. What comes from a source must have been sent. */
  ghost predicate Available(p: Plant, st: State, node: Node, i: nat)
    requires Sized(p, st)
  {
    && ValidNode(p, node) && i < |Inputs(p, node)|
    && EntryOf(st, node).told[i] < |Items(st, Inputs(p, node)[i])|
    && (Inputs(p, node)[i].FromSource? ==>
          Sent(p.topology, st.world, Inputs(p, node)[i].s, EntryOf(st, node).told[i] + 1))
  }

  /** A write stream flushes before it reports. */
  predicate Flushed(p: Plant, w: P.World, node: Node, i: nat, items: seq<Item>) {
    node.Gate? ==> TakenStored(p, w, node.k, i, items)
  }

  /** No other forwarder has yet to send a marker that is due before those of the i-th. */
  predicate InTurn(outbox: seq<seq<Epoch>>, i: nat)
    requires i < |outbox|
  {
    forall j, d, e | 0 <= j < |outbox| && j != i && d in outbox[i] && e in outbox[j] :: d < e
  }

  ghost predicate Enabled(p: Plant, st: State, step: Step) {
    && Sized(p, st)
    && match step
       case Plain(plain) => EnabledPlain(p, st, plain)
       case PassRow(node, i) =>
         && Available(p, st, node, i) && Items(st, Inputs(p, node)[i])[EntryOf(st, node).told[i]].Row?
         && EntryOf(st, node).outbox[i] == []
       case PassMarker(node, i, _) =>
         && Available(p, st, node, i) && Items(st, Inputs(p, node)[i])[EntryOf(st, node).told[i]].Mark?
         && Flushed(p, st.world, node, i, Items(st, Inputs(p, node)[i])[..EntryOf(st, node).told[i]])
       case PassEnd(node, i, _) =>
         && ValidNode(p, node) && i < |Inputs(p, node)|
         && !EntryOf(st, node).done[i] && EntryOf(st, node).outbox[i] == []
         && Ends(st, Inputs(p, node)[i])
         && EntryOf(st, node).told[i] == |Items(st, Inputs(p, node)[i])|
         && Flushed(p, st.world, node, i, Items(st, Inputs(p, node)[i]))
       case SendOut(node, i) =>
         && ValidNode(p, node) && i < |Inputs(p, node)| && EntryOf(st, node).outbox[i] != []
         && (p.inTurn && node.Merge? ==> InTurn(EntryOf(st, node).outbox, i))
       case PassNotice(node, m) =>
         node.Merge? && ValidNode(p, node) && !m.Marker? && (m.Finalizer? ==> m.epoch in st.world.finalizers)
  }

  function MarkItems(epochs: seq<Epoch>): (r: seq<Item>)
    ensures |r| == |epochs| && forall i | 0 <= i < |epochs| :: r[i] == Mark(epochs[i])
  {
    seq(|epochs|, i requires 0 <= i < |epochs| => Mark(epochs[i]))
  }

  ghost function Took(p: Plant, node: Node, en: Entry, ev: A.Event): Entry {
    en.(events := en.events + [ev])
  }

  /** What the aligner releases on an event. */
  ghost function News(p: Plant, node: Node, en: Entry, ev: A.Event): seq<Epoch> {
    var more := Took(p, node, en, ev);
    if Legal(p, node, en) && Legal(p, node, more) && |Run(p, node, en).out| <= |Run(p, node, more).out| then
      Run(p, node, more).out[|Run(p, node, en).out|..]
    else []
  }

  /** The aligner sees something on the i-th input; what it releases is that forwarder's to send. */
  ghost function Take(p: Plant, node: Node, en: Entry, i: nat, ev: A.Event): Entry
    requires i < |en.outbox|
  {
    Took(p, node, en, ev).(outbox := en.outbox[i := en.outbox[i] + News(p, node, en, ev)])
  }

  /** A row that the input does not take is another reader's. */
  function PastRow(en: Entry, i: nat, row: Item, taken: bool): Entry
    requires i < |en.told|
  {
    en.(told := en.told[i := en.told[i] + 1], merged := if taken then en.merged + [row] else en.merged)
  }

  ghost function PastMarker(p: Plant, node: Node, en: Entry, i: nat, e: Epoch, ms: nat): Entry
    requires i < |en.told| && i < |en.outbox|
  {
    Take(p, node, en, i, A.Deliver(i, e, ms)).(told := en.told[i := en.told[i] + 1])
  }

  ghost function PastEnd(p: Plant, node: Node, en: Entry, i: nat, now: nat): Entry
    requires i < |en.done| && i < |en.outbox|
  {
    Take(p, node, en, i, A.Done(i, now)).(done := en.done[i := true])
  }

  function PastSend(en: Entry, i: nat): Entry
    requires i < |en.outbox|
  {
    en.(outbox := en.outbox[i := []], merged := en.merged + MarkItems(en.outbox[i]))
  }

  function Fresh(inputs: nat): Entry {
    Entry([], seq(inputs, _ => 0), seq(inputs, _ => false), seq(inputs, _ => []), [])
  }

  function FreshMerges(p: Plant): seq<Entry> {
    seq(|p.merges|, n requires 0 <= n < |p.merges| => Fresh(|p.merges[n]|))
  }

  function FreshGates(p: Plant): seq<Entry> {
    seq(|p.gates|, k requires 0 <= k < |p.gates| => Fresh(|p.gates[k]|))
  }

  /** The start of a process. */
  function Started(p: Plant, w: P.World): State {
    State(w, FreshMerges(p), FreshGates(p))
  }

  ghost function PassTo(p: Plant, st: State, step: Step): Entry
    requires Enabled(p, st, step) && !step.Plain?
  {
    var en := EntryOf(st, step.node);
    match step
    case PassRow(node, i) =>
      PastRow(en, i, Items(st, Inputs(p, node)[i])[en.told[i]],
              Takes(p, node, i, Items(st, Inputs(p, node)[i])[en.told[i]]))
    case PassMarker(node, i, ms) => PastMarker(p, node, en, i, Items(st, Inputs(p, node)[i])[en.told[i]].epoch, ms)
    case PassEnd(node, i, now) => PastEnd(p, node, en, i, now)
    case SendOut(_, i) => PastSend(en, i)
    case PassNotice(node, m) => Took(p, node, en, A.Notice(m))
  }

  /** `PlainStepsAreEnabled` shows that in every run `AtLeastOnce` admits each plain step. */
  ghost function Do(p: Plant, st: State, step: Step): State
    requires Enabled(p, st, step)
  {
    match step
    case Plain(plain) =>
      if !P.Enabled(p.topology, st.world, plain) then st
      else if plain.Crash? then Started(p, P.Do(p.topology, st.world, plain))
      else st.(world := P.Do(p.topology, st.world, plain))
    case _ => WithEntry(st, step.node, PassTo(p, st, step))
  }

  // ---------------------------------------------------------------- what every step keeps

  predicate RowsIn(items: seq<Item>, s: nat, from: nat, to: nat) {
    forall o | from <= o < to :: Row(s, o) in items
  }

  /** Every row of `items` that input i takes is among `all`. */
  predicate TakenAmong(p: Plant, node: Node, i: nat, items: seq<Item>, all: seq<Item>) {
    forall j | 0 <= j < |items| && Takes(p, node, i, items[j]) :: items[j] in all
  }

  /** The row is among `items` if the source sent it before its marker for e at position m. */
  predicate AheadAt(src: P.Source, s: nat, o: nat, e: Epoch, items: seq<Item>, m: nat) {
    && m < |src.log| && src.log[m] == P.Mark(e)
    && (src.start <= o < src.start + P.Records(src.log[..m]) ==> Row(s, o) in items)
  }

  /** The row at offset o is among `items` if s sent it before its marker for e, or, having ended, at
      all. */
  ghost predicate Ahead(t: P.Topology, w: P.World, s: nat, o: nat, e: Epoch, items: seq<Item>)
    requires P.Shaped(t, w)
  {
    && s < |w.sources|
    && (|| (exists m: nat :: AheadAt(w.sources[s], s, o, e, items, m) && Sent(t, w, s, m + 1))
        || AllAhead(t, w, s, o, items))
  }

  ghost predicate AllAhead(t: P.Topology, w: P.World, s: nat, o: nat, items: seq<Item>)
    requires P.Shaped(t, w) && s < |w.sources|
  {
    && w.sources[s].ended && Sent(t, w, s, |w.sources[s].log|)
    && (w.sources[s].start <= o < P.Position(w.sources[s]) ==> Row(s, o) in items)
  }

  /** One input of a node: what the aligner knows of it, what passed, and what a sink has flushed. */
  ghost predicate InputOk(p: Plant, st: State, node: Node, en: Entry, i: nat, delivered: seq<Epoch>, ended: bool)
    requires Sized(p, st) && ValidNode(p, node) && Fits(p, node, en) && i < |Inputs(p, node)|
  {
    var x, n := Inputs(p, node)[i], en.told[i];
    && n <= |Items(st, x)|
    && delivered == Marks(Items(st, x)[..n])
    && (ended <==> en.done[i])
    && (ended ==> Ends(st, x) && n == |Items(st, x)|)
    && (x.FromSource? ==> Sent(p.topology, st.world, x.s, n))
    && TakenAmong(p, node, i, Items(st, x)[..n], en.merged)
    && InputFlushed(p, st, node, i, x, n, ended)
  }

  /** A write stream was flushed up to each marker it reported, and at its end. */
  ghost predicate InputFlushed(p: Plant, st: State, node: Node, i: nat, x: Stream, n: nat, ended: bool) {
    node.Gate? && n <= |Items(st, x)| ==>
      && (forall q | 0 <= q < n && Items(st, x)[q].Mark? ::
            TakenStored(p, st.world, node.k, i, Items(st, x)[..q]))
      && (ended ==> TakenStored(p, st.world, node.k, i, Items(st, x)))
  }

  ghost predicate InputsOk(p: Plant, st: State, node: Node, en: Entry)
    requires Sized(p, st) && Legal(p, node, en) && Fits(p, node, en)
  {
    var r := Run(p, node, en);
    && |r.delivered| == |r.ended| == |Inputs(p, node)|
    && forall i | 0 <= i < |Inputs(p, node)| :: InputOk(p, st, node, en, i, r.delivered[i], r.ended[i])
  }

  /** All rows that a marker for e covers are among the items. */
  ghost predicate Covers(p: Plant, st: State, node: Node, e: Epoch, items: seq<Item>)
    requires Sized(p, st) && ValidNode(p, node)
  {
    forall s: nat, o: nat | Under(p, s, o, node) :: Ahead(p.topology, st.world, s, o, e, items)
  }

  /** A merged marker stands behind all rows it covers. */
  ghost predicate MarkerOk(p: Plant, st: State, node: Node, en: Entry, q: nat)
    requires Sized(p, st) && ValidNode(p, node) && q < |en.merged| && en.merged[q].Mark?
  {
    Covers(p, st, node, en.merged[q].epoch, en.merged[..q])
  }

  /** What waits to be sent, all outboxes together. */
  function Waiting(outbox: seq<seq<Epoch>>): multiset<Epoch> {
    if outbox == [] then multiset{} else multiset(outbox[0]) + Waiting(outbox[1..])
  }

  /** A forwarder holds markers in the order of its input; until that ends, ones it delivered. */
  ghost predicate BoxOk(box: seq<Epoch>, delivered: seq<Epoch>, ended: bool) {
    && (A.Increasing(delivered) ==> A.Increasing(box))
    && (!ended ==> forall e | e in box :: e in delivered)
  }

  ghost predicate BoxesOk(p: Plant, node: Node, en: Entry)
    requires Legal(p, node, en) && Fits(p, node, en)
  {
    var r := Run(p, node, en);
    && |r.delivered| == |r.ended| == |Inputs(p, node)|
    && forall i | 0 <= i < |Inputs(p, node)| :: BoxOk(en.outbox[i], r.delivered[i], r.ended[i])
  }

  /** Each marker that was released was sent once or waits; a merge point sends in order. */
  ghost predicate BooksOk(p: Plant, node: Node, en: Entry)
    requires Legal(p, node, en) && Fits(p, node, en)
  {
    && multiset(Marks(en.merged)) + Waiting(en.outbox) == multiset(Run(p, node, en).out)
    && BoxesOk(p, node, en)
    && (p.inOrder && p.inTurn && node.Merge? ==> Marks(en.merged) <= Run(p, node, en).out)
  }

  ghost predicate MarkersOk(p: Plant, st: State, node: Node, en: Entry)
    requires Sized(p, st) && ValidNode(p, node)
  {
    forall q | 0 <= q < |en.merged| && en.merged[q].Mark? :: MarkerOk(p, st, node, en, q)
  }

  ghost predicate NodeOk(p: Plant, st: State, node: Node, en: Entry)
    requires Sized(p, st)
  {
    && Legal(p, node, en) && Fits(p, node, en)
    && (p.inOrder && p.inTurn ==> A.PromptRun(|Inputs(p, node)|, en.events))
    && InputsOk(p, st, node, en)
    && BooksOk(p, node, en)
    && MarkersOk(p, st, node, en)
  }

  function LogMarks(items: seq<P.Item>): seq<Epoch> {
    if items == [] then []
    else
      var last := items[|items| - 1];
      LogMarks(items[..|items| - 1]) + if last.Mark? then [last.epoch] else []
  }

  /** A source passes issued markers on in order, skipping none if that is what sources do. */
  ghost predicate OrderedLog(inOrder: bool, markers: set<Epoch>, log: seq<P.Item>) {
    && A.Increasing(LogMarks(log))
    && (forall e | e in LogMarks(log) :: e in markers)
    && (inOrder ==> forall e, x | e in LogMarks(log) && x in markers && x < e :: x in LogMarks(log))
  }

  /** The epoch went through k's gate, or nothing can come through it any more. */
  ghost function Through(p: Plant, st: State): P.Fact {
    (k: nat, e: P.Epoch) =>
      k < |st.gates| && (LetThrough(p, Gate(k), st.gates[k], e) || Finished(p, Gate(k), st.gates[k]))
  }

  ghost predicate NodesOk(p: Plant, st: State)
    requires Sized(p, st)
  {
    forall node | ValidNode(p, node) :: NodeOk(p, st, node, EntryOf(st, node))
  }

  ghost predicate LogsOk(p: Plant, w: P.World) {
    forall s | 0 <= s < |w.sources| :: OrderedLog(p.inOrder, w.markers, w.sources[s].log)
  }

  ghost predicate Inv(p: Plant, st: State) {
    && Sized(p, st) && P.Inv(p.topology, st.world) && P.Ledger(st.world)
    && LogsOk(p, st.world)
    && NodesOk(p, st)
    && P.Believes(p.topology, st.world, Through(p, st))
  }
}
