/** A plugin source's output: its dispatcher sends rows and echoes checkpoint markers and then exits;
    the host's forwarder drains the channel, lets markers ride on batches, and ends the stream on
    completion, failure, shutdown or an observed exit. */
module OutputDrain {
  import opened Wrappers

  /** What the dispatcher sends. A marker is an echo of one that the host sent in. */
  datatype Message = Data(payload: int) | Marker(epoch: nat) | Terminate | Error

  /** What goes downstream. */
  datatype Item = Rows(payload: int) | Mark(epoch: nat)

  /** The execution future: it completes, after which its wrapper raises the flag, or is dropped. */
  datatype Future = Running | Completed | Gone

  /** In which order a turn of the loop reads the exit flag and the channel. The program reads the
      flag first. */
  datatype Order = FlagFirst | FlagLast

  /** Where the forwarder stands in one turn of its loop; `sawExit` is what `has_exited` said. */
  datatype Pc =
    | Top
    | AfterExitRead(sawExit: bool)
    | AfterShutdownRead(sawExit: bool)
    | SawEmpty
    | Ended
    | Completing
    | Failed
    | ExitReported

  /** `broadcast` are all markers that reached the forwarder's subscription; of these `queued` are
      still in it and `inside` went into the plugin and were not echoed yet. `buffer` are the echoed
      ones that wait for a batch to ride on, and `folded` went from the subscription straight onto
      the last batch. */
  datatype State = State(
    sent: seq<Message>,
    channel: seq<Message>,
    received: seq<Message>,
    future: Future,
    flag: bool,
    shutdown: bool,
    remaining: Option<nat>,
    sentAtSignal: seq<Message>,
    broadcast: seq<nat>,
    queued: seq<nat>,
    inside: seq<nat>,
    buffer: seq<nat>,
    folded: seq<nat>,
    downstream: seq<Item>,
    pc: Pc)

  datatype Step =
    | Send(m: Message)
    | Complete
    | RaiseFlag
    | DropFuture
    | RequestShutdown
    | Broadcast(epoch: nat)
    | TakeQueued
    | ReadExit
    | ReadShutdown
    | Drain

  const Initial := State([], [], [], Running, false, false, None, [], [], [], [], [], [], [], Top)

  /** `InstanceExit::has_exited`: the flag was raised, or the side that would raise it is gone. */
  predicate HasExited(s: State) {
    s.flag || s.future.Gone?
  }

  predicate Stopped(s: State) {
    s.pc.Ended? || s.pc.Completing? || s.pc.Failed? || s.pc.ExitReported?
  }

  predicate Enabled(o: Order, s: State, step: Step) {
    match step
    case Send(m) => s.future.Running? && (m.Marker? ==> s.inside != [] && s.inside[0] == m.epoch)
    case Complete => s.future.Running?
    case RaiseFlag => s.future.Completed?
    case DropFuture => !s.future.Gone?
    case RequestShutdown => true
    case Broadcast(_) => !Stopped(s)
    case TakeQueued => s.pc.Top? && s.queued != []
    case ReadExit => if o.FlagFirst? then s.pc.Top? else s.pc.SawEmpty?
    case ReadShutdown => if o.FlagFirst? then s.pc.AfterExitRead? else s.pc.Top?
    case Drain => s.pc.AfterShutdownRead?
  }

  function Marks(epochs: seq<nat>): (r: seq<Item>)
    ensures |r| == |epochs| && forall i | 0 <= i < |epochs| :: r[i] == Mark(epochs[i])
  {
    seq(|epochs|, i requires 0 <= i < |epochs| => Mark(epochs[i]))
  }

  /** The buffered markers on a synthetic empty batch. */
  function Flushed(s: State): State {
    s.(downstream := s.downstream + Marks(s.buffer), buffer := [])
  }

  /** Behind the loop: what is buffered and what is still queued goes out on a last batch. */
  function Finished(s: State, pc: Pc): State {
    s.(downstream := s.downstream + Marks(s.buffer + s.queued), folded := s.queued,
       buffer := [], queued := [], pc := pc)
  }

  /** The state with the next message received and nothing done about it yet. */
  function Taken(s: State): State
    requires s.channel != []
  {
    var left := s.remaining;
    s.(channel := s.channel[1..], received := s.received + [s.channel[0]],
       remaining := if left.Some? && left.value > 0 then Some(left.value - 1) else left)
  }

  /** One message of the channel. */
  function Received(s: State): State
    requires s.channel != []
  {
    var m := s.channel[0];
    var t := Taken(s);
    match m
    case Data(x) => t.(downstream := t.downstream + [Rows(x)] + Marks(t.buffer), buffer := [], pc := Top)
    case Marker(e) => t.(buffer := t.buffer + [e], pc := Top)
    case Terminate => Finished(t, Completing)
    case Error => t.(pc := Failed)
  }

  function Next(o: Order, s: State, step: Step): State
    requires Enabled(o, s, step)
  {
    match step
    case Send(m) =>
      s.(sent := s.sent + [m], channel := s.channel + [m], inside := if m.Marker? then s.inside[1..] else s.inside)
    case Complete => s.(future := Completed)
    case RaiseFlag => s.(flag := true)
    case DropFuture => s.(future := Gone)
    case RequestShutdown => s.(shutdown := true)
    case Broadcast(e) => s.(broadcast := s.broadcast + [e], queued := s.queued + [e])
    case TakeQueued => s.(inside := s.inside + [s.queued[0]], queued := s.queued[1..])
    case ReadExit =>
      if o.FlagFirst? then s.(pc := AfterExitRead(HasExited(s)))
      else if HasExited(s) then s.(pc := ExitReported)
      else Flushed(s).(pc := Top)
    case ReadShutdown =>
      var t := if s.remaining.None? && s.shutdown
               then s.(remaining := Some(|s.channel|), sentAtSignal := s.sent)
               else s;
      if t.remaining == Some(0) then Finished(t, Ended)
      else t.(pc := AfterShutdownRead(s.pc.AfterExitRead? && s.pc.sawExit))
    case Drain =>
      if s.channel != [] then Received(s)
      else if o.FlagLast? then s.(pc := SawEmpty)
      else if s.pc.sawExit then s.(pc := ExitReported)
      else Flushed(s).(pc := Top)
  }

  predicate CanRun(o: Order, s: State, steps: seq<Step>)
    decreases |steps|
  {
    steps == [] || (Enabled(o, s, steps[0]) && CanRun(o, Next(o, s, steps[0]), steps[1..]))
  }

  function Run(o: Order, s: State, steps: seq<Step>): State
    requires CanRun(o, s, steps)
    decreases |steps|
  {
    if steps == [] then s else Run(o, Next(o, s, steps[0]), steps[1..])
  }

  // ---------------------------------------------------------------- rows and markers apart

  predicate IsContent(m: Message) {
    m.Data? || m.Marker?
  }

  predicate OnlyContent(ms: seq<Message>) {
    forall m | m in ms :: IsContent(m)
  }

  function DataOf(ms: seq<Message>): seq<int> {
    if ms == [] then []
    else
      var last := ms[|ms| - 1];
      DataOf(ms[..|ms| - 1]) + if last.Data? then [last.payload] else []
  }

  function MarkersOf(ms: seq<Message>): seq<nat> {
    if ms == [] then []
    else
      var last := ms[|ms| - 1];
      MarkersOf(ms[..|ms| - 1]) + if last.Marker? then [last.epoch] else []
  }

  /** For each marker in turn, how many rows were sent before it. */
  function SentAhead(ms: seq<Message>): (r: seq<nat>)
    ensures |r| == |MarkersOf(ms)|
    ensures forall i | 0 <= i < |r| :: r[i] <= |DataOf(ms)|
  {
    if ms == [] then []
    else
      var init, last := ms[..|ms| - 1], ms[|ms| - 1];
      SentAhead(init) + if last.Marker? then [|DataOf(init)|] else []
  }

  function RowsOf(items: seq<Item>): seq<int> {
    if items == [] then []
    else
      var last := items[|items| - 1];
      RowsOf(items[..|items| - 1]) + if last.Rows? then [last.payload] else []
  }

  function EpochsOf(items: seq<Item>): seq<nat> {
    if items == [] then []
    else
      var last := items[|items| - 1];
      EpochsOf(items[..|items| - 1]) + if last.Mark? then [last.epoch] else []
  }

  /** For each marker in turn, how many rows went downstream before it. */
  function PassedAhead(items: seq<Item>): (r: seq<nat>)
    ensures |r| == |EpochsOf(items)|
  {
    if items == [] then []
    else
      var init, last := items[..|items| - 1], items[|items| - 1];
      PassedAhead(init) + if last.Mark? then [|RowsOf(init)|] else []
  }

  lemma MessagesSnoc(ms: seq<Message>, m: Message)
    ensures DataOf(ms + [m]) == DataOf(ms) + if m.Data? then [m.payload] else []
    ensures MarkersOf(ms + [m]) == MarkersOf(ms) + if m.Marker? then [m.epoch] else []
    ensures SentAhead(ms + [m]) == SentAhead(ms) + if m.Marker? then [|DataOf(ms)|] else []
  {
    assert (ms + [m])[..|ms|] == ms;
  }

  lemma RowsSnoc(items: seq<Item>, x: int)
    ensures RowsOf(items + [Rows(x)]) == RowsOf(items) + [x]
    ensures EpochsOf(items + [Rows(x)]) == EpochsOf(items)
    ensures PassedAhead(items + [Rows(x)]) == PassedAhead(items)
  {
    assert (items + [Rows(x)])[..|items|] == items;
  }

  function Repeat(n: nat, times: nat): (r: seq<nat>)
    ensures |r| == times && forall i | 0 <= i < times :: r[i] == n
  {
    seq(times, _ => n)
  }

  lemma MarkSnoc(items: seq<Item>, e: nat)
    ensures RowsOf(items + [Mark(e)]) == RowsOf(items)
    ensures EpochsOf(items + [Mark(e)]) == EpochsOf(items) + [e]
    ensures PassedAhead(items + [Mark(e)]) == PassedAhead(items) + [|RowsOf(items)|]
  {
    assert (items + [Mark(e)])[..|items|] == items;
  }

  lemma {:induction false} MarksAppended(items: seq<Item>, epochs: seq<nat>)
    ensures RowsOf(items + Marks(epochs)) == RowsOf(items)
    ensures EpochsOf(items + Marks(epochs)) == EpochsOf(items) + epochs
    ensures PassedAhead(items + Marks(epochs)) == PassedAhead(items) + Repeat(|RowsOf(items)|, |epochs|)
    decreases |epochs|
  {
    if epochs == [] {
      assert items + Marks(epochs) == items;
    } else {
      var n, rows := |epochs| - 1, |RowsOf(items)|;
      var before := items + Marks(epochs[..n]);
      MarksAppended(items, epochs[..n]);
      MarkSnoc(before, epochs[n]);
      assert items + Marks(epochs) == before + [Mark(epochs[n])];
      assert EpochsOf(items) + epochs == (EpochsOf(items) + epochs[..n]) + [epochs[n]];
      assert PassedAhead(items) + Repeat(rows, |epochs|) == (PassedAhead(items) + Repeat(rows, n)) + [rows];
    }
  }

  // ---------------------------------------------------------------- what every step keeps

  /** Channel, exit and shutdown. */
  predicate Control(s: State) {
    && s.received + s.channel == s.sent
    && (s.flag ==> !s.future.Running?)
    && (s.pc.AfterExitRead? && s.pc.sawExit ==> !s.future.Running?)
    && (s.pc.AfterShutdownRead? && s.pc.sawExit ==> !s.future.Running?)
    && (s.pc.ExitReported? ==> !s.future.Running? && s.channel == [])
    && !s.pc.SawEmpty?
    && (s.remaining.Some? ==>
          s.sentAtSignal <= s.sent && |s.received| + s.remaining.value == |s.sentAtSignal|)
    && (s.pc.AfterShutdownRead? ==> s.remaining != Some(0))
    && (s.pc.Ended? ==> s.remaining == Some(0))
  }

  /** What was received ends with the plugin's last word, if it said one. */
  predicate LastWord(s: State) {
    if s.pc.Completing? || s.pc.Failed? then
      && s.received != []
      && OnlyContent(s.received[..|s.received| - 1])
      && s.received[|s.received| - 1] == if s.pc.Completing? then Terminate else Error
    else OnlyContent(s.received)
  }

  /** Each marker has gone downstream behind all rows sent before it. */
  predicate Behind(passed: seq<nat>, sent: seq<nat>) {
    forall j | 0 <= j < |passed| && j < |sent| :: sent[j] <= passed[j]
  }

  predicate Content(s: State) {
    && RowsOf(s.downstream) == DataOf(s.received)
    && Behind(PassedAhead(s.downstream), SentAhead(s.received))
    && (s.pc.Ended? || s.pc.Completing? ==> s.buffer == [] && s.queued == [])
    && (!s.pc.Ended? && !s.pc.Completing? ==> s.folded == [])
    && EpochsOf(s.downstream) + s.buffer == MarkersOf(s.received) + s.folded
  }

  /** Markers go through the plugin in order, and only the last batch takes them past it. */
  predicate Echoes(s: State) {
    MarkersOf(s.sent) + s.inside + s.queued + s.folded == s.broadcast
  }

  predicate Inv(s: State) {
    Control(s) && LastWord(s) && Content(s) && Echoes(s)
  }

  lemma SendControl(s: State, m: Message)
    requires Control(s) && Enabled(FlagFirst, s, Send(m))
    ensures Control(Next(FlagFirst, s, Send(m)))
  {
    assert s.received + (s.channel + [m]) == (s.received + s.channel) + [m];
  }

  lemma SendEchoes(s: State, m: Message)
    requires Echoes(s) && Enabled(FlagFirst, s, Send(m))
    ensures Echoes(Next(FlagFirst, s, Send(m)))
  {
    MessagesSnoc(s.sent, m);
    if m.Marker? {
      EchoMoves(MarkersOf(s.sent), s.inside);
    } else {
      assert MarkersOf(s.sent) + [] == MarkersOf(s.sent);
    }
  }

  lemma EchoMoves(sent: seq<nat>, inside: seq<nat>)
    requires inside != []
    ensures (sent + [inside[0]]) + inside[1..] == sent + inside
  {
  }

  lemma SendKeeps(s: State, m: Message)
    requires Inv(s) && Enabled(FlagFirst, s, Send(m))
    ensures Inv(Next(FlagFirst, s, Send(m)))
  {
    SendControl(s, m);
    SendEchoes(s, m);
  }

  /** Flushing markers puts them behind everything passed so far. */
  lemma FlushBehind(items: seq<Item>, epochs: seq<nat>, sent: seq<nat>)
    requires Behind(PassedAhead(items), sent)
    requires forall j | |PassedAhead(items)| <= j < |sent| :: sent[j] <= |RowsOf(items)|
    ensures Behind(PassedAhead(items + Marks(epochs)), sent)
  {
    MarksAppended(items, epochs);
  }

  lemma FlushKeeps(s: State)
    requires Inv(s) && !Stopped(s)
    ensures Content(Flushed(s)) && Echoes(Flushed(s))
  {
    MarksAppended(s.downstream, s.buffer);
    FlushBehind(s.downstream, s.buffer, SentAhead(s.received));
    assert Flushed(s).buffer == [] && EpochsOf(Flushed(s).downstream) + [] == MarkersOf(s.received);
  }

  lemma FinishContent(s: State, pc: Pc)
    requires Content(s) && Echoes(s) && s.folded == [] && (pc.Ended? || pc.Completing?)
    ensures Content(Finished(s, pc)) && Echoes(Finished(s, pc))
  {
    MarksAppended(s.downstream, s.buffer + s.queued);
    FlushBehind(s.downstream, s.buffer + s.queued, SentAhead(s.received));
    assert EpochsOf(s.downstream) + (s.buffer + s.queued) == (EpochsOf(s.downstream) + s.buffer) + s.queued;
    assert MarkersOf(s.received) + [] == MarkersOf(s.received);
    assert Finished(s, pc).inside + [] + s.queued == s.inside + s.queued + [];
  }

  lemma TakenControl(s: State, pc: Pc)
    requires Inv(s) && s.pc.AfterShutdownRead? && s.channel != [] && (pc.Top? || pc.Completing? || pc.Failed?)
    ensures Control(Taken(s).(pc := pc))
  {
    assert s.channel == [s.channel[0]] + s.channel[1..];
  }

  lemma WordSnoc(received: seq<Message>, m: Message)
    requires OnlyContent(received)
    ensures (received + [m])[..|received|] == received && (received + [m])[|received|] == m
    ensures IsContent(m) ==> OnlyContent(received + [m])
  {
  }

  /** What receiving leaves alone, and where it ends. */
  lemma ReceivedFields(s: State)
    requires s.channel != []
    ensures var m, r := s.channel[0], Received(s);
      && r.received == s.received + [m] && r.sent == s.sent && r.inside == s.inside && r.broadcast == s.broadcast
      && r.pc == (if m.Terminate? then Completing else if m.Error? then Failed else Top)
  {
  }

  lemma ReceivedMarker(s: State)
    requires s.channel != [] && s.channel[0].Marker?
    ensures var r := Received(s);
      && r.downstream == s.downstream && r.buffer == s.buffer + [s.channel[0].epoch]
      && r.queued == s.queued && r.folded == s.folded
  {
  }

  lemma TakenLastWord(s: State)
    requires LastWord(s) && s.pc.AfterShutdownRead? && s.channel != []
    ensures LastWord(Received(s))
  {
    ReceivedFields(s);
    WordSnoc(s.received, s.channel[0]);
  }

  lemma ReceiveDataKeeps(s: State)
    requires Inv(s) && s.pc.AfterShutdownRead? && s.channel != [] && s.channel[0].Data?
    ensures Content(Received(s)) && Echoes(Received(s))
  {
    var x := s.channel[0].payload;
    MessagesSnoc(s.received, s.channel[0]);
    RowsSnoc(s.downstream, x);
    var items := s.downstream + [Rows(x)];
    MarksAppended(items, s.buffer);
    FlushBehind(items, s.buffer, SentAhead(s.received));
    assert Received(s).buffer == [];
    assert EpochsOf(items) + s.buffer + [] == MarkersOf(s.received);
    assert SentAhead(s.received) + [] == SentAhead(s.received) && MarkersOf(s.received) + [] == MarkersOf(s.received);
  }

  lemma ReceiveMarkerKeeps(s: State)
    requires Inv(s) && s.pc.AfterShutdownRead? && s.channel != [] && s.channel[0].Marker?
    ensures Content(Received(s)) && Echoes(Received(s))
  {
    ReceivedFields(s);
    ReceivedMarker(s);
    MessagesSnoc(s.received, s.channel[0]);
    BufferedBehind(s, s.channel[0].epoch);
  }

  lemma BufferedBehind(s: State, e: nat)
    requires Content(s) && s.folded == []
    ensures EpochsOf(s.downstream) + (s.buffer + [e]) == MarkersOf(s.received) + [e] + s.folded
    ensures Behind(PassedAhead(s.downstream), SentAhead(s.received) + [|DataOf(s.received)|])
  {
    assert MarkersOf(s.received) + [] == MarkersOf(s.received);
    assert EpochsOf(s.downstream) + (s.buffer + [e]) == (EpochsOf(s.downstream) + s.buffer) + [e];
    assert |PassedAhead(s.downstream)| <= |SentAhead(s.received)|;
  }

  lemma ReceiveLastKeeps(s: State)
    requires Inv(s) && s.pc.AfterShutdownRead? && s.channel != [] && !IsContent(s.channel[0])
    ensures Content(Received(s)) && Echoes(Received(s))
  {
    MessagesSnoc(s.received, s.channel[0]);
    var t := Taken(s);
    assert DataOf(t.received) == DataOf(s.received) && MarkersOf(t.received) == MarkersOf(s.received);
    assert SentAhead(t.received) == SentAhead(s.received);
    if s.channel[0].Terminate? {
      FinishContent(t, Completing);
    }
  }

  lemma ReceivedControl(s: State)
    requires Inv(s) && s.pc.AfterShutdownRead? && s.channel != []
    ensures Control(Received(s))
  {
    match s.channel[0]
    case Data(_) => TakenControl(s, Top);
    case Marker(_) => TakenControl(s, Top);
    case Terminate => TakenControl(s, Completing);
    case Error => TakenControl(s, Failed);
  }

  lemma ReceiveKeeps(s: State)
    requires Inv(s) && s.pc.AfterShutdownRead? && s.channel != []
    ensures Inv(Received(s))
  {
    TakenLastWord(s);
    ReceivedControl(s);
    if s.channel[0].Data? {
      ReceiveDataKeeps(s);
    } else if s.channel[0].Marker? {
      ReceiveMarkerKeeps(s);
    } else {
      ReceiveLastKeeps(s);
    }
  }

  lemma ReadShutdownKeeps(s: State)
    requires Inv(s) && Enabled(FlagFirst, s, ReadShutdown)
    ensures Inv(Next(FlagFirst, s, ReadShutdown))
  {
    var t := if s.remaining.None? && s.shutdown
             then s.(remaining := Some(|s.channel|), sentAtSignal := s.sent)
             else s;
    if t.remaining == Some(0) {
      FinishContent(t, Ended);
    }
  }

  lemma DrainsMessage(s: State)
    requires Enabled(FlagFirst, s, Drain) && s.channel != []
    ensures Next(FlagFirst, s, Drain) == Received(s)
  {
  }

  lemma DrainsNothing(s: State)
    requires Enabled(FlagFirst, s, Drain) && s.channel == []
    ensures Next(FlagFirst, s, Drain) == if s.pc.sawExit then s.(pc := ExitReported) else Flushed(s).(pc := Top)
  {
  }

  lemma ExitKeeps(s: State)
    requires Inv(s) && s.pc.AfterShutdownRead? && s.channel == [] && s.pc.sawExit
    ensures Inv(s.(pc := ExitReported))
  {
  }

  lemma IdleKeeps(s: State)
    requires Inv(s) && s.pc.AfterShutdownRead? && s.channel == []
    ensures Inv(Flushed(s).(pc := Top))
  {
    FlushKeeps(s);
    SameContent(Flushed(s), Top);
  }

  lemma SameContent(s: State, pc: Pc)
    requires Content(s) && Echoes(s) && pc.Top? && s.pc.AfterShutdownRead?
    ensures Content(s.(pc := pc)) && Echoes(s.(pc := pc))
  {
  }

  lemma DrainKeeps(s: State)
    requires Inv(s) && Enabled(FlagFirst, s, Drain)
    ensures Inv(Next(FlagFirst, s, Drain))
  {
    if s.channel != [] {
      DrainsMessage(s);
      ReceiveKeeps(s);
    } else {
      DrainsNothing(s);
      if s.pc.sawExit {
        ExitKeeps(s);
      } else {
        IdleKeeps(s);
      }
    }
  }

  lemma TakeQueuedKeeps(s: State)
    requires Inv(s) && Enabled(FlagFirst, s, TakeQueued)
    ensures Inv(Next(FlagFirst, s, TakeQueued))
  {
    assert s.queued == [s.queued[0]] + s.queued[1..];
    assert (s.inside + [s.queued[0]]) + s.queued[1..] == s.inside + s.queued;
    var m := MarkersOf(s.sent);
    assert m + (s.inside + [s.queued[0]]) + s.queued[1..] == m + ((s.inside + [s.queued[0]]) + s.queued[1..]);
    assert m + s.inside + s.queued == m + (s.inside + s.queued);
  }

  lemma BroadcastKeeps(s: State, e: nat)
    requires Inv(s) && Enabled(FlagFirst, s, Broadcast(e))
    ensures Inv(Next(FlagFirst, s, Broadcast(e)))
  {
    var m := MarkersOf(s.sent);
    assert m + s.inside + (s.queued + [e]) + [] == (m + s.inside + s.queued) + [e];
    assert m + s.inside + s.queued + [] == m + s.inside + s.queued;
  }

  lemma StepKeeps(s: State, step: Step)
    requires Inv(s) && Enabled(FlagFirst, s, step)
    ensures Inv(Next(FlagFirst, s, step))
  {
    match step
    case Send(m) => SendKeeps(s, m);
    case TakeQueued => TakeQueuedKeeps(s);
    case Broadcast(e) => BroadcastKeeps(s, e);
    case ReadShutdown => ReadShutdownKeeps(s);
    case Drain => DrainKeeps(s);
    case _ =>
  }

  // ---------------------------------------------------------------- markers do not wait for ever

  /** What was received since the last row. */
  function SinceLastRow(ms: seq<Message>): seq<Message> {
    if ms == [] || ms[|ms| - 1].Data? then [] else SinceLastRow(ms[..|ms| - 1]) + [ms[|ms| - 1]]
  }

  /** No more markers wait for a batch than were received since the last row. */
  predicate Fleeting(s: State) {
    |s.buffer| <= |MarkersOf(SinceLastRow(s.received))|
  }

  lemma SinceSnoc(ms: seq<Message>, m: Message)
    ensures MarkersOf(SinceLastRow(ms + [m]))
         == if m.Data? then [] else MarkersOf(SinceLastRow(ms)) + if m.Marker? then [m.epoch] else []
  {
    assert (ms + [m])[..|ms|] == ms;
    MessagesSnoc(SinceLastRow(ms), m);
  }

  lemma {:induction false} SinceIsEnd(ms: seq<Message>)
    ensures |MarkersOf(SinceLastRow(ms))| <= |MarkersOf(ms)|
    ensures MarkersOf(SinceLastRow(ms)) == MarkersOf(ms)[|MarkersOf(ms)| - |MarkersOf(SinceLastRow(ms))|..]
    decreases |ms|
  {
    if ms != [] && !ms[|ms| - 1].Data? {
      var init, last := ms[..|ms| - 1], ms[|ms| - 1];
      SinceIsEnd(init);
      assert ms == init + [last];
      SinceSnoc(init, last);
      MessagesSnoc(init, last);
    }
  }

  lemma ReceivedIsFleeting(s: State)
    requires Fleeting(s) && s.channel != []
    ensures Fleeting(Received(s))
  {
    ReceivedFields(s);
    SinceSnoc(s.received, s.channel[0]);
    if s.channel[0].Marker? {
      ReceivedMarker(s);
    }
  }

  lemma StaysFleeting(s: State, step: Step)
    requires Fleeting(s) && Enabled(FlagFirst, s, step)
    ensures Fleeting(Next(FlagFirst, s, step))
  {
    if step.Drain? && s.channel != [] {
      ReceivedIsFleeting(s);
    }
  }

  lemma {:induction false} RunIsFleeting(s: State, steps: seq<Step>)
    requires Fleeting(s) && CanRun(FlagFirst, s, steps)
    ensures Fleeting(Run(FlagFirst, s, steps))
    decreases |steps|
  {
    if steps != [] {
      StaysFleeting(s, steps[0]);
      RunIsFleeting(Next(FlagFirst, s, steps[0]), steps[1..]);
    }
  }

  lemma {:induction false} RunKeeps(s: State, steps: seq<Step>)
    requires Inv(s) && CanRun(FlagFirst, s, steps)
    ensures Inv(Run(FlagFirst, s, steps))
    decreases |steps|
  {
    if steps != [] {
      StepKeeps(s, steps[0]);
      RunKeeps(Next(FlagFirst, s, steps[0]), steps[1..]);
    }
  }

  lemma StaysFrozen(s: State, step: Step)
    requires Enabled(FlagFirst, s, step) && !s.future.Running?
    ensures Next(FlagFirst, s, step).sent == s.sent && !Next(FlagFirst, s, step).future.Running?
  {
    if step.Drain? && s.channel != [] {
      ReceivingSendsNothing(s);
    }
  }

  lemma ReceivingSendsNothing(s: State)
    requires s.channel != []
    ensures Received(s).sent == s.sent && Received(s).future == s.future
  {
  }

  lemma {:induction false} Frozen(s: State, steps: seq<Step>)
    requires Inv(s) && CanRun(FlagFirst, s, steps) && !s.future.Running?
    ensures Run(FlagFirst, s, steps).sent == s.sent
    decreases |steps|
  {
    if steps != [] {
      StepKeeps(s, steps[0]);
      StaysFrozen(s, steps[0]);
      Frozen(Next(FlagFirst, s, steps[0]), steps[1..]);
    }
  }

  // ---------------------------------------------------------------- what every run guarantees

  /** An empty channel after an observed exit is final: by the time the forwarder reports the exit
      it has every message the dispatcher sent or, whatever happens afterwards, will ever send. */
  lemma ExitIsFinal(before: seq<Step>, after: seq<Step>)
    requires CanRun(FlagFirst, Initial, before) && Run(FlagFirst, Initial, before).pc.ExitReported?
    requires CanRun(FlagFirst, Run(FlagFirst, Initial, before), after)
    ensures Run(FlagFirst, Initial, before).received == Run(FlagFirst, Run(FlagFirst, Initial, before), after).sent
    ensures OnlyContent(Run(FlagFirst, Initial, before).received)
  {
    RunKeeps(Initial, before);
    Frozen(Run(FlagFirst, Initial, before), after);
  }

  /** At shutdown the stream ends after exactly what had been sent when shutdown was noticed: no
      message of it is dropped, and none that a still-producing plugin adds is waited for. */
  lemma ShutdownDrainsSnapshot(steps: seq<Step>)
    requires CanRun(FlagFirst, Initial, steps)
    ensures var s := Run(FlagFirst, Initial, steps);
            && (s.pc.Ended? ==> s.received == s.sentAtSignal)
            && (s.remaining.Some? ==> s.received <= s.sentAtSignal <= s.sent)
  {
    RunKeeps(Initial, steps);
    var s := Run(FlagFirst, Initial, steps);
    if s.remaining.Some? {
      assert s.received == s.sent[..|s.received|];
    }
  }

  /** A stream that completes has forwarded everything up to the plugin's own `Terminate`; one that
      fails, up to its `Error`; and always exactly the rows received so far, in order. */
  lemma CompletionCarriesEverything(steps: seq<Step>)
    requires CanRun(FlagFirst, Initial, steps)
    ensures var s := Run(FlagFirst, Initial, steps);
            && s.received <= s.sent && RowsOf(s.downstream) == DataOf(s.received)
            && (s.pc.Completing? ==> MarkersOf(s.received) <= EpochsOf(s.downstream))
            && (s.pc.Completing? || s.pc.Failed? ==>
                  exists content :: OnlyContent(content)
                    && s.received == content + [if s.pc.Completing? then Terminate else Error])
  {
    RunKeeps(Initial, steps);
    var s := Run(FlagFirst, Initial, steps);
    assert s.received == s.sent[..|s.received|];
    assert EpochsOf(s.downstream) + [] == EpochsOf(s.downstream);
    if s.pc.Completing? || s.pc.Failed? {
      EndsInWord(s);
    }
  }

  lemma EndsInWord(s: State)
    requires LastWord(s) && (s.pc.Completing? || s.pc.Failed?)
    ensures exists content :: OnlyContent(content)
              && s.received == content + [if s.pc.Completing? then Terminate else Error]
  {
    var content := s.received[..|s.received| - 1];
    assert s.received == content + [s.received[|s.received| - 1]];
  }

  /** A marker goes downstream in its turn and behind every row that was sent before it; of a stream
      that failed, those still waiting for a batch are dropped. */
  lemma MarkersFollowTheirRows(steps: seq<Step>, j: nat)
    requires CanRun(FlagFirst, Initial, steps)
    ensures var s := Run(FlagFirst, Initial, steps);
            && (j < |EpochsOf(s.downstream)| && j < |MarkersOf(s.received)| ==>
                  && EpochsOf(s.downstream)[j] == MarkersOf(s.received)[j]
                  && SentAhead(s.received)[j] <= PassedAhead(s.downstream)[j])
            && (s.pc.Failed? || s.pc.ExitReported? ==> EpochsOf(s.downstream) + s.buffer == MarkersOf(s.received))
  {
    RunKeeps(Initial, steps);
    var s := Run(FlagFirst, Initial, steps);
    var all := EpochsOf(s.downstream) + s.buffer;
    assert j < |EpochsOf(s.downstream)| ==> all[j] == EpochsOf(s.downstream)[j];
    assert s.folded == [] ==> MarkersOf(s.received) + s.folded == MarkersOf(s.received);
  }

  /** Every marker received before the last row has gone downstream; only later ones wait for a batch,
      and only of a stream that still runs, failed or reported an exit. */
  predicate OnlyLateMarkersWait(s: State) {
    var all, since := MarkersOf(s.received), MarkersOf(SinceLastRow(s.received));
    && |since| <= |all| && all == all[..|all| - |since|] + since
    && all[..|all| - |since|] <= EpochsOf(s.downstream)
    && |s.buffer| <= |since| && s.buffer == since[|since| - |s.buffer|..]
    && (s.pc.Ended? || s.pc.Completing? ==> s.buffer == [])
  }

  /** In every run, echoed markers do not wait for ever. */
  lemma MarkersGoWithTheNextRow(steps: seq<Step>)
    requires CanRun(FlagFirst, Initial, steps)
    ensures OnlyLateMarkersWait(Run(FlagFirst, Initial, steps))
  {
    RunKeeps(Initial, steps);
    RunIsFleeting(Initial, steps);
    LateMarkersWait(Run(FlagFirst, Initial, steps));
  }

  lemma LateMarkersWait(s: State)
    requires Inv(s) && Fleeting(s)
    ensures OnlyLateMarkersWait(s)
  {
    SinceIsEnd(s.received);
    WaitingOrFolded(s);
    var since := MarkersOf(SinceLastRow(s.received));
    WaitingIsEnd(MarkersOf(s.received), since, s.buffer, EpochsOf(s.downstream), s.folded);
  }

  lemma WaitingOrFolded(s: State)
    requires Inv(s)
    ensures EpochsOf(s.downstream) + s.buffer == MarkersOf(s.received) + s.folded
    ensures s.folded == [] || s.buffer == []
    ensures s.pc.Ended? || s.pc.Completing? ==> s.buffer == []
  {
  }

  lemma WaitingIsEnd(all: seq<nat>, since: seq<nat>, buffer: seq<nat>, down: seq<nat>, folded: seq<nat>)
    requires down + buffer == all + folded && (folded == [] || buffer == [])
    requires |buffer| <= |since| <= |all| && since == all[|all| - |since|..]
    ensures all == all[..|all| - |since|] + since
    ensures all[..|all| - |since|] <= down && buffer == since[|since| - |buffer|..]
  {
    if folded == [] {
      assert all == down + buffer;
    } else {
      assert down == all + folded;
    }
  }

  /** An idle turn: when the forwarder finds the channel empty and goes on, every marker it has received
      has gone downstream. */
  lemma IdleTurnFlushes(steps: seq<Step>)
    requires CanRun(FlagFirst, Initial, steps) && Enabled(FlagFirst, Run(FlagFirst, Initial, steps), Drain)
    requires Run(FlagFirst, Initial, steps).channel == []
    requires !Next(FlagFirst, Run(FlagFirst, Initial, steps), Drain).pc.ExitReported?
    ensures var s := Next(FlagFirst, Run(FlagFirst, Initial, steps), Drain);
      s.buffer == [] && EpochsOf(s.downstream) == MarkersOf(s.received) && s.pc == Top
  {
    RunKeeps(Initial, steps);
    var s := Run(FlagFirst, Initial, steps);
    StepKeeps(s, Drain);
    DrainsNothing(s);
    var t := Next(FlagFirst, s, Drain);
    assert EpochsOf(t.downstream) + [] == EpochsOf(t.downstream);
    assert MarkersOf(t.received) + [] == MarkersOf(t.received);
  }

  // ---------------------------------------------------------------- every turn leads on

  /** Whether the last look at the exit found the flag raised or the future gone. */
  function FoundExit(s: State, steps: seq<Step>, found: bool): bool
    requires CanRun(FlagFirst, s, steps)
    decreases |steps|
  {
    if steps == [] then found
    else FoundExit(Next(FlagFirst, s, steps[0]), steps[1..],
                   if steps[0].ReadExit? then s.flag || s.future.Gone? else found)
  }

  predicate Remembers(s: State, found: bool) {
    s.pc.AfterExitRead? || s.pc.AfterShutdownRead? ==> s.pc.sawExit == found
  }

  lemma {:induction false} RunRemembers(s: State, steps: seq<Step>, found: bool)
    requires CanRun(FlagFirst, s, steps) && Remembers(s, found)
    ensures Remembers(Run(FlagFirst, s, steps), FoundExit(s, steps, found))
    decreases |steps|
  {
    if steps != [] {
      RunRemembers(Next(FlagFirst, s, steps[0]), steps[1..],
                   if steps[0].ReadExit? then s.flag || s.future.Gone? else found);
    }
  }

  /** A turn that finds the channel empty reports an exit exactly when at its start the flag was
      raised or the future gone; and a forwarder that has not ended always has a next step. */
  lemma ExitIsReported(steps: seq<Step>)
    requires CanRun(FlagFirst, Initial, steps)
    ensures var s := Run(FlagFirst, Initial, steps);
      && (s.pc.AfterShutdownRead? && s.channel == [] ==>
            Next(FlagFirst, s, Drain).pc == if FoundExit(Initial, steps, false) then ExitReported else Top)
      && (!Stopped(s) ==> exists step | step in {ReadExit, ReadShutdown, Drain} :: Enabled(FlagFirst, s, step))
  {
    RunKeeps(Initial, steps);
    RunRemembers(Initial, steps, false);
    var s := Run(FlagFirst, Initial, steps);
    if !Stopped(s) {
      var step := if s.pc.Top? then ReadExit else if s.pc.AfterExitRead? then ReadShutdown else Drain;
      assert Enabled(FlagFirst, s, step);
    }
  }

  /** A turn of the loop, as long as shutdown has not been noticed. */
  lemma WholeTurn(s: State)
    requires s.pc.Top? && s.remaining.None? && !s.shutdown
    ensures var look := s.(pc := AfterShutdownRead(s.flag || s.future.Gone?));
      && Enabled(FlagFirst, look, Drain)
      && CanRun(FlagFirst, s, [ReadExit] + ([ReadShutdown] + ([Drain] + [])))
      && Run(FlagFirst, s, [ReadExit] + ([ReadShutdown] + ([Drain] + []))) == Next(FlagFirst, look, Drain)
  {
    var look := s.(pc := AfterShutdownRead(s.flag || s.future.Gone?));
    RunOne(FlagFirst, look, Drain, []);
    RunOne(FlagFirst, s.(pc := AfterExitRead(s.flag || s.future.Gone?)), ReadShutdown, [Drain] + []);
    RunOne(FlagFirst, s, ReadExit, [ReadShutdown] + ([Drain] + []));
  }

  /** A row that the dispatcher sends goes downstream in the forwarder's next turn, with the markers
      that waited for it behind it; and an execution future that is dropped is noticed in it. */
  lemma NextTurnAnswers(s: State, x: int)
    requires s.pc.Top? && s.remaining.None? && !s.shutdown && s.channel == []
    ensures var turn := [ReadExit] + ([ReadShutdown] + ([Drain] + []));
      && (s.future.Running? ==>
            && CanRun(FlagFirst, s, [Send(Data(x))] + turn)
            && Run(FlagFirst, s, [Send(Data(x))] + turn).downstream == s.downstream + [Rows(x)] + Marks(s.buffer))
      && (!s.future.Gone? ==>
            && CanRun(FlagFirst, s, [DropFuture] + turn)
            && Run(FlagFirst, s, [DropFuture] + turn).pc == ExitReported)
      && (s.future.Completed? ==>
            && CanRun(FlagFirst, s, [RaiseFlag] + turn)
            && Run(FlagFirst, s, [RaiseFlag] + turn).pc == ExitReported)
  {
    var turn := [ReadExit] + ([ReadShutdown] + ([Drain] + []));
    if s.future.Running? {
      WholeTurn(Next(FlagFirst, s, Send(Data(x))));
      RunOne(FlagFirst, s, Send(Data(x)), turn);
    }
    if !s.future.Gone? {
      WholeTurn(Next(FlagFirst, s, DropFuture));
      RunOne(FlagFirst, s, DropFuture, turn);
    }
    if s.future.Completed? {
      WholeTurn(Next(FlagFirst, s, RaiseFlag));
      RunOne(FlagFirst, s, RaiseFlag, turn);
    }
  }

  /** A stream that shutdown ends, or that the plugin completes, passes the markers still queued on
      past the plugin. A marker is skipped exactly when it is inside the plugin or its echo was not
      received. */
  lemma EndSkipsInside(steps: seq<Step>)
    requires CanRun(FlagFirst, Initial, steps)
    requires Run(FlagFirst, Initial, steps).pc.Ended? || Run(FlagFirst, Initial, steps).pc.Completing?
    ensures var s := Run(FlagFirst, Initial, steps);
            && EpochsOf(s.downstream) == MarkersOf(s.received) + s.folded
            && (EpochsOf(s.downstream) == s.broadcast <==> MarkersOf(s.received) == MarkersOf(s.sent) + s.inside)
  {
    RunKeeps(Initial, steps);
    SkipsInside(Run(FlagFirst, Initial, steps));
  }

  lemma SkipsInside(s: State)
    requires Content(s) && Echoes(s) && (s.pc.Ended? || s.pc.Completing?)
    ensures EpochsOf(s.downstream) == MarkersOf(s.received) + s.folded
    ensures EpochsOf(s.downstream) == s.broadcast <==> MarkersOf(s.received) == MarkersOf(s.sent) + s.inside
  {
    assert EpochsOf(s.downstream) + [] == EpochsOf(s.downstream);
    var through := MarkersOf(s.sent) + s.inside;
    assert through + [] == through;
    SameTail(MarkersOf(s.received), through, s.folded);
  }

  lemma SameTail(a: seq<nat>, b: seq<nat>, tail: seq<nat>)
    ensures a + tail == b + tail <==> a == b
  {
    if a + tail == b + tail {
      assert a == (a + tail)[..|a|] && b == (b + tail)[..|b|];
    }
  }

  /** At shutdown these are the ones inside the plugin and the ones echoed too late for the snapshot. */
  lemma ShutdownSkipsInside(steps: seq<Step>)
    requires CanRun(FlagFirst, Initial, steps) && Run(FlagFirst, Initial, steps).pc.Ended?
    ensures var s := Run(FlagFirst, Initial, steps);
            && EpochsOf(s.downstream) == MarkersOf(s.sentAtSignal) + s.folded
            && (EpochsOf(s.downstream) == s.broadcast <==> MarkersOf(s.sentAtSignal) == MarkersOf(s.sent) + s.inside)
  {
    EndSkipsInside(steps);
    ShutdownDrainsSnapshot(steps);
  }

  /** Marker 1 is inside the plugin when shutdown ends the stream, and only marker 2 is passed on. */
  lemma MarkerInsideIsSkipped()
    ensures var steps := [Broadcast(1), TakeQueued, Broadcast(2), RequestShutdown, ReadExit, ReadShutdown];
            && CanRun(FlagFirst, Initial, steps)
            && Run(FlagFirst, Initial, steps).pc.Ended? && Run(FlagFirst, Initial, steps).downstream == [Mark(2)]
  {
    var a := Next(FlagFirst, Initial, Broadcast(1));
    var b := Next(FlagFirst, a, TakeQueued);
    var c := Next(FlagFirst, b, Broadcast(2));
    assert a == Initial.(broadcast := [1], queued := [1]);
    assert b == Initial.(broadcast := [1], inside := [1]);
    assert c == Initial.(broadcast := [1, 2], inside := [1], queued := [2]);
    ShutdownWithOneQueued(c);
    var rest := [RequestShutdown, ReadExit, ReadShutdown];
    RunOne(FlagFirst, b, Broadcast(2), rest);
    RunOne(FlagFirst, a, TakeQueued, [Broadcast(2)] + rest);
    RunOne(FlagFirst, Initial, Broadcast(1), [TakeQueued] + ([Broadcast(2)] + rest));
    assert [Broadcast(1)] + ([TakeQueued] + ([Broadcast(2)] + rest))
        == [Broadcast(1), TakeQueued, Broadcast(2), RequestShutdown, ReadExit, ReadShutdown];
  }

  lemma ShutdownWithOneQueued(c: State)
    requires c == Initial.(broadcast := [1, 2], inside := [1], queued := [2])
    ensures var steps := [RequestShutdown, ReadExit, ReadShutdown];
            && CanRun(FlagFirst, c, steps)
            && Run(FlagFirst, c, steps).pc.Ended? && Run(FlagFirst, c, steps).downstream == [Mark(2)]
  {
    var d := Next(FlagFirst, c, RequestShutdown);
    var e := Next(FlagFirst, d, ReadExit);
    var f := Next(FlagFirst, e, ReadShutdown);
    assert [] + [2] == [2] && f.downstream == [] + Marks([2]);
    RunOne(FlagFirst, e, ReadShutdown, []);
    RunOne(FlagFirst, d, ReadExit, [ReadShutdown]);
    RunOne(FlagFirst, c, RequestShutdown, [ReadExit, ReadShutdown]);
    assert [ReadShutdown] + [] == [ReadShutdown] && [ReadExit] + [ReadShutdown] == [ReadExit, ReadShutdown];
    assert [RequestShutdown] + [ReadExit, ReadShutdown] == [RequestShutdown, ReadExit, ReadShutdown];
  }

  /** What the order of the two reads is for. A forwarder that looks at the channel first and at the
      exit flag second reports an exit with a message still in the channel. */
  lemma ReadingTheFlagLastLoses()
    ensures exists steps ::
      && CanRun(FlagLast, Initial, steps)
      && Run(FlagLast, Initial, steps).pc.ExitReported?
      && Run(FlagLast, Initial, steps).channel == [Data(7)] && Run(FlagLast, Initial, steps).received == []
  {
    var a := Next(FlagLast, Initial, ReadShutdown);
    var b := Next(FlagLast, a, Drain);
    assert b == Initial.(pc := SawEmpty);
    ExitBehindTheBack();
    var rest := [Send(Data(7)), Complete, RaiseFlag, ReadExit];
    RunOne(FlagLast, a, Drain, rest);
    RunOne(FlagLast, Initial, ReadShutdown, [Drain] + rest);
  }

  lemma ExitBehindTheBack()
    ensures var s, steps := Initial.(pc := SawEmpty), [Send(Data(7)), Complete, RaiseFlag, ReadExit];
            && CanRun(FlagLast, s, steps) && Run(FlagLast, s, steps).pc.ExitReported?
            && Run(FlagLast, s, steps).channel == [Data(7)] && Run(FlagLast, s, steps).received == []
  {
    var b := Initial.(pc := SawEmpty);
    var c := Next(FlagLast, b, Send(Data(7)));
    var d := Next(FlagLast, c, Complete);
    var e := Next(FlagLast, d, RaiseFlag);
    RunOne(FlagLast, e, ReadExit, []);
    RunOne(FlagLast, d, RaiseFlag, [ReadExit]);
    RunOne(FlagLast, c, Complete, [RaiseFlag, ReadExit]);
    RunOne(FlagLast, b, Send(Data(7)), [Complete, RaiseFlag, ReadExit]);
    assert [ReadExit] + [] == [ReadExit] && [RaiseFlag] + [ReadExit] == [RaiseFlag, ReadExit];
    assert [Complete] + [RaiseFlag, ReadExit] == [Complete, RaiseFlag, ReadExit];
    assert [Send(Data(7))] + [Complete, RaiseFlag, ReadExit] == [Send(Data(7)), Complete, RaiseFlag, ReadExit];
    assert c.channel == [Data(7)];
  }

  lemma RunOne(o: Order, s: State, step: Step, rest: seq<Step>)
    requires Enabled(o, s, step) && CanRun(o, Next(o, s, step), rest)
    ensures CanRun(o, s, [step] + rest) && Run(o, s, [step] + rest) == Run(o, Next(o, s, step), rest)
  {
    assert ([step] + rest)[1..] == rest;
  }
}
