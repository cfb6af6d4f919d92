/** How a checkpoint epoch begins, is replaced and ends, over the runs of `AtLeastOnce`. */
module EpochLife {
  import opened Wrappers
  import opened AtLeastOnce
  import C = Coordinator

  /** Until the terminal epoch begins, one epoch at most is tracked. */
  predicate OneAtATime(c: C.State) {
    !c.terminalStarted ==> c.terminal.None? && forall e, x | e in c.epochs && x in c.epochs :: e == x
  }

  lemma StepOneAtATime(t: Topology, w: World, step: Step)
    requires Shaped(t, w) && Enabled(t, w, step) && OneAtATime(w.coordinator)
    ensures OneAtATime(Do(t, w, step).coordinator)
  {
    if !OfCoordinator(step) && !step.Crash? {
      SameCoordinator(t, w, step);
    }
  }

  lemma {:induction false} RunOneAtATime(t: Topology, steps: seq<Step>)
    requires Behaviour(t, steps)
    ensures OneAtATime(After(t, steps).coordinator)
    decreases |steps|
  {
    if steps != [] {
      var n := |steps| - 1;
      RunOneAtATime(t, steps[..n]);
      StepOneAtATime(t, After(t, steps[..n]), steps[n]);
    }
  }

  lemma OpenStays(t: Topology, w: World, step: Step, e: nat)
    requires Shaped(t, w) && Enabled(t, w, step) && OneAtATime(w.coordinator) && !step.Sweep? && !step.Crash?
    requires e in w.coordinator.epochs && !w.coordinator.epochs[e].Finalized?
    ensures e in Do(t, w, step).coordinator.epochs
  {
    if !OfCoordinator(step) {
      SameCoordinator(t, w, step);
    }
  }

  /** In every run, an open epoch is dropped by nothing but a timeout: the terminal epoch is added to
      it, and the timer waits until it is final. */
  lemma OnlyTimeoutsDrop(t: Topology, steps: seq<Step>, step: Step, e: nat)
    requires Behaviour(t, steps + [step]) && !step.Sweep? && !step.Crash?
    requires Behaviour(t, steps) && e in After(t, steps).coordinator.epochs
    requires !After(t, steps).coordinator.epochs[e].Finalized?
    ensures e in After(t, steps + [step]).coordinator.epochs
  {
    LastStep(t, steps, step);
    RunOneAtATime(t, steps);
    OpenStays(t, After(t, steps), step, e);
  }

  /** Beginning the terminal epoch issues the next number, the first time only. */
  lemma TerminalIsIssued(t: Topology, steps: seq<Step>)
    requires Wellformed(t) && Behaviour(t, steps + [BeginTerminal])
    ensures Behaviour(t, steps)
    ensures var c, w := After(t, steps).coordinator, After(t, steps + [BeginTerminal]);
      && w.coordinator.terminalStarted
      && w.coordinator.terminal == (if c.terminal.Some? then c.terminal else Some(c.nextEpoch))
      && w.coordinator.terminal.value in w.coordinator.epochs && w.coordinator.terminal.value in w.markers
  {
    LastStep(t, steps, BeginTerminal);
    RunLedger(t, steps);
    RunLedger(t, steps + [BeginTerminal]);
  }

  lemma OneMore(t: Topology, steps: seq<Step>, step: Step)
    requires Wellformed(t) && Behaviour(t, steps)
    requires Shaped(t, After(t, steps)) ==> Enabled(t, After(t, steps), step)
    ensures Shaped(t, After(t, steps)) && Behaviour(t, steps + [step])
    ensures After(t, steps + [step]) == Do(t, After(t, steps), step) && Shaped(t, After(t, steps + [step]))
  {
    RunKeeps(t, steps);
    var run := steps + [step];
    assert run[..|run| - 1] == steps && run[|run| - 1] == step;
    RunKeeps(t, run);
  }

  /** What a timeout drops: the open epochs that are too old, the terminal one excepted. */
  lemma SweepDrops(t: Topology, w: World, stale: set<nat>, e: nat)
    requires Shaped(t, w)
    ensures var before, left := w.coordinator.epochs, Do(t, w, Sweep(stale)).coordinator.epochs;
      && (e in left <==>
            e in before && (e !in stale || before[e].Finalized? || w.coordinator.terminal == Some(e)))
      && (e in left ==> left[e] == before[e])
  {
  }

  /** An epoch that never completes does not block checkpoints for ever: when it has timed out, the
      timer issues the next number, as long as the terminal epoch has not begun. */
  lemma TimedOutIsReplaced(t: Topology, steps: seq<Step>, stale: set<nat>)
    requires Wellformed(t) && Behaviour(t, steps) && !After(t, steps).coordinator.terminalStarted
    requires forall e | e in After(t, steps).coordinator.epochs ::
      e in stale || After(t, steps).coordinator.epochs[e].Finalized?
    ensures Behaviour(t, steps + [Sweep(stale)]) && Behaviour(t, steps + [Sweep(stale)] + [MintTimer])
    ensures var c, w := After(t, steps).coordinator, After(t, steps + [Sweep(stale)] + [MintTimer]);
      && w.coordinator.epochs == map[c.nextEpoch := C.Started]
      && c.nextEpoch !in After(t, steps).markers
      && w.markers == After(t, steps).markers + {c.nextEpoch}
  {
    RunOneAtATime(t, steps);
    RunLedger(t, steps);
    OneMore(t, steps, Sweep(stale));
    assert C.NewestFinalized(After(t, steps + [Sweep(stale)]).coordinator.epochs);
    OneMore(t, steps + [Sweep(stale)], MintTimer);
  }

  /** Whether k's ack of e was sent and is the last one that the coordinator waits for. */
  predicate LastAck(w: World, e: nat, k: nat) {
    && (e, k) in w.acks && k in w.coordinator.expected
    && e in w.coordinator.epochs && !w.coordinator.epochs[e].Finalized?
    && w.coordinator.expected <= C.AckedBy(w.coordinator.epochs[e]) + {k}
  }

  lemma LastAckFinalizes(t: Topology, steps: seq<Step>, e: nat, k: nat)
    requires Wellformed(t) && Behaviour(t, steps) && LastAck(After(t, steps), e, k)
    ensures var run := steps + [AdmitAck(e, k)] + [RecordAck(e, k)];
      && Behaviour(t, run)
      && After(t, run).unsent == After(t, steps).unsent + [e] && After(t, run).sources == After(t, steps).sources
  {
    OneMore(t, steps, AdmitAck(e, k));
    OneMore(t, steps + [AdmitAck(e, k)], RecordAck(e, k));
  }

  /** The last ack that an epoch waits for brings about its commit: from every reachable state in which
      it has been sent, the coordinator's steps and the source's are possible one after the other. */
  lemma LastAckCommits(t: Topology, steps: seq<Step>, e: nat, k: nat, s: nat)
    requires Wellformed(t) && Behaviour(t, steps) && LastAck(After(t, steps), e, k)
    requires s < t.sources && s < |After(t, steps).sources| && e in After(t, steps).sources[s].recorded
    ensures var run := steps + [AdmitAck(e, k)] + [RecordAck(e, k)]
                       + [SendFinalizer(|After(t, steps).unsent|)] + [Commit(s, e)];
      && Behaviour(t, run) && s < |After(t, run).sources|
      && After(t, run).sources[s].committed == After(t, steps).sources[s].recorded[e]
  {
    LastAckFinalizes(t, steps, e, k);
    var acked, n := steps + [AdmitAck(e, k)] + [RecordAck(e, k)], |After(t, steps).unsent|;
    OneMore(t, acked, SendFinalizer(n));
    assert e in After(t, acked + [SendFinalizer(n)]).finalizers;
    OneMore(t, acked + [SendFinalizer(n)], Commit(s, e));
  }

  /** A sink that has completed can always be taken off the list, and then nothing waits for it. */
  lemma CompletionSettles(t: Topology, steps: seq<Step>, k: nat)
    requires Wellformed(t) && Behaviour(t, steps)
    requires k in After(t, steps).completed && k in After(t, steps).coordinator.expected
    ensures var run := steps + [DropSink(k)] + [FinalizeReady(|After(t, steps).snapshots|)];
      && Behaviour(t, run) && Settled(t, run)
      && After(t, run).coordinator.expected == After(t, steps).coordinator.expected - {k}
  {
    var n := |After(t, steps).snapshots|;
    OneMore(t, steps, DropSink(k));
    OneMore(t, steps + [DropSink(k)], FinalizeReady(n));
    LastCompletionSettles(t, steps + [DropSink(k)], n);
  }

  // ---------------------------------------------------------------- a whole round

  /** One source whose rows go to one sink. */
  predicate Lone(t: Topology) {
    t == Topology(1, 1, {(0, 0)})
  }

  /** What the round is told by: the source's log and notes, how much of it the sink has received and
      what is stored there, the acks, the markers issued and the coordinator. */
  datatype View = View(
    log: seq<Item>,
    recorded: map<nat, nat>,
    read: nat,
    stored: set<(nat, nat)>,
    acks: set<(nat, nat)>,
    markers: set<nat>,
    c: C.State)

  ghost predicate Looks(t: Topology, steps: seq<Step>, v: View) {
    && Lone(t) && Behaviour(t, steps)
    && var w := After(t, steps);
    && w.sources == [Source(0, 0, v.log, v.recorded, false)] && w.durable == [v.stored]
    && (0, 0) in w.read && w.read[(0, 0)] == v.read
    && w.acks == v.acks && w.markers == v.markers && w.coordinator == v.c
  }

  lemma RowEmitted(t: Topology, steps: seq<Step>, v: View)
    requires Looks(t, steps, v)
    ensures Looks(t, steps + [Emit(0)], v.(log := v.log + [Record]))
  {
    OneMore(t, steps, Emit(0));
  }

  lemma TerminalBegun(t: Topology, steps: seq<Step>, v: View)
    requires Looks(t, steps, v) && v.c.terminal.None?
    ensures var e := v.c.nextEpoch;
      Looks(t, steps + [BeginTerminal], v.(markers := v.markers + {e},
        c := C.State(v.c.epochs[e := C.Started], e + 1, v.c.expected, true, Some(e))))
  {
    OneMore(t, steps, BeginTerminal);
  }

  lemma MarkerEmitted(t: Topology, steps: seq<Step>, v: View, e: nat)
    requires Looks(t, steps, v) && e in v.markers && v.recorded == map[]
    ensures Looks(t, steps + [EmitMarker(0, e)], v.(log := v.log + [Mark(e)], recorded := map[e := Records(v.log)]))
  {
    OneMore(t, steps, EmitMarker(0, e));
  }

  lemma ItemReceived(t: Topology, steps: seq<Step>, v: View)
    requires Looks(t, steps, v) && v.read < |v.log|
    ensures Looks(t, steps + [Receive(0, 0)], v.(read := v.read + 1))
  {
    OneMore(t, steps, Receive(0, 0));
  }

  lemma RowStored(t: Topology, steps: seq<Step>, v: View, o: nat)
    requires Looks(t, steps, v) && v.read <= |v.log| && o < Records(v.log[..v.read])
    ensures Looks(t, steps + [Flush(0, {(0, o)})], v.(stored := v.stored + {(0, o)}))
  {
    OneMore(t, steps, Flush(0, {(0, o)}));
  }

  lemma AckSent(t: Topology, steps: seq<Step>, v: View, i: nat, e: nat)
    requires Looks(t, steps, v) && i < v.read <= |v.log| && v.log[i] == Mark(e)
    requires forall o | 0 <= o < Records(v.log[..i]) :: (0, o) in v.stored
    ensures Looks(t, steps + [SinkAck(0, e)], v.(acks := v.acks + {(e, 0)}))
  {
    RunKeeps(t, steps);
    var w := After(t, steps);
    assert w.sources[0].log[i] == Mark(e);
    assert Stored(w, 0, 0, w.sources[0].start, w.sources[0].start + Records(w.sources[0].log[..i]));
    assert FlushedMarker(w, 0, 0, e);
    OneMore(t, steps, SinkAck(0, e));
  }

  lemma RoundStarts(t: Topology)
    requires Lone(t)
    ensures Looks(t, [], View([], map[], 0, {}, {}, {}, C.Fresh({0})))
  {
    assert AllSinks(t) == {0};
  }

  lemma RowAndTerminal(t: Topology, v: View)
    requires Looks(t, [], v) && v.c.terminal.None?
    ensures var e := v.c.nextEpoch;
      Looks(t, [] + [Emit(0)] + [BeginTerminal], v.(log := v.log + [Record], markers := v.markers + {e},
        c := C.State(v.c.epochs[e := C.Started], e + 1, v.c.expected, true, Some(e))))
  {
    RowEmitted(t, [], v);
    TerminalBegun(t, [] + [Emit(0)], v.(log := v.log + [Record]));
  }

  /** A row and the terminal marker behind it have been emitted. */
  lemma RoundBegins(t: Topology) returns (steps: seq<Step>)
    requires Lone(t)
    ensures Looks(t, steps, View([Record, Mark(1)], map[1 := 1], 0, {}, {}, {1},
                                 C.State(map[1 := C.Started], 2, {0}, true, Some(1))))
  {
    RoundStarts(t);
    RowAndTerminal(t, View([], map[], 0, {}, {}, {}, C.Fresh({0})));
    var c := C.State(map[1 := C.Started], 2, {0}, true, Some(1));
    var v := View([Record], map[], 0, {}, {}, {1}, c);
    steps := [] + [Emit(0)] + [BeginTerminal];
    assert Looks(t, steps, v) by {
      assert [] + [Record] == [Record] && {} + {1} == {1};
    }
    MarkerEmitted(t, steps, v, 1);
    steps := steps + [EmitMarker(0, 1)];
    assert Records(v.log) == 1 && v.log + [Mark(1)] == [Record, Mark(1)];
  }

  lemma OneRow(log: seq<Item>)
    requires log == [Record, Mark(1)]
    ensures Records(log[..1]) == 1 && Records(log[..2]) == 1
  {
    assert log[..1][..0] == [] && log[..2][..1] == log[..1];
  }

  lemma RoundIsReceived(t: Topology, begun: seq<Step>, v: View)
    requires Looks(t, begun, v) && v.read == 0 && |v.log| == 2
    ensures Looks(t, begun + [Receive(0, 0)] + [Receive(0, 0)], v.(read := 2))
  {
    ItemReceived(t, begun, v);
    ItemReceived(t, begun + [Receive(0, 0)], v.(read := 1));
  }

  /** The sink has stored the row and acked the marker. */
  lemma RoundIsAcked(t: Topology, received: seq<Step>, v: View, e: nat)
    requires Looks(t, received, v) && v.read == |v.log| == 2 && v.log[1] == Mark(e)
    requires Records(v.log[..1]) == 1 && Records(v.log[..2]) == 1
    ensures Looks(t, received + [Flush(0, {(0, 0)})] + [SinkAck(0, e)],
                  v.(stored := v.stored + {(0, 0)}, acks := v.acks + {(e, 0)}))
  {
    RowStored(t, received, v, 0);
    AckSent(t, received + [Flush(0, {(0, 0)})], v.(stored := v.stored + {(0, 0)}), 1, e);
  }

  lemma AckedRound(t: Topology) returns (steps: seq<Step>)
    requires Lone(t)
    ensures Looks(t, steps, View([Record, Mark(1)], map[1 := 1], 2, {(0, 0)}, {(1, 0)}, {1},
                                 C.State(map[1 := C.Started], 2, {0}, true, Some(1))))
  {
    var begun := RoundBegins(t);
    var v := View([Record, Mark(1)], map[1 := 1], 0, {}, {}, {1}, C.State(map[1 := C.Started], 2, {0}, true, Some(1)));
    RoundIsReceived(t, begun, v);
    var received := begun + [Receive(0, 0)] + [Receive(0, 0)];
    OneRow(v.log);
    RoundIsAcked(t, received, v.(read := 2), 1);
    steps := received + [Flush(0, {(0, 0)})] + [SinkAck(0, 1)];
    assert {} + {(0, 0)} == {(0, 0)} && {} + {(1, 0)} == {(1, 0)};
  }

  /** The protocol gets somewhere: a run in which a row is emitted, stored and committed, ... */
  lemma RoundCommits(t: Topology) returns (steps: seq<Step>)
    requires Lone(t)
    ensures Behaviour(t, steps) && |After(t, steps).sources| == 1 && After(t, steps).sources[0].committed == 1
  {
    var acked := AckedRound(t);
    var n := |After(t, acked).unsent|;
    LastAckCommits(t, acked, 1, 0, 0);
    steps := acked + [AdmitAck(1, 0)] + [RecordAck(1, 0)] + [SendFinalizer(n)] + [Commit(0, 1)];
    RunKeeps(t, steps);
  }

  lemma StreamCompletes(t: Topology, steps: seq<Step>, v: View)
    requires Looks(t, steps, v) && v.read == |v.log| && forall o | 0 <= o < Records(v.log) :: (0, o) in v.stored
    ensures var run := steps + [End(0)] + [SinkComplete(0)];
      Behaviour(t, run) && 0 in After(t, run).completed && After(t, run).coordinator == v.c
  {
    OneMore(t, steps, End(0));
    var w := After(t, steps + [End(0)]);
    assert FlushedEnd(w, 0, 0);
    OneMore(t, steps + [End(0)], SinkComplete(0));
  }

  /** ... and one in which the source ends, the sink completes and nothing waits for it any more. */
  lemma RoundCompletes(t: Topology) returns (steps: seq<Step>)
    requires Lone(t)
    ensures Behaviour(t, steps) && Settled(t, steps) && After(t, steps).coordinator.expected == {}
  {
    var acked := AckedRound(t);
    OneRow([Record, Mark(1)]);
    assert [Record, Mark(1)][..2] == [Record, Mark(1)];
    StreamCompletes(t, acked, View([Record, Mark(1)], map[1 := 1], 2, {(0, 0)}, {(1, 0)}, {1},
                                   C.State(map[1 := C.Started], 2, {0}, true, Some(1))));
    var ended := acked + [End(0)] + [SinkComplete(0)];
    CompletionSettles(t, ended, 0);
    steps := ended + [DropSink(0)] + [FinalizeReady(|After(t, ended).snapshots|)];
  }
}
