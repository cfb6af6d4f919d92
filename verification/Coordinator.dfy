/** The checkpoint coordinator: which epochs are open, which sinks each one still waits for,
    and the terminal epoch. One function per critical section, and the object that runs them. */
module Coordinator {
  import opened Wrappers

  type Epoch = nat
  type Sink = nat

  datatype EpochState =
    | Started
    | InProgress(acked: set<Sink>)
    | Finalized

  datatype State = State(
    epochs: map<Epoch, EpochState>,
    nextEpoch: Epoch,
    expected: set<Sink>,
    terminalStarted: bool,
    terminal: Option<Epoch>)

  function Fresh(sinks: set<Sink>): State {
    State(map[], 1, sinks, false, None)
  }

  function AckedBy(s: EpochState): set<Sink> {
    if s.InProgress? then s.acked else {}
  }

  /** The ack arm looks at the expected sinks first, on its own, and drops the ack of any other. */
  predicate Admits(c: State, k: Sink) {
    k in c.expected
  }

  /** Then, under the lock of the epochs, the ack is recorded for an open epoch, and the expected
      sinks are looked at again: the ack that completes the epoch finalizes it. The flag says
      whether this ack did; the finalizer is broadcast later. */
  function RecordAck(c: State, e: Epoch, k: Sink): (State, bool) {
    if e !in c.epochs || c.epochs[e].Finalized? then (c, false)
    else
      var acked := AckedBy(c.epochs[e]) + {k};
      if c.expected <= acked
      then (c.(epochs := c.epochs[e := Finalized]), true)
      else (c.(epochs := c.epochs[e := InProgress(acked)]), false)
  }

  /** Whether `expected` sinks have nothing left to ack. An epoch without any ack is complete
      only when no sink remains. */
  predicate Satisfied(s: EpochState, expected: set<Sink>) {
    match s
    case Started => expected == {}
    case InProgress(acked) => expected <= acked
    case Finalized => false
  }

  function ReadyEpochs(epochs: map<Epoch, EpochState>, expected: set<Sink>): set<Epoch> {
    set e | e in epochs && Satisfied(epochs[e], expected)
  }

  function FinalizeReady(epochs: map<Epoch, EpochState>, expected: set<Sink>): map<Epoch, EpochState> {
    map e | e in epochs :: if Satisfied(epochs[e], expected) then Finalized else epochs[e]
  }

  /** The single final epoch, minted once. */
  function BeginTerminal(c: State): (State, Epoch) {
    if c.terminal.Some? then (c.(terminalStarted := true), c.terminal.value)
    else
      (c.(epochs := c.epochs[c.nextEpoch := Started], nextEpoch := c.nextEpoch + 1,
          terminalStarted := true, terminal := Some(c.nextEpoch)),
       c.nextEpoch)
  }

  /** The producer waits for its newest epoch. */
  predicate NewestFinalized(epochs: map<Epoch, EpochState>) {
    forall e | e in epochs && forall x | x in epochs :: x <= e :: epochs[e].Finalized?
  }

  /** Under the lock the producer looks at the terminal flag again, then replaces whatever is
      left in the map by the new epoch. */
  function MintTimer(c: State): (State, Option<Epoch>) {
    if c.terminalStarted then (c, None)
    else (c.(epochs := map[c.nextEpoch := Started], nextEpoch := c.nextEpoch + 1), Some(c.nextEpoch))
  }

  /** A timed-out epoch is dropped unless it is finalized or terminal. */
  function Sweep(c: State, stale: set<Epoch>): State {
    var kept := map e | e in c.epochs && !(e in stale && !c.epochs[e].Finalized? && Some(e) != c.terminal) ::
      c.epochs[e];
    c.(epochs := kept)
  }

  class CheckpointControl {
    var epochs: map<Epoch, EpochState>
    var nextEpoch: Epoch
    var expectedSinks: set<Sink>
    var terminalStarted: bool
    var terminalEpoch: Option<Epoch>

    constructor (sinks: set<Sink>)
      ensures Model() == Fresh(sinks)
    {
      epochs, nextEpoch, expectedSinks := map[], 1, sinks;
      terminalStarted, terminalEpoch := false, None;
    }

    function Model(): State
      reads this
    {
      State(epochs, nextEpoch, expectedSinks, terminalStarted, terminalEpoch)
    }

    /** The critical section of the ack arm. */
    method Ack(e: Epoch, k: Sink) returns (finalized: bool)
      modifies this`epochs
      ensures (Model(), finalized) == RecordAck(old(Model()), e, k)
    {
      finalized := false;
      if e !in epochs {
        return;
      }
      match epochs[e]
      case Started =>
        var acked := {k};
        assert AckedBy(epochs[e]) + {k} == acked;
        if expectedSinks <= acked {
          epochs := epochs[e := Finalized];
          finalized := true;
        } else {
          epochs := epochs[e := InProgress(acked)];
        }
      case InProgress(acked) =>
        var more := acked + {k};
        epochs := epochs[e := InProgress(more)];
        if expectedSinks <= more {
          assert old(epochs)[e := InProgress(more)][e := Finalized] == old(epochs)[e := Finalized];
          epochs := epochs[e := Finalized];
          finalized := true;
        }
      case Finalized =>
    }

    /** The ack arm: an ack of a sink that is not expected is dropped and changes nothing. */
    method HandleAck(e: Epoch, k: Sink) returns (finalized: bool)
      modifies this`epochs
      ensures (Model(), finalized) ==
        if Admits(old(Model()), k) then RecordAck(old(Model()), e, k) else (old(Model()), false)
      ensures k !in expectedSinks ==> !finalized && epochs == old(epochs)
      ensures k in expectedSinks && e in epochs && !old(epochs)[e].Finalized? ==>
        (finalized <==> epochs[e].Finalized?) && (finalized <==> expectedSinks <= AckedBy(old(epochs)[e]) + {k})
    {
      if k !in expectedSinks {
        return false;
      }
      finalized := Ack(e, k);
    }

    /** The first half of `sink_completed`: the shrunk set that the second half works with. */
    method RemoveSink(k: Sink) returns (snapshot: Option<set<Sink>>)
      modifies this`expectedSinks
      ensures Model() == old(Model()).(expected := old(expectedSinks) - {k})
      ensures snapshot == if k in old(expectedSinks) then Some(old(expectedSinks) - {k}) else None
    {
      if k !in expectedSinks {
        return None;
      }
      expectedSinks := expectedSinks - {k};
      return Some(expectedSinks);
    }

    /** The second half of `sink_completed`: finalizes what the remaining sinks have acked. */
    method FinalizeReadyEpochs(expected: set<Sink>) returns (newly: set<Epoch>)
      modifies this`epochs
      ensures Model() == old(Model()).(epochs := FinalizeReady(old(epochs), expected))
      ensures newly == ReadyEpochs(old(epochs), expected)
      ensures forall e :: e in newly <==>
        e in old(epochs) && !old(epochs)[e].Finalized? && expected <= AckedBy(old(epochs)[e])
      ensures epochs.Keys == old(epochs).Keys
      ensures forall e | e in epochs :: epochs[e] == if e in newly then Finalized else old(epochs)[e]
    {
      newly := {};
      var before, todo := epochs, epochs.Keys;
      var states := epochs;
      while todo != {}
        invariant todo <= before.Keys
        invariant states == map e | e in before ::
          if e !in todo && Satisfied(before[e], expected) then Finalized else before[e]
        invariant newly == set e | e in before && e !in todo && Satisfied(before[e], expected)
        invariant unchanged(this)
        decreases todo
      {
        var e :| e in todo;
        if Satisfied(states[e], expected) {
          states := states[e := Finalized];
          newly := newly + {e};
        }
        todo := todo - {e};
      }
      epochs := states;
    }

    method BeginTerminalCheckpoint() returns (e: Epoch)
      modifies this
      ensures (Model(), e) == BeginTerminal(old(Model()))
    {
      terminalStarted := true;
      if terminalEpoch.Some? {
        return terminalEpoch.value;
      }
      e := nextEpoch;
      nextEpoch := nextEpoch + 1;
      epochs := epochs[e := Started];
      terminalEpoch := Some(e);
    }

    /** The timer producer's critical section. */
    method MintEpoch() returns (minted: Option<Epoch>)
      modifies this
      ensures (Model(), minted) == MintTimer(old(Model()))
    {
      if terminalStarted {
        return None;
      }
      var e := nextEpoch;
      nextEpoch := nextEpoch + 1;
      epochs := map[e := Started];
      return Some(e);
    }

    /** Drops what has timed out; `stale` are the epochs older than the timeout. */
    method SweepTimedOut(stale: set<Epoch>)
      modifies this`epochs
      ensures Model() == Sweep(old(Model()), stale)
    {
      var timedOut := set e | e in epochs && e in stale && !epochs[e].Finalized? && Some(e) != terminalEpoch;
      var before, states, todo := epochs, epochs, timedOut;
      while todo != {}
        invariant todo <= timedOut
        invariant states == before - (timedOut - todo)
        decreases todo
      {
        var e :| e in todo;
        states := states - {e};
        todo := todo - {e};
      }
      epochs := states;
      assert epochs == Sweep(old(Model()), stale).epochs;
    }
  }
}
