/** Aligning the checkpoint markers of several concurrent streams down to one copy. */
module MarkerAlignment {
  import opened Wrappers

  type Epoch = nat

  datatype Message =
    | Marker(epoch: Epoch, createdAtMs: nat)
    | Ack(epoch: Epoch, sink: string)
    | Finalizer(epoch: Epoch)
    | SourceComplete(source: string)

  datatype MarkerState = MarkerState(copies: nat, released: bool)

  datatype Aligner = Aligner(
    inputs: nat,
    finished: seq<Option<Epoch>>,
    epochs: map<Epoch, MarkerState>,
    seenFinalizers: set<Epoch>,
    seenCompletions: set<string>)

  // ---------------------------------------------------------------- the aligner as a function

  function FinishedBefore(finished: seq<Option<Epoch>>, e: Epoch): nat {
    if finished == [] then 0
    else FinishedBefore(finished[..|finished| - 1], e) +
         (var last := finished[|finished| - 1]; if last.None? || last.value < e then 1 else 0)
  }

  /** One copy per input, except the inputs that finished before the epoch; never less than one. */
  function RequiredCopies(inputs: nat, finished: seq<Option<Epoch>>, e: Epoch): (r: nat)
    ensures r >= 1
  {
    var before := FinishedBefore(finished, e);
    if inputs <= before + 1 then 1 else inputs - before
  }

  function StateOf(a: Aligner, e: Epoch): MarkerState {
    if e in a.epochs then a.epochs[e] else MarkerState(0, false)
  }

  function ObserveOne(a: Aligner, m: Message): (Aligner, seq<Message>) {
    match m
    case Marker(e, _) =>
      var state := StateOf(a, e);
      if state.released then (a, [])
      else
        var copies := state.copies + 1;
        var released := copies >= RequiredCopies(a.inputs, a.finished, e);
        (a.(epochs := a.epochs[e := MarkerState(copies, released)]), if released then [m] else [])
    case Finalizer(f) =>
      (a.(epochs := map e | e in a.epochs && e > f :: a.epochs[e], seenFinalizers := a.seenFinalizers + {f}),
       if f in a.seenFinalizers then [] else [m])
    case SourceComplete(s) =>
      (a.(seenCompletions := a.seenCompletions + {s}), if s in a.seenCompletions then [] else [m])
    case Ack(_, _) => (a, [m])
  }

  function ObserveAll(a: Aligner, messages: seq<Message>): (Aligner, seq<Message>)
    decreases |messages|
  {
    if messages == [] then (a, [])
    else
      var (a1, r1) := ObserveOne(a, messages[0]);
      var (a2, r2) := ObserveAll(a1, messages[1..]);
      (a2, r1 + r2)
  }

  /** Whether the end of an input lets a pending epoch go. */
  predicate Ready(a: Aligner, e: Epoch) {
    && e in a.epochs
    && !a.epochs[e].released
    && (|a.finished| >= a.inputs || a.epochs[e].copies >= RequiredCopies(a.inputs, a.finished, e))
  }

  function ReadySet(a: Aligner): set<Epoch> {
    set e | e in a.epochs && Ready(a, e)
  }

  ghost predicate IsLeast(m: Epoch, s: set<Epoch>) {
    m in s && forall x | x in s :: m <= x
  }

  lemma {:induction false} Least(s: set<Epoch>)
    requires s != {}
    ensures exists m :: IsLeast(m, s)
  {
    var m :| m in s;
    var rest := s - {m};
    assert s == rest + {m};
    if rest == {} {
      assert IsLeast(m, s);
    } else {
      Least(rest);
      var n :| IsLeast(n, rest);
      assert IsLeast(if m < n then m else n, s);
    }
  }

  /** The members of `s` in increasing order. */
  ghost function Ascending(s: set<Epoch>): seq<Epoch> {
    if s == {} then []
    else
      Least(s);
      var m :| IsLeast(m, s);
      [m] + Ascending(s - {m})
  }

  lemma {:induction false} AscendingLists(s: set<Epoch>)
    ensures forall e :: e in Ascending(s) <==> e in s
    ensures forall i, j | 0 <= i < j < |Ascending(s)| :: Ascending(s)[i] < Ascending(s)[j]
  {
    if s != {} {
      var m, rest := AscendingStep(s);
      AscendingLists(rest);
      assert forall i | 0 <= i < |Ascending(rest)| :: Ascending(rest)[i] in rest;
    }
  }

  lemma AscendingStep(s: set<Epoch>) returns (m: Epoch, rest: set<Epoch>)
    requires s != {}
    ensures s == rest + {m} && m !in rest && rest < s && forall x | x in rest :: m < x
    ensures Ascending(s) == [m] + Ascending(rest)
  {
    Least(s);
    m :| IsLeast(m, s) && Ascending(s) == [m] + Ascending(s - {m});
    rest := s - {m};
  }

  function Markers(epochs: seq<Epoch>, nowMs: nat): seq<Message> {
    seq(|epochs|, i requires 0 <= i < |epochs| => Marker(epochs[i], nowMs))
  }

  /** The epochs once every ready one outside `todo` is released. */
  function Released(a: Aligner, todo: set<Epoch>): map<Epoch, MarkerState> {
    map e | e in a.epochs ::
      if e !in todo && Ready(a, e) then a.epochs[e].(released := true) else a.epochs[e]
  }

  ghost function EndInput(a: Aligner, last: Option<Epoch>, nowMs: nat): (Aligner, seq<Message>) {
    var ended := a.(finished := a.finished + [last]);
    (ended.(epochs := Released(ended, {})), Markers(Ascending(ReadySet(ended)), nowMs))
  }

  // ---------------------------------------------------------------- the aligner as an object

  class MarkerAligner {
    const inputs: nat
    var finished: seq<Option<Epoch>>
    var epochs: map<Epoch, MarkerState>
    var seenFinalizers: set<Epoch>
    var seenCompletions: set<string>

    constructor (inputs: nat)
      ensures Model() == Aligner(inputs, [], map[], {}, {})
    {
      this.inputs := inputs;
      finished, epochs := [], map[];
      seenFinalizers, seenCompletions := {}, {};
    }

    function Model(): Aligner
      reads this
    {
      Aligner(inputs, finished, epochs, seenFinalizers, seenCompletions)
    }

    method ObserveMessage(message: Message) returns (released: seq<Message>)
      modifies this
      ensures (Model(), released) == ObserveOne(old(Model()), message)
    {
      released := [];
      match message
      case Marker(e, _) =>
        var required := RequiredCopies(inputs, finished, e);
        var state := if e in epochs then epochs[e] else MarkerState(0, false);
        if !state.released {
          var copies := state.copies + 1;
          epochs := epochs[e := MarkerState(copies, copies >= required)];
          if copies >= required {
            released := [message];
          }
        }
      case Finalizer(f) =>
        epochs := map e | e in epochs && e > f :: epochs[e];
        if f !in seenFinalizers {
          released := [message];
        }
        seenFinalizers := seenFinalizers + {f};
      case SourceComplete(s) =>
        if s !in seenCompletions {
          released := [message];
        }
        seenCompletions := seenCompletions + {s};
      case Ack(_, _) =>
        released := [message];
    }

    /** Feeds the messages seen on one input stream; returns those that may go downstream. */
    method Observe(messages: seq<Message>) returns (released: seq<Message>)
      modifies this
      ensures (Model(), released) == ObserveAll(old(Model()), messages)
    {
      released := [];
      assert messages[0..] == messages;
      for i := 0 to |messages|
        invariant ObserveAll(Model(), messages[i..]).0 == ObserveAll(old(Model()), messages).0
        invariant released + ObserveAll(Model(), messages[i..]).1 == ObserveAll(old(Model()), messages).1
      {
        assert messages[i..][1..] == messages[i + 1..];
        var more := ObserveMessage(messages[i]);
        released := released + more;
      }
      assert messages[|messages|..] == [] && released + [] == released;
    }

    /** Records that an input ended after delivering every epoch up to `last`. */
    method InputDone(last: Option<Epoch>, nowMs: nat) returns (released: seq<Message>)
      modifies this
      ensures (Model(), released) == EndInput(old(Model()), last, nowMs)
    {
      finished := finished + [last];
      var states, due := ReleaseReady(Model());
      epochs := states;
      released := Markers(due, nowMs);
    }
  }

  method LeastOf(s: set<Epoch>) returns (m: Epoch)
    requires s != {}
    ensures m in s && forall x | x in s :: m <= x
  {
    Least(s);
    m :| m in s && forall x | x in s :: m <= x;
  }

  /** Releases, in epoch order, every epoch that nothing holds back any more. */
  method ReleaseReady(a: Aligner) returns (states: map<Epoch, MarkerState>, due: seq<Epoch>)
    ensures states == Released(a, {})
    ensures due == Ascending(ReadySet(a))
  {
    due := [];
    states := a.epochs;
    var allFinished := |a.finished| >= a.inputs;
    var todo := a.epochs.Keys;
    ghost var rest := Ascending(ReadySet(a));
    assert ReadySet(a) * todo == ReadySet(a);
    while todo != {}
      invariant todo <= a.epochs.Keys
      invariant states == Released(a, todo)
      invariant rest == Ascending(ReadySet(a) * todo)
      invariant due + rest == Ascending(ReadySet(a))
      decreases todo
    {
      var e := LeastOf(todo);
      ReleaseNext(a, todo, e);
      var held := !allFinished && states[e].copies < RequiredCopies(a.inputs, a.finished, e);
      if !states[e].released && !held {
        assert due + rest == (due + [e]) + rest[1..];
        states := states[e := states[e].(released := true)];
        due := due + [e];
        rest := rest[1..];
      }
      todo := todo - {e};
    }
    assert ReadySet(a) * todo == {};
  }

  /** Visiting the least epoch still to do. */
  lemma ReleaseNext(a: Aligner, todo: set<Epoch>, e: Epoch)
    requires e in todo && todo <= a.epochs.Keys && forall x | x in todo :: e <= x
    ensures Released(a, todo)[e] == a.epochs[e]
    ensures Released(a, todo - {e}) ==
      if Ready(a, e) then Released(a, todo)[e := a.epochs[e].(released := true)] else Released(a, todo)
    ensures Ascending(ReadySet(a) * todo) ==
      var rest := Ascending(ReadySet(a) * (todo - {e}));
      if Ready(a, e) then [e] + rest else rest
  {
    var ready := ReadySet(a);
    if e in ready {
      AscendingLeast(ready * todo, e);
      assert ready * todo - {e} == ready * (todo - {e});
    } else {
      assert ready * todo == ready * (todo - {e});
    }
  }

  lemma AscendingLeast(s: set<Epoch>, m: Epoch)
    requires m in s && forall x | x in s :: m <= x
    ensures Ascending(s) == [m] + Ascending(s - {m})
  {
  }
}
