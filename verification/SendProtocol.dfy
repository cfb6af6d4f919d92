/** Many senders, one bounded input channel, one dispatcher: the sends of `PluginSend` interleaved
    step by step with a clock, a process shutdown, and a dispatcher that may consume, stall, exit
    or disconnect at any moment. */
module SendProtocol {
  import opened Wrappers
  import opened PluginSend

  /** The `serial`-th message that a sender sets out to send. */
  datatype Message = Message(sender: nat, serial: nat)

  /** Where a sender stands between the atomic steps of its send. */
  datatype Pc =
    | Idle
    | InSlice(since: nat)
    | ReadExit
    | ReadShutdown
    | SetDeadline
    | Compare

  /** `late` counts the slices of the current send that timed out after shutdown was set. */
  datatype Sender = Sender(pc: Pc, deadline: Option<nat>, late: nat, results: seq<Outcome>)

  datatype Config = Config(capacity: nat, slice: nat, grace: nat)

  datatype State = State(
    queue: seq<Message>,
    consumed: seq<Message>,
    enqueued: seq<Message>,
    clock: nat,
    shutdownAt: Option<nat>,
    exited: bool,
    disconnected: bool,
    senders: seq<Sender>)

  datatype Step =
    | Tick(ms: nat)
    | Shutdown
    | Consume
    | Exit
    | Disconnect
    | Begin(who: nat)
    | SliceTaken(who: nat)
    | SliceTimedOut(who: nat)
    | SliceClosed(who: nat)
    | LookAtExit(who: nat)
    | LookAtShutdown(who: nat)
    | FixDeadline(who: nat)
    | CompareClock(who: nat)

  function Initial(n: nat): State {
    State([], [], [], 0, None, false, false, seq(n, _ => Sender(Idle, None, 0, [])))
  }

  function Finish(x: Sender, o: Outcome): Sender {
    Sender(Idle, None, 0, x.results + [o])
  }

  function Put(s: State, who: nat, x: Sender): State
    requires who < |s.senders|
  {
    s.(senders := s.senders[who := x])
  }

  function Enqueue(s: State, who: nat): State
    requires who < |s.senders|
  {
    var m := Message(who, |s.senders[who].results|);
    Put(s, who, Finish(s.senders[who], Delivered)).(queue := s.queue + [m], enqueued := s.enqueued + [m])
  }

  predicate At(s: State, who: nat, pc: Pc) {
    who < |s.senders| && s.senders[who].pc == pc
  }

  predicate Waiting(s: State, who: nat) {
    who < |s.senders| && s.senders[who].pc.InSlice?
  }

  predicate Enabled(c: Config, s: State, step: Step) {
    match step
    case Tick(_) => true
    case Shutdown => s.shutdownAt.None?
    case Consume => s.queue != [] && !s.exited && !s.disconnected
    case Exit => !s.exited
    case Disconnect => !s.disconnected
    case Begin(i) => At(s, i, Idle)
    case SliceTaken(i) => Waiting(s, i) && !s.disconnected && |s.queue| < c.capacity
    case SliceTimedOut(i) => Waiting(s, i) && s.clock >= s.senders[i].pc.since + c.slice
    case SliceClosed(i) => Waiting(s, i) && s.disconnected
    case LookAtExit(i) => At(s, i, ReadExit)
    case LookAtShutdown(i) => At(s, i, ReadShutdown)
    case FixDeadline(i) => At(s, i, SetDeadline)
    case CompareClock(i) => At(s, i, Compare) && s.senders[i].deadline.Some?
  }

  function Next(c: Config, s: State, step: Step): State
    requires Enabled(c, s, step)
  {
    match step
    case Tick(ms) => s.(clock := s.clock + ms)
    case Shutdown => s.(shutdownAt := Some(s.clock))
    case Consume => s.(queue := s.queue[1..], consumed := s.consumed + [s.queue[0]])
    case Exit => s.(exited := true)
    case Disconnect => s.(disconnected := true)
    case Begin(i) =>
      var x := s.senders[i];
      if s.disconnected then Put(s, i, Finish(x, ChannelClosed))
      else if |s.queue| < c.capacity then Enqueue(s, i)
      else Put(s, i, x.(pc := InSlice(s.clock)))
    case SliceTaken(i) => Enqueue(s, i)
    case SliceTimedOut(i) =>
      var x := s.senders[i];
      Put(s, i, x.(pc := ReadExit, late := if s.shutdownAt.Some? then x.late + 1 else 0))
    case SliceClosed(i) => Put(s, i, Finish(s.senders[i], ChannelClosed))
    case LookAtExit(i) =>
      var x := s.senders[i];
      if s.exited then Put(s, i, Finish(x, DispatcherExited)) else Put(s, i, x.(pc := ReadShutdown))
    case LookAtShutdown(i) =>
      var x := s.senders[i];
      if s.shutdownAt.None? then Put(s, i, x.(pc := InSlice(s.clock)))
      else if x.deadline.None? then Put(s, i, x.(pc := SetDeadline))
      else Put(s, i, x.(pc := Compare))
    case FixDeadline(i) =>
      var x := s.senders[i];
      Put(s, i, x.(pc := Compare, deadline := Some(s.clock + c.grace)))
    case CompareClock(i) =>
      var x := s.senders[i];
      if s.clock >= x.deadline.value then Put(s, i, Finish(x, GraceOver))
      else Put(s, i, x.(pc := InSlice(s.clock)))
  }

  predicate CanRun(c: Config, s: State, steps: seq<Step>)
    decreases |steps|
  {
    steps == [] || (Enabled(c, s, steps[0]) && CanRun(c, Next(c, s, steps[0]), steps[1..]))
  }

  function Run(c: Config, s: State, steps: seq<Step>): State
    requires CanRun(c, s, steps)
    decreases |steps|
  {
    if steps == [] then s else Run(c, Next(c, s, steps[0]), steps[1..])
  }

  // ---------------------------------------------------------------- what every step keeps

  function Of(who: nat, ms: seq<Message>): seq<Message> {
    if ms == [] then []
    else Of(who, ms[..|ms| - 1]) + if ms[|ms| - 1].sender == who then [ms[|ms| - 1]] else []
  }

  /** The messages whose sends returned Ok, in the order they were sent. */
  function Accepts(who: nat, results: seq<Outcome>): (r: seq<Message>) {
    if results == [] then []
    else
      var k := |results| - 1;
      Accepts(who, results[..k]) + if results[k].Delivered? then [Message(who, k)] else []
  }

  predicate Conserved(c: Config, s: State) {
    && s.consumed + s.queue == s.enqueued
    && |s.queue| <= c.capacity
    && (forall m | m in s.enqueued :: m.sender < |s.senders|)
    && (forall i | 0 <= i < |s.senders| :: Of(i, s.enqueued) == Accepts(i, s.senders[i].results))
  }

  /** Each way to fail has its cause, which stays. */
  predicate Caused(c: Config, s: State, o: Outcome) {
    match o
    case Delivered => true
    case ChannelClosed => s.disconnected
    case DispatcherExited => s.exited
    case GraceOver => s.shutdownAt.Some? && s.clock >= s.shutdownAt.value + c.grace
  }

  predicate CausedAll(c: Config, s: State, x: Sender) {
    forall k | 0 <= k < |x.results| :: Caused(c, s, x.results[k])
  }

  /** The least time between fixing a deadline and the end of the `late`-th late slice; the first
      may have been running already. */
  function Spent(late: nat, slice: nat): nat {
    if late <= 1 then 0 else Spent(late - 1, slice) + slice
  }

  lemma {:induction false} SpentIs(late: nat, slice: nat)
    requires late > 0
    ensures Spent(late, slice) == (late - 1) * slice
  {
    if late > 1 {
      SpentIs(late - 1, slice);
      assert (late - 1) * slice == (late - 2) * slice + slice;
    }
  }

  /** Slices that timed out after shutdown have taken their time out of the grace. */
  predicate Timing(c: Config, s: State, x: Sender) {
    && (x.deadline.Some? ==>
          s.shutdownAt.Some? && s.shutdownAt.value + c.grace <= x.deadline.value <= s.clock + c.grace)
    && (s.shutdownAt.None? ==> x.late == 0)
    && (x.pc.Idle? ==> x.late == 0 && x.deadline.None?)
    && (x.pc.SetDeadline? ==> s.shutdownAt.Some? && x.deadline.None?)
    && (x.pc.Compare? ==> x.deadline.Some?)
    && (x.deadline.None? ==> x.late <= if x.pc.InSlice? then 0 else 1)
    && (x.pc.InSlice? ==> x.pc.since <= s.clock)
    && (x.deadline.Some? && x.late > 0 ==>
          match x.pc
          case InSlice(since) =>
            since < x.deadline.value && since + c.grace >= x.deadline.value + Spent(x.late, c.slice)
          case _ =>
            && s.clock + c.grace >= x.deadline.value + Spent(x.late, c.slice)
            && (x.late > 1 ==> Spent(x.late - 1, c.slice) < c.grace))
  }

  ghost predicate Inv(c: Config, s: State) {
    && Conserved(c, s)
    && (s.shutdownAt.Some? ==> s.shutdownAt.value <= s.clock)
    && forall i | 0 <= i < |s.senders| :: CausedAll(c, s, s.senders[i]) && Timing(c, s, s.senders[i])
  }

  lemma StartsRight(c: Config, n: nat)
    ensures Inv(c, Initial(n))
  {
  }

  lemma OfAppend(who: nat, ms: seq<Message>, m: Message)
    ensures Of(who, ms + [m]) == Of(who, ms) + if m.sender == who then [m] else []
  {
    assert (ms + [m])[..|ms|] == ms;
  }

  lemma AcceptsAppend(who: nat, results: seq<Outcome>, o: Outcome)
    ensures Accepts(who, results + [o])
         == Accepts(who, results) + if o.Delivered? then [Message(who, |results|)] else []
  {
    assert (results + [o])[..|results|] == results;
  }

  lemma EnqueueConserves(c: Config, s: State, who: nat)
    requires Conserved(c, s) && who < |s.senders| && |s.queue| < c.capacity
    ensures Conserved(c, Enqueue(s, who))
  {
    var m := Message(who, |s.senders[who].results|);
    var t := Enqueue(s, who);
    assert t.consumed + t.queue == (s.consumed + s.queue) + [m];
    forall i | 0 <= i < |t.senders| ensures Of(i, t.enqueued) == Accepts(i, t.senders[i].results) {
      OfAppend(i, s.enqueued, m);
      AcceptsAppend(who, s.senders[who].results, Delivered);
    }
  }

  lemma FailConserves(c: Config, s: State, who: nat, o: Outcome)
    requires Conserved(c, s) && who < |s.senders| && !o.Delivered?
    ensures Conserved(c, Put(s, who, Finish(s.senders[who], o)))
  {
    AcceptsAppend(who, s.senders[who].results, o);
  }

  /** Clock, flags and the dispatcher's own step. */
  lemma WorldConserves(c: Config, s: State, step: Step)
    requires Conserved(c, s) && Enabled(c, s, step) && Actor(step).None?
    ensures Conserved(c, Next(c, s, step))
  {
    if step.Consume? {
      assert (s.consumed + [s.queue[0]]) + s.queue[1..] == s.consumed + s.queue;
    }
  }

  lemma TurnConserves(c: Config, s: State, who: nat, x: Sender)
    requires Conserved(c, s) && who < |s.senders| && x.results == s.senders[who].results
    ensures Conserved(c, Put(s, who, x))
  {
    assert forall i | 0 <= i < |s.senders| :: Put(s, who, x).senders[i].results == s.senders[i].results;
  }

  lemma StepConserves(c: Config, s: State, step: Step)
    requires Conserved(c, s) && Enabled(c, s, step)
    ensures Conserved(c, Next(c, s, step))
  {
    match step
    case Begin(i) => BeginConserves(c, s, i);
    case SliceTaken(i) => EnqueueConserves(c, s, i);
    case SliceClosed(i) => FailConserves(c, s, i, ChannelClosed);
    case LookAtExit(i) =>
      TurnConserves(c, s, i, s.senders[i].(pc := ReadShutdown));
      FailConserves(c, s, i, DispatcherExited);
    case CompareClock(i) =>
      TurnConserves(c, s, i, s.senders[i].(pc := InSlice(s.clock)));
      FailConserves(c, s, i, GraceOver);
    case SliceTimedOut(i) => TurnConserves(c, s, i, Next(c, s, step).senders[i]);
    case LookAtShutdown(i) => TurnConserves(c, s, i, Next(c, s, step).senders[i]);
    case FixDeadline(i) => TurnConserves(c, s, i, Next(c, s, step).senders[i]);
    case _ => WorldConserves(c, s, step);
  }

  lemma BeginConserves(c: Config, s: State, i: nat)
    requires Conserved(c, s) && Enabled(c, s, Begin(i))
    ensures Conserved(c, Next(c, s, Begin(i)))
  {
    if s.disconnected {
      FailConserves(c, s, i, ChannelClosed);
    } else if |s.queue| < c.capacity {
      EnqueueConserves(c, s, i);
    } else {
      TurnConserves(c, s, i, s.senders[i].(pc := InSlice(s.clock)));
    }
  }

  /** Whose send a step advances, if any. */
  function Actor(step: Step): Option<nat> {
    match step
    case Begin(i) => Some(i)
    case SliceTaken(i) => Some(i)
    case SliceTimedOut(i) => Some(i)
    case SliceClosed(i) => Some(i)
    case LookAtExit(i) => Some(i)
    case LookAtShutdown(i) => Some(i)
    case FixDeadline(i) => Some(i)
    case CompareClock(i) => Some(i)
    case _ => None
  }

  /** Clock and flags only ever go forward. */
  predicate Later(s: State, t: State) {
    && s.clock <= t.clock
    && (s.shutdownAt.Some? ==> t.shutdownAt == s.shutdownAt)
    && (s.exited ==> t.exited)
    && (s.disconnected ==> t.disconnected)
  }

  lemma StepIsLater(c: Config, s: State, step: Step)
    requires Enabled(c, s, step)
    ensures Later(s, Next(c, s, step)) && |Next(c, s, step).senders| == |s.senders|
  {
  }

  lemma CausesStay(c: Config, s: State, t: State, x: Sender)
    requires CausedAll(c, s, x) && Later(s, t)
    ensures CausedAll(c, t, x)
  {
    forall k | 0 <= k < |x.results| ensures Caused(c, t, x.results[k]) {
      assert Caused(c, s, x.results[k]);
    }
  }

  /** A step adds no result to a send, or one that has its cause. */
  lemma OwnResult(c: Config, s: State, step: Step, i: nat)
    requires Enabled(c, s, step) && i < |s.senders| && Actor(step) == Some(i)
    requires Timing(c, s, s.senders[i])
    ensures var x, y := s.senders[i], Next(c, s, step).senders[i];
            y.results == x.results || exists o :: y.results == x.results + [o] && Caused(c, s, o)
  {
  }

  lemma StepIsCaused(c: Config, s: State, step: Step, i: nat)
    requires Enabled(c, s, step) && i < |s.senders|
    requires CausedAll(c, s, s.senders[i]) && Timing(c, s, s.senders[i])
    ensures CausedAll(c, Next(c, s, step), Next(c, s, step).senders[i])
  {
    var t := Next(c, s, step);
    StepIsLater(c, s, step);
    if Actor(step) == Some(i) {
      OwnResult(c, s, step, i);
      CausesStay(c, s, t, s.senders[i]);
      forall k | 0 <= k < |t.senders[i].results| ensures Caused(c, t, t.senders[i].results[k]) {
        if k < |s.senders[i].results| {
          assert Caused(c, t, s.senders[i].results[k]);
        }
      }
    } else {
      OthersUntouched(c, s, step, i);
      CausesStay(c, s, t, s.senders[i]);
    }
  }

  lemma SliceKeepsTime(c: Config, s: State, i: nat)
    requires Inv(c, s) && Enabled(c, s, SliceTimedOut(i)) && i < |s.senders|
    ensures Timing(c, Next(c, s, SliceTimedOut(i)), Next(c, s, SliceTimedOut(i)).senders[i])
  {
    assert Timing(c, s, s.senders[i]);
  }

  lemma CompareKeepsTime(c: Config, s: State, i: nat)
    requires Inv(c, s) && Enabled(c, s, CompareClock(i)) && i < |s.senders|
    ensures Timing(c, Next(c, s, CompareClock(i)), Next(c, s, CompareClock(i)).senders[i])
  {
    assert Timing(c, s, s.senders[i]);
  }

  lemma OthersUntouched(c: Config, s: State, step: Step, i: nat)
    requires Enabled(c, s, step) && i < |s.senders| && Actor(step) != Some(i)
    ensures Next(c, s, step).senders[i] == s.senders[i]
    ensures Next(c, s, step).clock >= s.clock
    ensures Next(c, s, step).shutdownAt == if step.Shutdown? then Some(s.clock) else s.shutdownAt
  {
  }

  lemma TimingHolds(c: Config, s: State, t: State, x: Sender)
    requires Timing(c, s, x) && t.clock >= s.clock
    requires t.shutdownAt == s.shutdownAt || s.shutdownAt.None?
    ensures Timing(c, t, x)
  {
  }

  lemma OwnStepKeepsTime(c: Config, s: State, step: Step, i: nat)
    requires Enabled(c, s, step) && i < |s.senders| && Actor(step) == Some(i)
    requires !step.SliceTimedOut? && !step.CompareClock? && Timing(c, s, s.senders[i])
    requires s.shutdownAt.Some? ==> s.shutdownAt.value <= s.clock
    ensures Timing(c, Next(c, s, step), Next(c, s, step).senders[i])
  {
  }

  lemma StepKeepsTime(c: Config, s: State, step: Step, i: nat)
    requires Inv(c, s) && Enabled(c, s, step) && i < |s.senders|
    ensures Timing(c, Next(c, s, step), Next(c, s, step).senders[i])
  {
    if Actor(step) != Some(i) {
      OthersUntouched(c, s, step, i);
      assert Timing(c, s, s.senders[i]);
      TimingHolds(c, s, Next(c, s, step), s.senders[i]);
    } else if step.SliceTimedOut? {
      SliceKeepsTime(c, s, i);
    } else if step.CompareClock? {
      CompareKeepsTime(c, s, i);
    } else {
      assert Timing(c, s, s.senders[i]);
      OwnStepKeepsTime(c, s, step, i);
    }
  }

  lemma StepKeeps(c: Config, s: State, step: Step)
    requires Inv(c, s) && Enabled(c, s, step)
    ensures Inv(c, Next(c, s, step))
  {
    StepConserves(c, s, step);
    StepIsLater(c, s, step);
    forall i | 0 <= i < |s.senders|
      ensures CausedAll(c, Next(c, s, step), Next(c, s, step).senders[i])
      ensures Timing(c, Next(c, s, step), Next(c, s, step).senders[i])
    {
      assert CausedAll(c, s, s.senders[i]) && Timing(c, s, s.senders[i]);
      StepIsCaused(c, s, step, i);
      StepKeepsTime(c, s, step, i);
    }
  }

  lemma {:induction false} RunKeeps(c: Config, s: State, steps: seq<Step>)
    requires Inv(c, s) && CanRun(c, s, steps)
    ensures Inv(c, Run(c, s, steps)) && |Run(c, s, steps).senders| == |s.senders|
    decreases |steps|
  {
    if steps != [] {
      StepKeeps(c, s, steps[0]);
      StepIsLater(c, s, steps[0]);
      RunKeeps(c, Next(c, s, steps[0]), steps[1..]);
    }
  }

  // ---------------------------------------------------------------- what every run guarantees

  function Times(m: Message, ms: seq<Message>): nat {
    if ms == [] then 0 else Times(m, ms[..|ms| - 1]) + if ms[|ms| - 1] == m then 1 else 0
  }

  lemma TimesAppend(m: Message, ms: seq<Message>, last: Message)
    ensures Times(m, ms + [last]) == Times(m, ms) + if last == m then 1 else 0
  {
    assert (ms + [last])[..|ms|] == ms;
  }

  lemma {:induction false} TimesOfSender(m: Message, ms: seq<Message>)
    ensures Times(m, ms) == Times(m, Of(m.sender, ms))
  {
    if ms != [] {
      var init, last := ms[..|ms| - 1], ms[|ms| - 1];
      TimesOfSender(m, init);
      if last.sender == m.sender {
        TimesAppend(m, Of(m.sender, init), last);
      } else {
        assert Of(m.sender, ms) == Of(m.sender, init);
      }
    }
  }

  lemma {:induction false} TimesAccepted(m: Message, results: seq<Outcome>)
    ensures Times(m, Accepts(m.sender, results))
         == if m.serial < |results| && results[m.serial].Delivered? then 1 else 0
  {
    if results != [] {
      var k := |results| - 1;
      var before := Accepts(m.sender, results[..k]);
      TimesAccepted(m, results[..k]);
      if results[k].Delivered? {
        TimesAppend(m, before, Message(m.sender, k));
      } else {
        assert Accepts(m.sender, results) == before;
      }
    }
  }

  /** A send returned Ok exactly when its message went into the channel, and then it did so once;
      a send that failed or has not returned put nothing there. */
  lemma OkMeansEnqueuedOnce(c: Config, n: nat, steps: seq<Step>, m: Message)
    requires CanRun(c, Initial(n), steps) && m.sender < n
    ensures var s := Run(c, Initial(n), steps);
            && |s.senders| == n
            && Times(m, s.enqueued)
            == (var rs := s.senders[m.sender].results;
                if m.serial < |rs| && rs[m.serial].Delivered? then 1 else 0)
  {
    StartsRight(c, n);
    RunKeeps(c, Initial(n), steps);
    var s := Run(c, Initial(n), steps);
    TimesOfSender(m, s.enqueued);
    TimesAccepted(m, s.senders[m.sender].results);
  }

  /** What was consumed and what is still buffered is what was accepted, in order, and no sender's
      messages overtake each other. */
  lemma NothingLostOrReordered(c: Config, n: nat, steps: seq<Step>)
    requires CanRun(c, Initial(n), steps)
    ensures var s := Run(c, Initial(n), steps);
            && s.consumed + s.queue == s.enqueued && |s.queue| <= c.capacity
            && |s.senders| == n
            && forall i | 0 <= i < n :: Of(i, s.enqueued) == Accepts(i, s.senders[i].results)
  {
    StartsRight(c, n);
    RunKeeps(c, Initial(n), steps);
  }

  /** Without shutdown, exit or disconnect no send gives up, however long the plugin stalls; and a
      send that does give up after shutdown does so no sooner than the grace. */
  lemma FailuresHaveCauses(c: Config, n: nat, steps: seq<Step>, i: nat, k: nat)
    requires CanRun(c, Initial(n), steps) && i < n
    ensures var s := Run(c, Initial(n), steps);
            && |s.senders| == n
            && (k < |s.senders[i].results| ==> Caused(c, s, s.senders[i].results[k]))
            && (k < |s.senders[i].results| && s.shutdownAt.None? && !s.exited && !s.disconnected ==>
                  s.senders[i].results[k].Delivered?)
  {
    StartsRight(c, n);
    RunKeeps(c, Initial(n), steps);
    assert CausedAll(c, Run(c, Initial(n), steps), Run(c, Initial(n), steps).senders[i]);
  }

  /** After shutdown a send times out at most once more than the slices that cover the grace. */
  lemma LateSlicesAreBounded(c: Config, n: nat, steps: seq<Step>, i: nat)
    requires CanRun(c, Initial(n), steps) && i < n && c.slice > 0
    ensures var s := Run(c, Initial(n), steps);
            |s.senders| == n && s.senders[i].late <= SlicesFor(c.grace, c.slice) + 1
  {
    StartsRight(c, n);
    RunKeeps(c, Initial(n), steps);
    var s := Run(c, Initial(n), steps);
    var x := s.senders[i];
    assert Timing(c, s, x);
    if x.late > 1 {
      SpentIs(x.late - 1, c.slice);
      Covers(x.late, c.grace, c.slice);
    }
  }

  lemma Covers(late: nat, grace: nat, slice: nat)
    requires slice > 0 && late > 1 && (late - 2) * slice < grace
    ensures late <= SlicesFor(grace, slice) + 1
  {
    var n := SlicesFor(grace, slice);
    var over := late - 2 - n;
    assert (n + over) * slice == n * slice + over * slice;
    assert over >= 0 ==> over * slice >= 0;
  }

  /** With the limits the host sets: slices of 100 ms, 5 s of grace. */
  lemma FiftyOneLateSlices(c: Config, n: nat, steps: seq<Step>, i: nat)
    requires c.slice == 100 && c.grace == 5000 && CanRun(c, Initial(n), steps) && i < n
    ensures |Run(c, Initial(n), steps).senders| == n && Run(c, Initial(n), steps).senders[i].late <= 51
  {
    LateSlicesAreBounded(c, n, steps, i);
  }

  /** Whatever the history, a deadline once set is not moved while its send lasts. */
  lemma DeadlineStays(c: Config, s: State, step: Step, i: nat)
    requires Inv(c, s) && Enabled(c, s, step) && i < |s.senders| && s.senders[i].deadline.Some?
    ensures var x, y := s.senders[i], Next(c, s, step).senders[i];
            y.deadline == x.deadline || (y.pc.Idle? && |y.results| == |x.results| + 1)
  {
    assert Timing(c, s, s.senders[i]);
    if Actor(step) != Some(i) {
      OthersUntouched(c, s, step, i);
    } else {
      OwnDeadline(c, s, step, i);
    }
  }

  lemma OwnDeadline(c: Config, s: State, step: Step, i: nat)
    requires Enabled(c, s, step) && Actor(step) == Some(i) && i < |s.senders|
    requires s.senders[i].deadline.Some? && Timing(c, s, s.senders[i])
    ensures var x, y := s.senders[i], Next(c, s, step).senders[i];
            y.deadline == x.deadline || (y.pc.Idle? && |y.results| == |x.results| + 1)
  {
  }

  // ---------------------------------------------------------------- a closed channel, and going on

  /** From x to y the sender was answered without getting anything in; one that was not in a send
      when it began never waits, and is told that the channel is closed. */
  predicate Refused(x: Sender, y: Sender) {
    && x.results <= y.results
    && (forall k | |x.results| <= k < |y.results| :: !y.results[k].Delivered?)
    && (x.pc.Idle? ==> y.pc.Idle? && forall k | |x.results| <= k < |y.results| :: y.results[k].ChannelClosed?)
  }

  lemma ClosedStep(c: Config, s: State, step: Step, i: nat)
    requires Enabled(c, s, step) && s.disconnected && i < |s.senders|
    ensures var t := Next(c, s, step);
            && t.disconnected && t.enqueued == s.enqueued && t.consumed == s.consumed
            && |t.senders| == |s.senders| && Refused(s.senders[i], t.senders[i])
  {
    if Actor(step) != Some(i) {
      OthersUntouched(c, s, step, i);
    }
  }

  /** Once the channel is closed nothing goes into it or out of it any more, and a send that begins
      then fails at once. */
  lemma {:induction false} ClosedChannelTakesNothing(c: Config, s: State, steps: seq<Step>, i: nat)
    requires CanRun(c, s, steps) && s.disconnected && i < |s.senders|
    ensures var t := Run(c, s, steps);
            && t.enqueued == s.enqueued && t.consumed == s.consumed
            && i < |t.senders| && Refused(s.senders[i], t.senders[i])
    decreases |steps|
  {
    if steps != [] {
      ClosedStep(c, s, steps[0], i);
      ClosedChannelTakesNothing(c, Next(c, s, steps[0]), steps[1..], i);
    }
  }

  /** In every run no sender is ever stuck: a step of its own is possible, at the latest after one
      slice of time. While the channel is open and has room, a waiting message can go in, and while the
      dispatcher lives it can take the oldest one out. */
  lemma SendsGoOn(c: Config, n: nat, steps: seq<Step>, i: nat)
    requires CanRun(c, Initial(n), steps) && i < n
    ensures var s := Run(c, Initial(n), steps);
            && i < |s.senders|
            && (exists step :: Actor(step) == Some(i)
                  && (Enabled(c, s, step) || Enabled(c, Next(c, s, Tick(c.slice)), step)))
            && (!s.disconnected && |s.queue| < c.capacity && s.senders[i].pc.InSlice? ==>
                  && Enabled(c, s, SliceTaken(i))
                  && Next(c, s, SliceTaken(i)).senders[i].results == s.senders[i].results + [Delivered])
            && (s.queue != [] && !s.exited && !s.disconnected ==>
                  && Enabled(c, s, Consume) && Next(c, s, Consume).queue == s.queue[1..]
                  && Next(c, s, Consume).consumed == s.consumed + [s.queue[0]])
  {
    StartsRight(c, n);
    RunKeeps(c, Initial(n), steps);
    var s := Run(c, Initial(n), steps);
    assert Timing(c, s, s.senders[i]);
    OwnNextStep(c, s, i);
  }

  lemma OwnNextStep(c: Config, s: State, i: nat)
    requires i < |s.senders| && Timing(c, s, s.senders[i])
    ensures exists step :: Actor(step) == Some(i)
                  && (Enabled(c, s, step) || Enabled(c, Next(c, s, Tick(c.slice)), step))
  {
    var step := match s.senders[i].pc
                case Idle => Begin(i)
                case InSlice(_) => SliceTimedOut(i)
                case ReadExit => LookAtExit(i)
                case ReadShutdown => LookAtShutdown(i)
                case SetDeadline => FixDeadline(i)
                case Compare => CompareClock(i);
    assert Actor(step) == Some(i);
    assert Enabled(c, s, step) || Enabled(c, Next(c, s, Tick(c.slice)), step);
  }

  lemma RunOne(c: Config, s: State, step: Step, rest: seq<Step>)
    requires Enabled(c, s, step) && CanRun(c, Next(c, s, step), rest)
    ensures CanRun(c, s, [step] + rest) && Run(c, s, [step] + rest) == Run(c, Next(c, s, step), rest)
  {
    assert ([step] + rest)[1..] == rest;
  }

  /** A waiting send, one slice of time, and the timeout that ends the slice. */
  lemma SlicePasses(c: Config, s: State, i: nat, rest: seq<Step>)
    requires Waiting(s, i) && s.senders[i].pc.since <= s.clock
    requires CanRun(c, Next(c, Next(c, s, Tick(c.slice)), SliceTimedOut(i)), rest)
    ensures var steps := [Tick(c.slice)] + ([SliceTimedOut(i)] + rest);
            && CanRun(c, s, steps)
            && Run(c, s, steps) == Run(c, Next(c, Next(c, s, Tick(c.slice)), SliceTimedOut(i)), rest)
  {
    RunOne(c, Next(c, s, Tick(c.slice)), SliceTimedOut(i), rest);
    RunOne(c, s, Tick(c.slice), [SliceTimedOut(i)] + rest);
  }

  /** Whatever happened before, a send that waits ends when the channel closes, ... */
  lemma ClosedChannelEndsIt(c: Config, s: State, i: nat)
    requires Waiting(s, i) && !s.disconnected
    ensures var steps := [Disconnect] + ([SliceClosed(i)] + []);
            && CanRun(c, s, steps) && i < |Run(c, s, steps).senders|
            && Run(c, s, steps).senders[i].results == s.senders[i].results + [ChannelClosed]
  {
    RunOne(c, Next(c, s, Disconnect), SliceClosed(i), []);
    RunOne(c, s, Disconnect, [SliceClosed(i)] + []);
  }

  /** ... when the dispatcher exits, at the end of its slice, ... */
  lemma DispatcherExitEndsIt(c: Config, s: State, i: nat)
    requires Inv(c, s) && Waiting(s, i) && !s.exited
    ensures var steps := [Exit] + ([Tick(c.slice)] + ([SliceTimedOut(i)] + ([LookAtExit(i)] + [])));
            && CanRun(c, s, steps) && i < |Run(c, s, steps).senders|
            && Run(c, s, steps).senders[i].results == s.senders[i].results + [DispatcherExited]
  {
    assert Timing(c, s, s.senders[i]);
    var exited := Next(c, s, Exit);
    RunOne(c, Next(c, Next(c, exited, Tick(c.slice)), SliceTimedOut(i)), LookAtExit(i), []);
    SlicePasses(c, exited, i, [LookAtExit(i)] + []);
    RunOne(c, s, Exit, [Tick(c.slice)] + ([SliceTimedOut(i)] + ([LookAtExit(i)] + [])));
  }

  lemma DeadlineRunsOut(c: Config, s: State, i: nat)
    requires At(s, i, SetDeadline)
    ensures var steps := [FixDeadline(i)] + ([Tick(c.grace)] + ([CompareClock(i)] + []));
            && CanRun(c, s, steps) && i < |Run(c, s, steps).senders|
            && Run(c, s, steps).senders[i].results == s.senders[i].results + [GraceOver]
            && Run(c, s, steps).clock == s.clock + c.grace
  {
    var fixed := Next(c, s, FixDeadline(i));
    RunOne(c, Next(c, fixed, Tick(c.grace)), CompareClock(i), []);
    RunOne(c, fixed, Tick(c.grace), [CompareClock(i)] + []);
    RunOne(c, s, FixDeadline(i), [Tick(c.grace)] + ([CompareClock(i)] + []));
  }

  lemma GraceRunsOut(c: Config, s: State, i: nat)
    requires At(s, i, ReadExit) && !s.exited && s.shutdownAt.Some? && s.senders[i].deadline.None?
    ensures var steps := [LookAtExit(i)] + ([LookAtShutdown(i)] + ([FixDeadline(i)]
                         + ([Tick(c.grace)] + ([CompareClock(i)] + []))));
            && CanRun(c, s, steps) && i < |Run(c, s, steps).senders|
            && Run(c, s, steps).senders[i].results == s.senders[i].results + [GraceOver]
            && Run(c, s, steps).clock == s.clock + c.grace
  {
    var rest := [FixDeadline(i)] + ([Tick(c.grace)] + ([CompareClock(i)] + []));
    var looked := Next(c, s, LookAtExit(i));
    DeadlineRunsOut(c, Next(c, looked, LookAtShutdown(i)), i);
    RunOne(c, looked, LookAtShutdown(i), rest);
    RunOne(c, s, LookAtExit(i), [LookAtShutdown(i)] + rest);
  }

  /** ... and when shutdown is requested, after the slice and the grace. */
  lemma ShutdownEndsIt(c: Config, s: State, i: nat) returns (steps: seq<Step>)
    requires Inv(c, s) && Waiting(s, i) && !s.exited && s.shutdownAt.None?
    ensures CanRun(c, s, [Shutdown] + steps) && i < |Run(c, s, [Shutdown] + steps).senders|
    ensures Run(c, s, [Shutdown] + steps).senders[i].results == s.senders[i].results + [GraceOver]
    ensures Run(c, s, [Shutdown] + steps).clock == s.clock + c.slice + c.grace
  {
    assert Timing(c, s, s.senders[i]);
    var stopped := Next(c, s, Shutdown);
    var rest := [LookAtExit(i)] + ([LookAtShutdown(i)] + ([FixDeadline(i)]
                + ([Tick(c.grace)] + ([CompareClock(i)] + []))));
    GraceRunsOut(c, Next(c, Next(c, stopped, Tick(c.slice)), SliceTimedOut(i)), i);
    SlicePasses(c, stopped, i, rest);
    steps := [Tick(c.slice)] + ([SliceTimedOut(i)] + rest);
    RunOne(c, s, Shutdown, steps);
  }
}
