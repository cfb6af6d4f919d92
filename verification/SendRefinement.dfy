/** The two models of a send agree: what a sender of `SendProtocol` goes through, step by step and
    interleaved with everybody else, is the loop of `PluginSend` on the turns that this sender saw. */
module SendRefinement {
  import opened Wrappers
  import opened PluginSend
  import opened SendProtocol

  /** The turns of the send under way that did not end it, and when the running turn fixed or
      skipped fixing its deadline. */
  datatype Seen = Seen(turns: seq<Turn>, setAt: nat)

  const Nothing := Seen([], 0)

  /** The turn that a step completes for its sender, if it completes one. */
  function Completed(s: State, step: Step, seen: Seen): Option<Turn> {
    match step
    case SliceTaken(_) => Some(Turn(Taken, s.exited, s.shutdownAt.Some?, s.clock, s.clock))
    case SliceClosed(_) => Some(Turn(Closed, s.exited, s.shutdownAt.Some?, s.clock, s.clock))
    case LookAtExit(_) => if s.exited then Some(Turn(TimedOut, true, s.shutdownAt.Some?, s.clock, s.clock)) else None
    case LookAtShutdown(_) => if s.shutdownAt.None? then Some(Turn(TimedOut, false, false, s.clock, s.clock)) else None
    case CompareClock(_) => Some(Turn(TimedOut, false, true, seen.setAt, s.clock))
    case _ => None
  }

  /** How a step that ends a turn ends the whole send, if it does. */
  function Ended(c: Config, s: State, step: Step, i: nat): Option<Outcome>
    requires Enabled(c, s, step) && i < |s.senders|
  {
    var x, y := s.senders[i], Next(c, s, step).senders[i];
    if y.results != x.results && y.results != [] then Some(y.results[|y.results| - 1]) else None
  }

  function Observe(c: Config, s: State, step: Step, i: nat, seen: Seen): Seen
    requires Enabled(c, s, step) && i < |s.senders|
  {
    if Actor(step) != Some(i) then seen
    else if Next(c, s, step).senders[i].pc.Idle? then Nothing
    else
      match Completed(s, step, seen)
      case Some(t) => Seen(seen.turns + [t], seen.setAt)
      case None => if step.FixDeadline? || step.LookAtShutdown? then seen.(setAt := s.clock) else seen
  }

  function Watched(c: Config, s: State, steps: seq<Step>, i: nat, seen: Seen): Seen
    requires CanRun(c, s, steps) && i < |s.senders|
    decreases |steps|
  {
    if steps == [] then seen
    else
      StepIsLater(c, s, steps[0]);
      Watched(c, Next(c, s, steps[0]), steps[1..], i, Observe(c, s, steps[0], i, seen))
  }

  // ---------------------------------------------------------------- what every step keeps

  predicate NoneEnds(turns: seq<Turn>, grace: nat) {
    forall k | 0 <= k < |turns| :: EndsWith(turns, grace, k) == None
  }

  predicate NoShutdown(turns: seq<Turn>) {
    forall k | 0 <= k < |turns| :: !SeesShutdown(turns[k])
  }

  ghost predicate DeadlineFrom(turns: seq<Turn>, grace: nat, deadline: nat) {
    exists f | 0 <= f < |turns| :: FirstShutdown(turns, f) && deadline == turns[f].setAt + grace
  }

  /** When the last turn was over, against where the sender is now. */
  predicate InTime(c: Config, s: State, x: Sender, seen: Seen) {
    seen.turns == [] ||
    (var last := seen.turns[|seen.turns| - 1];
     && (last.shuttingDown ==> s.shutdownAt.Some?)
     && match x.pc
        case InSlice(since) => last.comparedAt <= since <= s.clock
        case Compare => last.comparedAt + c.slice <= seen.setAt
        case _ => last.comparedAt + c.slice <= s.clock)
  }

  ghost predicate Follows(c: Config, s: State, x: Sender, seen: Seen) {
    if x.pc.Idle? then seen == Nothing && x.deadline.None?
    else
      && NoneEnds(seen.turns, c.grace)
      && Timed(seen.turns, c.slice)
      && InTime(c, s, x, seen)
      && (x.pc.InSlice? ==> x.pc.since <= s.clock)
      && (x.pc.SetDeadline? ==> s.shutdownAt.Some? && x.deadline.None?)
      && (x.pc.Compare? ==> x.deadline.Some? && s.shutdownAt.Some? && seen.setAt <= s.clock)
      && (x.deadline.None? ==> NoShutdown(seen.turns))
      && (x.deadline.Some? ==>
            || DeadlineFrom(seen.turns, c.grace, x.deadline.value)
            || (x.pc.Compare? && NoShutdown(seen.turns) && x.deadline.value == seen.setAt + c.grace))
  }

  lemma PrefixTurns(turns: seq<Turn>, t: Turn, grace: nat)
    ensures forall f | 0 <= f < |turns| :: FirstShutdown(turns + [t], f) <==> FirstShutdown(turns, f)
    ensures forall k | 0 <= k < |turns| :: EndsWith(turns + [t], grace, k) == EndsWith(turns, grace, k)
    ensures FirstShutdown(turns + [t], |turns|) <==> NoShutdown(turns) && SeesShutdown(t)
  {
    var more := turns + [t];
    forall f | 0 <= f < |turns| ensures FirstShutdown(more, f) <==> FirstShutdown(turns, f) {
      assert forall j | 0 <= j <= f :: more[j] == turns[j];
    }
    forall k | 0 <= k < |turns| ensures EndsWith(more, grace, k) == EndsWith(turns, grace, k) {
      assert more[k] == turns[k];
      assert GraceOverAt(more, grace, k) == GraceOverAt(turns, grace, k) by {
        assert forall f | 0 <= f <= k :: FirstShutdown(more, f) == FirstShutdown(turns, f);
        assert forall f | 0 <= f <= k :: more[f] == turns[f];
      }
    }
    assert forall j | 0 <= j < |turns| :: more[j] == turns[j];
  }

  /** A further timed-out turn keeps the clock readings in order. */
  lemma TimedMore(turns: seq<Turn>, t: Turn, slice: nat)
    requires Timed(turns, slice) && t.setAt <= t.comparedAt
    requires turns != [] ==>
      var last := turns[|turns| - 1];
      (t.slice.TimedOut? ==> t.setAt >= last.comparedAt + slice) && (last.shuttingDown ==> t.shuttingDown)
    ensures Timed(turns + [t], slice)
  {
  }

  /** Comparing with the deadline the sender holds is asking whether the grace is over. */
  lemma CompareIsGrace(turns: seq<Turn>, t: Turn, grace: nat, deadline: nat)
    requires SeesShutdown(t)
    requires DeadlineFrom(turns, grace, deadline) || (NoShutdown(turns) && deadline == t.setAt + grace)
    ensures GraceOverAt(turns + [t], grace, |turns|) <==> t.comparedAt >= deadline
    ensures DeadlineFrom(turns + [t], grace, deadline)
  {
    var more := turns + [t];
    PrefixTurns(turns, t, grace);
    if DeadlineFrom(turns, grace, deadline) {
      var f :| 0 <= f < |turns| && FirstShutdown(turns, f) && deadline == turns[f].setAt + grace;
      assert FirstShutdown(more, f) && more[f] == turns[f];
    } else {
      assert FirstShutdown(more, |turns|);
    }
    DeadlineIsFixed(more, grace, |turns|, deadline);
  }

  lemma OtherStepFollows(c: Config, s: State, step: Step, i: nat, seen: Seen)
    requires Enabled(c, s, step) && i < |s.senders| && Actor(step) != Some(i)
    requires Follows(c, s, s.senders[i], seen)
    ensures i < |Next(c, s, step).senders|
    ensures Follows(c, Next(c, s, step), Next(c, s, step).senders[i], seen)
  {
    StepIsLater(c, s, step);
    OthersUntouched(c, s, step, i);
  }

  /** A step that leaves the running turn open. */
  lemma OpenStepFollows(c: Config, s: State, step: Step, i: nat, seen: Seen)
    requires Enabled(c, s, step) && i < |s.senders| && Actor(step) == Some(i)
    requires Follows(c, s, s.senders[i], seen)
    requires step.Begin? || step.SliceTimedOut? || step.FixDeadline?
          || (step.LookAtExit? && !s.exited) || (step.LookAtShutdown? && s.shutdownAt.Some?)
    ensures i < |Next(c, s, step).senders|
    ensures Follows(c, Next(c, s, step), Next(c, s, step).senders[i], Observe(c, s, step, i, seen))
  {
    if step.Begin? {
      BeginFollows(c, s, step, i, seen);
    } else if step.SliceTimedOut? || step.LookAtExit? {
      SliceFollows(c, s, step, i, seen);
    } else {
      DeadlineFollows(c, s, step, i, seen);
    }
  }

  lemma BeginFollows(c: Config, s: State, step: Step, i: nat, seen: Seen)
    requires Enabled(c, s, step) && i < |s.senders| && Actor(step) == Some(i) && step.Begin?
    requires Follows(c, s, s.senders[i], seen)
    ensures i < |Next(c, s, step).senders|
    ensures Follows(c, Next(c, s, step), Next(c, s, step).senders[i], Observe(c, s, step, i, seen))
  {
  }

  lemma SliceFollows(c: Config, s: State, step: Step, i: nat, seen: Seen)
    requires Enabled(c, s, step) && i < |s.senders| && Actor(step) == Some(i)
    requires Follows(c, s, s.senders[i], seen) && (step.SliceTimedOut? || (step.LookAtExit? && !s.exited))
    ensures i < |Next(c, s, step).senders|
    ensures Follows(c, Next(c, s, step), Next(c, s, step).senders[i], Observe(c, s, step, i, seen))
  {
  }

  lemma DeadlineFollows(c: Config, s: State, step: Step, i: nat, seen: Seen)
    requires Enabled(c, s, step) && i < |s.senders| && Actor(step) == Some(i)
    requires Follows(c, s, s.senders[i], seen)
    requires step.FixDeadline? || (step.LookAtShutdown? && s.shutdownAt.Some?)
    ensures i < |Next(c, s, step).senders|
    ensures Follows(c, Next(c, s, step), Next(c, s, step).senders[i], Observe(c, s, step, i, seen))
  {
  }

  /** Shutdown is not set yet, and the send goes on. */
  lemma QuietTurnFollows(c: Config, s: State, i: nat, seen: Seen)
    requires Enabled(c, s, LookAtShutdown(i)) && i < |s.senders| && s.shutdownAt.None?
    requires Follows(c, s, s.senders[i], seen)
    ensures i < |Next(c, s, LookAtShutdown(i)).senders|
    ensures Follows(c, Next(c, s, LookAtShutdown(i)), Next(c, s, LookAtShutdown(i)).senders[i],
                    Observe(c, s, LookAtShutdown(i), i, seen))
  {
    var t := Turn(TimedOut, false, false, s.clock, s.clock);
    PrefixTurns(seen.turns, t, c.grace);
    TimedMore(seen.turns, t, c.slice);
    assert (seen.turns + [t])[|seen.turns|] == t;
    KeepsDeadline(seen.turns, t, c.grace);
  }

  lemma KeepsDeadline(turns: seq<Turn>, t: Turn, grace: nat)
    ensures forall d :: DeadlineFrom(turns, grace, d) ==> DeadlineFrom(turns + [t], grace, d)
  {
    PrefixTurns(turns, t, grace);
    forall d | DeadlineFrom(turns, grace, d) ensures DeadlineFrom(turns + [t], grace, d) {
      var f :| 0 <= f < |turns| && FirstShutdown(turns, f) && d == turns[f].setAt + grace;
      assert FirstShutdown(turns + [t], f) && (turns + [t])[f] == turns[f];
    }
  }

  /** Shutdown is set, the grace is not over, and the send goes on. */
  lemma LateTurnFollows(c: Config, s: State, i: nat, seen: Seen)
    requires Enabled(c, s, CompareClock(i)) && i < |s.senders| && s.clock < s.senders[i].deadline.value
    requires Follows(c, s, s.senders[i], seen)
    ensures i < |Next(c, s, CompareClock(i)).senders|
    ensures Follows(c, Next(c, s, CompareClock(i)), Next(c, s, CompareClock(i)).senders[i],
                    Observe(c, s, CompareClock(i), i, seen))
  {
    var t := Turn(TimedOut, false, true, seen.setAt, s.clock);
    PrefixTurns(seen.turns, t, c.grace);
    TimedMore(seen.turns, t, c.slice);
    CompareIsGrace(seen.turns, t, c.grace, s.senders[i].deadline.value);
    assert (seen.turns + [t])[|seen.turns|] == t;
  }

  lemma StepFollows(c: Config, s: State, step: Step, i: nat, seen: Seen)
    requires Enabled(c, s, step) && i < |s.senders| && Follows(c, s, s.senders[i], seen)
    ensures i < |Next(c, s, step).senders|
    ensures Follows(c, Next(c, s, step), Next(c, s, step).senders[i], Observe(c, s, step, i, seen))
  {
    if Actor(step) != Some(i) {
      OtherStepFollows(c, s, step, i, seen);
    } else {
      match step
      case LookAtShutdown(_) =>
        if s.shutdownAt.None? {
          QuietTurnFollows(c, s, i, seen);
        } else {
          OpenStepFollows(c, s, step, i, seen);
        }
      case CompareClock(_) =>
        if s.clock < s.senders[i].deadline.value {
          LateTurnFollows(c, s, i, seen);
        }
      case SliceTaken(_) =>
      case SliceClosed(_) =>
      case LookAtExit(_) =>
        if !s.exited {
          OpenStepFollows(c, s, step, i, seen);
        }
      case _ => OpenStepFollows(c, s, step, i, seen);
    }
  }

  lemma {:induction false} RunFollows(c: Config, s: State, steps: seq<Step>, i: nat, seen: Seen)
    requires CanRun(c, s, steps) && i < |s.senders| && Follows(c, s, s.senders[i], seen)
    ensures i < |Run(c, s, steps).senders|
    ensures Follows(c, Run(c, s, steps), Run(c, s, steps).senders[i], Watched(c, s, steps, i, seen))
    decreases |steps|
  {
    if steps != [] {
      StepFollows(c, s, steps[0], i, seen);
      RunFollows(c, Next(c, s, steps[0]), steps[1..], i, Observe(c, s, steps[0], i, seen));
    }
  }

  // ---------------------------------------------------------------- the agreement

  /** The turn that ends a send ends it with the loop's outcome. */
  lemma LastTurnDecides(c: Config, s: State, step: Step, i: nat, seen: Seen)
    requires Enabled(c, s, step) && i < |s.senders| && Follows(c, s, s.senders[i], seen)
    requires Actor(step) == Some(i) && Completed(s, step, seen).Some?
    ensures var turns := seen.turns + [Completed(s, step, seen).value];
            && NoneEnds(seen.turns, c.grace) && Timed(turns, c.slice)
            && EndsWith(turns, c.grace, |seen.turns|) == Ended(c, s, step, i)
            && forall k | 0 <= k < |seen.turns| :: EndsWith(turns, c.grace, k) == None
  {
    var t := Completed(s, step, seen).value;
    PrefixTurns(seen.turns, t, c.grace);
    TimedMore(seen.turns, t, c.slice);
    OutcomeOfTurn(c, s, step, i, seen);
  }

  lemma OutcomeOfTurn(c: Config, s: State, step: Step, i: nat, seen: Seen)
    requires Enabled(c, s, step) && i < |s.senders| && Follows(c, s, s.senders[i], seen)
    requires Actor(step) == Some(i) && Completed(s, step, seen).Some?
    ensures EndsWith(seen.turns + [Completed(s, step, seen).value], c.grace, |seen.turns|) == Ended(c, s, step, i)
  {
    var t := Completed(s, step, seen).value;
    assert (seen.turns + [t])[|seen.turns|] == t;
    if step.CompareClock? {
      CompareIsGrace(seen.turns, t, c.grace, s.senders[i].deadline.value);
    }
  }

  /** In every run, a send that had to wait ends at a step exactly when the loop, fed the turns this
      sender saw, ends there, and with the same outcome; it did not end before, and the turns
      have the clock readings that the loop's bounds are stated for. */
  lemma SendsFollowTheLoop(c: Config, n: nat, steps: seq<Step>, step: Step, i: nat)
    requires CanRun(c, Initial(n), steps) && i < n
    requires Enabled(c, Run(c, Initial(n), steps), step) && Actor(step) == Some(i)
    ensures var s, seen := Run(c, Initial(n), steps), Watched(c, Initial(n), steps, i, Nothing);
            && i < |s.senders|
            && (Completed(s, step, seen).Some? ==>
                  var turns := seen.turns + [Completed(s, step, seen).value];
                  && Timed(turns, c.slice)
                  && EndsWith(turns, c.grace, |seen.turns|) == Ended(c, s, step, i)
                  && forall k | 0 <= k < |seen.turns| :: EndsWith(turns, c.grace, k) == None)
  {
    RunFollows(c, Initial(n), steps, i, Nothing);
    var s, seen := Run(c, Initial(n), steps), Watched(c, Initial(n), steps, i, Nothing);
    if Completed(s, step, seen).Some? {
      LastTurnDecides(c, s, step, i, seen);
    }
  }
}
