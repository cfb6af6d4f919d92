/** Pushing a message into a plugin's bounded input channel: one send as the loop it is, over
    whatever the channel, the exit flag, the shutdown flag and the clock answer. */
module PluginSend {
  import opened Wrappers

  datatype TrySend = Accepted | Full | Disconnected

  datatype SendTimeout = Taken | TimedOut | Closed

  /** What one turn of the loop sees: the timed slice's result, then the exit flag, then the
      shutdown flag, then the clock when a deadline would be set and when it is compared. */
  datatype Turn = Turn(slice: SendTimeout, exited: bool, shuttingDown: bool, setAt: nat, comparedAt: nat)

  datatype Outcome = Delivered | ChannelClosed | DispatcherExited | GraceOver

  // ---------------------------------------------------------------- what a send is to do

  predicate SeesShutdown(t: Turn) {
    t.slice.TimedOut? && !t.exited && t.shuttingDown
  }

  /** The turn that fixes the deadline: the first to get as far as seeing the shutdown flag set. */
  predicate FirstShutdown(turns: seq<Turn>, f: nat) {
    f < |turns| && SeesShutdown(turns[f]) && forall j | 0 <= j < f :: !SeesShutdown(turns[j])
  }

  predicate GraceOverAt(turns: seq<Turn>, grace: nat, k: nat)
    requires k < |turns|
  {
    SeesShutdown(turns[k]) && exists f | 0 <= f <= k ::
      FirstShutdown(turns, f) && turns[k].comparedAt >= turns[f].setAt + grace
  }

  /** How turn `k` ends the send, if it does. */
  function EndsWith(turns: seq<Turn>, grace: nat, k: nat): Option<Outcome>
    requires k < |turns|
  {
    match turns[k].slice
    case Taken => Some(Delivered)
    case Closed => Some(ChannelClosed)
    case TimedOut =>
      if turns[k].exited then Some(DispatcherExited)
      else if GraceOverAt(turns, grace, k) then Some(GraceOver)
      else None
  }

  // ---------------------------------------------------------------- the loop

  /** `None` means that the turns ran out while the send was still waiting. A refused attempt hands
      the message back for the next; `put` is what went into the channel. */
  method SendToPluginWith<T>(message: T, first: TrySend, turns: seq<Turn>, grace: nat)
      returns (outcome: Option<Outcome>, used: nat, put: Option<T>)
    ensures put == if outcome == Some(Delivered) then Some(message) else None
    ensures used <= |turns|
    ensures first.Accepted? ==> outcome == Some(Delivered) && used == 0
    ensures first.Disconnected? ==> outcome == Some(ChannelClosed) && used == 0
    ensures first.Full? ==> forall k | 0 <= k < used - 1 :: EndsWith(turns, grace, k) == None
    ensures first.Full? && outcome.Some? ==> used > 0 && EndsWith(turns, grace, used - 1) == outcome
    ensures outcome.None? ==> first.Full? && used == |turns|
    ensures outcome.None? ==> forall k | 0 <= k < used :: EndsWith(turns, grace, k) == None
  {
    if first.Accepted? {
      return Some(Delivered), 0, Some(message);
    }
    if first.Disconnected? {
      return Some(ChannelClosed), 0, None;
    }
    var msg := message;
    var graceDeadline: Option<nat> := None;
    used := 0;
    while used < |turns|
      invariant used <= |turns| && msg == message
      invariant forall k | 0 <= k < used :: EndsWith(turns, grace, k) == None
      invariant graceDeadline.None? ==> forall j | 0 <= j < used :: !SeesShutdown(turns[j])
      invariant graceDeadline.Some? ==>
        exists f | 0 <= f < used :: FirstShutdown(turns, f) && graceDeadline.value == turns[f].setAt + grace
    {
      var turn := turns[used];
      used := used + 1;
      match turn.slice
      case Taken => return Some(Delivered), used, Some(msg);
      case Closed => return Some(ChannelClosed), used, None;
      case TimedOut =>
        if turn.exited {
          return Some(DispatcherExited), used, None;
        }
        if turn.shuttingDown {
          ghost var before := graceDeadline;
          if graceDeadline.None? {
            graceDeadline := Some(turn.setAt + grace);
            assert FirstShutdown(turns, used - 1);
          }
          DeadlineIsFixed(turns, grace, used - 1, graceDeadline.value);
          if turn.comparedAt >= graceDeadline.value {
            return Some(GraceOver), used, None;
          }
        }
    }
    return None, used, None;
  }

  lemma DeadlineIsFixed(turns: seq<Turn>, grace: nat, k: nat, deadline: nat)
    requires k < |turns| && SeesShutdown(turns[k])
    requires exists f | 0 <= f <= k :: FirstShutdown(turns, f) && deadline == turns[f].setAt + grace
    ensures GraceOverAt(turns, grace, k) <==> turns[k].comparedAt >= deadline
  {
    var f :| 0 <= f <= k && FirstShutdown(turns, f) && deadline == turns[f].setAt + grace;
    assert forall g | 0 <= g <= k && FirstShutdown(turns, g) :: !(g < f) && !(f < g);
  }

  // ---------------------------------------------------------------- how long it can take

  /** Clock readings of a real run: a slice that times out lasts `slice`, and shutdown is latched. */
  predicate Timed(turns: seq<Turn>, slice: nat) {
    && (forall k | 0 <= k < |turns| :: turns[k].setAt <= turns[k].comparedAt)
    && (forall k | 0 < k < |turns| && turns[k].slice.TimedOut? :: turns[k].setAt >= turns[k - 1].comparedAt + slice)
    && (forall k | 0 < k < |turns| && turns[k - 1].shuttingDown :: turns[k].shuttingDown)
  }

  /** The least number of slices that cover the grace. */
  function SlicesFor(grace: nat, slice: nat): (n: nat)
    requires slice > 0
    ensures n * slice >= grace && (n > 0 ==> (n - 1) * slice < grace)
  {
    (grace + slice - 1) / slice
  }

  lemma {:induction false} ClockAfter(turns: seq<Turn>, slice: nat, f: nat, j: nat)
    requires Timed(turns, slice) && f + j < |turns|
    requires forall k | f < k <= f + j :: turns[k].slice.TimedOut?
    ensures turns[f + j].comparedAt >= turns[f].setAt + j * slice
    ensures turns[f].shuttingDown ==> turns[f + j].shuttingDown
  {
    if j > 0 {
      ClockAfter(turns, slice, f, j - 1);
      assert j * slice == (j - 1) * slice + slice;
    }
  }

  lemma GraceHasPassed(turns: seq<Turn>, grace: nat, slice: nat, f: nat)
    requires slice > 0 && Timed(turns, slice) && FirstShutdown(turns, f)
    requires f + SlicesFor(grace, slice) < |turns|
    requires forall k | f < k <= f + SlicesFor(grace, slice) :: turns[k].slice.TimedOut?
    ensures var last := f + SlicesFor(grace, slice);
            turns[last].exited || GraceOverAt(turns, grace, last)
  {
    var n := SlicesFor(grace, slice);
    ClockAfter(turns, slice, f, n);
    assert turns[f + n].comparedAt >= turns[f].setAt + grace;
    assert FirstShutdown(turns, f);
  }

  /** Once a send has seen shutdown in turn `f`, it ends within the slices that cover the grace. */
  lemma EndsWithinGrace(turns: seq<Turn>, grace: nat, slice: nat, f: nat)
    requires slice > 0 && Timed(turns, slice) && FirstShutdown(turns, f)
    requires f + SlicesFor(grace, slice) < |turns|
    ensures exists k | f <= k <= f + SlicesFor(grace, slice) :: EndsWith(turns, grace, k).Some?
  {
    var last := f + SlicesFor(grace, slice);
    if forall k | f < k <= last :: turns[k].slice.TimedOut? {
      GraceHasPassed(turns, grace, slice, f);
      assert EndsWith(turns, grace, last).Some?;
    } else {
      var k :| f < k <= last && !turns[k].slice.TimedOut?;
      assert EndsWith(turns, grace, k).Some?;
    }
  }

  /** It never gives up early: giving up means that a whole grace has passed since shutdown was
      first seen, and that every slice in between was refused. */
  lemma NeverGivesUpEarly(turns: seq<Turn>, grace: nat, k: nat)
    requires k < |turns| && EndsWith(turns, grace, k) == Some(GraceOver)
    requires forall j | 0 <= j < k :: EndsWith(turns, grace, j) == None
    ensures exists f | 0 <= f <= k ::
      && FirstShutdown(turns, f)
      && turns[k].comparedAt >= turns[f].setAt + grace
      && forall j | f <= j <= k :: turns[j].slice.TimedOut? && !turns[j].exited
  {
    var f :| 0 <= f <= k && FirstShutdown(turns, f) && turns[k].comparedAt >= turns[f].setAt + grace;
    forall j | f <= j <= k ensures turns[j].slice.TimedOut? && !turns[j].exited {
      assert j < k ==> EndsWith(turns, grace, j) == None;
    }
  }
}
