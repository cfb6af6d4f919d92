/** What the aligner guarantees over every run of its input streams. */
module AlignmentRuns {
  import opened Wrappers
  import opened MarkerAlignment

  /** One thing that happens at a merge point. `Notice` is any message but a marker. */
  datatype Event =
    | Deliver(input: nat, epoch: Epoch, createdAtMs: nat)
    | Notice(message: Message)
    | Done(input: nat, nowMs: nat)

  /** What the streams have carried so far, and the markers let through. */
  datatype Run = Run(
    a: Aligner,
    delivered: seq<seq<Epoch>>,
    ended: seq<bool>,
    out: seq<Epoch>)

  function Start(inputs: nat): Run {
    Run(Aligner(inputs, [], map[], {}, {}), seq(inputs, _ => []), seq(inputs, _ => false), [])
  }

  /** The greatest epoch an input delivered. */
  function Watermark(epochs: seq<Epoch>): (m: Option<Epoch>)
    ensures m.None? <==> epochs == []
    ensures m.Some? ==> m.value in epochs && forall e | e in epochs :: e <= m.value
  {
    if epochs == [] then None
    else
      var n := |epochs| - 1;
      assert epochs == epochs[..n] + [epochs[n]];
      match Watermark(epochs[..n])
      case None => Some(epochs[n])
      case Some(m) => Some(if m < epochs[n] then epochs[n] else m)
  }

  /** Each stream carries a marker once and nothing after its end. */
  predicate Legal(r: Run, ev: Event) {
    match ev
    case Deliver(i, e, _) => i < |r.delivered| == |r.ended| && !r.ended[i] && e !in r.delivered[i]
    case Notice(m) => !m.Marker?
    case Done(i, _) => i < |r.delivered| == |r.ended| && !r.ended[i]
  }

  function MarkerEpochs(ms: seq<Message>): seq<Epoch> {
    if ms == [] then []
    else (if ms[0].Marker? then [ms[0].epoch] else []) + MarkerEpochs(ms[1..])
  }

  ghost function Next(r: Run, ev: Event): Run
    requires Legal(r, ev)
  {
    match ev
    case Deliver(i, e, ms) =>
      var (a, released) := ObserveOne(r.a, Marker(e, ms));
      Run(a, r.delivered[i := r.delivered[i] + [e]], r.ended, r.out + MarkerEpochs(released))
    case Notice(m) =>
      var (a, released) := ObserveOne(r.a, m);
      r.(a := a, out := r.out + MarkerEpochs(released))
    case Done(i, now) =>
      var (a, released) := EndInput(r.a, Watermark(r.delivered[i]), now);
      Run(a, r.delivered, r.ended[i := true], r.out + MarkerEpochs(released))
  }

  ghost predicate LegalRun(inputs: nat, evs: seq<Event>)
    decreases |evs|, 0
  {
    evs == [] ||
    (LegalRun(inputs, evs[..|evs| - 1]) && Legal(After(inputs, evs[..|evs| - 1]), evs[|evs| - 1]))
  }

  ghost function After(inputs: nat, evs: seq<Event>): Run
    requires LegalRun(inputs, evs)
    decreases |evs|, 1
  {
    if evs == [] then Start(inputs) else Next(After(inputs, evs[..|evs| - 1]), evs[|evs| - 1])
  }

  // ---------------------------------------------------------------- counting inputs

  function Below(n: nat): (s: set<int>)
    ensures forall i: int :: i in s <==> 0 <= i < n
    ensures |s| == n
  {
    if n == 0 then {} else Below(n - 1) + {n - 1}
  }

  lemma SubsetSize<T>(a: set<T>, b: set<T>)
    requires a <= b
    ensures |a| <= |b|
    ensures |a| == |b| ==> a == b
  {
    assert b == a + (b - a);
  }

  function Deliverers(r: Run, e: Epoch): set<int> {
    set i | 0 <= i < |r.delivered| && e in r.delivered[i]
  }

  predicate EndedBefore(r: Run, i: nat, e: Epoch)
    requires i < |r.delivered| == |r.ended|
  {
    r.ended[i] && (r.delivered[i] == [] || Watermark(r.delivered[i]).value < e)
  }

  function Gone(r: Run, e: Epoch): set<int>
    requires |r.delivered| == |r.ended|
  {
    set i | 0 <= i < |r.delivered| && EndedBefore(r, i, e)
  }

  function EndedInputs(r: Run): set<int> {
    EndedAt(r.ended)
  }

  function EndedAt(ended: seq<bool>): set<int> {
    set i | 0 <= i < |ended| && ended[i]
  }

  predicate Increasing(s: seq<Epoch>) {
    forall i, j | 0 <= i < j < |s| :: s[i] < s[j]
  }

  // ---------------------------------------------------------------- safety and uniqueness

  /** Everything before the marker has passed the merge point: each input delivered it or ended. */
  predicate Covered(r: Run, e: Epoch)
    requires |r.delivered| == |r.ended|
  {
    forall i | 0 <= i < |r.delivered| :: e in r.delivered[i] || r.ended[i]
  }

  /** The streams and the aligner's bookkeeping of their ends agree. */
  ghost predicate Tracks(r: Run) {
    && |r.delivered| == |r.ended| == r.a.inputs
    && |r.a.finished| == |EndedInputs(r)|
    && (forall e :: FinishedBefore(r.a.finished, e) == |Gone(r, e)|)
  }

  ghost predicate Inv(r: Run) {
    && Tracks(r)
    && (forall e | e in r.a.epochs :: Counted(r, e))
    && (forall e | e in r.out :: Safe(r, e))
    && Unique(r.out)
  }

  /** No epoch is credited with more copies than there are inputs that delivered it. */
  ghost predicate Counted(r: Run, e: Epoch)
    requires e in r.a.epochs
  {
    && 1 <= r.a.epochs[e].copies <= |Deliverers(r, e)|
    && (r.a.epochs[e].released <==> e in r.out)
  }

  ghost predicate Safe(r: Run, e: Epoch)
    requires |r.delivered| == |r.ended|
  {
    Covered(r, e) && Deliverers(r, e) != {}
  }

  predicate Unique(s: seq<Epoch>) {
    forall i, j | 0 <= i < j < |s| :: s[i] != s[j]
  }

  /** An input that ended before an epoch never delivered it, so the two sets are disjoint and
      together make up all inputs exactly when their sizes add up. */
  lemma Accounting(r: Run, e: Epoch)
    requires Tracks(r)
    ensures |Deliverers(r, e)| + |Gone(r, e)| <= r.a.inputs
    ensures |Deliverers(r, e)| + |Gone(r, e)| == r.a.inputs
       <==> forall i | 0 <= i < |r.delivered| :: e in r.delivered[i] || EndedBefore(r, i, e)
  {
    var d, g := Deliverers(r, e), Gone(r, e);
    forall i | i in d ensures i !in g {
      var k :| 0 <= k < |r.delivered[i]| && r.delivered[i][k] == e;
    }
    assert d !! g;
    assert |d + g| == |d| + |g|;
    SubsetSize(d + g, Below(r.a.inputs));
    if forall i | 0 <= i < |r.delivered| :: e in r.delivered[i] || EndedBefore(r, i, e) {
      assert d + g == Below(r.a.inputs);
    }
    if |d| + |g| == r.a.inputs {
      forall i | 0 <= i < |r.delivered| ensures e in r.delivered[i] || EndedBefore(r, i, e) {
        assert i in Below(r.a.inputs);
        assert i in d + g;
      }
    }
  }

  /** Enough copies, or the end of every input, cover an epoch. */
  lemma EnoughCopies(r: Run, e: Epoch, copies: nat)
    requires Tracks(r) && 1 <= copies <= |Deliverers(r, e)|
    requires |r.a.finished| >= r.a.inputs || copies >= RequiredCopies(r.a.inputs, r.a.finished, e)
    ensures Covered(r, e)
  {
    Accounting(r, e);
    if |r.a.finished| >= r.a.inputs {
        assert EndedInputs(r) <= Below(r.a.inputs);
      SubsetSize(EndedInputs(r), Below(r.a.inputs));
      forall i | 0 <= i < |r.delivered| ensures r.ended[i] {
        assert i in Below(r.a.inputs);
      }
    } else {
      assert |Deliverers(r, e)| + |Gone(r, e)| == r.a.inputs;
    }
  }

  lemma DeliverTracks(r: Run, i: nat, e: Epoch, ms: nat)
    requires Tracks(r) && Legal(r, Deliver(i, e, ms))
    ensures Tracks(Next(r, Deliver(i, e, ms)))
  {
    var r' := Next(r, Deliver(i, e, ms));
    assert EndedInputs(r') == EndedInputs(r);
    forall x ensures FinishedBefore(r'.a.finished, x) == |Gone(r', x)| {
      assert forall j | 0 <= j < |r.delivered| :: EndedBefore(r', j, x) == EndedBefore(r, j, x);
      assert Gone(r', x) == Gone(r, x);
    }
  }

  lemma NoticeTracks(r: Run, m: Message)
    requires Tracks(r) && Legal(r, Notice(m))
    ensures Tracks(Next(r, Notice(m)))
  {
    var r' := Next(r, Notice(m));
    assert r'.a.finished == r.a.finished && r'.a.inputs == r.a.inputs;
    assert EndedInputs(r') == EndedInputs(r);
    forall x ensures Gone(r', x) == Gone(r, x) {
    }
  }

  lemma DoneTracks(r: Run, i: nat, nowMs: nat)
    requires Tracks(r) && Legal(r, Done(i, nowMs))
    ensures Tracks(Next(r, Done(i, nowMs)))
  {
    var r' := Next(r, Done(i, nowMs));
    DoneBooks(r, i, nowMs);
    EndedOneMore(r.ended, i);
    forall x ensures FinishedBefore(r'.a.finished, x) == |Gone(r', x)| {
      DoneGone(r, i, nowMs, x);
      FinishedOneMore(r.a.finished, Watermark(r.delivered[i]), x);
    }
  }

  lemma DoneBooks(r: Run, i: nat, nowMs: nat)
    requires Legal(r, Done(i, nowMs))
    ensures var r' := Next(r, Done(i, nowMs));
      && r'.a.finished == r.a.finished + [Watermark(r.delivered[i])] && r'.a.inputs == r.a.inputs
      && r'.delivered == r.delivered && r'.ended == r.ended[i := true]
  {
  }

  lemma EndedOneMore(ended: seq<bool>, i: nat)
    requires i < |ended| && !ended[i]
    ensures |EndedAt(ended[i := true])| == |EndedAt(ended)| + 1
  {
    assert EndedAt(ended[i := true]) == EndedAt(ended) + {i};
  }

  lemma FinishedOneMore(finished: seq<Option<Epoch>>, last: Option<Epoch>, x: Epoch)
    ensures FinishedBefore(finished + [last], x)
         == FinishedBefore(finished, x) + if last.None? || last.value < x then 1 else 0
  {
    assert (finished + [last])[..|finished|] == finished;
  }

  lemma DoneGone(r: Run, i: nat, nowMs: nat, x: Epoch)
    requires Legal(r, Done(i, nowMs))
    ensures var r', last := Next(r, Done(i, nowMs)), Watermark(r.delivered[i]);
      && |r'.delivered| == |r'.ended|
      && i !in Gone(r, x) && Gone(r', x) == Gone(r, x) + if last.None? || last.value < x then {i} else {}
  {
  }

  lemma MarkerEpochsOf(epochs: seq<Epoch>, nowMs: nat)
    ensures MarkerEpochs(Markers(epochs, nowMs)) == epochs
  {
    if epochs != [] {
      assert Markers(epochs, nowMs)[1..] == Markers(epochs[1..], nowMs);
      MarkerEpochsOf(epochs[1..], nowMs);
    }
  }

  lemma NotCovered(r: Run, i: nat, e: Epoch)
    requires i < |r.delivered| == |r.ended| && e !in r.delivered[i] && !r.ended[i]
    ensures !Covered(r, e)
  {
  }

  lemma DeliverOut(r: Run, i: nat, e: Epoch, ms: nat)
    requires Inv(r) && Legal(r, Deliver(i, e, ms))
    ensures e !in r.out && Deliverers(Next(r, Deliver(i, e, ms)), e) == Deliverers(r, e) + {i}
    ensures i !in Deliverers(r, e) && !StateOf(r.a, e).released
    ensures var copies := StateOf(r.a, e).copies + 1;
      var go := copies >= RequiredCopies(r.a.inputs, r.a.finished, e);
      && Next(r, Deliver(i, e, ms)).out == (if go then r.out + [e] else r.out)
      && Next(r, Deliver(i, e, ms)).a.epochs == r.a.epochs[e := MarkerState(copies, go)]
  {
    assert e !in r.delivered[i];
    NotCovered(r, i, e);
    assert e in r.out ==> Safe(r, e);
    if e in r.a.epochs {
      assert Counted(r, e);
    }
    var released := ObserveOne(r.a, Marker(e, ms)).1;
    assert released == [] || (released[0] == Marker(e, ms) && released[1..] == []);
    if released != [] {
      assert MarkerEpochs(released) == [e] + MarkerEpochs(released[1..]);
    }
  }

  lemma DeliverOthers(r: Run, i: nat, e: Epoch, ms: nat, x: Epoch)
    requires Legal(r, Deliver(i, e, ms)) && x != e
    ensures Deliverers(Next(r, Deliver(i, e, ms)), x) == Deliverers(r, x)
  {
    var r' := Next(r, Deliver(i, e, ms));
    assert forall j | 0 <= j < |r.delivered| :: x in r'.delivered[j] <==> x in r.delivered[j];
  }

  lemma DeliverCounts(r: Run, i: nat, e: Epoch, ms: nat, x: Epoch)
    requires Inv(r) && Legal(r, Deliver(i, e, ms)) && x in Next(r, Deliver(i, e, ms)).a.epochs
    ensures Counted(Next(r, Deliver(i, e, ms)), x)
  {
    DeliverOut(r, i, e, ms);
    assert x in r.a.epochs ==> Counted(r, x);
    if x != e {
      DeliverOthers(r, i, e, ms, x);
    }
  }

  lemma DeliverIsSafe(r: Run, i: nat, e: Epoch, ms: nat, x: Epoch)
    requires Inv(r) && Legal(r, Deliver(i, e, ms)) && x in Next(r, Deliver(i, e, ms)).out
    ensures |Next(r, Deliver(i, e, ms)).delivered| == |Next(r, Deliver(i, e, ms)).ended|
    ensures Safe(Next(r, Deliver(i, e, ms)), x)
  {
    DeliverTracks(r, i, e, ms);
    if x == e {
      DeliveredIsSafe(r, i, e, ms);
    } else {
      OtherIsSafe(r, i, e, ms, x);
    }
  }

  lemma DeliveredIsSafe(r: Run, i: nat, e: Epoch, ms: nat)
    requires Inv(r) && Legal(r, Deliver(i, e, ms)) && e in Next(r, Deliver(i, e, ms)).out
    requires Tracks(Next(r, Deliver(i, e, ms)))
    ensures Safe(Next(r, Deliver(i, e, ms)), e)
  {
    DeliverOut(r, i, e, ms);
    assert e in r.a.epochs ==> Counted(r, e);
    EnoughCopies(Next(r, Deliver(i, e, ms)), e, StateOf(r.a, e).copies + 1);
  }

  lemma OtherIsSafe(r: Run, i: nat, e: Epoch, ms: nat, x: Epoch)
    requires Inv(r) && Legal(r, Deliver(i, e, ms)) && x in Next(r, Deliver(i, e, ms)).out && x != e
    requires Tracks(Next(r, Deliver(i, e, ms)))
    ensures Safe(Next(r, Deliver(i, e, ms)), x)
  {
    DeliverOut(r, i, e, ms);
    DeliverOthers(r, i, e, ms, x);
    assert Safe(r, x);
  }

  lemma DeliverKeeps(r: Run, i: nat, e: Epoch, ms: nat)
    requires Inv(r) && Legal(r, Deliver(i, e, ms))
    ensures Inv(Next(r, Deliver(i, e, ms)))
  {
    var r' := Next(r, Deliver(i, e, ms));
    DeliverTracks(r, i, e, ms);
    DeliverOut(r, i, e, ms);
    forall x | x in r'.a.epochs ensures Counted(r', x) {
      DeliverCounts(r, i, e, ms, x);
    }
    forall x | x in r'.out ensures Safe(r', x) {
      DeliverIsSafe(r, i, e, ms, x);
    }
  }

  lemma NoticeKeeps(r: Run, m: Message)
    requires Inv(r) && Legal(r, Notice(m))
    ensures Inv(Next(r, Notice(m)))
  {
    var r' := Next(r, Notice(m));
    NoticeTracks(r, m);
    var released := ObserveOne(r.a, m).1;
    assert |released| <= 1 && (released != [] ==> released[1..] == []);
    assert MarkerEpochs(released) == [];
    assert r'.out == r.out;
    forall x ensures Deliverers(r', x) == Deliverers(r, x) {
    }
    forall x | x in r.out ensures Safe(r', x) {
      assert Safe(r, x);
    }
    forall x | x in r'.a.epochs ensures Counted(r', x) {
      assert Counted(r, x);
    }
  }

  lemma DoneOut(r: Run, i: nat, nowMs: nat)
    requires Legal(r, Done(i, nowMs))
    ensures var a, r' := EndedAligner(r, i), Next(r, Done(i, nowMs));
      r'.a == a.(epochs := Released(a, {})) && r'.out == r.out + Ascending(ReadySet(a))
  {
    MarkerEpochsOf(Ascending(ReadySet(EndedAligner(r, i))), nowMs);
  }

  lemma DoneReleases(r: Run, i: nat, nowMs: nat, e: Epoch)
    requires Inv(r) && Legal(r, Done(i, nowMs)) && e in ReadySet(EndedAligner(r, i))
    ensures |Next(r, Done(i, nowMs)).delivered| == |Next(r, Done(i, nowMs)).ended|
    ensures Safe(Next(r, Done(i, nowMs)), e) && e !in r.out
  {
    var r' := Next(r, Done(i, nowMs));
    DoneTracks(r, i, nowMs);
    assert Deliverers(r', e) == Deliverers(r, e);
    assert Counted(r, e);
    EnoughCopies(r', e, r.a.epochs[e].copies);
  }

  lemma DoneKeepsUnique(out: seq<Epoch>, due: set<Epoch>)
    requires Unique(out) && forall e | e in due :: e !in out
    ensures Unique(out + Ascending(due))
  {
    AscendingLists(due);
    var more := Ascending(due);
    var all := out + more;
    forall j, k | 0 <= j < k < |all| ensures all[j] != all[k] {
      if j < |out| <= k {
        assert more[k - |out|] in due;
      }
    }
  }

  lemma DoneKeeps(r: Run, i: nat, nowMs: nat)
    requires Inv(r) && Legal(r, Done(i, nowMs))
    ensures Inv(Next(r, Done(i, nowMs)))
  {
    var r' := Next(r, Done(i, nowMs));
    var due := ReadySet(EndedAligner(r, i));
    DoneTracks(r, i, nowMs);
    DoneOut(r, i, nowMs);
    AscendingLists(due);
    forall e | e in due ensures Safe(r', e) && e !in r.out {
      DoneReleases(r, i, nowMs, e);
    }
    DoneKeepsUnique(r.out, due);
    forall x | x in r'.a.epochs ensures Counted(r', x) {
      assert Deliverers(r', x) == Deliverers(r, x);
      assert Counted(r, x);
      assert x in r'.out <==> x in r.out || x in due;
    }
    forall x | x in r'.out ensures Safe(r', x) {
      if x in r.out {
        assert Deliverers(r', x) == Deliverers(r, x);
        assert Safe(r, x);
      }
    }
  }

  function EndedAligner(r: Run, i: nat): Aligner
    requires i < |r.delivered|
  {
    r.a.(finished := r.a.finished + [Watermark(r.delivered[i])])
  }

  lemma {:induction false} RunKeeps(inputs: nat, evs: seq<Event>)
    requires LegalRun(inputs, evs)
    ensures Inv(After(inputs, evs)) && After(inputs, evs).a.inputs == inputs
  {
    if evs == [] {
      var r := Start(inputs);
      assert EndedInputs(r) == {};
      forall e ensures Gone(r, e) == {} {
      }
    } else {
      var before, ev := evs[..|evs| - 1], evs[|evs| - 1];
      RunKeeps(inputs, before);
      match ev
      case Deliver(i, e, ms) => DeliverKeeps(After(inputs, before), i, e, ms);
      case Notice(m) => NoticeKeeps(After(inputs, before), m);
      case Done(i, now) => DoneKeeps(After(inputs, before), i, now);
    }
  }

  /** The main safety result, whatever finalizers arrive and whenever: a marker goes downstream at
      most once, and only after each input has delivered it or ended. */
  lemma ReleasesAreSafe(inputs: nat, evs: seq<Event>)
    requires LegalRun(inputs, evs)
    ensures var r := After(inputs, evs);
      && |r.delivered| == |r.ended| == inputs
      && Unique(r.out)
      && forall e | e in r.out :: Covered(r, e) && exists i | 0 <= i < inputs :: e in r.delivered[i]
  {
    RunKeeps(inputs, evs);
    var r := After(inputs, evs);
    forall e | e in r.out ensures exists i | 0 <= i < inputs :: e in r.delivered[i] {
      assert Safe(r, e);
      var i :| i in Deliverers(r, e);
    }
  }

  // ---------------------------------------------------------------- completeness

  predicate AllEnded(r: Run) {
    forall i | 0 <= i < |r.ended| :: r.ended[i]
  }

  /** Some input delivered the epoch, and every other one did too or ended before it; at the
      latest when all inputs have ended. */
  predicate Accounted(r: Run, e: Epoch)
    requires |r.delivered| == |r.ended|
  {
    && Deliverers(r, e) != {}
    && (AllEnded(r) || forall i | 0 <= i < |r.delivered| :: e in r.delivered[i] || EndedBefore(r, i, e))
  }

  ghost predicate Complete(r: Run)
    requires |r.delivered| == |r.ended|
  {
    && (forall e :: e in r.out <==> Accounted(r, e))
    && (forall e | e !in r.out && Deliverers(r, e) != {} ::
          e in r.a.epochs && r.a.epochs[e].copies == |Deliverers(r, e)|)
  }

  /** A finalizer is seen only once the markers it covers have gone downstream. */
  predicate Prompt(r: Run, ev: Event) {
    ev.Notice? && ev.message.Finalizer? ==>
      forall i, k | 0 <= i < |r.delivered| && 0 <= k < |r.delivered[i]| && r.delivered[i][k] <= ev.message.epoch ::
        r.delivered[i][k] in r.out
  }

  ghost predicate PromptRun(inputs: nat, evs: seq<Event>)
    requires LegalRun(inputs, evs)
    decreases |evs|
  {
    evs == [] ||
    (PromptRun(inputs, evs[..|evs| - 1]) && Prompt(After(inputs, evs[..|evs| - 1]), evs[|evs| - 1]))
  }

  /** Releasing on the counts is releasing when the epoch is accounted for. */
  lemma CountsDecide(r: Run, e: Epoch, copies: nat)
    requires Tracks(r) && 1 <= copies == |Deliverers(r, e)|
    ensures (|r.a.finished| >= r.a.inputs || copies >= RequiredCopies(r.a.inputs, r.a.finished, e))
       <==> Accounted(r, e)
  {
    Accounting(r, e);
    var ends := EndedInputs(r);
    SubsetSize(ends, Below(r.a.inputs));
    if AllEnded(r) {
      assert ends == Below(r.a.inputs);
    } else if |r.a.finished| >= r.a.inputs {
      assert ends == Below(r.a.inputs);
      forall i | 0 <= i < |r.ended| ensures r.ended[i] {
        assert i in ends;
      }
    }
  }

  lemma OthersUnaffected(r: Run, i: nat, e: Epoch, ms: nat, x: Epoch)
    requires Inv(r) && Legal(r, Deliver(i, e, ms)) && x != e
    ensures var r' := Next(r, Deliver(i, e, ms));
      && |r'.delivered| == |r'.ended|
      && Deliverers(r', x) == Deliverers(r, x) && (Accounted(r', x) <==> Accounted(r, x))
  {
    var r' := Next(r, Deliver(i, e, ms));
    forall j | 0 <= j < |r.delivered|
      ensures (x in r'.delivered[j] <==> x in r.delivered[j]) && EndedBefore(r', j, x) == EndedBefore(r, j, x)
    {
    }
    assert Deliverers(r', x) == Deliverers(r, x);
  }

  lemma NoDeliverers(r: Run, e: Epoch)
    requires Inv(r)
    ensures Deliverers(r, e) == {} ==> e !in r.a.epochs
  {
    assert e in r.a.epochs ==> Counted(r, e);
  }

  lemma NotAllEnded(r: Run, i: nat)
    requires Tracks(r) && i < |r.ended| && !r.ended[i]
    ensures |r.a.finished| < r.a.inputs
  {
    assert EndedInputs(r) <= Below(r.a.inputs) - {i};
    SubsetSize(EndedInputs(r), Below(r.a.inputs) - {i});
  }

  /** After a delivery the count of its epoch is the number of inputs that delivered it. */
  lemma DeliveredCount(r: Run, i: nat, e: Epoch, ms: nat)
    requires Inv(r) && Complete(r) && Legal(r, Deliver(i, e, ms))
    ensures StateOf(r.a, e).copies + 1 == |Deliverers(Next(r, Deliver(i, e, ms)), e)|
  {
    DeliverOut(r, i, e, ms);
    NoDeliverers(r, e);
  }

  lemma DeliveredAccounted(r: Run, i: nat, e: Epoch, ms: nat)
    requires Inv(r) && Complete(r) && Legal(r, Deliver(i, e, ms))
    ensures var r' := Next(r, Deliver(i, e, ms));
      && |r'.delivered| == |r'.ended|
      && e in r'.a.epochs && r'.a.epochs[e].copies == |Deliverers(r', e)|
      && (e in r'.out <==> Accounted(r', e))
  {
    var r' := Next(r, Deliver(i, e, ms));
    DeliverTracks(r, i, e, ms);
    DeliverOut(r, i, e, ms);
    DeliveredCount(r, i, e, ms);
    CountsDecide(r', e, StateOf(r.a, e).copies + 1);
    NotAllEnded(r', i);
  }

  lemma DeliverComplete(r: Run, i: nat, e: Epoch, ms: nat)
    requires Inv(r) && Complete(r) && Legal(r, Deliver(i, e, ms))
    ensures Complete(Next(r, Deliver(i, e, ms)))
  {
    var r' := Next(r, Deliver(i, e, ms));
    DeliverOut(r, i, e, ms);
    DeliveredAccounted(r, i, e, ms);
    forall x ensures x in r'.out <==> Accounted(r', x) {
      if x != e {
        OthersUnaffected(r, i, e, ms, x);
      }
    }
    forall x | x !in r'.out && Deliverers(r', x) != {}
      ensures x in r'.a.epochs && r'.a.epochs[x].copies == |Deliverers(r', x)|
    {
      if x != e {
        OthersUnaffected(r, i, e, ms, x);
      }
    }
  }

  lemma NoticeComplete(r: Run, m: Message)
    requires Inv(r) && Complete(r) && Legal(r, Notice(m)) && Prompt(r, Notice(m))
    ensures Complete(Next(r, Notice(m)))
  {
    var r' := Next(r, Notice(m));
    var released := ObserveOne(r.a, m).1;
    assert |released| <= 1 && (released != [] ==> released[1..] == []);
    assert MarkerEpochs(released) == [];
    assert r'.out == r.out;
    forall x ensures Deliverers(r', x) == Deliverers(r, x) && (Accounted(r', x) <==> Accounted(r, x)) {
    }
    forall e | e !in r'.out && Deliverers(r', e) != {}
      ensures e in r'.a.epochs && r'.a.epochs[e].copies == |Deliverers(r', e)|
    {
      var i :| i in Deliverers(r, e);
      var k :| 0 <= k < |r.delivered[i]| && r.delivered[i][k] == e;
    }
  }

  lemma DoneComplete(r: Run, i: nat, nowMs: nat)
    requires Inv(r) && Complete(r) && Legal(r, Done(i, nowMs))
    ensures Complete(Next(r, Done(i, nowMs)))
  {
    var r' := Next(r, Done(i, nowMs));
    DoneTracks(r, i, nowMs);
    DoneOut(r, i, nowMs);
    var a := EndedAligner(r, i);
    var due := ReadySet(a);
    AscendingLists(due);
    forall x ensures Deliverers(r', x) == Deliverers(r, x) {
    }
    forall e ensures e in r'.out <==> Accounted(r', e) {
      NoDeliverers(r, e);
      if e in r.out {
        AccountedStays(r, i, nowMs, e);
      } else if Deliverers(r, e) != {} {
        assert Counted(r, e);
        CountsDecide(r', e, r.a.epochs[e].copies);
      }
    }
  }

  lemma AccountedStays(r: Run, i: nat, nowMs: nat, e: Epoch)
    requires Tracks(r) && Legal(r, Done(i, nowMs)) && Accounted(r, e)
    ensures Accounted(Next(r, Done(i, nowMs)), e)
  {
    var r' := Next(r, Done(i, nowMs));
    assert Deliverers(r', e) == Deliverers(r, e);
    forall j | 0 <= j < |r.delivered| && EndedBefore(r, j, e) ensures EndedBefore(r', j, e) {
    }
  }

  /** The main completeness result: when finalizers keep behind the markers, an epoch has gone
      downstream exactly when nothing can still arrive before it. */
  lemma {:induction false} ReleasesAreComplete(inputs: nat, evs: seq<Event>)
    requires LegalRun(inputs, evs) && PromptRun(inputs, evs)
    ensures |After(inputs, evs).delivered| == |After(inputs, evs).ended|
    ensures forall e :: e in After(inputs, evs).out <==> Accounted(After(inputs, evs), e)
    ensures Complete(After(inputs, evs))
  {
    RunKeeps(inputs, evs);
    if evs == [] {
      forall e ensures Deliverers(Start(inputs), e) == {} {
      }
    } else {
      var before, ev := evs[..|evs| - 1], evs[|evs| - 1];
      RunKeeps(inputs, before);
      ReleasesAreComplete(inputs, before);
      match ev
      case Deliver(i, e, ms) => DeliverComplete(After(inputs, before), i, e, ms);
      case Notice(m) => NoticeComplete(After(inputs, before), m);
      case Done(i, now) => DoneComplete(After(inputs, before), i, now);
    }
  }

  ghost predicate CompleteAt(inputs: nat, evs: seq<Event>, n: nat)
    requires LegalRun(inputs, evs) && n <= |evs|
  {
    LegalPrefix(inputs, evs, n);
    var r := After(inputs, evs[..n]);
    |r.delivered| == |r.ended| && Complete(r)
  }

  ghost predicate CompleteThroughout(inputs: nat, evs: seq<Event>)
    requires LegalRun(inputs, evs)
  {
    forall n: nat | n <= |evs| :: CompleteAt(inputs, evs, n)
  }

  lemma {:induction false} LegalPrefix(inputs: nat, evs: seq<Event>, n: nat)
    requires LegalRun(inputs, evs) && n <= |evs|
    ensures LegalRun(inputs, evs[..n])
    decreases |evs|
  {
    if n < |evs| {
      var last := |evs| - 1;
      LegalPrefix(inputs, evs[..last], n);
      assert evs[..last][..n] == evs[..n];
    } else {
      assert evs[..n] == evs;
    }
  }

  /** A finalizer that overtakes a marker wipes its count, while the epoch is still held. */
  lemma OvertakenIsWiped(r: Run, ev: Event)
    requires Inv(r) && Legal(r, ev) && !Prompt(r, ev)
    ensures exists e :: e !in Next(r, ev).out && e !in Next(r, ev).a.epochs && Deliverers(Next(r, ev), e) != {}
    ensures |Next(r, ev).delivered| == |Next(r, ev).ended| && !Complete(Next(r, ev))
  {
    var f, r' := ev.message.epoch, Next(r, ev);
    var i, k :| 0 <= i < |r.delivered| && 0 <= k < |r.delivered[i]| && r.delivered[i][k] <= f
      && r.delivered[i][k] !in r.out;
    var e := r.delivered[i][k];
    var released := ObserveOne(r.a, ev.message).1;
    assert |released| <= 1 && (released != [] ==> released[1..] == []);
    assert ev == Notice(ev.message) && MarkerEpochs(released) == [] && r.out + [] == r.out;
    assert r'.out == r.out;
    assert i in Deliverers(r', e) && e !in r'.a.epochs;
  }

  lemma CompleteBefore(inputs: nat, evs: seq<Event>, n: nat)
    requires LegalRun(inputs, evs) && n < |evs|
    ensures LegalRun(inputs, evs[..|evs| - 1])
    ensures CompleteAt(inputs, evs, n) <==> CompleteAt(inputs, evs[..|evs| - 1], n)
  {
    assert evs[..|evs| - 1][..n] == evs[..n];
  }

  /** The last event keeps a complete run complete exactly when it is no overtaking finalizer. */
  lemma CompleteAtEnd(inputs: nat, evs: seq<Event>)
    requires LegalRun(inputs, evs) && evs != [] && PromptRun(inputs, evs[..|evs| - 1])
    ensures CompleteAt(inputs, evs, |evs|) <==> Prompt(After(inputs, evs[..|evs| - 1]), evs[|evs| - 1])
  {
    var last := |evs| - 1;
    assert evs[..|evs|] == evs;
    RunKeeps(inputs, evs[..last]);
    if Prompt(After(inputs, evs[..last]), evs[last]) {
      ReleasesAreComplete(inputs, evs);
    } else {
      OvertakenIsWiped(After(inputs, evs[..last]), evs[last]);
    }
  }

  /** The exact condition: in a legal run the aligner is complete all the way exactly when no
      finalizer overtakes a marker. */
  lemma {:induction false} CompleteExactlyWhenPrompt(inputs: nat, evs: seq<Event>)
    requires LegalRun(inputs, evs)
    ensures PromptRun(inputs, evs) <==> CompleteThroughout(inputs, evs)
    decreases |evs|
  {
    if evs == [] {
      ReleasesAreComplete(inputs, evs);
      assert evs[..0] == evs;
    } else {
      CompleteExactlyWhenPrompt(inputs, evs[..|evs| - 1]);
      OneMoreComplete(inputs, evs);
      if PromptRun(inputs, evs[..|evs| - 1]) {
        CompleteAtEnd(inputs, evs);
      }
    }
  }

  lemma OneMoreComplete(inputs: nat, evs: seq<Event>)
    requires LegalRun(inputs, evs) && evs != []
    ensures LegalRun(inputs, evs[..|evs| - 1])
    ensures CompleteThroughout(inputs, evs)
       <==> CompleteThroughout(inputs, evs[..|evs| - 1]) && CompleteAt(inputs, evs, |evs|)
  {
    var before := evs[..|evs| - 1];
    forall n: nat | n <= |before| ensures CompleteAt(inputs, evs, n) <==> CompleteAt(inputs, before, n) {
      CompleteBefore(inputs, evs, n);
    }
    CompleteByParts(inputs, evs);
  }

  lemma CompleteByParts(inputs: nat, evs: seq<Event>)
    requires LegalRun(inputs, evs) && evs != []
    ensures CompleteThroughout(inputs, evs)
       <==> (forall n: nat | n <= |evs| - 1 :: CompleteAt(inputs, evs, n)) && CompleteAt(inputs, evs, |evs|)
  {
  }

  /** A wiped epoch stays lost while the inputs end: at the end of all streams every input is
      accounted for and the marker has still not gone downstream. */
  lemma {:induction false} LostForGood(inputs: nat, evs: seq<Event>, ends: seq<Event>, e: Epoch)
    requires LegalRun(inputs, evs + ends) && LegalRun(inputs, evs) && forall ev | ev in ends :: ev.Done?
    requires e !in After(inputs, evs).out && e !in After(inputs, evs).a.epochs
    requires Deliverers(After(inputs, evs), e) != {}
    ensures var r := After(inputs, evs + ends);
      && e !in r.out && e !in r.a.epochs && Deliverers(r, e) != {}
      && |r.delivered| == |r.ended| && (AllEnded(r) ==> Accounted(r, e))
    decreases |ends|
  {
    if ends == [] {
      RunKeeps(inputs, evs);
      assert evs + ends == evs;
    } else {
      var n, all := |ends| - 1, evs + ends;
      assert all[..|all| - 1] == evs + ends[..n] && all[|all| - 1] == ends[n];
      LostForGood(inputs, evs, ends[..n], e);
      assert ends[n] in ends;
      RunKeeps(inputs, all);
      LostStaysLost(After(inputs, evs + ends[..n]), ends[n].input, ends[n].nowMs, e);
    }
  }

  lemma LostStaysLost(r: Run, i: nat, nowMs: nat, e: Epoch)
    requires Legal(r, Done(i, nowMs)) && e !in r.out && e !in r.a.epochs && Deliverers(r, e) != {}
    ensures var r' := Next(r, Done(i, nowMs));
      e !in r'.out && e !in r'.a.epochs && Deliverers(r', e) != {}
  {
    DoneOut(r, i, nowMs);
    AscendingLists(ReadySet(EndedAligner(r, i)));
    assert Deliverers(Next(r, Done(i, nowMs)), e) == Deliverers(r, e);
  }

  /** One such run. Input 1 skips epoch 1 and passes on 2; both deliver 2, which goes downstream, and
      the finalizer of 2 wipes the count of 1. `LostForGood` says what becomes of it. */
  lemma SkippedMarkerIsLost()
    ensures var evs := [Deliver(0, 1, 0), Deliver(0, 2, 0), Deliver(1, 2, 0), Notice(Finalizer(2))];
      && LegalRun(2, evs) && !PromptRun(2, evs)
      && After(2, evs).out == [2]
      && 1 !in After(2, evs).a.epochs && Deliverers(After(2, evs), 1) != {}
  {
    var evs := [Deliver(0, 1, 0), Deliver(0, 2, 0), Deliver(1, 2, 0)];
    var last := Notice(Finalizer(2));
    ThreeMarkers();
    var r := After(2, evs);
    RunOfOne(2, evs, last);
    WipedByFinalizer(r);
    assert evs + [last] == [Deliver(0, 1, 0), Deliver(0, 2, 0), Deliver(1, 2, 0), last];
    assert (evs + [last])[..3] == evs;
  }

  lemma ThreeMarkers()
    ensures var evs := [Deliver(0, 1, 0), Deliver(0, 2, 0), Deliver(1, 2, 0)];
      && LegalRun(2, evs)
      && After(2, evs).delivered == [[1, 2], [2]] && After(2, evs).out == [2]
      && After(2, evs).a == Aligner(2, [], map[1 := MarkerState(1, false), 2 := MarkerState(2, true)], {}, {})
  {
    var r1, r2 := TwoMarkers();
    var first, second, third := Deliver(0, 1, 0), Deliver(0, 2, 0), Deliver(1, 2, 0);
    RunOfOne(2, [first, second], third);
    assert [first, second] + [third] == [first, second, third];
    SecondCopy(r1, r2, Next(r2, third));
  }

  lemma OneMarker() returns (r1: Run)
    ensures LegalRun(2, [Deliver(0, 1, 0)]) && r1 == After(2, [Deliver(0, 1, 0)])
    ensures r1.delivered == [[1], []] && r1.ended == [false, false] && r1.out == []
    ensures r1.a == Aligner(2, [], map[1 := MarkerState(1, false)], {}, {})
  {
    var first := Deliver(0, 1, 0);
    RunOfOne(2, [], first);
    assert [] + [first] == [first];
    r1 := Next(Start(2), first);
    TwoInputs(Start(2), r1);
  }

  lemma TwoMarkers() returns (r1: Run, r2: Run)
    ensures LegalRun(2, [Deliver(0, 1, 0), Deliver(0, 2, 0)]) && r2 == After(2, [Deliver(0, 1, 0), Deliver(0, 2, 0)])
    ensures r1.delivered == [[1], []] && r1.ended == [false, false] && r1.out == []
    ensures r1.a == Aligner(2, [], map[1 := MarkerState(1, false)], {}, {})
    ensures Legal(r1, Deliver(0, 2, 0)) && r2 == Next(r1, Deliver(0, 2, 0)) && Legal(r2, Deliver(1, 2, 0))
    ensures r2.out == []
  {
    var first, second := Deliver(0, 1, 0), Deliver(0, 2, 0);
    r1 := OneMarker();
    RunOfOne(2, [first], second);
    assert [first] + [second] == [first, second];
    r2 := Next(r1, second);
    assert r2.delivered == [[1] + [2], []] && r2.ended == [false, false];
    assert RequiredCopies(2, [], 2) == 2;
    assert MarkerEpochs([]) == [] && r2.out == [] + [];
  }

  lemma WipedByFinalizer(r: Run)
    requires r.delivered == [[1, 2], [2]] && r.out == [2]
    requires r.a == Aligner(2, [], map[1 := MarkerState(1, false), 2 := MarkerState(2, true)], {}, {})
    ensures var ev := Notice(Finalizer(2));
      && Legal(r, ev) && !Prompt(r, ev)
      && Next(r, ev).out == [2] && 1 !in Next(r, ev).a.epochs && Deliverers(Next(r, ev), 1) != {}
  {
    var ev := Notice(Finalizer(2));
    var released := [Finalizer(2)];
    assert released[1..] == [] && MarkerEpochs(released) == [] + MarkerEpochs([]);
    assert [2] + [] == [2];
    assert 0 in Deliverers(Next(r, ev), 1);
    assert r.delivered[0][0] == 1 && 1 !in r.out;
  }

  lemma TwoInputs(r0: Run, r1: Run)
    requires r0 == Start(2) && Legal(r0, Deliver(0, 1, 0)) && r1 == Next(r0, Deliver(0, 1, 0))
    ensures r1.delivered == [[1], []] && r1.ended == [false, false] && r1.out == []
    ensures r1.a == Aligner(2, [], map[1 := MarkerState(1, false)], {}, {})
  {
    assert RequiredCopies(2, [], 1) == 2;
    assert r0.delivered == [[], []] && r0.ended == [false, false] && [] + [1] == [1];
    assert r1.out == [] + MarkerEpochs([]);
  }

  lemma SecondCopy(r1: Run, r2: Run, r3: Run)
    requires r1.delivered == [[1], []] && r1.ended == [false, false] && r1.out == []
    requires r1.a == Aligner(2, [], map[1 := MarkerState(1, false)], {}, {})
    requires Legal(r1, Deliver(0, 2, 0)) && r2 == Next(r1, Deliver(0, 2, 0))
    requires Legal(r2, Deliver(1, 2, 0)) && r3 == Next(r2, Deliver(1, 2, 0))
    ensures r3.delivered == [[1, 2], [2]] && r3.ended == [false, false] && r3.out == [2]
    ensures r3.a == Aligner(2, [], map[1 := MarkerState(1, false), 2 := MarkerState(2, true)], {}, {})
  {
    assert RequiredCopies(2, [], 2) == 2;
    assert MarkerEpochs([]) == [] && r2.out == [] + [];
    assert r2.delivered == [[1] + [2], []] && [1] + [2] == [1, 2] && [] + [2] == [2];
    var released := [Marker(2, 0)];
    assert released[1..] == [] && MarkerEpochs(released) == [2] + [];
    assert r3.out == [] + [2];
  }

  lemma RunOfOne(inputs: nat, evs: seq<Event>, ev: Event)
    requires LegalRun(inputs, evs) && Legal(After(inputs, evs), ev)
    ensures LegalRun(inputs, evs + [ev]) && After(inputs, evs + [ev]) == Next(After(inputs, evs), ev)
  {
    assert (evs + [ev])[..|evs|] == evs;
  }

  // ---------------------------------------------------------------- order: merges nest

  /** Every stream has carried the issued epochs in order, none skipped. */
  predicate InOrder(r: Run, issued: seq<Epoch>) {
    forall i | 0 <= i < |r.delivered| :: r.delivered[i] <= issued
  }

  lemma EarlierAccounted(r: Run, issued: seq<Epoch>, j: nat, k: nat)
    requires Tracks(r) && Increasing(issued) && InOrder(r, issued)
    requires j < k < |issued| && Accounted(r, issued[k])
    ensures Accounted(r, issued[j])
  {
    forall i | 0 <= i < |r.delivered| && issued[k] in r.delivered[i]
      ensures issued[j] in r.delivered[i]
    {
      var m :| 0 <= m < |r.delivered[i]| && r.delivered[i][m] == issued[k];
      assert issued[m] == issued[k] && m == k;
      assert r.delivered[i][j] == issued[j];
    }
    var d :| d in Deliverers(r, issued[k]);
    assert d in Deliverers(r, issued[j]);
    forall i | 0 <= i < |r.delivered| && EndedBefore(r, i, issued[k])
      ensures issued[j] in r.delivered[i] || EndedBefore(r, i, issued[j])
    {
      var own := r.delivered[i];
      if j < |own| {
        assert own[j] == issued[j];
      } else if own != [] {
        assert own[|own| - 1] == issued[|own| - 1];
      }
    }
  }

  lemma InTail(s: seq<Epoch>, e: Epoch)
    requires Increasing(s) && s != []
    ensures e in s[1..] <==> e in s && e != s[0]
  {
  }

  /** An increasing list drawn from `base` that skips nothing is a prefix of it. */
  lemma {:induction false} NoGap(base: seq<Epoch>, more: seq<Epoch>)
    requires Increasing(base) && Increasing(more)
    requires forall e | e in more :: e in base
    requires forall d, e | d in base && e in more && d < e :: d in more
    ensures more <= base
  {
    if more != [] {
      assert more[0] in more && more[0] in base;
      assert base[0] in base && base[0] <= more[0];
      assert base[0] in more;
      assert more[0] == base[0];
      forall e
        ensures e in more[1..] <==> e in more && e != more[0]
        ensures e in base[1..] <==> e in base && e != base[0]
      {
        InTail(more, e);
        InTail(base, e);
      }
      NoGap(base[1..], more[1..]);
    }
  }

  lemma ReleasedWasIssued(r: Run, issued: seq<Epoch>, e: Epoch)
    requires |r.delivered| == |r.ended| && Complete(r) && InOrder(r, issued) && e in r.out
    ensures e in issued
  {
    var i :| i in Deliverers(r, e);
    var k :| 0 <= k < |r.delivered[i]| && r.delivered[i][k] == e;
    assert issued[k] == e;
  }

  lemma EarlierReleased(r: Run, issued: seq<Epoch>, d: Epoch, e: Epoch)
    requires Tracks(r) && Complete(r) && Increasing(issued) && InOrder(r, issued)
    requires d in issued && e in issued && d < e && e in r.out
    ensures d in r.out
  {
    var j :| 0 <= j < |issued| && issued[j] == d;
    var k :| 0 <= k < |issued| && issued[k] == e;
    EarlierAccounted(r, issued, j, k);
  }

  /** What is released beyond a prefix of the issued epochs lies beyond that prefix. */
  lemma ReleasedBeyond(r: Run, sofar: seq<Epoch>, more: seq<Epoch>, issued: seq<Epoch>, e: Epoch)
    requires |r.delivered| == |r.ended| && Complete(r) && InOrder(r, issued)
    requires r.out == sofar + more && Unique(r.out) && sofar <= issued && e in more
    ensures e in r.out && e in issued && e in issued[|sofar|..]
  {
    assert issued == sofar + issued[|sofar|..];
    assert e in r.out;
    ReleasedWasIssued(r, issued, e);
    var u :| 0 <= u < |more| && more[u] == e;
    assert r.out[|sofar| + u] == e;
    assert forall v | 0 <= v < |sofar| :: r.out[v] == sofar[v];
  }

  lemma BeyondOnly(issued: seq<Epoch>, sofar: seq<Epoch>, d: Epoch)
    requires Increasing(issued) && sofar <= issued && d in issued[|sofar|..]
    ensures d in issued && d !in sofar
  {
    var base := issued[|sofar|..];
    var k :| 0 <= k < |base| && base[k] == d;
    assert issued[|sofar| + k] == d;
  }

  /** Releases extend a prefix of the issued epochs to a longer prefix. */
  lemma PrefixGrows(r: Run, sofar: seq<Epoch>, more: seq<Epoch>, issued: seq<Epoch>)
    requires Tracks(r) && Complete(r) && Increasing(issued) && InOrder(r, issued)
    requires r.out == sofar + more && Increasing(more) && Unique(r.out) && sofar <= issued
    ensures r.out <= issued
  {
    var base := issued[|sofar|..];
    assert issued == sofar + base;
    forall e | e in more ensures e in base {
      ReleasedBeyond(r, sofar, more, issued, e);
    }
    forall d, e | d in base && e in more && d < e ensures d in more {
      ReleasedBeyond(r, sofar, more, issued, e);
      BeyondOnly(issued, sofar, d);
      EarlierReleased(r, issued, d, e);
    }
    NoGap(base, more);
  }

  /** When every input carries the issued epochs in order, so does the merged stream: a merge
      point can feed another one. */
  lemma {:induction false} MergedStreamInOrder(inputs: nat, evs: seq<Event>, issued: seq<Epoch>)
    requires LegalRun(inputs, evs) && PromptRun(inputs, evs)
    requires Increasing(issued) && InOrder(After(inputs, evs), issued)
    ensures After(inputs, evs).out <= issued
  {
    if evs != [] {
      var before, ev := evs[..|evs| - 1], evs[|evs| - 1];
      var r, r' := After(inputs, before), After(inputs, evs);
      RunKeeps(inputs, before);
      RunKeeps(inputs, evs);
      ReleasesAreComplete(inputs, evs);
      StillInOrder(r, ev, issued);
      MergedStreamInOrder(inputs, before, issued);
      OutGrows(r, ev, issued);
    }
  }

  lemma StillInOrder(r: Run, ev: Event, issued: seq<Epoch>)
    requires Legal(r, ev) && InOrder(Next(r, ev), issued)
    ensures InOrder(r, issued)
  {
    var r' := Next(r, ev);
    forall i | 0 <= i < |r.delivered| ensures r.delivered[i] <= issued {
      assert r.delivered[i] <= r'.delivered[i] <= issued;
    }
  }

  /** One event lets the merged stream grow by a stretch of the issued epochs. */
  lemma OutGrows(r: Run, ev: Event, issued: seq<Epoch>)
    requires Inv(r) && Legal(r, ev) && Inv(Next(r, ev)) && Complete(Next(r, ev))
    requires Increasing(issued) && InOrder(Next(r, ev), issued) && r.out <= issued
    ensures Next(r, ev).out <= issued
  {
    var r' := Next(r, ev);
    match ev
    case Deliver(i, e, ms) =>
      DeliverOut(r, i, e, ms);
      if r'.out == r.out + [e] {
        PrefixGrows(r', r.out, [e], issued);
      }
    case Notice(m) =>
      var released := ObserveOne(r.a, m).1;
      assert |released| <= 1 && (released != [] ==> released[1..] == []);
      assert MarkerEpochs(released) == [];
    case Done(i, now) =>
      DoneOut(r, i, now);
      AscendingLists(ReadySet(EndedAligner(r, i)));
      PrefixGrows(r', r.out, Ascending(ReadySet(EndedAligner(r, i))), issued);
  }
}
