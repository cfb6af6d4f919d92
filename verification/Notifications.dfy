/** What a merge point lets through besides markers: acks, finalizers and source completions, over
    every run of its inputs. */
module Notifications {
  import opened MarkerAlignment
  import opened AlignmentRuns

  /** What goes downstream in answer to one event. */
  ghost function LetOut(r: Run, ev: Event): seq<Message>
    requires Legal(r, ev)
  {
    match ev
    case Deliver(_, e, ms) => ObserveOne(r.a, Marker(e, ms)).1
    case Notice(m) => ObserveOne(r.a, m).1
    case Done(i, now) => EndInput(r.a, Watermark(r.delivered[i]), now).1
  }

  ghost function Downstream(inputs: nat, evs: seq<Event>): seq<Message>
    requires LegalRun(inputs, evs)
    decreases |evs|
  {
    if evs == [] then []
    else
      var before := evs[..|evs| - 1];
      Downstream(inputs, before) + LetOut(After(inputs, before), evs[|evs| - 1])
  }

  /** All but the markers. */
  function Notices(ms: seq<Message>): seq<Message> {
    if ms == [] then [] else (if ms[0].Marker? then [] else [ms[0]]) + Notices(ms[1..])
  }

  /** Every ack, and the first copy of every finalizer and of every source's completion. */
  function FirstCopies(evs: seq<Event>): seq<Message> {
    if evs == [] then []
    else
      var n := |evs| - 1;
      FirstCopies(evs[..n]) + match evs[n]
                              case Notice(m) => if m.Ack? || Notice(m) !in evs[..n] then [m] else []
                              case _ => []
  }

  lemma Regroup<T>(a: seq<T>, b: seq<T>, c: seq<T>)
    ensures a + (b + c) == (a + b) + c
  {
  }

  lemma Head(m: Message, rest: seq<Message>)
    ensures Notices([m] + rest) == (if m.Marker? then [] else [m]) + Notices(rest)
    ensures MarkerEpochs([m] + rest) == (if m.Marker? then [m.epoch] else []) + MarkerEpochs(rest)
  {
    assert ([m] + rest)[1..] == rest;
  }

  lemma {:induction false} NoticesSum(a: seq<Message>, b: seq<Message>)
    ensures Notices(a + b) == Notices(a) + Notices(b)
    ensures MarkerEpochs(a + b) == MarkerEpochs(a) + MarkerEpochs(b)
  {
    if a == [] {
      assert a + b == b;
    } else {
      var m, rest := a[0], a[1..];
      NoticesSum(rest, b);
      assert a == [m] + rest;
      Regroup([m], rest, b);
      Head(m, rest);
      Head(m, rest + b);
      Regroup(if m.Marker? then [] else [m], Notices(rest), Notices(b));
      Regroup(if m.Marker? then [m.epoch] else [], MarkerEpochs(rest), MarkerEpochs(b));
    }
  }

  lemma {:induction false} OnlyMarkers(epochs: seq<Epoch>, now: nat)
    ensures Notices(Markers(epochs, now)) == []
  {
    if epochs != [] {
      OnlyMarkers(epochs[1..], now);
      assert Markers(epochs, now)[1..] == Markers(epochs[1..], now);
    }
  }

  lemma SeenStep(r: Run, ev: Event)
    requires Legal(r, ev)
    ensures forall f :: f in Next(r, ev).a.seenFinalizers <==> f in r.a.seenFinalizers || ev == Notice(Finalizer(f))
    ensures forall s ::
      s in Next(r, ev).a.seenCompletions <==> s in r.a.seenCompletions || ev == Notice(SourceComplete(s))
  {
  }

  /** What the aligner has seen is what the run brought. */
  lemma {:induction false} SeenInRun(inputs: nat, evs: seq<Event>)
    requires LegalRun(inputs, evs)
    ensures forall f :: f in After(inputs, evs).a.seenFinalizers <==> Notice(Finalizer(f)) in evs
    ensures forall s :: s in After(inputs, evs).a.seenCompletions <==> Notice(SourceComplete(s)) in evs
    decreases |evs|
  {
    if evs != [] {
      var n := |evs| - 1;
      SeenInRun(inputs, evs[..n]);
      SeenStep(After(inputs, evs[..n]), evs[n]);
      assert forall ev :: ev in evs <==> ev in evs[..n] || ev == evs[n];
    }
  }

  lemma DeliverLetsOut(r: Run, i: nat, e: Epoch, ms: nat)
    requires Legal(r, Deliver(i, e, ms))
    ensures Notices(LetOut(r, Deliver(i, e, ms))) == []
  {
  }

  predicate Seen(a: Aligner, m: Message) {
    (m.Finalizer? && m.epoch in a.seenFinalizers) || (m.SourceComplete? && m.source in a.seenCompletions)
  }

  lemma NoticeLetsOut(r: Run, m: Message)
    requires Legal(r, Notice(m))
    ensures Notices(LetOut(r, Notice(m))) == if m.Ack? || !Seen(r.a, m) then [m] else []
  {
  }

  lemma DoneLetsOut(r: Run, i: nat, now: nat)
    requires Legal(r, Done(i, now))
    ensures Notices(LetOut(r, Done(i, now))) == []
  {
    OnlyMarkers(Ascending(ReadySet(r.a.(finished := r.a.finished + [Watermark(r.delivered[i])]))), now);
  }

  lemma LetsOut(r: Run, ev: Event)
    requires Legal(r, ev)
    ensures Next(r, ev).out == r.out + MarkerEpochs(LetOut(r, ev))
    ensures Notices(LetOut(r, ev)) == match ev
                                      case Notice(m) => if m.Ack? || !Seen(r.a, m) then [m] else []
                                      case _ => []
  {
    match ev
    case Deliver(i, e, ms) => DeliverLetsOut(r, i, e, ms);
    case Notice(m) => NoticeLetsOut(r, m);
    case Done(i, now) => DoneLetsOut(r, i, now);
  }

  lemma LastLetOut(inputs: nat, before: seq<Event>, ev: Event)
    requires LegalRun(inputs, before) && Legal(After(inputs, before), ev)
    ensures Notices(LetOut(After(inputs, before), ev)) == match ev
      case Notice(m) => if m.Ack? || Notice(m) !in before then [m] else []
      case _ => []
  {
    SeenInRun(inputs, before);
    LetsOut(After(inputs, before), ev);
  }

  /** In every run, besides the released markers, every ack goes on downstream, and so does the
      first copy of each finalizer and of each completion, no other copy, all in their order. */
  lemma {:induction false} NotificationsPassOnce(inputs: nat, evs: seq<Event>)
    requires LegalRun(inputs, evs)
    ensures Notices(Downstream(inputs, evs)) == FirstCopies(evs)
    ensures MarkerEpochs(Downstream(inputs, evs)) == After(inputs, evs).out
    decreases |evs|
  {
    if evs != [] {
      var n := |evs| - 1;
      NotificationsPassOnce(inputs, evs[..n]);
      LastLetOut(inputs, evs[..n], evs[n]);
      LetsOut(After(inputs, evs[..n]), evs[n]);
      NoticesSum(Downstream(inputs, evs[..n]), LetOut(After(inputs, evs[..n]), evs[n]));
    }
  }

  /** A released marker is the copy that completed the epoch; one that an ended input held back is new. */
  lemma MarkersCarryTheirTime(r: Run, ev: Event, m: Message)
    requires Legal(r, ev) && m in LetOut(r, ev) && m.Marker?
    ensures match ev
            case Deliver(_, e, ms) => m == Marker(e, ms)
            case Notice(_) => false
            case Done(_, now) => m.createdAtMs == now
  {
  }
}
