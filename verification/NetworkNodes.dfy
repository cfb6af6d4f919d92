/** What every step of a merge point or gate keeps: rows ahead of their markers, each released marker
    sent once, order, and finalizers behind their markers. */
module NetworkNodes {
  import opened MarkerAlignment
  import opened Network
  import opened NetworkStreams
  import A = AlignmentRuns
  import P = AtLeastOnce

  // ---------------------------------------------------------------- one event at an aligner

  /** The facts about the next run that the node's invariant rests on. */
  lemma TookEvent(p: Plant, node: Node, en: Entry, ev: A.Event)
    requires Legal(p, node, en) && A.Legal(Run(p, node, en), ev)
    ensures var en' := Took(p, node, en, ev);
      && Legal(p, node, en')
      && (A.PromptRun(|Inputs(p, node)|, en.events) && A.Prompt(Run(p, node, en), ev) ==>
            A.PromptRun(|Inputs(p, node)|, en'.events))
      && Run(p, node, en') == A.Next(Run(p, node, en), ev)
      && Run(p, node, en').out == Run(p, node, en).out + News(p, node, en, ev)
  {
    var n, more := |Inputs(p, node)|, en.events + [ev];
    A.RunOfOne(n, en.events, ev);
    assert more[..|more| - 1] == en.events && more[|more| - 1] == ev;
    OutExtends(Run(p, node, en), ev);
  }

  lemma OutExtends(r: A.Run, ev: A.Event)
    requires A.Legal(r, ev)
    ensures r.out <= A.Next(r, ev).out
    ensures A.Next(r, ev).out == r.out + A.Next(r, ev).out[|r.out|..]
  {
  }

  /** What was released covers all that it has to among what has passed. */
  lemma OutCovers(p: Plant, st: State, node: Node, en: Entry, e: Epoch)
    requires Sized(p, st) && NodesOk(p, st) && Legal(p, node, en) && Fits(p, node, en) && InputsOk(p, st, node, en)
    requires LetThrough(p, node, en, e)
    ensures Covers(p, st, node, e, en.merged)
  {
    var r := Run(p, node, en);
    A.ReleasesAreSafe(|Inputs(p, node)|, en.events);
    forall s: nat, o: nat | Under(p, s, o, node) ensures Ahead(p.topology, st.world, s, o, e, en.merged) {
      var i :| 0 <= i < |Inputs(p, node)| && p.takes(node, i, s, o) && Feeds(p, s, o, Inputs(p, node)[i]);
      assert InputOk(p, st, node, en, i, r.delivered[i], r.ended[i]);
      assert e in r.delivered[i] || r.ended[i];
      InputStandsBehind(p, st, node, en, i, r.delivered[i], r.ended[i], e, s, o);
    }
  }

  lemma CoversMore(p: Plant, st: State, node: Node, e: Epoch, items: seq<Item>, all: seq<Item>)
    requires Sized(p, st) && ValidNode(p, node) && Covers(p, st, node, e, items) && items <= all
    ensures Covers(p, st, node, e, all)
  {
    forall s: nat, o: nat | Under(p, s, o, node) ensures Ahead(p.topology, st.world, s, o, e, all) {
      if Row(s, o) in items {
        var j :| 0 <= j < |items| && items[j] == Row(s, o);
        assert all[j] == Row(s, o);
      }
      AheadMore(p.topology, st.world, s, o, e, items, all);
    }
  }

  lemma OldMarkerOk(p: Plant, st: State, node: Node, en: Entry, en': Entry, q: nat)
    requires Sized(p, st) && ValidNode(p, node) && en.merged <= en'.merged
    requires q < |en.merged| && en.merged[q].Mark? && MarkerOk(p, st, node, en, q)
    ensures en'.merged[q] == en.merged[q] && MarkerOk(p, st, node, en', q)
  {
    assert en'.merged[..q] == en.merged[..q];
  }

  lemma MarkersAfterRow(p: Plant, st: State, node: Node, en: Entry, en': Entry, row: Item)
    requires Sized(p, st) && ValidNode(p, node) && MarkersOk(p, st, node, en)
    requires row.Row? && (en'.merged == en.merged || en'.merged == en.merged + [row])
    ensures MarkersOk(p, st, node, en')
  {
    forall q | 0 <= q < |en'.merged| && en'.merged[q].Mark? ensures MarkerOk(p, st, node, en', q) {
      OldMarkerOk(p, st, node, en, en', q);
    }
  }

  // ---------------------------------------------------------------- what waits to be sent

  lemma {:induction false} WaitingChanges(outbox: seq<seq<Epoch>>, i: nat, box: seq<Epoch>)
    requires i < |outbox|
    ensures Waiting(outbox[i := box]) + multiset(outbox[i]) == Waiting(outbox) + multiset(box)
  {
    var changed, head := outbox[i := box], multiset(outbox[0]);
    if i == 0 {
      assert changed[1..] == outbox[1..];
    } else {
      WaitingChanges(outbox[1..], i - 1, box);
      assert changed[1..] == outbox[1..][i - 1 := box] && changed[0] == outbox[0] && outbox[1..][i - 1] == outbox[i];
      Regroup(head, Waiting(changed[1..]), multiset(outbox[i]), Waiting(outbox[1..]), multiset(box));
    }
  }

  lemma Regroup(head: multiset<Epoch>, a: multiset<Epoch>, b: multiset<Epoch>, c: multiset<Epoch>, d: multiset<Epoch>)
    requires a + b == c + d
    ensures head + a + b == head + c + d
  {
    assert head + a + b == head + (a + b);
  }

  lemma {:induction false} WaitingHas(outbox: seq<seq<Epoch>>, i: nat)
    requires i < |outbox|
    ensures multiset(outbox[i]) <= Waiting(outbox)
  {
    if i > 0 {
      WaitingHas(outbox[1..], i - 1);
    }
  }

  lemma {:induction false} WaitingEmpty(outbox: seq<seq<Epoch>>)
    requires forall i | 0 <= i < |outbox| :: outbox[i] == []
    ensures Waiting(outbox) == multiset{}
  {
    if outbox != [] {
      WaitingEmpty(outbox[1..]);
    }
  }

  /** What waits, and what was sent, was released. */
  lemma ReleasedIfWaiting(p: Plant, node: Node, en: Entry, e: Epoch)
    requires Legal(p, node, en) && Fits(p, node, en) && BooksOk(p, node, en)
    ensures e in Marks(en.merged) ==> e in Run(p, node, en).out
    ensures forall i | 0 <= i < |en.outbox| && e in en.outbox[i] :: e in Run(p, node, en).out
  {
    assert e in multiset(Marks(en.merged)) ==> e in multiset(Run(p, node, en).out);
    forall i | 0 <= i < |en.outbox| && e in en.outbox[i] ensures e in Run(p, node, en).out {
      WaitingHas(en.outbox, i);
      assert e in multiset(en.outbox[i]);
      assert e in multiset(Run(p, node, en).out);
    }
  }

  lemma {:induction false} UniqueCounts(s: seq<Epoch>, e: Epoch)
    requires A.Unique(s)
    ensures multiset(s)[e] <= 1
    decreases |s|
  {
    if s != [] {
      assert s == [s[0]] + s[1..];
      UniqueCounts(s[1..], e);
      assert s[0] !in s[1..];
    }
  }

  lemma TwiceCounts(s: seq<Epoch>, i: nat, j: nat)
    requires i < j < |s|
    ensures s[i] == s[j] ==> multiset(s)[s[j]] >= 2
  {
    assert s == s[..j] + [s[j]] + s[j + 1..];
    assert s[..j][i] == s[i] && s[i] in s[..j];
  }

  lemma UniqueWithin(some: seq<Epoch>, all: seq<Epoch>)
    requires A.Unique(all) && multiset(some) <= multiset(all)
    ensures A.Unique(some)
  {
    forall i, j | 0 <= i < j < |some| ensures some[i] != some[j] {
      TwiceCounts(some, i, j);
      UniqueCounts(all, some[j]);
    }
  }

  // ---------------------------------------------------------------- the books of a node

  lemma BooksAfterRow(p: Plant, node: Node, en: Entry, en': Entry, row: Item)
    requires Legal(p, node, en) && Legal(p, node, en') && Fits(p, node, en) && Fits(p, node, en')
    requires BooksOk(p, node, en) && row.Row? && (en'.merged == en.merged || en'.merged == en.merged + [row])
    requires en'.events == en.events && en'.outbox == en.outbox
    ensures BooksOk(p, node, en')
  {
    MarksSnoc(en.merged, row);
    assert Marks(en'.merged) == Marks(en.merged);
    assert Run(p, node, en') == Run(p, node, en);
  }

  /** What the aligner releases on a delivery is the delivered marker or nothing. */
  lemma DeliverBox(r: A.Run, i: nat, e: Epoch, ms: nat, news: seq<Epoch>, box: seq<Epoch>)
    requires A.Inv(r) && A.Legal(r, A.Deliver(i, e, ms)) && A.Next(r, A.Deliver(i, e, ms)).out == r.out + news
    requires BoxOk(box, r.delivered[i], r.ended[i])
    ensures BoxOk(box + news, r.delivered[i] + [e], r.ended[i])
  {
    A.DeliverOut(r, i, e, ms);
    if A.Next(r, A.Deliver(i, e, ms)).out == r.out + [e] {
      SameTail(r.out, news, [e]);
    } else {
      SameTail(r.out, news, []);
    }
    BoxGrows(box, r.delivered[i], e);
    assert box + [] == box;
  }

  lemma BoxGrows(box: seq<Epoch>, delivered: seq<Epoch>, e: Epoch)
    requires BoxOk(box, delivered, false)
    ensures BoxOk(box, delivered + [e], false) && BoxOk(box + [e], delivered + [e], false)
  {
    var more := delivered + [e];
    if A.Increasing(more) {
      assert forall i, j | 0 <= i < j < |delivered| :: delivered[i] == more[i] && delivered[j] == more[j];
      forall b | b in box ensures b < e {
        var i :| 0 <= i < |delivered| && delivered[i] == b;
        assert more[i] == b && more[|delivered|] == e;
      }
      assert forall i | 0 <= i < |box| :: box[i] in box;
    }
  }

  lemma SameTail(out: seq<Epoch>, a: seq<Epoch>, b: seq<Epoch>)
    requires out + a == out + b
    ensures a == b
  {
    assert (out + a)[|out|..] == a && (out + b)[|out|..] == b;
  }

  lemma DoneBox(r: A.Run, i: nat, now: nat, news: seq<Epoch>)
    requires A.Legal(r, A.Done(i, now)) && A.Next(r, A.Done(i, now)).out == r.out + news
    ensures A.Increasing(news)
  {
    A.DoneOut(r, i, now);
    AscendingLists(ReadySet(A.EndedAligner(r, i)));
    SameTail(r.out, news, Ascending(ReadySet(A.EndedAligner(r, i))));
  }

  /** What is released joins what waits. */
  lemma OneMoreWaits(sent: seq<Epoch>, outbox: seq<seq<Epoch>>, out: seq<Epoch>, i: nat, news: seq<Epoch>)
    requires i < |outbox| && multiset(sent) + Waiting(outbox) == multiset(out)
    ensures multiset(sent) + Waiting(outbox[i := outbox[i] + news]) == multiset(out + news)
  {
    WaitingChanges(outbox, i, outbox[i] + news);
    var changed, was, own := Waiting(outbox[i := outbox[i] + news]), Waiting(outbox), multiset(outbox[i]);
    assert changed + own == was + (own + multiset(news));
    forall e: Epoch ensures changed[e] == (was + multiset(news))[e] {
      assert (changed + own)[e] == (was + (own + multiset(news)))[e];
    }
    assert changed == was + multiset(news);
  }

  /** What is sent waits no more. */
  lemma OneLessWaits(sent: seq<Epoch>, outbox: seq<seq<Epoch>>, out: seq<Epoch>, i: nat)
    requires i < |outbox| && multiset(sent) + Waiting(outbox) == multiset(out)
    ensures multiset(sent + outbox[i]) + Waiting(outbox[i := []]) == multiset(out)
  {
    WaitingChanges(outbox, i, []);
    assert Waiting(outbox) == Waiting(outbox[i := []]) + multiset(outbox[i]);
  }

  /** The books once the aligner saw something on the i-th input. */
  lemma BooksAfterEvent(p: Plant, node: Node, en: Entry, en': Entry, i: nat, news: seq<Epoch>)
    requires Legal(p, node, en) && Legal(p, node, en') && Fits(p, node, en) && Fits(p, node, en')
    requires BooksOk(p, node, en) && i < |en.outbox|
    requires Run(p, node, en').out == Run(p, node, en).out + news && en'.merged == en.merged
    requires en'.outbox == en.outbox[i := en.outbox[i] + news]
    requires var r, r' := Run(p, node, en), Run(p, node, en');
      && |r'.delivered| == |r'.ended| == |Inputs(p, node)| && BoxOk(en'.outbox[i], r'.delivered[i], r'.ended[i])
      && forall j | 0 <= j < |Inputs(p, node)| && j != i ::
           r'.delivered[j] == r.delivered[j] && r'.ended[j] == r.ended[j]
    ensures BooksOk(p, node, en')
  {
    var r, r' := Run(p, node, en), Run(p, node, en');
    OneMoreWaits(Marks(en.merged), en.outbox, r.out, i, news);
    OtherBoxes(en.outbox, en'.outbox, i, r.delivered, r'.delivered, r.ended, r'.ended);
  }

  lemma OtherBoxes(outbox: seq<seq<Epoch>>, outbox': seq<seq<Epoch>>, i: nat, delivered: seq<seq<Epoch>>,
      delivered': seq<seq<Epoch>>, ended: seq<bool>, ended': seq<bool>)
    requires |outbox| == |outbox'| == |delivered| == |delivered'| == |ended| == |ended'|
    requires forall j | 0 <= j < |outbox| :: BoxOk(outbox[j], delivered[j], ended[j])
    requires forall j | 0 <= j < |outbox| && j != i ::
               outbox'[j] == outbox[j] && delivered'[j] == delivered[j] && ended'[j] == ended[j]
    requires i < |outbox| && BoxOk(outbox'[i], delivered'[i], ended'[i])
    ensures forall j | 0 <= j < |outbox| :: BoxOk(outbox'[j], delivered'[j], ended'[j])
  {
    forall j | 0 <= j < |outbox| ensures BoxOk(outbox'[j], delivered'[j], ended'[j]) {
      assert BoxOk(outbox[j], delivered[j], ended[j]);
    }
  }

  lemma BooksAfterNotice(p: Plant, node: Node, en: Entry, en': Entry)
    requires Legal(p, node, en) && Legal(p, node, en') && Fits(p, node, en) && Fits(p, node, en')
    requires BooksOk(p, node, en) && en'.merged == en.merged && en'.outbox == en.outbox
    requires Run(p, node, en').out == Run(p, node, en).out
    requires Run(p, node, en').delivered == Run(p, node, en).delivered
    requires Run(p, node, en').ended == Run(p, node, en).ended
    ensures BooksOk(p, node, en')
  {
    var r, r' := Run(p, node, en), Run(p, node, en');
    forall j | 0 <= j < |Inputs(p, node)| ensures BoxOk(en'.outbox[j], r'.delivered[j], r'.ended[j]) {
      assert BoxOk(en.outbox[j], r.delivered[j], r.ended[j]);
    }
  }

  // ---------------------------------------------------------------- one input of a node

  lemma AmongMore(p: Plant, node: Node, i: nat, items: seq<Item>, all: seq<Item>, more: seq<Item>)
    requires TakenAmong(p, node, i, items, all) && all <= more
    ensures TakenAmong(p, node, i, items, more)
  {
    forall j | 0 <= j < |items| && Takes(p, node, i, items[j]) ensures items[j] in more {
      var m :| 0 <= m < |all| && all[m] == items[j];
      assert more[m] == items[j];
    }
  }

  lemma InputKept(p: Plant, st: State, node: Node, en: Entry, en': Entry, i: nat, delivered: seq<Epoch>, ended: bool)
    requires Sized(p, st) && ValidNode(p, node) && Fits(p, node, en) && Fits(p, node, en') && i < |Inputs(p, node)|
    requires InputOk(p, st, node, en, i, delivered, ended)
    requires en'.told[i] == en.told[i] && en'.done[i] == en.done[i] && en.merged <= en'.merged
    ensures InputOk(p, st, node, en', i, delivered, ended)
  {
    AmongMore(p, node, i, Items(st, Inputs(p, node)[i])[..en.told[i]], en.merged, en'.merged);
  }

  lemma AmongNext(p: Plant, node: Node, i: nat, items: seq<Item>, n: nat, all: seq<Item>)
    requires n < |items| && TakenAmong(p, node, i, items[..n], all)
    requires Takes(p, node, i, items[n]) ==> items[n] in all
    ensures TakenAmong(p, node, i, items[..n + 1], all)
  {
    var more := items[..n + 1];
    forall j | 0 <= j < |more| && Takes(p, node, i, more[j]) ensures more[j] in all {
      if j < n {
        assert items[..n][j] == more[j];
      }
    }
  }

  /** The input once its next item passed. */
  lemma InputPasses(p: Plant, st: State, node: Node, en: Entry, en': Entry, i: nat, delivered: seq<Epoch>, ended: bool)
    requires Sized(p, st) && Available(p, st, node, i) && Fits(p, node, en') && en == EntryOf(st, node)
    requires InputOk(p, st, node, en, i, delivered, ended)
    requires en'.told[i] == en.told[i] + 1 && en'.done[i] == en.done[i] && en.merged <= en'.merged
    requires var item := Items(st, Inputs(p, node)[i])[en.told[i]];
             if item.Row? then Takes(p, node, i, item) ==> item in en'.merged
             else Flushed(p, st.world, node, i, Items(st, Inputs(p, node)[i])[..en.told[i]])
    ensures var item := Items(st, Inputs(p, node)[i])[en.told[i]];
            InputOk(p, st, node, en', i, delivered + if item.Mark? then [item.epoch] else [], ended)
  {
    var items, n := Items(st, Inputs(p, node)[i]), en.told[i];
    NextMarker(items, n);
    AmongMore(p, node, i, items[..n], en.merged, en'.merged);
    AmongNext(p, node, i, items, n, en'.merged);
    assert delivered + [] == delivered;
  }

  lemma InputEnds(p: Plant, st: State, node: Node, en: Entry, en': Entry, i: nat, delivered: seq<Epoch>, ended: bool)
    requires Sized(p, st) && ValidNode(p, node) && Fits(p, node, en) && Fits(p, node, en') && i < |Inputs(p, node)|
    requires InputOk(p, st, node, en, i, delivered, ended) && en.told[i] == |Items(st, Inputs(p, node)[i])|
    requires Ends(st, Inputs(p, node)[i]) && Flushed(p, st.world, node, i, Items(st, Inputs(p, node)[i]))
    requires en'.told[i] == en.told[i] && en'.done[i] && en.merged <= en'.merged
    ensures InputOk(p, st, node, en', i, delivered, true)
  {
    AmongMore(p, node, i, Items(st, Inputs(p, node)[i])[..en.told[i]], en.merged, en'.merged);
  }

  // ---------------------------------------------------------------- what passing something promises

  /** The node's invariant holds for the new entry, what went through stays through, and a stream that
      has ended gets no more. */
  ghost predicate Advances(p: Plant, st: State, node: Node, en: Entry, en': Entry)
    requires Sized(p, st)
  {
    && NodeOk(p, st, node, en')
    && (forall e | LetThrough(p, node, en, e) :: LetThrough(p, node, en', e))
    && (Finished(p, node, en) ==> Finished(p, node, en'))
    && en.merged <= en'.merged
    && (Closed(en) ==> Closed(en') && en'.merged == en.merged)
  }

  lemma InputsPass(p: Plant, st: State, node: Node, en: Entry, en': Entry, i: nat)
    requires Sized(p, st) && Available(p, st, node, i) && en == EntryOf(st, node)
    requires Legal(p, node, en) && InputsOk(p, st, node, en) && Legal(p, node, en') && |en'.outbox| == |en.outbox|
    requires en'.told == en.told[i := en.told[i] + 1] && en'.done == en.done
    requires en.merged <= en'.merged
    requires var item := Items(st, Inputs(p, node)[i])[en.told[i]];
      var r, r' := Run(p, node, en), Run(p, node, en');
      && i < |r.delivered| && r'.ended == r.ended
      && (item.Row? ==> (Takes(p, node, i, item) ==> item in en'.merged) && r'.delivered == r.delivered)
      && (item.Mark? ==>
            && Flushed(p, st.world, node, i, Items(st, Inputs(p, node)[i])[..en.told[i]])
            && r'.delivered == r.delivered[i := r.delivered[i] + [item.epoch]])
    ensures InputsOk(p, st, node, en')
  {
    var r, r' := Run(p, node, en), Run(p, node, en');
    forall j | 0 <= j < |Inputs(p, node)| ensures InputOk(p, st, node, en', j, r'.delivered[j], r'.ended[j]) {
      assert InputOk(p, st, node, en, j, r.delivered[j], r.ended[j]);
      if j == i {
        InputPasses(p, st, node, en, en', i, r.delivered[i], r.ended[i]);
        assert r.delivered[i] + [] == r.delivered[i];
      } else {
        InputKept(p, st, node, en, en', j, r.delivered[j], r.ended[j]);
      }
    }
  }

  /** An input with an item to pass has not ended. */
  lemma NotDone(p: Plant, st: State, node: Node, i: nat)
    requires Sized(p, st) && NodesOk(p, st) && Available(p, st, node, i)
    ensures NodeOk(p, st, node, EntryOf(st, node))
    ensures var en := EntryOf(st, node);
      && !en.done[i] && i < |Run(p, node, en).ended| && !Run(p, node, en).ended[i]
      && i < |Run(p, node, en).delivered|
      && Run(p, node, en).delivered[i] == Marks(Items(st, Inputs(p, node)[i])[..en.told[i]])
  {
    var en := EntryOf(st, node);
    assert NodeOk(p, st, node, en);
    var r := Run(p, node, en);
    assert InputOk(p, st, node, en, i, r.delivered[i], r.ended[i]);
  }

  lemma RowEntry(p: Plant, st: State, node: Node, i: nat)
    requires Sized(p, st) && Enabled(p, st, PassRow(node, i))
    ensures var en, row := EntryOf(st, node), Items(st, Inputs(p, node)[i])[EntryOf(st, node).told[i]];
      PassTo(p, st, PassRow(node, i)) == PastRow(en, i, row, Takes(p, node, i, row))
  {
  }

  lemma RowAdvances(p: Plant, st: State, node: Node, i: nat)
    requires Sized(p, st) && NodesOk(p, st) && Enabled(p, st, PassRow(node, i))
    ensures Advances(p, st, node, EntryOf(st, node), PassTo(p, st, PassRow(node, i)))
  {
    NotDone(p, st, node, i);
    RowEntry(p, st, node, i);
    RowKeeps(p, st, node, EntryOf(st, node), i, Items(st, Inputs(p, node)[i])[EntryOf(st, node).told[i]]);
  }

  lemma RowKeeps(p: Plant, st: State, node: Node, en: Entry, i: nat, row: Item)
    requires Sized(p, st) && Available(p, st, node, i) && en == EntryOf(st, node) && NodeOk(p, st, node, en)
    requires row == Items(st, Inputs(p, node)[i])[en.told[i]] && row.Row? && !en.done[i]
    requires i < |Run(p, node, en).delivered|
    ensures Advances(p, st, node, en, PastRow(en, i, row, Takes(p, node, i, row)))
  {
    var en' := PastRow(en, i, row, Takes(p, node, i, row));
    assert Run(p, node, en') == Run(p, node, en);
    InputsPass(p, st, node, en, en', i);
    BooksAfterRow(p, node, en, en', row);
    MarkersAfterRow(p, st, node, en, en', row);
    AdvancesBy(p, st, node, en, en');
  }

  lemma StreamIsUnique(p: Plant, st: State, x: Stream)
    requires Sized(p, st) && NodesOk(p, st) && LogsOk(p, st.world)
    ensures A.Unique(Marks(Items(st, x)))
  {
    match x
    case FromSource(s) =>
      if s < |st.world.sources| {
        var src := st.world.sources[s];
        MarksOfLog(s, src, |src.log|);
        assert LogItems(s, src)[..|src.log|] == LogItems(s, src) && src.log[..|src.log|] == src.log;
        assert OrderedLog(p.inOrder, st.world.markers, src.log);
      }
    case FromMerge(n) =>
      if n < |st.merges| {
        assert NodeOk(p, st, Merge(n), EntryOf(st, Merge(n)));
        A.ReleasesAreSafe(|Inputs(p, Merge(n))|, st.merges[n].events);
        UniqueWithin(Marks(st.merges[n].merged), Run(p, Merge(n), st.merges[n]).out);
      }
  }

  lemma MarkerIsLegal(p: Plant, st: State, node: Node, i: nat, ms: nat)
    requires Sized(p, st) && NodesOk(p, st) && LogsOk(p, st.world) && Enabled(p, st, PassMarker(node, i, ms))
    ensures NodeOk(p, st, node, EntryOf(st, node))
    ensures var en := EntryOf(st, node);
      var ev := A.Deliver(i, Items(st, Inputs(p, node)[i])[en.told[i]].epoch, ms);
      A.Legal(Run(p, node, en), ev) && A.Prompt(Run(p, node, en), ev)
  {
    NotDone(p, st, node, i);
    StreamIsUnique(p, st, Inputs(p, node)[i]);
    NextIsNew(Items(st, Inputs(p, node)[i]), EntryOf(st, node).told[i]);
  }

  lemma DeliverIsQuiet(r: A.Run, i: nat, e: Epoch, ms: nat)
    requires A.Legal(r, A.Deliver(i, e, ms))
    ensures var r' := A.Next(r, A.Deliver(i, e, ms));
      i < |r.delivered| && r'.delivered == r.delivered[i := r.delivered[i] + [e]] && r'.ended == r.ended
  {
  }

  lemma MarkerAdvances(p: Plant, st: State, node: Node, i: nat, ms: nat)
    requires Sized(p, st) && NodesOk(p, st) && LogsOk(p, st.world) && Enabled(p, st, PassMarker(node, i, ms))
    ensures Advances(p, st, node, EntryOf(st, node), PassTo(p, st, PassMarker(node, i, ms)))
  {
    MarkerIsLegal(p, st, node, i, ms);
    NotDone(p, st, node, i);
    var en, e := EntryOf(st, node), Items(st, Inputs(p, node)[i])[EntryOf(st, node).told[i]].epoch;
    TookEvent(p, node, en, A.Deliver(i, e, ms));
    DeliverIsQuiet(Run(p, node, en), i, e, ms);
    var en' := PastMarker(p, node, en, i, e, ms);
    assert PassTo(p, st, PassMarker(node, i, ms)) == en';
    assert Run(p, node, en') == Run(p, node, Took(p, node, en, A.Deliver(i, e, ms)));
    InputsPass(p, st, node, en, en', i);
    MarkerBooks(p, node, en, en', i, e, ms);
    MarkersStand(p, st, node, en, en');
    AdvancesBy(p, st, node, en, en');
  }

  lemma MarkerBooks(p: Plant, node: Node, en: Entry, en': Entry, i: nat, e: Epoch, ms: nat)
    requires Legal(p, node, en) && Legal(p, node, en') && Fits(p, node, en) && BooksOk(p, node, en)
    requires i < |en.outbox| && A.Legal(Run(p, node, en), A.Deliver(i, e, ms))
    requires en' == PastMarker(p, node, en, i, e, ms)
    requires Run(p, node, en') == A.Next(Run(p, node, en), A.Deliver(i, e, ms))
    requires Run(p, node, en').out == Run(p, node, en).out + News(p, node, en, A.Deliver(i, e, ms))
    ensures BooksOk(p, node, en')
  {
    var news := News(p, node, en, A.Deliver(i, e, ms));
    A.RunKeeps(|Inputs(p, node)|, en.events);
    DeliverIsQuiet(Run(p, node, en), i, e, ms);
    assert BoxOk(en.outbox[i], Run(p, node, en).delivered[i], Run(p, node, en).ended[i]);
    DeliverBox(Run(p, node, en), i, e, ms, news, en.outbox[i]);
    BooksAfterEvent(p, node, en, en', i, news);
  }

  lemma MarkersStand(p: Plant, st: State, node: Node, en: Entry, en': Entry)
    requires Sized(p, st) && ValidNode(p, node) && MarkersOk(p, st, node, en) && en'.merged == en.merged
    ensures MarkersOk(p, st, node, en')
  {
    forall q | 0 <= q < |en'.merged| && en'.merged[q].Mark? ensures MarkerOk(p, st, node, en', q) {
      OldMarkerOk(p, st, node, en, en', q);
    }
  }

  /** What it takes for an entry to advance. */
  lemma AdvancesBy(p: Plant, st: State, node: Node, en: Entry, en': Entry)
    requires Sized(p, st) && Legal(p, node, en) && Legal(p, node, en') && Fits(p, node, en')
    requires p.inOrder && p.inTurn ==> A.PromptRun(|Inputs(p, node)|, en'.events)
    requires InputsOk(p, st, node, en') && BooksOk(p, node, en') && MarkersOk(p, st, node, en')
    requires Run(p, node, en).out <= Run(p, node, en').out && |Run(p, node, en).ended| == |Run(p, node, en').ended|
    requires forall i | 0 <= i < |Run(p, node, en).ended| :: Run(p, node, en).ended[i] ==> Run(p, node, en').ended[i]
    requires en.merged <= en'.merged && (Closed(en) ==> Closed(en') && en'.merged == en.merged)
    ensures Advances(p, st, node, en, en')
  {
  }

  lemma InputsEnd(p: Plant, st: State, node: Node, en: Entry, en': Entry, i: nat)
    requires Sized(p, st) && Legal(p, node, en) && Fits(p, node, en) && InputsOk(p, st, node, en)
    requires Legal(p, node, en') && |en'.outbox| == |en.outbox| && i < |Inputs(p, node)|
    requires en.told[i] == |Items(st, Inputs(p, node)[i])| && Ends(st, Inputs(p, node)[i])
    requires Flushed(p, st.world, node, i, Items(st, Inputs(p, node)[i]))
    requires en'.told == en.told && en'.done == en.done[i := true] && en.merged <= en'.merged
    requires var r, r' := Run(p, node, en), Run(p, node, en');
      i < |r.ended| && r'.delivered == r.delivered && r'.ended == r.ended[i := true]
    ensures InputsOk(p, st, node, en')
  {
    var r, r' := Run(p, node, en), Run(p, node, en');
    forall j | 0 <= j < |Inputs(p, node)| ensures InputOk(p, st, node, en', j, r'.delivered[j], r'.ended[j]) {
      assert InputOk(p, st, node, en, j, r.delivered[j], r.ended[j]);
      if j == i {
        InputEnds(p, st, node, en, en', i, r.delivered[i], r.ended[i]);
      } else {
        InputKept(p, st, node, en, en', j, r.delivered[j], r.ended[j]);
      }
    }
  }

  lemma DoneIsQuiet(r: A.Run, i: nat, now: nat)
    requires A.Legal(r, A.Done(i, now))
    ensures var r' := A.Next(r, A.Done(i, now));
      i < |r.ended| && r'.delivered == r.delivered && r'.ended == r.ended[i := true]
  {
  }

  lemma EndIsLegal(p: Plant, st: State, node: Node, en: Entry, i: nat, now: nat)
    requires Sized(p, st) && NodeOk(p, st, node, en) && i < |Inputs(p, node)| && !en.done[i]
    ensures A.Legal(Run(p, node, en), A.Done(i, now)) && A.Prompt(Run(p, node, en), A.Done(i, now))
  {
    var r := Run(p, node, en);
    assert InputOk(p, st, node, en, i, r.delivered[i], r.ended[i]);
  }

  lemma EndAdvances(p: Plant, st: State, node: Node, i: nat, now: nat)
    requires Sized(p, st) && NodesOk(p, st) && Enabled(p, st, PassEnd(node, i, now))
    ensures Advances(p, st, node, EntryOf(st, node), PassTo(p, st, PassEnd(node, i, now)))
  {
    assert NodeOk(p, st, node, EntryOf(st, node));
    assert PassTo(p, st, PassEnd(node, i, now)) == PastEnd(p, node, EntryOf(st, node), i, now);
    EndKeeps(p, st, node, EntryOf(st, node), i, now);
  }

  lemma EndRun(p: Plant, st: State, node: Node, en: Entry, i: nat, now: nat)
    requires Sized(p, st) && NodeOk(p, st, node, en) && i < |Inputs(p, node)| && !en.done[i]
    ensures A.Legal(Run(p, node, en), A.Done(i, now)) && Legal(p, node, PastEnd(p, node, en, i, now))
    ensures var r, r' := Run(p, node, en), Run(p, node, PastEnd(p, node, en, i, now));
      && r' == A.Next(r, A.Done(i, now)) && r'.out == r.out + News(p, node, en, A.Done(i, now))
      && i < |r.ended| && r'.delivered == r.delivered && r'.ended == r.ended[i := true]
    ensures p.inOrder && p.inTurn ==> A.PromptRun(|Inputs(p, node)|, PastEnd(p, node, en, i, now).events)
  {
    EndIsLegal(p, st, node, en, i, now);
    TookEvent(p, node, en, A.Done(i, now));
    DoneIsQuiet(Run(p, node, en), i, now);
    assert Run(p, node, PastEnd(p, node, en, i, now)) == Run(p, node, Took(p, node, en, A.Done(i, now)));
  }

  lemma EndKeeps(p: Plant, st: State, node: Node, en: Entry, i: nat, now: nat)
    requires Sized(p, st) && NodesOk(p, st) && NodeOk(p, st, node, en)
    requires i < |Inputs(p, node)| && !en.done[i] && en.outbox[i] == []
    requires Ends(st, Inputs(p, node)[i]) && en.told[i] == |Items(st, Inputs(p, node)[i])|
    requires Flushed(p, st.world, node, i, Items(st, Inputs(p, node)[i]))
    ensures Advances(p, st, node, en, PastEnd(p, node, en, i, now))
  {
    var en' := PastEnd(p, node, en, i, now);
    EndRun(p, st, node, en, i, now);
    InputsEnd(p, st, node, en, en', i);
    EndBooks(p, node, en, en', i, now);
    MarkersStand(p, st, node, en, en');
    AdvancesBy(p, st, node, en, en');
  }

  lemma EndBooks(p: Plant, node: Node, en: Entry, en': Entry, i: nat, now: nat)
    requires Legal(p, node, en) && Legal(p, node, en') && Fits(p, node, en) && BooksOk(p, node, en)
    requires i < |en.outbox| && en.outbox[i] == [] && A.Legal(Run(p, node, en), A.Done(i, now))
    requires en' == PastEnd(p, node, en, i, now)
    requires Run(p, node, en') == A.Next(Run(p, node, en), A.Done(i, now))
    requires Run(p, node, en').out == Run(p, node, en).out + News(p, node, en, A.Done(i, now))
    ensures BooksOk(p, node, en')
  {
    var news := News(p, node, en, A.Done(i, now));
    DoneIsQuiet(Run(p, node, en), i, now);
    DoneBox(Run(p, node, en), i, now, news);
    assert [] + news == news;
    BooksAfterEvent(p, node, en, en', i, news);
  }

  // ---------------------------------------------------------------- markers stay in order

  lemma OrderedMarks(markers: set<Epoch>, log: seq<P.Item>)
    requires OrderedLog(true, markers, log)
    ensures LogMarks(log) <= Ascending(markers)
  {
    AscendingLists(markers);
    A.NoGap(Ascending(markers), LogMarks(log));
  }

  /** While no source skips a marker, every stream carries the issued ones in order without a gap. */
  lemma {:induction false} StreamIsOrdered(p: Plant, st: State, x: Stream)
    requires Sized(p, st) && NodesOk(p, st) && LogsOk(p, st.world) && p.inOrder && p.inTurn
    ensures Marks(Items(st, x)) <= Ascending(st.world.markers)
    decreases 2 * Rank(x)
  {
    match x
    case FromSource(s) =>
      if s < |st.world.sources| {
        var src := st.world.sources[s];
        MarksOfLog(s, src, |src.log|);
        assert LogItems(s, src)[..|src.log|] == LogItems(s, src) && src.log[..|src.log|] == src.log;
        assert OrderedLog(p.inOrder, st.world.markers, src.log);
        OrderedMarks(st.world.markers, src.log);
      }
    case FromMerge(n) =>
      if n < |st.merges| {
        NodeIsOrdered(p, st, Merge(n));
        assert st.merges[n] == EntryOf(st, Merge(n));
      }
  }

  lemma {:induction false} NodeIsOrdered(p: Plant, st: State, node: Node)
    requires Sized(p, st) && NodesOk(p, st) && LogsOk(p, st.world) && p.inOrder && p.inTurn && ValidNode(p, node)
    ensures NodeOk(p, st, node, EntryOf(st, node))
    ensures A.InOrder(Run(p, node, EntryOf(st, node)), Ascending(st.world.markers))
    ensures Run(p, node, EntryOf(st, node)).out <= Ascending(st.world.markers)
    decreases 2 * Level(p, node) + 1
  {
    var en := EntryOf(st, node);
    assert NodeOk(p, st, node, en);
    var r, issued := Run(p, node, en), Ascending(st.world.markers);
    forall i | 0 <= i < |r.delivered| ensures r.delivered[i] <= issued {
      assert InputOk(p, st, node, en, i, r.delivered[i], r.ended[i]);
      assert ValidStream(p, Inputs(p, node)[i], Level(p, node));
      StreamIsOrdered(p, st, Inputs(p, node)[i]);
      MarksPrefix(Items(st, Inputs(p, node)[i]), en.told[i]);
    }
    AscendingLists(st.world.markers);
    A.MergedStreamInOrder(|Inputs(p, node)|, en.events, issued);
  }

  // ---------------------------------------------------------------- finalizers keep behind their markers

  /** The epoch went through the node, or nothing can come through it any more. */
  ghost predicate WentThrough(p: Plant, st: State, node: Node, e: Epoch)
    requires Sized(p, st)
  {
    ValidNode(p, node) && (LetThrough(p, node, EntryOf(st, node), e) || Finished(p, node, EntryOf(st, node)))
  }

  /** What went through a node went through every merge point that it reads. */
  lemma WentThroughInput(p: Plant, st: State, node: Node, i: nat, n: nat, e: Epoch)
    requires Sized(p, st) && NodesOk(p, st) && Reads(p, node, i, n) && n < |p.merges|
    requires WentThrough(p, st, node, e)
    ensures WentThrough(p, st, Merge(n), e)
  {
    var en := EntryOf(st, node);
    assert NodeOk(p, st, node, en) && NodeOk(p, st, Merge(n), EntryOf(st, Merge(n)));
    var r := Run(p, node, en);
    assert InputOk(p, st, node, en, i, r.delivered[i], r.ended[i]);
    A.ReleasesAreSafe(|Inputs(p, node)|, en.events);
    assert e in r.delivered[i] || r.ended[i];
    if r.ended[i] {
      DoneIsFinished(p, st, Merge(n));
    } else {
      MarksPrefix(st.merges[n].merged, en.told[i]);
      assert e in Marks(st.merges[n].merged);
      ReleasedIfWaiting(p, Merge(n), st.merges[n], e);
    }
  }

  lemma DoneIsFinished(p: Plant, st: State, node: Node)
    requires Sized(p, st) && NodesOk(p, st) && ValidNode(p, node) && AllDone(EntryOf(st, node))
    ensures Finished(p, node, EntryOf(st, node))
  {
    var en := EntryOf(st, node);
    assert NodeOk(p, st, node, en);
    var r := Run(p, node, en);
    forall i | 0 <= i < |r.ended| ensures r.ended[i] {
      assert InputOk(p, st, node, en, i, r.delivered[i], r.ended[i]);
    }
  }

  /** A gate, or a later merge point, reads merge point n. */
  lemma ReaderOf(p: Plant, n: nat) returns (node: Node, i: nat)
    requires WellBuilt(p) && n < |p.merges|
    ensures Reads(p, node, i, n) && (node.Merge? ==> n < node.n)
  {
    assert IsRead(p, n);
    node, i :| Reads(p, node, i, n);
    assert ValidStream(p, Inputs(p, node)[i], Level(p, node));
  }

  /** What went through every gate went through every merge point. */
  lemma {:induction false} WentThroughAll(p: Plant, st: State, n: nat, e: Epoch)
    requires Sized(p, st) && NodesOk(p, st) && n < |p.merges|
    requires forall k: nat | k < |p.gates| :: WentThrough(p, st, Gate(k), e)
    ensures WentThrough(p, st, Merge(n), e)
    decreases |p.merges| - n
  {
    var node, i := ReaderOf(p, n);
    if node.Merge? {
      WentThroughAll(p, st, node.n, e);
    } else {
      assert WentThrough(p, st, Gate(node.k), e);
    }
    WentThroughInput(p, st, node, i, n, e);
  }

  /** At a node that the epoch went through its finalizer overtakes no marker. */
  lemma FinalizerIsPrompt(p: Plant, st: State, node: Node, e: Epoch)
    requires Sized(p, st) && NodesOk(p, st) && LogsOk(p, st.world)
    requires p.inOrder && p.inTurn && WentThrough(p, st, node, e)
    ensures A.Prompt(Run(p, node, EntryOf(st, node)), A.Notice(Finalizer(e)))
  {
    NodeIsOrdered(p, st, node);
    ThroughIsPrompt(|Inputs(p, node)|, EntryOf(st, node).events, st.world.markers, e);
  }

  lemma ThroughIsPrompt(inputs: nat, evs: seq<A.Event>, markers: set<Epoch>, e: Epoch)
    requires A.LegalRun(inputs, evs) && A.PromptRun(inputs, evs)
    requires A.InOrder(A.After(inputs, evs), Ascending(markers)) && A.After(inputs, evs).out <= Ascending(markers)
    requires e in A.After(inputs, evs).out || A.AllEnded(A.After(inputs, evs))
    ensures A.Prompt(A.After(inputs, evs), A.Notice(Finalizer(e)))
  {
    if A.AllEnded(A.After(inputs, evs)) {
      AllOut(inputs, evs);
    } else {
      AscendingLists(markers);
      OrderedIsPrompt(A.After(inputs, evs), Ascending(markers), e);
    }
  }

  lemma OrderedIsPrompt(r: A.Run, issued: seq<Epoch>, e: Epoch)
    requires A.InOrder(r, issued) && r.out <= issued && A.Increasing(issued) && e in r.out
    ensures A.Prompt(r, A.Notice(Finalizer(e)))
  {
    OutUpTo(r.out, issued, e);
    forall i, j | 0 <= i < |r.delivered| && 0 <= j < |r.delivered[i]| && r.delivered[i][j] <= e
      ensures r.delivered[i][j] in r.out
    {
      assert r.delivered[i] <= issued && r.delivered[i][j] == issued[j];
    }
  }

  lemma OutUpTo(out: seq<Epoch>, issued: seq<Epoch>, e: Epoch)
    requires out <= issued && A.Increasing(issued) && e in out
    ensures forall x | x in issued && x <= e :: x in out
  {
    var a :| 0 <= a < |out| && out[a] == e;
    assert issued[a] == e;
    forall x | x in issued && x <= e ensures x in out {
      var j :| 0 <= j < |issued| && issued[j] == x;
      assert j <= a;
      assert out[j] == x;
    }
  }

  /** Once all inputs have ended, all that was delivered is out. */
  lemma AllOut(inputs: nat, evs: seq<A.Event>)
    requires A.LegalRun(inputs, evs) && A.PromptRun(inputs, evs) && A.AllEnded(A.After(inputs, evs))
    ensures var r := A.After(inputs, evs);
      forall i, j | 0 <= i < |r.delivered| && 0 <= j < |r.delivered[i]| :: r.delivered[i][j] in r.out
  {
    var r := A.After(inputs, evs);
    A.ReleasesAreComplete(inputs, evs);
    forall i, j | 0 <= i < |r.delivered| && 0 <= j < |r.delivered[i]| ensures r.delivered[i][j] in r.out {
      assert i in A.Deliverers(r, r.delivered[i][j]);
    }
  }

  lemma NoticeIsQuiet(r: A.Run, m: Message)
    requires A.Legal(r, A.Notice(m))
    ensures var r' := A.Next(r, A.Notice(m));
      r'.delivered == r.delivered && r'.ended == r.ended && r'.out == r.out
  {
    var released := ObserveOne(r.a, m).1;
    assert |released| <= 1 && (released != [] ==> released[1..] == []);
    assert A.MarkerEpochs(released) == [];
  }

  lemma InputsKept(p: Plant, st: State, node: Node, en: Entry, en': Entry)
    requires Sized(p, st) && Legal(p, node, en) && Fits(p, node, en) && InputsOk(p, st, node, en) && Legal(p, node, en')
    requires en'.told == en.told && en'.done == en.done && |en'.outbox| == |en.outbox| && en.merged <= en'.merged
    requires Run(p, node, en').delivered == Run(p, node, en).delivered
    requires Run(p, node, en').ended == Run(p, node, en).ended
    ensures InputsOk(p, st, node, en')
  {
    var r := Run(p, node, en);
    forall i | 0 <= i < |Inputs(p, node)| ensures InputOk(p, st, node, en', i, r.delivered[i], r.ended[i]) {
      assert InputOk(p, st, node, en, i, r.delivered[i], r.ended[i]);
      InputKept(p, st, node, en, en', i, r.delivered[i], r.ended[i]);
    }
  }

  lemma NoticeAdvances(p: Plant, st: State, node: Node, m: Message)
    requires Sized(p, st) && NodesOk(p, st) && LogsOk(p, st.world) && Enabled(p, st, PassNotice(node, m))
    requires m.Finalizer? ==> forall k: nat | k < |p.gates| :: WentThrough(p, st, Gate(k), m.epoch)
    ensures Advances(p, st, node, EntryOf(st, node), PassTo(p, st, PassNotice(node, m)))
  {
    var en := EntryOf(st, node);
    assert NodeOk(p, st, node, en);
    if p.inOrder && p.inTurn && m.Finalizer? {
      WentThroughAll(p, st, node.n, m.epoch);
      FinalizerIsPrompt(p, st, node, m.epoch);
    }
    TookEvent(p, node, en, A.Notice(m));
    NoticeIsQuiet(Run(p, node, en), m);
    var en' := Took(p, node, en, A.Notice(m));
    InputsKept(p, st, node, en, en');
    BooksAfterNotice(p, node, en, en');
    MarkersStand(p, st, node, en, en');
    AdvancesBy(p, st, node, en, en');
  }

  // ---------------------------------------------------------------- sending what was released

  /** A list that skips nothing of another one, both increasing, begins it. */
  lemma Begins(some: seq<Epoch>, all: seq<Epoch>)
    requires A.Increasing(some) && A.Increasing(all) && forall e | e in some :: e in all
    ensures some <= all <==> forall d, e | d in all && e in some && d < e :: d in some
  {
    if forall d, e | d in all && e in some && d < e :: d in some {
      A.NoGap(all, some);
    }
    if some <= all {
      forall d, e | d in all && e in some && d < e ensures d in some {
        var i :| 0 <= i < |all| && all[i] == d;
        var j :| 0 <= j < |some| && some[j] == e;
        assert all[j] == e && i < j && some[i] == d;
      }
    }
  }

  lemma {:induction false} WaitingFrom(outbox: seq<seq<Epoch>>, e: Epoch)
    requires e in Waiting(outbox)
    ensures exists i :: 0 <= i < |outbox| && e in outbox[i]
  {
    if e in outbox[0] {
      assert 0 < |outbox|;
    } else {
      WaitingFrom(outbox[1..], e);
      var i :| 0 <= i < |outbox[1..]| && e in outbox[1..][i];
      assert e in outbox[i + 1];
    }
  }

  lemma TwoBoxes(outbox: seq<seq<Epoch>>, i: nat, j: nat)
    requires i < |outbox| && j < |outbox| && i != j
    ensures multiset(outbox[i]) + multiset(outbox[j]) <= Waiting(outbox)
  {
    WaitingChanges(outbox, i, []);
    WaitingHas(outbox[i := []], j);
    assert Waiting(outbox) == Waiting(outbox[i := []]) + multiset(outbox[i]);
  }

  /** What is still to be sent is what was released and not sent. */
  lemma StillToSend(sent: seq<Epoch>, outbox: seq<seq<Epoch>>, out: seq<Epoch>)
    requires sent <= out && multiset(sent) + Waiting(outbox) == multiset(out)
    ensures multiset(out[|sent|..]) == Waiting(outbox)
  {
    assert out == sent + out[|sent|..];
    assert multiset(out) == multiset(sent) + multiset(out[|sent|..]);
    Cancel(multiset(sent), multiset(out[|sent|..]), Waiting(outbox));
  }

  lemma Cancel(a: multiset<Epoch>, b: multiset<Epoch>, c: multiset<Epoch>)
    requires a + b == a + c
    ensures b == c
  {
    forall e: Epoch ensures b[e] == c[e] {
      assert (a + b)[e] == (a + c)[e];
    }
  }

  /** A forwarder's markers are the next ones exactly when no other forwarder holds an earlier one. */
  lemma NextWhenDue(outbox: seq<seq<Epoch>>, i: nat, rest: seq<Epoch>)
    requires i < |outbox| && multiset(rest) == Waiting(outbox) && A.Increasing(rest) && A.Increasing(outbox[i])
    ensures outbox[i] <= rest <==> InTurn(outbox, i)
  {
    forall k, e | 0 <= k < |outbox| && e in outbox[k] ensures e in rest {
      WaitingHas(outbox, k);
      assert e in multiset(outbox[k]) && e in multiset(rest);
    }
    Begins(outbox[i], rest);
    if InTurn(outbox, i) {
      forall d, e | d in rest && e in outbox[i] && d < e ensures d in outbox[i] {
        assert d in multiset(rest);
        WaitingFrom(outbox, d);
      }
    }
    if outbox[i] <= rest {
      forall j, d, e | 0 <= j < |outbox| && j != i && d in outbox[i] && e in outbox[j] ensures d < e {
        if e <= d {
          assert e in outbox[i];
          HeldOnce(outbox, i, j, rest, e);
        }
      }
    }
  }

  lemma HeldOnce(outbox: seq<seq<Epoch>>, i: nat, j: nat, rest: seq<Epoch>, e: Epoch)
    requires i < |outbox| && j < |outbox| && i != j && multiset(rest) == Waiting(outbox) && A.Increasing(rest)
    ensures !(e in outbox[i] && e in outbox[j])
  {
    TwoBoxes(outbox, i, j);
    UniqueCounts(rest, e);
    assert e in outbox[i] ==> multiset(outbox[i])[e] >= 1;
    assert e in outbox[j] ==> multiset(outbox[j])[e] >= 1;
    assert multiset(outbox[i])[e] + multiset(outbox[j])[e] <= Waiting(outbox)[e];
  }

  lemma PrefixCases(sent: seq<Epoch>, box: seq<Epoch>, out: seq<Epoch>)
    requires sent <= out
    ensures sent + box <= out <==> box <= out[|sent|..]
  {
    var rest := out[|sent|..];
    assert out == sent + rest;
    if sent + box <= out {
      assert forall k | 0 <= k < |box| :: (sent + box)[|sent| + k] == box[k] && out[|sent| + k] == rest[k];
    }
    if box <= rest {
      assert rest == box + rest[|box|..];
      assert out == (sent + box) + rest[|box|..];
    }
  }

  /** Sending what one forwarder holds keeps the merged markers a beginning of what was released
      exactly when no other forwarder holds an earlier one. */
  lemma SendInTurn(p: Plant, node: Node, en: Entry, i: nat)
    requires Legal(p, node, en) && Fits(p, node, en) && BooksOk(p, node, en) && i < |en.outbox|
    requires A.Increasing(Run(p, node, en).out) && Marks(en.merged) <= Run(p, node, en).out
    requires i < |Run(p, node, en).delivered| && A.Increasing(Run(p, node, en).delivered[i])
    ensures Marks(PastSend(en, i).merged) <= Run(p, node, en).out <==> InTurn(en.outbox, i)
  {
    var sent, out := Marks(en.merged), Run(p, node, en).out;
    MarksOfMarks(en.merged, en.outbox[i]);
    StillToSend(sent, en.outbox, out);
    assert BoxOk(en.outbox[i], Run(p, node, en).delivered[i], Run(p, node, en).ended[i]);
    NextWhenDue(en.outbox, i, out[|sent|..]);
    PrefixCases(sent, en.outbox[i], out);
  }

  lemma SendConserves(p: Plant, node: Node, en: Entry, i: nat)
    requires Legal(p, node, en) && Fits(p, node, en) && i < |en.outbox|
    requires multiset(Marks(en.merged)) + Waiting(en.outbox) == multiset(Run(p, node, en).out)
    ensures var en' := PastSend(en, i);
      && Legal(p, node, en') && Run(p, node, en') == Run(p, node, en)
      && multiset(Marks(en'.merged)) + Waiting(en'.outbox) == multiset(Run(p, node, en').out)
  {
    MarksOfMarks(en.merged, en.outbox[i]);
    OneLessWaits(Marks(en.merged), en.outbox, Run(p, node, en).out, i);
  }

  lemma BooksAfterSend(p: Plant, node: Node, en: Entry, i: nat)
    requires Legal(p, node, en) && Fits(p, node, en) && BooksOk(p, node, en) && i < |en.outbox|
    requires p.inOrder && p.inTurn && node.Merge? ==> InTurn(en.outbox, i) && A.Increasing(Run(p, node, en).out)
    requires p.inOrder && p.inTurn && node.Merge? ==>
               i < |Run(p, node, en).delivered| && A.Increasing(Run(p, node, en).delivered[i])
    ensures Legal(p, node, PastSend(en, i)) && BooksOk(p, node, PastSend(en, i))
  {
    SendConserves(p, node, en, i);
    var r, en' := Run(p, node, en), PastSend(en, i);
    forall j | 0 <= j < |Inputs(p, node)| ensures BoxOk(en'.outbox[j], r.delivered[j], r.ended[j]) {
      assert BoxOk(en.outbox[j], r.delivered[j], r.ended[j]);
    }
    if p.inOrder && p.inTurn && node.Merge? {
      SendInTurn(p, node, en, i);
    }
  }

  lemma SentStandsAt(en: Entry, i: nat, j: nat)
    requires i < |en.outbox| && j < |en.outbox[i]|
    ensures var en', q := PastSend(en, i), |en.merged| + j;
      q < |en'.merged| && en'.merged[q] == Mark(en.outbox[i][j]) && en.merged <= en'.merged[..q]
  {
  }

  lemma SentMarkerOk(p: Plant, st: State, node: Node, en: Entry, i: nat, q: nat)
    requires Sized(p, st) && NodesOk(p, st) && Legal(p, node, en) && Fits(p, node, en) && InputsOk(p, st, node, en)
    requires BooksOk(p, node, en) && i < |en.outbox| && |en.merged| <= q < |PastSend(en, i).merged|
    ensures PastSend(en, i).merged[q].Mark? && MarkerOk(p, st, node, PastSend(en, i), q)
  {
    var e := en.outbox[i][q - |en.merged|];
    ReleasedIfWaiting(p, node, en, e);
    OutCovers(p, st, node, en, e);
    SentStandsAt(en, i, q - |en.merged|);
    CoversMore(p, st, node, e, en.merged, PastSend(en, i).merged[..q]);
  }

  lemma EarlierMarkerOk(p: Plant, st: State, node: Node, en: Entry, i: nat, q: nat)
    requires Sized(p, st) && ValidNode(p, node) && MarkersOk(p, st, node, en) && i < |en.outbox| && q < |en.merged|
    requires PastSend(en, i).merged[q].Mark?
    ensures MarkerOk(p, st, node, PastSend(en, i), q)
  {
    assert PastSend(en, i).merged[q] == en.merged[q];
    OldMarkerOk(p, st, node, en, PastSend(en, i), q);
  }

  lemma MarkerAfterSend(p: Plant, st: State, node: Node, en: Entry, i: nat, q: nat)
    requires Sized(p, st) && NodesOk(p, st) && Legal(p, node, en) && Fits(p, node, en) && InputsOk(p, st, node, en)
    requires BooksOk(p, node, en) && MarkersOk(p, st, node, en) && i < |en.outbox|
    requires q < |PastSend(en, i).merged| && PastSend(en, i).merged[q].Mark?
    ensures MarkerOk(p, st, node, PastSend(en, i), q)
  {
    if q < |en.merged| {
      EarlierMarkerOk(p, st, node, en, i, q);
    } else {
      SentMarkerOk(p, st, node, en, i, q);
    }
  }

  lemma MarkersAfterSend(p: Plant, st: State, node: Node, en: Entry, i: nat)
    requires Sized(p, st) && NodesOk(p, st) && Legal(p, node, en) && Fits(p, node, en) && InputsOk(p, st, node, en)
    requires BooksOk(p, node, en) && MarkersOk(p, st, node, en) && i < |en.outbox|
    ensures MarkersOk(p, st, node, PastSend(en, i))
  {
    var en' := PastSend(en, i);
    forall q | 0 <= q < |en'.merged| && en'.merged[q].Mark? ensures MarkerOk(p, st, node, en', q) {
      MarkerAfterSend(p, st, node, en, i, q);
    }
  }

  lemma OutIncreases(p: Plant, st: State, node: Node, i: nat)
    requires Sized(p, st) && NodesOk(p, st) && LogsOk(p, st.world) && p.inOrder && p.inTurn && ValidNode(p, node)
    requires i < |Inputs(p, node)|
    ensures Legal(p, node, EntryOf(st, node)) && A.Increasing(Run(p, node, EntryOf(st, node)).out)
    ensures i < |Run(p, node, EntryOf(st, node)).delivered|
    ensures A.Increasing(Run(p, node, EntryOf(st, node)).delivered[i])
  {
    NodeIsOrdered(p, st, node);
    AscendingLists(st.world.markers);
    BeginningIncreases(Run(p, node, EntryOf(st, node)).out, Ascending(st.world.markers));
    BeginningIncreases(Run(p, node, EntryOf(st, node)).delivered[i], Ascending(st.world.markers));
  }

  lemma BeginningIncreases(some: seq<Epoch>, all: seq<Epoch>)
    requires some <= all && A.Increasing(all)
    ensures A.Increasing(some)
  {
    assert forall i | 0 <= i < |some| :: some[i] == all[i];
  }

  lemma SendAdvances(p: Plant, st: State, node: Node, i: nat)
    requires Sized(p, st) && NodesOk(p, st) && LogsOk(p, st.world) && Enabled(p, st, SendOut(node, i))
    ensures Advances(p, st, node, EntryOf(st, node), PassTo(p, st, SendOut(node, i)))
  {
    var en := EntryOf(st, node);
    assert NodeOk(p, st, node, en);
    if p.inOrder && p.inTurn && node.Merge? {
      OutIncreases(p, st, node, i);
    }
    var en' := PastSend(en, i);
    BooksAfterSend(p, node, en, i);
    assert Run(p, node, en') == Run(p, node, en);
    InputsKept(p, st, node, en, en');
    MarkersAfterSend(p, st, node, en, i);
    AdvancesBy(p, st, node, en, en');
  }
}
