/** Signalling Terminate to every registered plugin: the time that may take under a budget, and who
    is signalled when plugins register while terminators of both kinds run. Times are in
    nanoseconds. */
module Termination {
  import opened Wrappers

  const Max: nat := 5_000_000_000
  const Min: nat := 100_000_000

  /** The time allowed for each of `n` sends. */
  function PerPlugin(n: nat, budget: Option<nat>): nat {
    match budget
    case None => Max
    case Some(total) =>
      var share := total / (if n > 1 then n else 1);
      if share < Min then Min else if share > Max then Max else share
  }

  /** How one timed send goes: how long it takes, and whether the message gets in. */
  datatype Send = Send(took: nat, delivered: bool)

  datatype Attempt = Attempt(plugin: string, delivered: bool)

  function Total(sends: seq<Send>): nat {
    if sends == [] then 0 else Total(sends[..|sends| - 1]) + sends[|sends| - 1].took
  }

  predicate InTime(sends: seq<Send>, limit: nat) {
    forall i | 0 <= i < |sends| :: sends[i].took <= limit
  }

  /** `sends[i]` is how the send to `plugins[i]` goes. Every plugin gets one attempt, whatever
      became of the ones before it. */
  method TerminatePlugins(plugins: seq<string>, budget: Option<nat>, sends: seq<Send>)
      returns (attempts: seq<Attempt>, spent: nat)
    requires |sends| == |plugins| && InTime(sends, PerPlugin(|plugins|, budget))
    ensures |attempts| == |plugins|
    ensures forall i | 0 <= i < |plugins| :: attempts[i] == Attempt(plugins[i], sends[i].delivered)
    ensures spent <= |plugins| * Max
    ensures budget.Some? ==> spent <= budget.value || spent <= |plugins| * Min
  {
    attempts := [];
    spent := 0;
    for i := 0 to |plugins|
      invariant |attempts| == i
      invariant forall j | 0 <= j < i :: attempts[j] == Attempt(plugins[j], sends[j].delivered)
      invariant spent == Total(sends[..i])
    {
      assert sends[..i + 1][..i] == sends[..i];
      spent := spent + sends[i].took;
      attempts := attempts + [Attempt(plugins[i], sends[i].delivered)];
    }
    assert sends[..|plugins|] == sends;
    TotalInTime(sends, PerPlugin(|plugins|, budget));
    WithinBudget(|plugins|, budget);
  }

  lemma {:induction false} TotalInTime(sends: seq<Send>, limit: nat)
    requires InTime(sends, limit)
    ensures Total(sends) <= |sends| * limit
    decreases |sends|
  {
    if sends != [] {
      var n := |sends| - 1;
      TotalInTime(sends[..n], limit);
      assert |sends| * limit == n * limit + limit;
    }
  }

  /** The equal shares stay within the budget unless the floor lifts them above it. */
  lemma WithinBudget(n: nat, budget: Option<nat>)
    ensures n * PerPlugin(n, budget) <= n * Max
    ensures budget.Some? ==> n * PerPlugin(n, budget) <= if budget.value > n * Min then budget.value else n * Min
  {
    var per := PerPlugin(n, budget);
    Scale(n, per, Max);
    if budget.Some? && n > 0 {
      var share := budget.value / n;
      assert share * n <= budget.value;
      if share >= Min {
        Scale(n, per, share);
      }
    }
  }

  /** And the time is used. Without a budget each send may take five seconds; with one, a share that
      lies between a tenth of a second and five seconds is given in full, to the nanosecond, a smaller
      one is raised to a tenth of a second and a larger one cut to five. */
  lemma SharesAreUsed(n: nat, budget: Option<nat>)
    ensures budget.None? ==> PerPlugin(n, budget) == 5_000_000_000
    ensures budget.Some? && n > 0 ==>
      var per, total := PerPlugin(n, budget), budget.value;
      && (n * 100_000_000 <= total < n * 5_000_000_000 ==> n * per <= total < n * (per + 1))
      && (total < n * 100_000_000 ==> per == 100_000_000)
      && (total >= n * 5_000_000_000 ==> per == 5_000_000_000)
    ensures budget.Some? && n == 0 ==> PerPlugin(n, budget) == PerPlugin(1, budget)
  {
    if budget.Some? && n > 0 {
      var share := budget.value / n;
      assert n * share <= budget.value < n * (share + 1);
      if share < 100_000_000 {
        Scale(n, share + 1, 100_000_000);
      } else if share > 5_000_000_000 {
        Scale(n, 5_000_000_000, share);
      } else {
        Scale(n, 100_000_000, share);
      }
      if share < 5_000_000_000 {
        Scale(n, share + 1, 5_000_000_000);
      }
    }
  }

  lemma Scale(n: nat, a: nat, b: nat)
    requires a <= b
    ensures n * a <= n * b
  {
  }

  // ---------------------------------------------------------------- the registry

  /** A registration of an instance key; `id` tells registrations of the same key apart. */
  datatype Entry = Entry(key: string, id: nat)

  /** The registry, the entries each terminator has drained and not yet signalled, and what became
      of all other entries; `registered` is every registration in turn. */
  datatype State = State(
    registry: map<string, nat>,
    drained: seq<seq<Entry>>,
    signalled: seq<Entry>,
    overwritten: seq<Entry>,
    registered: seq<Entry>)

  /** `Signal` is one attempt, timed or not. A drain empties the registry in one locked step; `order`
      is the order the hash map gives. */
  datatype Step =
    | Register(key: string)
    | Drain(order: seq<Entry>)
    | Signal(terminator: nat)

  const Initial := State(map[], [], [], [], [])

  function EntriesOf(registry: map<string, nat>): set<Entry> {
    set key | key in registry :: Entry(key, registry[key])
  }

  predicate Distinct(es: seq<Entry>) {
    forall i, j | 0 <= i < j < |es| :: es[i] != es[j]
  }

  ghost predicate Enabled(s: State, step: Step) {
    match step
    case Register(_) => true
    case Drain(order) => s.registry != map[] && Distinct(order)
        && forall e :: e in order <==> e in EntriesOf(s.registry)
    case Signal(t) => t < |s.drained| && s.drained[t] != []
  }

  function Next(s: State, step: Step): State
    requires step.Signal? ==> step.terminator < |s.drained| && s.drained[step.terminator] != []
  {
    match step
    case Register(key) =>
      var lost := if key in s.registry then [Entry(key, s.registry[key])] else [];
      var id := |s.registered|;
      s.(registry := s.registry[key := id], overwritten := s.overwritten + lost,
          registered := s.registered + [Entry(key, id)])
    case Drain(order) => s.(registry := map[], drained := s.drained + [order])
    case Signal(t) =>
      s.(drained := s.drained[t := s.drained[t][1..]], signalled := s.signalled + [s.drained[t][0]])
  }

  ghost predicate CanRun(s: State, steps: seq<Step>)
    decreases |steps|
  {
    steps == [] || (Enabled(s, steps[0]) && CanRun(Next(s, steps[0]), steps[1..]))
  }

  ghost function Run(s: State, steps: seq<Step>): State
    requires CanRun(s, steps)
    decreases |steps|
  {
    if steps == [] then s else Run(Next(s, steps[0]), steps[1..])
  }

  // ---------------------------------------------------------------- who is signalled

  function All(lists: seq<seq<Entry>>): multiset<Entry> {
    if lists == [] then multiset{} else multiset(lists[0]) + All(lists[1..])
  }

  /** Where every registration is: still registered, drained, signalled or overwritten. */
  function Everywhere(s: State): multiset<Entry> {
    multiset(EntriesOf(s.registry)) + All(s.drained) + multiset(s.signalled) + multiset(s.overwritten)
  }

  ghost predicate Inv(s: State) {
    && (forall i | 0 <= i < |s.registered| :: s.registered[i].id == i)
    && Everywhere(s) == multiset(s.registered)
  }

  lemma {:induction false} OrderCounts(order: seq<Entry>, es: set<Entry>)
    requires Distinct(order) && forall e :: e in order <==> e in es
    ensures multiset(order) == multiset(es)
    decreases |order|
  {
    if order == [] {
      assert es == {};
    } else {
      assert order == [order[0]] + order[1..];
      assert order[0] in order && order[0] !in order[1..];
      OrderCounts(order[1..], es - {order[0]});
      assert es == (es - {order[0]}) + {order[0]};
    }
  }

  lemma {:induction false} AllAppend(lists: seq<seq<Entry>>, last: seq<Entry>)
    ensures All(lists + [last]) == All(lists) + multiset(last)
  {
    if lists == [] {
      assert lists + [last] == [last];
    } else {
      AllAppend(lists[1..], last);
      assert (lists + [last])[1..] == lists[1..] + [last];
    }
  }

  lemma {:induction false} AllTake(lists: seq<seq<Entry>>, t: nat)
    requires t < |lists| && lists[t] != []
    ensures All(lists) == All(lists[t := lists[t][1..]]) + multiset{lists[t][0]}
  {
    var next := lists[t := lists[t][1..]];
    if t == 0 {
      assert lists[0] == [lists[0][0]] + lists[0][1..] && next[1..] == lists[1..];
    } else {
      AllTake(lists[1..], t - 1);
      assert next[1..] == lists[1..][t - 1 := lists[t][1..]];
    }
  }

  lemma RegisterCounts(registry: map<string, nat>, key: string, id: nat)
    requires Entry(key, id) !in EntriesOf(registry)
    ensures var lost := if key in registry then multiset{Entry(key, registry[key])} else multiset{};
            multiset(EntriesOf(registry[key := id])) + lost == multiset(EntriesOf(registry)) + multiset{Entry(key, id)}
  {
    var before := EntriesOf(registry);
    var after := EntriesOf(registry[key := id]);
    var gone := if key in registry then {Entry(key, registry[key])} else {};
    forall e ensures e in after <==> e in before - gone + {Entry(key, id)} {
      if e in before - gone {
        assert e.key in registry && registry[e.key] == e.id && e.key != key;
        assert registry[key := id][e.key] == e.id;
        assert Entry(e.key, registry[key := id][e.key]) in after;
      }
      if e == Entry(key, id) {
        assert key in registry[key := id];
      }
    }
    assert after == before - gone + {Entry(key, id)};
    assert gone <= before;
  }

  lemma NewIdIsNew(s: State, key: string)
    requires Inv(s)
    ensures Entry(key, |s.registered|) !in EntriesOf(s.registry)
  {
    var e := Entry(key, |s.registered|);
    assert e !in s.registered;
    assert e !in Everywhere(s);
    assert e in EntriesOf(s.registry) ==> e in Everywhere(s);
  }

  lemma Regroup(a: multiset<Entry>, lost: multiset<Entry>, b: multiset<Entry>, more: multiset<Entry>,
      drained: multiset<Entry>, signalled: multiset<Entry>, overwritten: multiset<Entry>)
    requires a + lost == b + more
    ensures a + drained + signalled + (overwritten + lost) == b + drained + signalled + overwritten + more
  {
    assert a + drained + signalled + (overwritten + lost) == (a + lost) + (drained + signalled + overwritten);
    assert b + drained + signalled + overwritten + more == (b + more) + (drained + signalled + overwritten);
  }

  lemma RegisterKeeps(s: State, key: string)
    requires Inv(s)
    ensures Inv(Next(s, Register(key)))
  {
    var t := Next(s, Register(key));
    var id := |s.registered|;
    NewIdIsNew(s, key);
    RegisterCounts(s.registry, key, id);
    var lost := if key in s.registry then [Entry(key, s.registry[key])] else [];
    assert multiset(lost) == if key in s.registry then multiset{Entry(key, s.registry[key])} else multiset{};
    assert multiset(EntriesOf(t.registry)) + multiset(lost)
        == multiset(EntriesOf(s.registry)) + multiset{Entry(key, id)};
    assert multiset(t.overwritten) == multiset(s.overwritten) + multiset(lost);
    assert multiset(t.registered) == multiset(s.registered) + multiset{Entry(key, id)};
    assert t.drained == s.drained && t.signalled == s.signalled;
    Regroup(multiset(EntriesOf(t.registry)), multiset(lost), multiset(EntriesOf(s.registry)), multiset{Entry(key, id)},
            All(s.drained), multiset(s.signalled), multiset(s.overwritten));
  }

  lemma DrainKeeps(s: State, order: seq<Entry>)
    requires Inv(s) && Enabled(s, Drain(order))
    ensures Inv(Next(s, Drain(order)))
  {
    OrderCounts(order, EntriesOf(s.registry));
    AllAppend(s.drained, order);
    assert EntriesOf(map[]) == {};
    assert Everywhere(Next(s, Drain(order))) == Everywhere(s);
  }

  lemma SignalKeeps(s: State, t: nat)
    requires Inv(s) && Enabled(s, Signal(t))
    ensures Inv(Next(s, Signal(t)))
  {
    AllTake(s.drained, t);
    var e := s.drained[t][0];
    assert multiset(s.signalled + [e]) == multiset(s.signalled) + multiset{e};
    assert Everywhere(Next(s, Signal(t))) == Everywhere(s);
  }

  lemma StepKeeps(s: State, step: Step)
    requires Inv(s) && Enabled(s, step)
    ensures Inv(Next(s, step))
  {
    match step
    case Register(key) => RegisterKeeps(s, key);
    case Drain(order) => DrainKeeps(s, order);
    case Signal(t) => SignalKeeps(s, t);
  }

  lemma {:induction false} RunKeeps(s: State, steps: seq<Step>)
    requires Inv(s) && CanRun(s, steps)
    ensures Inv(Run(s, steps))
    decreases |steps|
  {
    if steps != [] {
      StepKeeps(s, steps[0]);
      RunKeeps(Next(s, steps[0]), steps[1..]);
    }
  }

  lemma {:induction false} OnceEach(es: seq<Entry>)
    requires forall i | 0 <= i < |es| :: es[i].id == i
    ensures forall e :: multiset(es)[e] <= 1
    decreases |es|
  {
    if es != [] {
      var n := |es| - 1;
      OnceEach(es[..n]);
      assert es == es[..n] + [es[n]];
      assert es[n] !in es[..n];
    }
  }

  /** However terminators of both kinds and registrations interleave, every registration is in
      exactly one place: still registered, in one terminator's hands, signalled, or replaced under
      its key. So none is signalled twice, and one that was replaced is never signalled. */
  lemma SignalledOnce(steps: seq<Step>, e: Entry)
    requires CanRun(Initial, steps)
    ensures var s := Run(Initial, steps);
            && multiset(s.signalled)[e] <= 1
            && (if e in EntriesOf(s.registry) then 1 else 0)
               + All(s.drained)[e] + multiset(s.signalled)[e] + multiset(s.overwritten)[e]
            == (if e in s.registered then 1 else 0)
  {
    assert EntriesOf(Initial.registry) == {};
    RunKeeps(Initial, steps);
    var s := Run(Initial, steps);
    OnceEach(s.registered);
    assert Everywhere(s)[e] == multiset(s.registered)[e];
    assert multiset(EntriesOf(s.registry))[e] == if e in EntriesOf(s.registry) then 1 else 0;
  }

  /** Once the registry is empty and all terminators are through, everybody was signalled who was
      not replaced. */
  lemma AllSignalled(steps: seq<Step>, e: Entry)
    requires CanRun(Initial, steps)
    requires Run(Initial, steps).registry == map[]
    requires forall t | 0 <= t < |Run(Initial, steps).drained| :: Run(Initial, steps).drained[t] == []
    ensures var s := Run(Initial, steps);
            e in s.signalled <==> e in s.registered && e !in s.overwritten
  {
    SignalledOnce(steps, e);
    var s := Run(Initial, steps);
    NothingDrained(s.drained);
    assert EntriesOf(s.registry) == {};
  }

  lemma NothingDrained(lists: seq<seq<Entry>>)
    requires forall t | 0 <= t < |lists| :: lists[t] == []
    ensures All(lists) == multiset{}
  {
  }

  // ---------------------------------------------------------------- everybody can be signalled

  function Signals(t: nat, n: nat): (r: seq<Step>)
    ensures |r| == n
  {
    if n == 0 then [] else [Signal(t)] + Signals(t, n - 1)
  }

  lemma {:induction false} SignalAll(s: State, t: nat, n: nat)
    requires t < |s.drained| && n == |s.drained[t]|
    ensures CanRun(s, Signals(t, n))
    ensures Run(s, Signals(t, n)) == s.(drained := s.drained[t := []], signalled := s.signalled + s.drained[t])
    decreases n
  {
    if n > 0 {
      var next := Next(s, Signal(t));
      SignalAll(next, t, n - 1);
      assert Signals(t, n)[1..] == Signals(t, n - 1);
      assert next.drained[t := []] == s.drained[t := []];
      assert next.signalled + next.drained[t] == s.signalled + s.drained[t];
    } else {
      assert s.drained[t := []] == s.drained && s.signalled + [] == s.signalled;
    }
  }

  /** Whatever happened before, a terminator that finds plugins registered takes all of them in one
      step and can then signal each, in its order. */
  lemma TerminatorSignalsAll(s: State, order: seq<Entry>)
    requires Enabled(s, Drain(order))
    ensures var steps := [Drain(order)] + Signals(|s.drained|, |order|);
            && CanRun(s, steps) && Run(s, steps).registry == map[]
            && Run(s, steps).signalled == s.signalled + order && Run(s, steps).drained == s.drained + [[]]
  {
    var t := |s.drained|;
    var next := Next(s, Drain(order));
    SignalAll(next, t, |order|);
    assert ([Drain(order)] + Signals(t, |order|))[1..] == Signals(t, |order|);
    assert next.drained[t := []] == s.drained + [[]];
  }

  function KeysOf(es: seq<Entry>): seq<string> {
    if es == [] then [] else KeysOf(es[..|es| - 1]) + [es[|es| - 1].key]
  }

  function KeysRegistered(steps: seq<Step>): seq<string> {
    if steps == [] then [] else (if steps[0].Register? then [steps[0].key] else []) + KeysRegistered(steps[1..])
  }

  /** No registration is overlooked. */
  lemma {:induction false} RegistrationsAreRecorded(s: State, steps: seq<Step>)
    requires CanRun(s, steps)
    ensures KeysOf(Run(s, steps).registered) == KeysOf(s.registered) + KeysRegistered(steps)
    decreases |steps|
  {
    if steps != [] {
      var next := Next(s, steps[0]);
      RegistrationsAreRecorded(next, steps[1..]);
      if steps[0].Register? {
        assert next.registered[..|s.registered|] == s.registered;
        assert KeysOf(next.registered) == KeysOf(s.registered) + [steps[0].key];
      }
    }
  }
}
