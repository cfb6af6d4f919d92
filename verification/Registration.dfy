/** The order in which plugin libraries are registered, and which library each plugin id ends up
    with. Libraries are known by their index; `provided[i]` are the ids library `i` provides. */
module Registration {
  import opened Wrappers

  /** The first library that provides `id`. */
  function FirstProvider(provided: seq<seq<string>>, id: string): (r: Option<nat>)
    ensures r.Some? ==> r.value < |provided| && id in provided[r.value]
    ensures r.Some? ==> forall j | 0 <= j < r.value :: id !in provided[j]
    ensures r.None? ==> forall j | 0 <= j < |provided| :: id !in provided[j]
  {
    if provided == [] then None
    else if id in provided[0] then Some(0)
    else
      match FirstProvider(provided[1..], id)
      case None => assert forall j | 1 <= j < |provided| :: provided[j] == provided[1..][j - 1]; None
      case Some(i) => Some(i + 1)
  }

  /** The position of the first configured id that calls for library `i`, or none. */
  function Rank(provided: seq<seq<string>>, preprocessors: seq<string>, i: nat): (k: nat)
    ensures k <= |preprocessors|
    ensures k < |preprocessors| ==> FirstProvider(provided, preprocessors[k]) == Some(i)
    ensures forall j | 0 <= j < k :: FirstProvider(provided, preprocessors[j]) != Some(i)
  {
    if preprocessors == [] || FirstProvider(provided, preprocessors[0]) == Some(i) then 0
    else 1 + Rank(provided, preprocessors[1..], i)
  }

  predicate Before(provided: seq<seq<string>>, preprocessors: seq<string>, i: nat, j: nat) {
    var a, b := Rank(provided, preprocessors, i), Rank(provided, preprocessors, j);
    a < b || (a == b && i < j)
  }

  predicate Ordered(provided: seq<seq<string>>, preprocessors: seq<string>, order: seq<nat>) {
    forall i, j | 0 <= i < j < |order| :: Before(provided, preprocessors, order[i], order[j])
  }

  /** Every library index once, by rank and then by index. */
  ghost predicate IsRegistrationOrder(provided: seq<seq<string>>, preprocessors: seq<string>, order: seq<nat>) {
    && Ordered(provided, preprocessors, order)
    && forall i: nat :: i in order <==> i < |provided|
  }

  ghost predicate HoldsBelow(provided: seq<seq<string>>, preprocessors: seq<string>, order: seq<nat>, k: nat) {
    && Ordered(provided, preprocessors, order)
    && forall i: nat :: i in order <==> i < |provided| && Rank(provided, preprocessors, i) < k
  }

  /** The libraries that the configured ids call for, in the order of the ids. */
  method Preferred(provided: seq<seq<string>>, preprocessors: seq<string>) returns (order: seq<nat>)
    ensures HoldsBelow(provided, preprocessors, order, |preprocessors|)
  {
    order := [];
    for k := 0 to |preprocessors|
      invariant HoldsBelow(provided, preprocessors, order, k)
    {
      var index := FirstProvider(provided, preprocessors[k]);
      NextPreferred(provided, preprocessors, order, k);
      if index.Some? && index.value !in order {
        order := order + [index.value];
      }
    }
  }

  lemma NextPreferred(provided: seq<seq<string>>, preprocessors: seq<string>, order: seq<nat>, k: nat)
    requires k < |preprocessors| && HoldsBelow(provided, preprocessors, order, k)
    ensures var index := FirstProvider(provided, preprocessors[k]);
            var next := if index.Some? && index.value !in order then order + [index.value] else order;
            HoldsBelow(provided, preprocessors, next, k + 1)
  {
    var index := FirstProvider(provided, preprocessors[k]);
    if index.Some? && index.value !in order {
      RankIs(provided, preprocessors, index.value, k);
      AddLast(provided, preprocessors, order, index.value);
    }
    assert forall i: nat | i < |provided| && Rank(provided, preprocessors, i) == k :: index == Some(i);
  }

  method RegistrationOrder(provided: seq<seq<string>>, preprocessors: seq<string>) returns (order: seq<nat>)
    ensures IsRegistrationOrder(provided, preprocessors, order)
    ensures |order| == |provided|
  {
    var preferred := Preferred(provided, preprocessors);
    order := preferred;
    for i := 0 to |provided|
      invariant forall j: nat :: j in order <==> j in preferred || (j < i && j !in preferred)
      invariant Ordered(provided, preprocessors, order)
    {
      if i !in preferred {
        assert forall j: nat | j in order :: Before(provided, preprocessors, j, i);
        AddLast(provided, preprocessors, order, i);
        order := order + [i];
      }
    }
    EachOnce(provided, preprocessors, order, |provided|);
  }

  lemma AddLast(provided: seq<seq<string>>, preprocessors: seq<string>, order: seq<nat>, i: nat)
    requires Ordered(provided, preprocessors, order)
    requires forall j: nat | j in order :: Before(provided, preprocessors, j, i)
    ensures Ordered(provided, preprocessors, order + [i])
  {
    assert forall j | 0 <= j < |order| :: order[j] in order;
  }

  lemma RankIs(provided: seq<seq<string>>, preprocessors: seq<string>, i: nat, k: nat)
    requires k < |preprocessors| && FirstProvider(provided, preprocessors[k]) == Some(i)
    requires Rank(provided, preprocessors, i) >= k
    ensures Rank(provided, preprocessors, i) == k
  {
  }

  lemma OrderedIsDistinct(provided: seq<seq<string>>, preprocessors: seq<string>, order: seq<nat>)
    requires Ordered(provided, preprocessors, order)
    ensures forall i, j | 0 <= i < j < |order| :: order[i] != order[j]
  {
    forall i, j | 0 <= i < j < |order| ensures order[i] != order[j] {
      assert Before(provided, preprocessors, order[i], order[j]);
    }
  }

  function Below(n: nat): (s: set<nat>)
    ensures |s| == n && forall i: nat :: i in s <==> i < n
  {
    if n == 0 then {} else Below(n - 1) + {n - 1}
  }

  lemma {:induction false} DistinctSize(order: seq<nat>, s: set<nat>)
    requires forall i, j | 0 <= i < j < |order| :: order[i] != order[j]
    requires forall i: nat :: i in order <==> i in s
    ensures |order| == |s|
    decreases |order|
  {
    if order == [] {
      assert s == {};
    } else {
      assert order == [order[0]] + order[1..];
      assert order[0] in s && order[0] !in order[1..];
      DistinctSize(order[1..], s - {order[0]});
    }
  }

  lemma EachOnce(provided: seq<seq<string>>, preprocessors: seq<string>, order: seq<nat>, n: nat)
    requires Ordered(provided, preprocessors, order) && forall i: nat :: i in order <==> i < n
    ensures |order| == n
  {
    OrderedIsDistinct(provided, preprocessors, order);
    DistinctSize(order, Below(n));
  }

  /** There is one such order. */
  lemma {:induction false} OrderIsUnique(provided: seq<seq<string>>, preprocessors: seq<string>, a: seq<nat>,
      b: seq<nat>)
    requires Ordered(provided, preprocessors, a) && Ordered(provided, preprocessors, b)
    requires forall i: nat :: i in a <==> i in b
    ensures a == b
    decreases |a|
  {
    assert a != [] ==> a[0] in a && a[0] in b;
    assert b != [] ==> b[0] in b && b[0] in a;
    if a != [] {
      HeadIsFirst(provided, preprocessors, a, b[0]);
      HeadIsFirst(provided, preprocessors, b, a[0]);
      TailWithoutHead(provided, preprocessors, a);
      TailWithoutHead(provided, preprocessors, b);
      OrderIsUnique(provided, preprocessors, a[1..], b[1..]);
      assert a == [a[0]] + a[1..] && b == [b[0]] + b[1..];
    }
  }

  lemma HeadIsFirst(provided: seq<seq<string>>, preprocessors: seq<string>, a: seq<nat>, i: nat)
    requires Ordered(provided, preprocessors, a) && i in a
    ensures i == a[0] || Before(provided, preprocessors, a[0], i)
  {
    var k :| 0 <= k < |a| && a[k] == i;
  }

  lemma TailWithoutHead(provided: seq<seq<string>>, preprocessors: seq<string>, a: seq<nat>)
    requires Ordered(provided, preprocessors, a) && a != []
    ensures Ordered(provided, preprocessors, a[1..])
    ensures forall i: nat :: i in a[1..] <==> i in a && i != a[0]
  {
    OrderedIsDistinct(provided, preprocessors, a);
    assert a == [a[0]] + a[1..];
  }

  // ---------------------------------------------------------------- the module registry

  /** Registering the libraries in turn; a later one takes over the ids it shares. */
  method RegisterAll(provided: seq<seq<string>>, order: seq<nat>) returns (registry: map<string, nat>)
    requires forall i | 0 <= i < |order| :: order[i] < |provided|
    ensures forall id :: id in registry <==> exists k | 0 <= k < |order| :: id in provided[order[k]]
    ensures forall id | id in registry :: LastProvider(provided, order, id, registry[id])
  {
    registry := map[];
    for k := 0 to |order|
      invariant forall id :: id in registry <==> exists j | 0 <= j < k :: id in provided[order[j]]
      invariant forall id | id in registry :: LastProvider(provided, order[..k], id, registry[id])
    {
      var ids := provided[order[k]];
      ghost var before := registry;
      for n := 0 to |ids|
        invariant forall id :: id in registry <==> id in before || id in ids[..n]
        invariant forall id | id in registry :: registry[id] == if id in ids[..n] then order[k] else before[id]
      {
        registry := registry[ids[n] := order[k]];
      }
      assert ids[..|ids|] == ids;
      forall id | id in registry ensures LastProvider(provided, order[..k + 1], id, registry[id]) {
        LastProviderStep(provided, order, k, id, registry[id]);
      }
    }
    assert order[..|order|] == order;
  }

  /** `lib` provides `id` and no library behind it in the order does. */
  ghost predicate LastProvider(provided: seq<seq<string>>, order: seq<nat>, id: string, lib: nat)
    requires forall i | 0 <= i < |order| :: order[i] < |provided|
  {
    exists k | 0 <= k < |order| :: order[k] == lib && id in provided[lib]
        && forall j | k < j < |order| :: id !in provided[order[j]]
  }

  lemma LastProviderStep(provided: seq<seq<string>>, order: seq<nat>, k: nat, id: string, lib: nat)
    requires forall i | 0 <= i < |order| :: order[i] < |provided|
    requires k < |order|
    requires if id in provided[order[k]] then lib == order[k] else LastProvider(provided, order[..k], id, lib)
    ensures LastProvider(provided, order[..k + 1], id, lib)
  {
    if id in provided[order[k]] {
      assert order[..k + 1][k] == lib;
    } else {
      var j :| 0 <= j < k && order[..k][j] == lib && id in provided[lib]
          && forall i | j < i < k :: id !in provided[order[..k][i]];
      assert order[..k + 1][j] == lib;
      var longer := order[..k + 1];
      assert forall i | j < i < k :: order[..k][i] == longer[i];
      assert forall i | j < i < |longer| :: id !in provided[longer[i]];
    }
  }

  /** Loading: the order, then the registrations. Every library is taken once and every provided id
      is mapped to the provider that comes last by rank and index. */
  method LoadAndInitialize(provided: seq<seq<string>>, preprocessors: seq<string>) returns (registry: map<string, nat>)
    ensures forall id :: id in registry <==> exists i | 0 <= i < |provided| :: id in provided[i]
    ensures forall id | id in registry :: LatestProvider(provided, preprocessors, id, registry[id])
  {
    var order := RegistrationOrder(provided, preprocessors);
    assert forall i | 0 <= i < |order| :: order[i] in order;
    registry := RegisterAll(provided, order);
    forall id ensures id in registry <==> exists i | 0 <= i < |provided| :: id in provided[i] {
      SameProviders(provided, order, id);
    }
    forall id | id in registry ensures LatestProvider(provided, preprocessors, id, registry[id]) {
      LastIsLatest(provided, preprocessors, order, id, registry[id]);
    }
  }

  ghost predicate LatestProvider(provided: seq<seq<string>>, preprocessors: seq<string>, id: string, lib: nat) {
    && lib < |provided| && id in provided[lib]
    && forall i: nat | i < |provided| && id in provided[i] :: i == lib || Before(provided, preprocessors, i, lib)
  }

  lemma SameProviders(provided: seq<seq<string>>, order: seq<nat>, id: string)
    requires forall i: nat :: i in order <==> i < |provided|
    ensures (exists k | 0 <= k < |order| :: order[k] in order && id in provided[order[k]]) <==>
        exists i | 0 <= i < |provided| :: id in provided[i]
  {
    if i: nat :| i < |provided| && id in provided[i] {
      assert i in order;
      var k :| 0 <= k < |order| && order[k] == i;
    }
  }

  lemma LastIsLatest(provided: seq<seq<string>>, preprocessors: seq<string>, order: seq<nat>, id: string, lib: nat)
    requires IsRegistrationOrder(provided, preprocessors, order)
    requires forall i | 0 <= i < |order| :: order[i] < |provided|
    requires LastProvider(provided, order, id, lib)
    ensures LatestProvider(provided, preprocessors, id, lib)
  {
    var k :| 0 <= k < |order| && order[k] == lib && id in provided[lib]
        && forall j | k < j < |order| :: id !in provided[order[j]];
    forall i: nat | i < |provided| && id in provided[i] ensures i == lib || Before(provided, preprocessors, i, lib) {
      assert i in order;
      var j :| 0 <= j < |order| && order[j] == i;
    }
  }

  /** Being configured first is not being kept: the library put first for a preprocessor id runs it
      exactly when every other provider of that id is itself put in front by an earlier id. */
  lemma FirstProviderIsKept(provided: seq<seq<string>>, preprocessors: seq<string>, k: nat, first: nat, lib: nat)
    requires k < |preprocessors| && FirstProvider(provided, preprocessors[k]) == Some(first)
    requires LatestProvider(provided, preprocessors, preprocessors[k], lib)
    ensures lib == first <==> forall i: nat | i < |provided| && preprocessors[k] in provided[i] && i != first ::
      Rank(provided, preprocessors, i) < Rank(provided, preprocessors, first)
  {
    var id := preprocessors[k];
    if lib == first {
      forall i: nat | i < |provided| && id in provided[i] && i != first
        ensures Rank(provided, preprocessors, i) < Rank(provided, preprocessors, first)
      {
        assert Before(provided, preprocessors, i, first);
        assert i > first;
      }
    }
  }

  /** Two libraries provide the preprocessor id `a`: the first is registered first, and the second
      ends up running it. */
  lemma FirstProviderIsReplaced(lib: nat)
    requires LatestProvider([["a"], ["a"]], ["a"], "a", lib)
    ensures FirstProvider([["a"], ["a"]], "a") == Some(0) && IsRegistrationOrder([["a"], ["a"]], ["a"], [0, 1])
    ensures lib == 1
  {
    var provided: seq<seq<string>> := [["a"], ["a"]];
    assert Rank(provided, ["a"], 0) == 0 && Rank(provided, ["a"], 1) == 1;
    assert "a" in provided[1];
    assert Before(provided, ["a"], 0, 1);
  }
}
