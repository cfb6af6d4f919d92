/** The check that every source and transform of a topology has a consumer. Names are compared in
    lower case; `lower` stands for the casing the program uses. */
module Orphans {
  import opened Wrappers
  import opened Sorting
  import SqlTables
  import CteInlining

  /** What validation looks at in a transform. `sql` holds the text's parse, `None` inside when it
      does not parse. */
  datatype Transform =
    | NotAMapping
    | Mapping(kind: Option<string>, sql: Option<Option<seq<SqlTables.Statement>>>, from: Option<string>)

  datatype Named = Named(name: string, transform: Transform)

  /** `sinks` are the sinks' `from` values. */
  datatype Topology = Topology(sources: seq<string>, transforms: seq<Named>, sinks: seq<string>)

  datatype Verdict = Accepted | HasOrphans(names: seq<string>)

  type Casing = string -> string

  function StripQuotes(name: string): string {
    if |name| >= 2 && name[0] == '"' && name[|name| - 1] == '"' then name[1..|name| - 1] else name
  }

  predicate IsDynamic(t: Transform) {
    t.Mapping? && t.kind == Some("dynamic_table")
  }

  // ---------------------------------------------------------------- who consumes whom

  predicate Unparsed(t: Transform) {
    t.Mapping? && t.sql.Some? && SqlTables.References(t.sql.value).Err?
  }

  /** The node keys a transform reads: the tables of its SQL or, only without SQL, its `from`. */
  function Reads(lower: Casing, t: Transform): seq<string> {
    match t
    case NotAMapping => []
    case Mapping(_, Some(sql), _) =>
      (match SqlTables.References(sql)
       case Ok(names) => Keys(lower, names)
       case Err(_) => [])
    case Mapping(_, None, Some(from)) => [lower(from)]
    case Mapping(_, None, None) => []
  }

  function Keys(lower: Casing, names: seq<string>): (r: seq<string>)
    ensures |r| == |names|
    ensures forall i | 0 <= i < |names| :: r[i] == lower(StripQuotes(names[i]))
  {
    seq(|names|, i requires 0 <= i < |names| => lower(StripQuotes(names[i])))
  }

  ghost predicate IsNode(lower: Casing, t: Topology, key: string) {
    || (exists i | 0 <= i < |t.sources| :: key == lower(t.sources[i]))
    || (exists i | 0 <= i < |t.transforms| ::
          !IsDynamic(t.transforms[i].transform) && key == lower(t.transforms[i].name))
  }

  ghost predicate ReadByTransform(lower: Casing, t: Topology, key: string) {
    exists i | 0 <= i < |t.transforms| :: key in Reads(lower, t.transforms[i].transform)
  }

  ghost predicate ReadBySink(lower: Casing, t: Topology, key: string) {
    exists i | 0 <= i < |t.sinks| :: key == lower(t.sinks[i])
  }

  ghost predicate IsOrphan(lower: Casing, t: Topology, key: string) {
    IsNode(lower, t, key) && !ReadByTransform(lower, t, key) && !ReadBySink(lower, t, key)
  }

  ghost predicate AllParse(t: Topology) {
    forall i | 0 <= i < |t.transforms| :: !Unparsed(t.transforms[i].transform)
  }

  /** The verdict, whatever order anything is visited in. */
  ghost predicate IsVerdict(lower: Casing, t: Topology, v: Verdict) {
    match v
    case Accepted => !AllParse(t) || forall key :: !IsOrphan(lower, t, key)
    case HasOrphans(names) =>
      && AllParse(t)
      && names != []
      && Ascends(names)
      && forall key :: key in names <==> IsOrphan(lower, t, key)
  }

  // ---------------------------------------------------------------- the check

  method CollectNodes(lower: Casing, t: Topology) returns (consumers: map<string, nat>)
    ensures forall key :: key in consumers <==> IsNode(lower, t, key)
    ensures forall key | key in consumers :: consumers[key] == 0
  {
    consumers := map[];
    for i := 0 to |t.sources|
      invariant forall key :: key in consumers <==> exists j | 0 <= j < i :: key == lower(t.sources[j])
      invariant forall key | key in consumers :: consumers[key] == 0
    {
      consumers := consumers[lower(t.sources[i]) := 0];
    }
    for i := 0 to |t.transforms|
      invariant forall key :: key in consumers <==>
        || (exists j | 0 <= j < |t.sources| :: key == lower(t.sources[j]))
        || (exists j | 0 <= j < i :: !IsDynamic(t.transforms[j].transform) && key == lower(t.transforms[j].name))
      invariant forall key | key in consumers :: consumers[key] == 0
    {
      if !IsDynamic(t.transforms[i].transform) {
        consumers := consumers[lower(t.transforms[i].name) := 0];
      }
    }
  }

  method Count(consumers: map<string, nat>, keys: seq<string>) returns (counted: map<string, nat>)
    ensures counted.Keys == consumers.Keys
    ensures forall key | key in consumers :: counted[key] == 0 <==> consumers[key] == 0 && key !in keys
  {
    counted := consumers;
    for i := 0 to |keys|
      invariant counted.Keys == consumers.Keys
      invariant forall key | key in consumers :: counted[key] == 0 <==> consumers[key] == 0 && key !in keys[..i]
    {
      if keys[i] in counted {
        counted := counted[keys[i] := counted[keys[i]] + 1];
      }
    }
    assert keys[..|keys|] == keys;
  }

  method CountTransforms(lower: Casing, t: Topology, consumers: map<string, nat>)
      returns (counted: map<string, nat>, parsed: bool)
    requires forall key | key in consumers :: consumers[key] == 0
    ensures parsed <==> AllParse(t)
    ensures counted.Keys == consumers.Keys
    ensures parsed ==> forall key | key in counted :: counted[key] == 0 <==> !ReadByTransform(lower, t, key)
  {
    counted := consumers;
    for i := 0 to |t.transforms|
      invariant counted.Keys == consumers.Keys
      invariant forall j | 0 <= j < i :: !Unparsed(t.transforms[j].transform)
      invariant forall key | key in counted ::
        counted[key] == 0 <==> !exists j | 0 <= j < i :: key in Reads(lower, t.transforms[j].transform)
    {
      match t.transforms[i].transform {
        case NotAMapping =>
        case Mapping(_, Some(sql), _) =>
          var names := SqlTables.ExtractTableReferences(sql);
          if names.Err? {
            assert Unparsed(t.transforms[i].transform);
            return counted, false;
          }
          counted := Count(counted, Keys(lower, names.value));
        case Mapping(_, None, Some(from)) =>
          counted := Count(counted, [lower(from)]);
        case Mapping(_, None, None) =>
      }
    }
    parsed := true;
  }

  method ValidateNoOrphanNodes(lower: Casing, t: Topology) returns (v: Verdict)
    ensures IsVerdict(lower, t, v)
  {
    var consumers := CollectNodes(lower, t);
    var parsed;
    consumers, parsed := CountTransforms(lower, t, consumers);
    if !parsed {
      return Accepted;
    }
    var froms := LowerAll(lower, t.sinks);
    consumers := Count(consumers, froms);
    assert forall key | key in consumers :: key in froms <==> ReadBySink(lower, t, key);
    var orphans := Unconsumed(consumers);
    assert forall key :: key in orphans <==> IsOrphan(lower, t, key);
    if orphans == [] {
      return Accepted;
    }
    var sorted := Sort(orphans);
    assert orphans[0] in sorted;
    return HasOrphans(sorted);
  }

  function LowerAll(lower: Casing, names: seq<string>): (r: seq<string>)
    ensures |r| == |names|
    ensures forall i | 0 <= i < |names| :: r[i] == lower(names[i])
  {
    seq(|names|, i requires 0 <= i < |names| => lower(names[i]))
  }

  /** The keys without a consumer, in whatever order the hash map gives them. */
  method Unconsumed(consumers: map<string, nat>) returns (orphans: seq<string>)
    ensures forall key :: key in orphans <==> key in consumers && consumers[key] == 0
    ensures forall i, j | 0 <= i < j < |orphans| :: orphans[i] != orphans[j]
  {
    orphans := [];
    var left := consumers.Keys;
    while left != {}
      invariant left <= consumers.Keys
      invariant forall key :: key in orphans <==> key in consumers && key !in left && consumers[key] == 0
      invariant forall i, j | 0 <= i < j < |orphans| :: orphans[i] != orphans[j]
      decreases |left|
    {
      var key :| key in left;
      if consumers[key] == 0 {
        assert key !in orphans;
        orphans := orphans + [key];
      }
      left := left - {key};
    }
  }

  // ---------------------------------------------------------------- the verdict is determined

  /** The same transforms, in any order. */
  ghost predicate Reordered(t: Topology, u: Topology) {
    && t.sources == u.sources && t.sinks == u.sinks
    && (forall n :: n in t.transforms <==> n in u.transforms)
  }

  lemma SameFacts(lower: Casing, t: Topology, u: Topology)
    requires Reordered(t, u)
    ensures AllParse(t) ==> AllParse(u)
    ensures forall key :: IsNode(lower, t, key) ==> IsNode(lower, u, key)
    ensures forall key :: ReadByTransform(lower, t, key) ==> ReadByTransform(lower, u, key)
  {
    if AllParse(t) {
      forall i | 0 <= i < |u.transforms| ensures !Unparsed(u.transforms[i].transform) {
        assert u.transforms[i] in t.transforms;
      }
    }
    forall key | IsNode(lower, t, key) ensures IsNode(lower, u, key) {
      if i :| 0 <= i < |t.transforms| && !IsDynamic(t.transforms[i].transform) && key == lower(t.transforms[i].name) {
        assert t.transforms[i] in u.transforms;
        var j :| 0 <= j < |u.transforms| && u.transforms[j] == t.transforms[i];
      }
    }
    forall key | ReadByTransform(lower, t, key) ensures ReadByTransform(lower, u, key) {
      var i :| 0 <= i < |t.transforms| && key in Reads(lower, t.transforms[i].transform);
      assert t.transforms[i] in u.transforms;
      var j :| 0 <= j < |u.transforms| && u.transforms[j] == t.transforms[i];
    }
  }

  /** There is one verdict, and the order of the transforms does not change it. */
  lemma VerdictIgnoresOrder(lower: Casing, t: Topology, u: Topology, v: Verdict, w: Verdict)
    requires Reordered(t, u) && IsVerdict(lower, t, v) && IsVerdict(lower, u, w)
    ensures v == w
  {
    SameFacts(lower, t, u);
    assert Reordered(u, t);
    SameFacts(lower, u, t);
    assert forall key :: IsOrphan(lower, t, key) <==> IsOrphan(lower, u, key);
    assert v.HasOrphans? ==> v.names[0] in v.names && IsOrphan(lower, t, v.names[0]);
    assert w.HasOrphans? ==> w.names[0] in w.names && IsOrphan(lower, u, w.names[0]);
    if v.HasOrphans? {
      var all := set n | n in v.names;
      assert w.HasOrphans?;
      assert Lists(v.names, all) && Lists(w.names, all);
      ListingIsUnique(v.names, w.names, all);
    }
  }

  // ---------------------------------------------------------------- what a transform reads

  /** The name itself, or the name in quotes. */
  predicate Spells(text: string, name: string) {
    text == "\"" + name + "\"" || (text == name && !(|name| >= 2 && name[0] == '"' && name[|name| - 1] == '"'))
  }

  lemma SpellsOne(text: string)
    ensures forall name :: Spells(text, name) <==> name == StripQuotes(text)
  {
    forall name ensures Spells(text, name) <==> name == StripQuotes(text) {
      if text == "\"" + name + "\"" {
        assert text[1..|text| - 1] == name;
      }
      if |text| >= 2 && text[0] == '"' && text[|text| - 1] == '"' {
        assert text == "\"" + text[1..|text| - 1] + "\"";
      }
    }
  }

  /** A transform with SQL reads a node exactly when its query, every CTE inlined, names the node in some
      FROM clause, in whatever case and with or without quotes; its `from` is not looked at. */
  lemma SqlReads(lower: Casing, t: Transform, q: SqlTables.Query, key: string)
    requires t.Mapping? && t.sql == Some(Some([SqlTables.QueryStatement(q)])) && CteInlining.QueryHarmless(q)
    ensures Unparsed(t) <==>
      || (q.ctes != [] && q.recursive)
      || (exists i | 0 <= i < |q.ctes| :: !CteInlining.ReadsOneTable(q.ctes, i))
      || SqlTables.Leaves(CteInlining.InlineQuery(q, map[])).Err?
    ensures !Unparsed(t) ==>
      (key in Reads(lower, t) <==>
         exists table, name ::
           && table in SqlTables.Leaves(CteInlining.InlineQuery(q, map[])).value
           && Spells(table, name) && key == lower(name))
  {
    CteInlining.AnswerIsInlining(t.sql.value);
    CteInlining.ExtractionIsInlining(q);
    if !Unparsed(t) {
      var names := SqlTables.References(t.sql.value).value;
      var tables := SqlTables.Leaves(CteInlining.InlineQuery(q, map[])).value;
      assert forall n :: n in names <==> n in tables;
      if key in Reads(lower, t) {
        var i :| 0 <= i < |names| && key == lower(StripQuotes(names[i]));
        SpellsOne(names[i]);
        assert names[i] in tables && Spells(names[i], StripQuotes(names[i]));
      }
      if table, name :| table in tables && Spells(table, name) && key == lower(name) {
        SpellsOne(table);
        var i :| 0 <= i < |names| && names[i] == table;
        assert Keys(lower, names)[i] == key;
      }
    }
  }

  /** One without SQL reads its `from`, if it has one. */
  lemma PlainReads(lower: Casing, t: Transform, key: string)
    requires t.NotAMapping? || t.sql.None?
    ensures !Unparsed(t)
    ensures key in Reads(lower, t) <==> t.Mapping? && t.from.Some? && key == lower(t.from.value)
  {
  }

  function Reported(v: Verdict): seq<string> {
    if v.HasOrphans? then v.names else []
  }

  /** Which names are reported: those of sources, and of transforms that are no dynamic tables, with
      neither a reading transform nor a sink. When some SQL has no answer nothing is reported. */
  lemma ReportedExactly(lower: Casing, t: Topology, v: Verdict, key: string)
    requires IsVerdict(lower, t, v)
    ensures (exists i | 0 <= i < |t.transforms| :: Unparsed(t.transforms[i].transform)) ==> v == Accepted
    ensures (forall i | 0 <= i < |t.transforms| :: !Unparsed(t.transforms[i].transform)) ==>
      (key in Reported(v) <==>
         && ((exists i | 0 <= i < |t.sources| :: lower(t.sources[i]) == key)
             || (exists i | 0 <= i < |t.transforms| ::
                   var x := t.transforms[i];
                   (x.transform.NotAMapping? || x.transform.kind != Some("dynamic_table")) && lower(x.name) == key))
         && (forall i | 0 <= i < |t.sinks| :: lower(t.sinks[i]) != key)
         && (forall i | 0 <= i < |t.transforms| :: key !in Reads(lower, t.transforms[i].transform)))
  {
    assert key in Reported(v) ==> IsOrphan(lower, t, key);
    assert IsOrphan(lower, t, key) && AllParse(t) ==> key in Reported(v);
  }

  // ---------------------------------------------------------------- what the check is for

  /** `to` is a transform, itself a node, that reads `key`. */
  ghost predicate Edge(lower: Casing, t: Topology, key: string, to: string) {
    exists i | 0 <= i < |t.transforms| ::
      && !IsDynamic(t.transforms[i].transform)
      && key in Reads(lower, t.transforms[i].transform)
      && to == lower(t.transforms[i].name)
  }

  /** A sink or a dynamic table reads `key`. */
  ghost predicate Drained(lower: Casing, t: Topology, key: string) {
    || ReadBySink(lower, t, key)
    || exists i | 0 <= i < |t.transforms| ::
         IsDynamic(t.transforms[i].transform) && key in Reads(lower, t.transforms[i].transform)
  }

  ghost predicate Walk(lower: Casing, t: Topology, path: seq<string>) {
    path != [] && forall i | 0 < i < |path| :: Edge(lower, t, path[i - 1], path[i])
  }

  ghost predicate Acyclic(lower: Casing, t: Topology) {
    forall path | Walk(lower, t, path) && |path| > 1 :: path[0] != path[|path| - 1]
  }

  ghost predicate Reaches(lower: Casing, t: Topology, key: string) {
    exists path :: Walk(lower, t, path) && path[0] == key && Drained(lower, t, path[|path| - 1])
  }

  lemma Consumer(lower: Casing, t: Topology, key: string)
    requires IsNode(lower, t, key) && !IsOrphan(lower, t, key)
    ensures Drained(lower, t, key) || exists to :: Edge(lower, t, key, to) && IsNode(lower, t, to)
  {
    if !Drained(lower, t, key) {
      var i :| 0 <= i < |t.transforms| && key in Reads(lower, t.transforms[i].transform);
      var to := lower(t.transforms[i].name);
      assert Edge(lower, t, key, to) && IsNode(lower, t, to);
    }
  }

  ghost predicate Fresh(path: seq<string>) {
    forall i, j | 0 <= i < j < |path| :: path[i] != path[j]
  }

  lemma {:induction false} FreshSize(path: seq<string>, nodes: set<string>)
    requires Fresh(path) && forall n | n in path :: n in nodes
    ensures |path| <= |nodes|
    decreases |path|
  {
    if path != [] {
      assert path[0] !in path[1..] && path[0] in nodes;
      FreshSize(path[1..], nodes - {path[0]});
    }
  }

  lemma WalkOn(lower: Casing, t: Topology, path: seq<string>, to: string)
    requires Walk(lower, t, path) && Edge(lower, t, path[|path| - 1], to)
    ensures Walk(lower, t, path + [to])
  {
    var longer := path + [to];
    forall i | 0 < i < |longer| ensures Edge(lower, t, longer[i - 1], longer[i]) {
      if i < |path| {
        assert longer[i - 1] == path[i - 1] && longer[i] == path[i];
      }
    }
  }

  lemma WalkSlice(lower: Casing, t: Topology, path: seq<string>, i: nat, j: nat)
    requires Walk(lower, t, path) && i <= j < |path|
    ensures Walk(lower, t, path[i..j + 1])
  {
    var part := path[i..j + 1];
    forall k | 0 < k < |part| ensures Edge(lower, t, part[k - 1], part[k]) {
      assert part[k - 1] == path[i + k - 1] && part[k] == path[i + k];
    }
  }

  /** A node that does not drain has an edge to a further node. */
  lemma NextNode(lower: Casing, t: Topology, path: seq<string>) returns (to: string)
    requires Walk(lower, t, path) && !IsOrphan(lower, t, path[|path| - 1]) && IsNode(lower, t, path[|path| - 1])
    requires !Drained(lower, t, path[|path| - 1])
    ensures IsNode(lower, t, to) && Walk(lower, t, path + [to])
  {
    var last := path[|path| - 1];
    Consumer(lower, t, last);
    to :| Edge(lower, t, last, to) && IsNode(lower, t, to);
    WalkOn(lower, t, path, to);
  }

  lemma FreshOrNot(path: seq<string>, to: string)
    requires Fresh(path)
    ensures Fresh(path + [to]) <==> to !in path
  {
    if i :| 0 <= i < |path| && path[i] == to {
      assert (path + [to])[i] == (path + [to])[|path|];
    }
  }

  /** Without orphans, a walk can be carried on until it is drained or comes back to itself. */
  lemma {:induction false} CarryOn(lower: Casing, t: Topology, path: seq<string>, nodes: set<string>)
      returns (whole: seq<string>)
    requires forall key :: !IsOrphan(lower, t, key)
    requires forall key :: key in nodes <==> IsNode(lower, t, key)
    requires Walk(lower, t, path) && Fresh(path) && forall n | n in path :: n in nodes
    ensures Walk(lower, t, whole) && whole[0] == path[0]
    ensures Drained(lower, t, whole[|whole| - 1]) || !Fresh(whole)
    decreases |nodes| + 1 - |path|
  {
    FreshSize(path, nodes);
    assert path[|path| - 1] in path;
    if Drained(lower, t, path[|path| - 1]) {
      whole := path;
    } else {
      var to := NextNode(lower, t, path);
      FreshOrNot(path, to);
      if to in path {
        whole := path + [to];
      } else {
        whole := CarryOn(lower, t, path + [to], nodes);
      }
    }
  }

  ghost function Nodes(lower: Casing, t: Topology): (nodes: set<string>)
    ensures forall key :: key in nodes <==> IsNode(lower, t, key)
  {
    (set i | 0 <= i < |t.sources| :: lower(t.sources[i]))
    + (set i | 0 <= i < |t.transforms| && !IsDynamic(t.transforms[i].transform) :: lower(t.transforms[i].name))
  }

  /** A walk from `key` runs into a cycle. */
  ghost predicate GoesRound(lower: Casing, t: Topology, key: string) {
    exists path :: Walk(lower, t, path) && path[0] == key && !Fresh(path)
  }

  /** What acceptance means when every SQL text parses: exactly that every node reaches a sink, a
      dynamic table or a cycle. */
  lemma AcceptedExactly(lower: Casing, t: Topology, v: Verdict)
    requires AllParse(t) && IsVerdict(lower, t, v)
    ensures v.Accepted? <==> forall key | IsNode(lower, t, key) :: Reaches(lower, t, key) || GoesRound(lower, t, key)
  {
    if v.Accepted? {
      forall key | IsNode(lower, t, key) ensures Reaches(lower, t, key) || GoesRound(lower, t, key) {
        var whole := CarryOn(lower, t, [key], Nodes(lower, t));
      }
    } else {
      var key := v.names[0];
      assert key in v.names && IsOrphan(lower, t, key);
      OrphanReachesNothing(lower, t, key);
      OrphanStands(lower, t, key);
    }
  }

  lemma NoReturn(lower: Casing, t: Topology, path: seq<string>, i: nat, j: nat)
    requires Acyclic(lower, t) && Walk(lower, t, path) && i < j < |path|
    ensures path[i] != path[j]
  {
    WalkSlice(lower, t, path, i, j);
    var part := path[i..j + 1];
    assert |part| > 1 && part[0] == path[i] && part[|part| - 1] == path[j];
  }

  lemma NoWayRound(lower: Casing, t: Topology, key: string)
    requires Acyclic(lower, t)
    ensures !GoesRound(lower, t, key)
  {
    forall path, i, j | Walk(lower, t, path) && 0 <= i < j < |path| ensures path[i] != path[j] {
      NoReturn(lower, t, path, i, j);
    }
  }

  /** So when no transform feeds itself, the check accepts exactly the topologies in which every
      node reaches a sink or a dynamic table. */
  lemma AcceptedMeansReachable(lower: Casing, t: Topology, v: Verdict)
    requires AllParse(t) && Acyclic(lower, t) && IsVerdict(lower, t, v)
    ensures v.Accepted? <==> forall key | IsNode(lower, t, key) :: Reaches(lower, t, key)
  {
    AcceptedExactly(lower, t, v);
    forall key ensures !GoesRound(lower, t, key) {
      NoWayRound(lower, t, key);
    }
  }

  lemma OrphanStands(lower: Casing, t: Topology, key: string)
    requires IsOrphan(lower, t, key)
    ensures !GoesRound(lower, t, key)
  {
    forall path | Walk(lower, t, path) && path[0] == key ensures |path| == 1 {
      assert |path| > 1 ==> Edge(lower, t, path[0], path[1]);
    }
  }

  lemma StartIsRead(lower: Casing, t: Topology, path: seq<string>)
    requires Walk(lower, t, path) && Drained(lower, t, path[|path| - 1])
    ensures ReadByTransform(lower, t, path[0]) || ReadBySink(lower, t, path[0])
  {
    if |path| > 1 {
      assert Edge(lower, t, path[0], path[1]);
    }
  }

  lemma OrphanReachesNothing(lower: Casing, t: Topology, key: string)
    requires IsOrphan(lower, t, key)
    ensures !Reaches(lower, t, key)
  {
    if path :| Walk(lower, t, path) && path[0] == key && Drained(lower, t, path[|path| - 1]) {
      StartIsRead(lower, t, path);
      assert false;
    }
  }

  /** Two transforms that read each other are accepted although nothing they produce gets out. */
  lemma CyclesAreAccepted(lower: Casing)
    requires lower("a") == "a" && lower("b") == "b"
    ensures var a, b := Named("a", Mapping(None, None, Some("b"))), Named("b", Mapping(None, None, Some("a")));
            var t := Topology([], [a, b], []);
            && IsVerdict(lower, t, Accepted) && AllParse(t)
            && IsNode(lower, t, "a") && !Reaches(lower, t, "a")
  {
    var t := Topology([], [Named("a", Mapping(None, None, Some("b"))), Named("b", Mapping(None, None, Some("a")))], []);
    assert Reads(lower, t.transforms[0].transform) == ["b"];
    assert Reads(lower, t.transforms[1].transform) == ["a"];
    assert "a" in Reads(lower, t.transforms[1].transform) && "b" in Reads(lower, t.transforms[0].transform);
    assert forall key :: IsNode(lower, t, key) ==> key == "a" || key == "b";
    assert forall key :: !Drained(lower, t, key);
    assert !IsDynamic(t.transforms[0].transform) && "a" == lower(t.transforms[0].name);
  }
}
