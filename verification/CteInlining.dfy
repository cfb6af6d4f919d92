/** What the walk of `SqlTables` means: full inlining, each CTE name substituted by its definition,
    in definition order. */
module CteInlining {
  import opened Wrappers
  import opened SqlTables

  /** Every CTE name replaced by a derived table of its own inlined definition. */
  function Inline(b: Body, defs: map<string, Body>): Body
    decreases b, 0
  {
    match b
    case Select(from) =>
      if |from| != 1 then b
      else (match from[0].relation
            case Table(name) =>
              if name in defs
              then Select([TableWithJoins(Derived(Query(false, [], defs[name])), from[0].joins)])
              else b
            case Derived(subquery) =>
              Select([TableWithJoins(Derived(Query(false, [], InlineQuery(subquery, defs))), from[0].joins)])
            case OtherRelation => b)
    case SetOperation(left, right) => SetOperation(Inline(left, defs), Inline(right, defs))
    case OtherBody => b
  }

  function InlineQuery(q: Query, defs: map<string, Body>): Body
    decreases q, 0
  {
    Inline(q.body, Definitions(q.ctes, defs))
  }

  /** Definitions in order: each sees the ones before it, and a later one of the same name wins. */
  function Definitions(ctes: seq<Cte>, outer: map<string, Body>): map<string, Body>
    decreases ctes, 0
  {
    if ctes == [] then outer
    else
      var n := |ctes| - 1;
      var before := Definitions(ctes[..n], outer);
      before[ctes[n].name := InlineQuery(ctes[n].query, before)]
  }

  /** No subquery and no CTE body brings a WITH clause of its own. */
  predicate Flat(b: Body) {
    match b
    case Select(from) =>
      |from| == 1 && from[0].relation.Derived? ==> FlatQuery(from[0].relation.subquery)
    case SetOperation(left, right) => Flat(left) && Flat(right)
    case OtherBody => true
  }

  predicate FlatQuery(q: Query) {
    q.ctes == [] && Flat(q.body)
  }

  predicate FlatCtes(ctes: seq<Cte>) {
    forall i | 0 <= i < |ctes| :: FlatQuery(ctes[i].query)
  }

  // ---------------------------------------------------------------- the walk equals inlining

  /** `full` is `short` with each table repeated some number of times in place. */
  ghost predicate Stretches(short: seq<string>, full: seq<string>) {
    if short == [] then full == []
    else exists n | 0 < n <= |full| :: OneTable(full[..n], short[0]) && Stretches(short[1..], full[n..])
  }

  lemma StretchStep(short: seq<string>, full: seq<string>, n: nat)
    requires short != [] && 0 < n <= |full| && OneTable(full[..n], short[0]) && Stretches(short[1..], full[n..])
    ensures Stretches(short, full)
  {
  }

  lemma SumTail(a: seq<string>, b: seq<string>, n: nat)
    requires n <= |a|
    ensures (a + b)[..n] == a[..n] && (a + b)[n..] == a[n..] + b
  {
  }

  lemma {:induction false} StretchSum(a: seq<string>, x: seq<string>, b: seq<string>, y: seq<string>)
    requires Stretches(a, x) && Stretches(b, y)
    ensures Stretches(a + b, x + y)
  {
    if a == [] {
      assert a + b == b && x + y == y;
    } else {
      var n :| 0 < n <= |x| && OneTable(x[..n], a[0]) && Stretches(a[1..], x[n..]);
      StretchSum(a[1..], x[n..], b, y);
      SumTail(a, b, 1);
      SumTail(x, y, n);
      StretchStep(a + b, x + y, n);
    }
  }

  lemma {:induction false} StretchSameTables(short: seq<string>, full: seq<string>)
    requires Stretches(short, full)
    ensures forall t :: t in short <==> t in full
    ensures |short| <= |full|
  {
    if short != [] {
      var n :| 0 < n <= |full| && OneTable(full[..n], short[0]) && Stretches(short[1..], full[n..]);
      StretchSameTables(short[1..], full[n..]);
      assert full == full[..n] + full[n..] && short == [short[0]] + short[1..];
      assert full[..n][0] in full[..n] && full[..n][0] == short[0];
      forall t ensures t in short <==> t in full {
        assert t in full <==> t in full[..n] || t in full[n..];
      }
    }
  }

  lemma StretchOne(t: string, full: seq<string>)
    requires OneTable(full, t)
    ensures Stretches([t], full)
  {
    assert full[..|full|] == full && full[|full|..] == [] && [t][1..] == [];
    assert OneTable(full[..|full|], [t][0]);
  }

  /** `env` names the base table beneath every definition. */
  ghost predicate Beneath(env: map<string, string>, defs: map<string, Body>) {
    && env.Keys == defs.Keys
    && forall n | n in env :: Leaves(defs[n]).Ok? && OneTable(Leaves(defs[n]).value, env[n])
  }

  /** Where `scope` holds, the name reads only the table that the walk takes it for. */
  predicate StandsFor(env: map<string, string>, scope: map<string, Body>, name: string) {
    if name in scope then Leaves(scope[name]).Ok? && OneTable(Leaves(scope[name]).value, Lookup(env, name))
    else Lookup(env, name) == name
  }

  /** Every FROM leaf, in the scope of the WITH clauses around it, reads only the table that the
      walk takes it for. */
  predicate Agrees(b: Body, env: map<string, string>, scope: map<string, Body>) {
    match b
    case Select(from) =>
      |from| == 1 && from[0].joins == 0 ==>
        (match from[0].relation
         case Table(name) => StandsFor(env, scope, name)
         case Derived(subquery) => Agrees(subquery.body, env, Definitions(subquery.ctes, scope))
         case OtherRelation => true)
    case SetOperation(left, right) => Agrees(left, env, scope) && Agrees(right, env, scope)
    case OtherBody => true
  }

  lemma {:induction false} FlatAgrees(b: Body, env: map<string, string>, defs: map<string, Body>)
    requires Flat(b) && Beneath(env, defs)
    ensures Agrees(b, env, defs)
    decreases b
  {
    match b
    case Select(from) =>
      if |from| == 1 && from[0].relation.Derived? {
        assert Definitions(from[0].relation.subquery.ctes, defs) == defs;
        FlatAgrees(from[0].relation.subquery.body, env, defs);
      }
    case SetOperation(left, right) =>
      FlatAgrees(left, env, defs);
      FlatAgrees(right, env, defs);
    case OtherBody =>
  }

  function NamesOf(ctes: seq<Cte>): set<string> {
    set i | 0 <= i < |ctes| :: ctes[i].name
  }

  /** What the WITH clauses passed through capture is harmless: a leaf whose name one of them binds
      reads only the table that the walk, which does not look at them, takes it for. Of other leaves
      nothing is asked. */
  predicate HarmlessCaptures(b: Body, env: map<string, string>, scope: map<string, Body>, captured: set<string>) {
    match b
    case Select(from) =>
      |from| == 1 && from[0].joins == 0 ==>
        (match from[0].relation
         case Table(name) => name in captured ==> StandsFor(env, scope, name)
         case Derived(subquery) =>
           HarmlessCaptures(subquery.body, env, Definitions(subquery.ctes, scope), captured + NamesOf(subquery.ctes))
         case OtherRelation => true)
    case SetOperation(left, right) =>
      HarmlessCaptures(left, env, scope, captured) && HarmlessCaptures(right, env, scope, captured)
    case OtherBody => true
  }

  predicate SameAt(a: map<string, Body>, b: map<string, Body>, name: string) {
    (name in a <==> name in b) && (name in a ==> a[name] == b[name])
  }

  lemma {:induction false} OtherNamesKept(ctes: seq<Cte>, outer: map<string, Body>, name: string)
    requires name !in NamesOf(ctes)
    ensures SameAt(Definitions(ctes, outer), outer, name)
    decreases |ctes|
  {
    if ctes != [] {
      var n := |ctes| - 1;
      assert ctes[n].name in NamesOf(ctes);
      forall i | 0 <= i < n ensures ctes[..n][i].name != name {
        assert ctes[i].name in NamesOf(ctes);
      }
      OtherNamesKept(ctes[..n], outer, name);
    }
  }

  /** Agreement is a matter of captured names alone: a body reads what the walk takes it to read
      exactly when its nested WITH clauses capture no name to its harm. */
  lemma {:induction false} CapturesDecide(b: Body, env: map<string, string>, defs: map<string, Body>,
      scope: map<string, Body>, captured: set<string>)
    requires Beneath(env, defs) && forall name | name !in captured :: SameAt(scope, defs, name)
    ensures HarmlessCaptures(b, env, scope, captured) <==> Agrees(b, env, scope)
    decreases b
  {
    match b
    case Select(from) =>
      if |from| == 1 && from[0].joins == 0 {
        match from[0].relation
        case Table(name) => assert name !in captured ==> SameAt(scope, defs, name);
        case Derived(subquery) =>
          var inner := Definitions(subquery.ctes, scope);
          forall name | name !in captured + NamesOf(subquery.ctes) ensures SameAt(inner, defs, name) {
            OtherNamesKept(subquery.ctes, scope, name);
            assert SameAt(scope, defs, name);
          }
          CapturesDecide(subquery.body, env, defs, inner, captured + NamesOf(subquery.ctes));
        case OtherRelation =>
      }
    case SetOperation(left, right) =>
      CapturesDecide(left, env, defs, scope, captured);
      CapturesDecide(right, env, defs, scope, captured);
    case OtherBody =>
  }

  /** The walk over a body with the base tables of its CTEs, against the walk over the inlined body. */
  lemma {:induction false} WalkIsInlining(b: Body, env: map<string, string>, scope: map<string, Body>)
    requires Agrees(b, env, scope)
    ensures match Leaves(b)
            case Err(e) => Leaves(Inline(b, scope)) == Err(e)
            case Ok(ls) => Leaves(Inline(b, scope)).Ok? && Stretches(Resolve(env, ls), Leaves(Inline(b, scope)).value)
    decreases b
  {
    match b
    case Select(from) =>
      if |from| == 1 && from[0].joins == 0 {
        match from[0].relation
        case Table(name) =>
          assert Resolve(env, [name]) == [Lookup(env, name)];
          if name in scope {
            assert Leaves(Inline(b, scope)) == Leaves(scope[name]);
            StretchOne(Lookup(env, name), Leaves(scope[name]).value);
          } else {
            StretchOne(name, [name]);
          }
        case Derived(subquery) =>
          var inner := Definitions(subquery.ctes, scope);
          WalkIsInlining(subquery.body, env, inner);
          assert Leaves(Inline(b, scope)) == Leaves(Inline(subquery.body, inner));
        case OtherRelation =>
      }
    case SetOperation(left, right) =>
      WalkIsInlining(left, env, scope);
      WalkIsInlining(right, env, scope);
      if Leaves(left).Ok? && Leaves(right).Ok? {
        ResolveSum(env, Leaves(left).value, Leaves(right).value);
        StretchSum(Resolve(env, Leaves(left).value), Leaves(Inline(left, scope)).value,
                   Resolve(env, Leaves(right).value), Leaves(Inline(right, scope)).value);
      }
    case OtherBody =>
  }

  // ---------------------------------------------------------------- leaf by leaf

  /** The tables that each FROM leaf of the body reads, one list a leaf. */
  function Blocks(b: Body, scope: map<string, Body>): Result<seq<seq<string>>> {
    match b
    case Select(from) =>
      if |from| != 1 then Err(NotOneFrom)
      else if from[0].joins > 0 then Err(HasJoins)
      else (match from[0].relation
            case Table(name) =>
              if name !in scope then Ok([[name]])
              else (match Leaves(scope[name])
                    case Ok(ls) => Ok([ls])
                    case Err(e) => Err(e))
            case Derived(subquery) => Blocks(subquery.body, Definitions(subquery.ctes, scope))
            case OtherRelation => Err(UnsupportedRelation))
    case SetOperation(left, right) =>
      (match Blocks(left, scope)
       case Err(e) => Err(e)
       case Ok(ls) =>
         match Blocks(right, scope)
         case Err(e) => Err(e)
         case Ok(rs) => Ok(ls + rs))
    case OtherBody => Err(NotASelect)
  }

  function Concat(blocks: seq<seq<string>>): seq<string> {
    if blocks == [] then [] else blocks[0] + Concat(blocks[1..])
  }

  lemma ConcatHead(a: seq<seq<string>>, b: seq<seq<string>>)
    requires a != []
    ensures Concat(a + b) == a[0] + Concat(a[1..] + b)
  {
    assert (a + b)[1..] == a[1..] + b;
  }

  lemma {:induction false} ConcatSum(a: seq<seq<string>>, b: seq<seq<string>>)
    ensures Concat(a + b) == Concat(a) + Concat(b)
  {
    if a == [] {
      assert a + b == b;
    } else {
      ConcatHead(a, b);
      ConcatSum(a[1..], b);
    }
  }

  /** The lists of all leaves, one after the other, are the walk over the inlined body. */
  lemma {:induction false} BlocksAreInlined(b: Body, scope: map<string, Body>)
    ensures match Blocks(b, scope)
            case Err(e) => Leaves(Inline(b, scope)) == Err(e)
            case Ok(blocks) => Leaves(Inline(b, scope)) == Ok(Concat(blocks))
    decreases b
  {
    match b
    case Select(from) =>
      if |from| == 1 && from[0].joins == 0 {
        match from[0].relation
        case Table(name) =>
          if name in scope {
            assert Leaves(Inline(b, scope)) == Leaves(scope[name]);
            if Leaves(scope[name]).Ok? {
              ConcatOne(Leaves(scope[name]).value);
            }
          } else {
            ConcatOne([name]);
          }
        case Derived(subquery) =>
          var inner := Definitions(subquery.ctes, scope);
          BlocksAreInlined(subquery.body, inner);
          assert Leaves(Inline(b, scope)) == Leaves(Inline(subquery.body, inner));
        case OtherRelation =>
      }
    case SetOperation(left, right) =>
      BlocksAreInlined(left, scope);
      BlocksAreInlined(right, scope);
      if Blocks(left, scope).Ok? && Blocks(right, scope).Ok? {
        ConcatSum(Blocks(left, scope).value, Blocks(right, scope).value);
      }
    case OtherBody =>
  }

  lemma ConcatOne(block: seq<string>)
    ensures Concat([block]) == block
  {
    assert [block][1..] == [];
  }

  lemma {:induction false} OneBlockPerLeaf(b: Body, scope: map<string, Body>)
    requires Leaves(b).Ok? && Blocks(b, scope).Ok?
    ensures |Blocks(b, scope).value| == |Leaves(b).value|
    decreases b
  {
    match b
    case Select(from) =>
      if from[0].relation.Derived? {
        OneBlockPerLeaf(from[0].relation.subquery.body, Definitions(from[0].relation.subquery.ctes, scope));
      }
    case SetOperation(left, right) =>
      OneBlockPerLeaf(left, scope);
      OneBlockPerLeaf(right, scope);
  }

  /** Each list is of the one table that the walk reports for that leaf. */
  ghost predicate Reported(tables: seq<string>, blocks: seq<seq<string>>) {
    |tables| == |blocks| && forall i | 0 <= i < |blocks| :: OneTable(blocks[i], tables[i])
  }

  lemma ReportedSum(a: seq<string>, x: seq<seq<string>>, b: seq<string>, y: seq<seq<string>>)
    requires |a| == |x| && |b| == |y|
    ensures Reported(a + b, x + y) <==> Reported(a, x) && Reported(b, y)
  {
    if Reported(a + b, x + y) {
      forall i | 0 <= i < |x| ensures OneTable(x[i], a[i]) {
        assert (x + y)[i] == x[i] && (a + b)[i] == a[i];
      }
      forall i | 0 <= i < |y| ensures OneTable(y[i], b[i]) {
        assert (x + y)[|x| + i] == y[i] && (a + b)[|x| + i] == b[i];
      }
    }
  }

  lemma ReportedOne(table: string, block: seq<string>)
    ensures Reported([table], [block]) <==> OneTable(block, table)
    ensures |block| == 1 ==> (OneTable(block, table) <==> block[0] == table)
  {
    if Reported([table], [block]) {
      assert OneTable([block][0], [table][0]);
    }
    assert |block| == 1 ==> block[0] in block;
  }

  /** The exact condition, whatever WITH clauses are nested: the walk reports for every FROM leaf the
      one table that this leaf reads exactly when the leaf reads only what the walk takes it for. */
  lemma {:induction false} AgreesExactly(b: Body, env: map<string, string>, scope: map<string, Body>)
    requires Leaves(b).Ok?
    ensures Agrees(b, env, scope)
       <==> Blocks(b, scope).Ok? && Reported(Resolve(env, Leaves(b).value), Blocks(b, scope).value)
    decreases b
  {
    match b
    case Select(from) =>
      match from[0].relation {
        case Table(name) =>
          assert Resolve(env, [name]) == [Lookup(env, name)];
          ReportedOne(Lookup(env, name), [name]);
          if name in scope && Leaves(scope[name]).Ok? {
            ReportedOne(Lookup(env, name), Leaves(scope[name]).value);
          }
        case Derived(subquery) =>
          AgreesExactly(subquery.body, env, Definitions(subquery.ctes, scope));
      }
    case SetOperation(left, right) =>
      AgreesExactly(left, env, scope);
      AgreesExactly(right, env, scope);
      ResolveSum(env, Leaves(left).value, Leaves(right).value);
      if Blocks(left, scope).Ok? && Blocks(right, scope).Ok? {
        OneBlockPerLeaf(left, scope);
        OneBlockPerLeaf(right, scope);
        ReportedSum(Resolve(env, Leaves(left).value), Blocks(left, scope).value,
                    Resolve(env, Leaves(right).value), Blocks(right, scope).value);
      }
  }

  // ---------------------------------------------------------------- definitions in order

  /** The inlined definition of the `i`-th CTE, in the scope of the ones before it. */
  function Definition(ctes: seq<Cte>, i: nat): Body
    requires i < |ctes|
  {
    InlineQuery(ctes[i].query, Definitions(ctes[..i], map[]))
  }

  /** The `i`-th CTE, inlined, reads one table. */
  ghost predicate ReadsOneTable(ctes: seq<Cte>, i: nat)
    requires i < |ctes|
  {
    var ls := Leaves(Definition(ctes, i));
    ls.Ok? && exists t :: OneTable(ls.value, t)
  }

  lemma DefinitionPrefix(ctes: seq<Cte>, n: nat, i: nat)
    requires i < n <= |ctes|
    ensures Definition(ctes[..n], i) == Definition(ctes, i)
  {
    assert ctes[..n][..i] == ctes[..i];
  }

  /** Each CTE body agrees, in the scope of its own WITH clause and of the CTEs before it. */
  ghost predicate CtesAgree(ctes: seq<Cte>) {
    forall i | 0 <= i < |ctes| :: CteAgrees(ctes, i)
  }

  predicate CteAgrees(ctes: seq<Cte>, i: nat)
    requires i < |ctes|
  {
    BaseTables(ctes[..i]).Ok? ==>
      Agrees(ctes[i].query.body, BaseTables(ctes[..i]).value,
             Definitions(ctes[i].query.ctes, Definitions(ctes[..i], map[])))
  }

  lemma CtesAgreeBefore(ctes: seq<Cte>, n: nat)
    requires n <= |ctes| && CtesAgree(ctes)
    ensures CtesAgree(ctes[..n])
  {
    forall i | 0 <= i < n ensures CteAgrees(ctes[..n], i) {
      assert ctes[..n][..i] == ctes[..i] && CteAgrees(ctes, i);
    }
  }

  lemma {:induction false} CtesResolve(ctes: seq<Cte>)
    requires CtesAgree(ctes)
    ensures BaseTables(ctes).Ok? <==> forall i | 0 <= i < |ctes| :: ReadsOneTable(ctes, i)
    ensures BaseTables(ctes).Ok? ==> Beneath(BaseTables(ctes).value, Definitions(ctes, map[]))
    decreases |ctes|
  {
    if ctes != [] {
      var n := |ctes| - 1;
      var before := ctes[..n];
      CtesAgreeBefore(ctes, n);
      CtesResolve(before);
      forall i | 0 <= i < n ensures ReadsOneTable(before, i) == ReadsOneTable(ctes, i) {
        DefinitionPrefix(ctes, n, i);
      }
      if BaseTables(before).Ok? {
        LastCteResolves(ctes, n, BaseTables(before).value);
      } else {
        var i :| 0 <= i < n && !ReadsOneTable(before, i);
        assert !ReadsOneTable(ctes, i);
      }
    }
  }

  lemma LastCteResolves(ctes: seq<Cte>, n: nat, env: map<string, string>)
    requires n == |ctes| - 1 && CteAgrees(ctes, n)
    requires BaseTables(ctes[..n]) == Ok(env) && Beneath(env, Definitions(ctes[..n], map[]))
    ensures BaseTables(ctes).Ok? <==> ReadsOneTable(ctes, n)
    ensures BaseTables(ctes).Ok? ==> Beneath(BaseTables(ctes).value, Definitions(ctes, map[]))
  {
    BaseIsInlined(env, Definitions(ctes[n].query.ctes, Definitions(ctes[..n], map[])), ctes[n].query.body);
    LastDefinition(ctes, n);
    LastBase(ctes, n, env);
  }

  lemma LastDefinition(ctes: seq<Cte>, n: nat)
    requires n == |ctes| - 1
    ensures var defs := Definitions(ctes[..n], map[]);
            && Definition(ctes, n) == Inline(ctes[n].query.body, Definitions(ctes[n].query.ctes, defs))
            && Definitions(ctes, map[]) == defs[ctes[n].name := Definition(ctes, n)]
  {
  }

  lemma {:induction false} FlatCtesAgree(ctes: seq<Cte>)
    requires FlatCtes(ctes)
    ensures CtesAgree(ctes)
    decreases |ctes|
  {
    forall i | 0 <= i < |ctes| ensures CteAgrees(ctes, i) {
      FlatCtesAgree(ctes[..i]);
      CtesResolve(ctes[..i]);
      assert FlatQuery(ctes[i].query);
      var defs := Definitions(ctes[..i], map[]);
      assert Definitions(ctes[i].query.ctes, defs) == defs;
      if BaseTables(ctes[..i]).Ok? {
        FlatAgrees(ctes[i].query.body, BaseTables(ctes[..i]).value, defs);
      }
    }
  }

  lemma LastBase(ctes: seq<Cte>, n: nat, env: map<string, string>)
    requires n == |ctes| - 1 && BaseTables(ctes[..n]) == Ok(env)
    ensures var base := BaseTable(env, ctes[n].query.body);
            && BaseTables(ctes).Ok? == base.Ok?
            && (base.Ok? ==> BaseTables(ctes) == Ok(env[ctes[n].name := base.value]))
  {
  }

  lemma BaseIsInlined(env: map<string, string>, defs: map<string, Body>, body: Body)
    requires Agrees(body, env, defs)
    ensures BaseTable(env, body).Ok? <==>
      Leaves(Inline(body, defs)).Ok? && exists t :: OneTable(Leaves(Inline(body, defs)).value, t)
    ensures BaseTable(env, body).Ok? ==> OneTable(Leaves(Inline(body, defs)).value, BaseTable(env, body).value)
  {
    WalkIsInlining(body, env, defs);
    if Leaves(body).Ok? {
      var tables := Resolve(env, Leaves(body).value);
      var full := Leaves(Inline(body, defs)).value;
      StretchSameTables(tables, full);
      SameOneTable(tables, full);
    }
  }

  lemma SameOneTable(a: seq<string>, b: seq<string>)
    requires forall t :: t in a <==> t in b
    ensures a == [] <==> b == []
    ensures forall t :: OneTable(a, t) <==> OneTable(b, t)
    ensures a != [] ==> ((exists t :: OneTable(b, t)) <==> OneTable(a, a[0]))
    ensures a != [] ==> a[0] in b
  {
    assert a != [] ==> a[0] in b;
    assert b != [] ==> b[0] in a;
  }

  /** Every FROM leaf of the query and of its CTEs reads only what the walk takes it for. */
  ghost predicate QueryAgrees(q: Query) {
    && CtesAgree(q.ctes)
    && (BaseTables(q.ctes).Ok? ==> Agrees(q.body, BaseTables(q.ctes).value, Definitions(q.ctes, map[])))
  }

  /** In the body of the `i`-th CTE: what its own WITH clause and those of its subqueries capture. */
  predicate CteHarmless(ctes: seq<Cte>, i: nat)
    requires i < |ctes|
  {
    BaseTables(ctes[..i]).Ok? ==>
      HarmlessCaptures(ctes[i].query.body, BaseTables(ctes[..i]).value,
                       Definitions(ctes[i].query.ctes, Definitions(ctes[..i], map[])), NamesOf(ctes[i].query.ctes))
  }

  ghost predicate CtesHarmless(ctes: seq<Cte>) {
    forall i | 0 <= i < |ctes| :: CteHarmless(ctes, i)
  }

  /** No nested WITH clause, in a CTE or in the main body, captures a name to the query's harm. */
  ghost predicate QueryHarmless(q: Query) {
    && CtesHarmless(q.ctes)
    && (BaseTables(q.ctes).Ok? ==>
          HarmlessCaptures(q.body, BaseTables(q.ctes).value, Definitions(q.ctes, map[]), {}))
  }

  lemma CteCapturesDecide(ctes: seq<Cte>, i: nat)
    requires i < |ctes| && CtesAgree(ctes[..i])
    ensures CteHarmless(ctes, i) <==> CteAgrees(ctes, i)
  {
    if BaseTables(ctes[..i]).Ok? {
      CtesResolve(ctes[..i]);
      var defs, own := Definitions(ctes[..i], map[]), ctes[i].query.ctes;
      forall name | name !in NamesOf(own) ensures SameAt(Definitions(own, defs), defs, name) {
        OtherNamesKept(own, defs, name);
      }
      CapturesDecide(ctes[i].query.body, BaseTables(ctes[..i]).value, defs, Definitions(own, defs), NamesOf(own));
    }
  }

  lemma {:induction false} CtesCapturesDecide(ctes: seq<Cte>)
    ensures CtesHarmless(ctes) <==> CtesAgree(ctes)
    decreases |ctes|
  {
    if ctes != [] {
      var n := |ctes| - 1;
      CtesCapturesDecide(ctes[..n]);
      forall i | 0 <= i < n
        ensures CteHarmless(ctes[..n], i) == CteHarmless(ctes, i) && CteAgrees(ctes[..n], i) == CteAgrees(ctes, i)
      {
        assert ctes[..n][..i] == ctes[..i];
      }
      if CtesAgree(ctes[..n]) {
        CteCapturesDecide(ctes, n);
      } else {
        var i :| 0 <= i < n && !CteAgrees(ctes[..n], i);
        var j :| 0 <= j < n && !CteHarmless(ctes[..n], j);
        assert !CteAgrees(ctes, i) && !CteHarmless(ctes, j);
      }
    }
  }

  /** A query agrees with its scopes exactly when no nested WITH clause captures a name to its harm. */
  lemma QueryCapturesDecide(q: Query)
    ensures QueryHarmless(q) <==> QueryAgrees(q)
  {
    CtesCapturesDecide(q.ctes);
    if CtesAgree(q.ctes) && BaseTables(q.ctes).Ok? {
      CtesResolve(q.ctes);
      var defs := Definitions(q.ctes, map[]);
      CapturesDecide(q.body, BaseTables(q.ctes).value, defs, defs, {});
    }
  }

  /** A query without nested WITH clauses always agrees. */
  lemma FlatQueryAgrees(q: Query)
    requires Flat(q.body) && FlatCtes(q.ctes)
    ensures QueryAgrees(q) && QueryHarmless(q)
  {
    QueryCapturesDecide(q);
    FlatCtesAgree(q.ctes);
    CtesResolve(q.ctes);
    if BaseTables(q.ctes).Ok? {
      FlatAgrees(q.body, BaseTables(q.ctes).value, Definitions(q.ctes, map[]));
    }
  }

  /** The main result. Extraction succeeds exactly when every CTE, inlined, reads one table and the
      inlined query can be walked; the answer then names the tables of the inlined query, one entry
      for each FROM leaf of the main body in order. */
  lemma ExtractionIsInlining(q: Query)
    requires QueryHarmless(q)
    ensures QueryReferences(q).Ok? <==>
      && (q.ctes == [] || !q.recursive)
      && (forall i | 0 <= i < |q.ctes| :: ReadsOneTable(q.ctes, i))
      && Leaves(InlineQuery(q, map[])).Ok?
    ensures QueryReferences(q).Ok? ==>
      && Leaves(q.body).Ok?
      && |QueryReferences(q).value| == |Leaves(q.body).value|
      && Stretches(QueryReferences(q).value, Leaves(InlineQuery(q, map[])).value)
      && forall t :: t in QueryReferences(q).value <==> t in Leaves(InlineQuery(q, map[])).value
  {
    QueryCapturesDecide(q);
    CtesResolve(q.ctes);
    if BaseTables(q.ctes).Ok? {
      var env := BaseTables(q.ctes).value;
      WalkIsInlining(q.body, env, Definitions(q.ctes, map[]));
      if QueryReferences(q).Ok? {
        StretchSameTables(QueryReferences(q).value, Leaves(InlineQuery(q, map[])).value);
      }
    }
  }

  /** What stands in the way of a CTE that does not come down to one table. */
  function CteError(ctes: seq<Cte>, i: nat): Error
    requires i < |ctes|
  {
    match Leaves(Definition(ctes, i))
    case Err(e) => e
    case Ok(_) => CteWithoutOneBase
  }

  /** The `i`-th CTE is the first that, inlined, does not read one table. */
  ghost predicate FirstBad(ctes: seq<Cte>, i: nat) {
    i < |ctes| && !ReadsOneTable(ctes, i) && forall j | 0 <= j < i :: ReadsOneTable(ctes, j)
  }

  lemma BaseErrorIsInlined(env: map<string, string>, defs: map<string, Body>, body: Body)
    requires Agrees(body, env, defs) && BaseTable(env, body).Err?
    ensures BaseTable(env, body).error
         == match Leaves(Inline(body, defs)) case Err(e) => e case Ok(_) => CteWithoutOneBase
  {
    WalkIsInlining(body, env, defs);
  }

  lemma {:induction false} CtesFail(ctes: seq<Cte>)
    requires CtesAgree(ctes) && BaseTables(ctes).Err?
    ensures exists i: nat :: FirstBad(ctes, i) && BaseTables(ctes).error == CteError(ctes, i)
    decreases |ctes|
  {
    var n := |ctes| - 1;
    CtesAgreeBefore(ctes, n);
    forall i | 0 <= i < n
      ensures ReadsOneTable(ctes[..n], i) == ReadsOneTable(ctes, i) && CteError(ctes[..n], i) == CteError(ctes, i)
    {
      DefinitionPrefix(ctes, n, i);
    }
    if BaseTables(ctes[..n]).Err? {
      CtesFail(ctes[..n]);
      var i: nat :| FirstBad(ctes[..n], i) && BaseTables(ctes[..n]).error == CteError(ctes[..n], i);
      assert FirstBad(ctes, i);
    } else {
      LastCteFails(ctes, n, BaseTables(ctes[..n]).value);
    }
  }

  lemma LastCteFails(ctes: seq<Cte>, n: nat, env: map<string, string>)
    requires n == |ctes| - 1 && CtesAgree(ctes) && BaseTables(ctes[..n]) == Ok(env) && BaseTables(ctes).Err?
    ensures FirstBad(ctes, n) && BaseTables(ctes).error == CteError(ctes, n)
  {
    assert CteAgrees(ctes, n);
    CtesAgreeBefore(ctes, n);
    CtesResolve(ctes[..n]);
    CtesResolve(ctes);
    forall i | 0 <= i < n ensures ReadsOneTable(ctes, i) {
      DefinitionPrefix(ctes, n, i);
      assert ReadsOneTable(ctes[..n], i);
    }
    LastDefinition(ctes, n);
    BaseErrorIsInlined(env, Definitions(ctes[n].query.ctes, Definitions(ctes[..n], map[])), ctes[n].query.body);
  }

  lemma OneBad(ctes: seq<Cte>, i: nat, j: nat)
    requires FirstBad(ctes, i) && FirstBad(ctes, j)
    ensures i == j
  {
  }

  /** The answer is one table for each FROM leaf of the main body, the one that the leaf reads once
      everything is inlined; there is one exactly when each inlined CTE reads one table and the inlined
      query can be walked. */
  ghost predicate AnswersInlined(q: Query, answer: Result<seq<string>>) {
    && (answer.Ok? <==>
          && (forall i | 0 <= i < |q.ctes| :: ReadsOneTable(q.ctes, i))
          && Leaves(InlineQuery(q, map[])).Ok?)
    && (answer.Ok? ==>
          && Leaves(q.body).Ok? && |answer.value| == |Leaves(q.body).value|
          && var blocks := Blocks(q.body, Definitions(q.ctes, map[]));
             && blocks.Ok? && Reported(answer.value, blocks.value)
             && Leaves(InlineQuery(q, map[])).value == Concat(blocks.value))
  }

  /** The extraction as its callers see it, for every parse. What is no single query, and a recursive
      WITH clause, is refused; a query without harmful captures is answered by what it reads inlined. */
  lemma AnswerIsInlining(parsed: Option<seq<Statement>>)
    ensures match parsed
            case None => References(parsed) == Err(DoesNotParse)
            case Some(statements) =>
              if |statements| != 1 then References(parsed) == Err(NotOneStatement)
              else if statements[0].OtherStatement? then References(parsed) == Err(NotAQuery)
              else
                var q := statements[0].query;
                if q.ctes != [] && q.recursive then References(parsed) == Err(RecursiveCte)
                else QueryHarmless(q) ==> AnswersInlined(q, References(parsed))
  {
    if parsed.Some? && |parsed.value| == 1 && parsed.value[0].QueryStatement? {
      var q := parsed.value[0].query;
      if QueryHarmless(q) {
        ExtractionIsInlining(q);
        if References(parsed).Ok? {
          ExtractionExactly(q);
        }
      }
    }
  }

  /** And its error: that of the first CTE that does not come down to one table, or of the inlined
      query. */
  lemma AnswerFailsAsInlined(q: Query, answer: Result<seq<string>>)
    requires QueryHarmless(q) && answer == References(Some([QueryStatement(q)])) && (q.ctes == [] || !q.recursive)
    ensures forall i: nat | FirstBad(q.ctes, i) :: answer == Err(CteError(q.ctes, i))
    ensures (forall i | 0 <= i < |q.ctes| :: ReadsOneTable(q.ctes, i)) && Leaves(InlineQuery(q, map[])).Err? ==>
              answer == Err(Leaves(InlineQuery(q, map[])).error)
  {
    QueryCapturesDecide(q);
    CtesResolve(q.ctes);
    if BaseTables(q.ctes).Err? {
      CtesFail(q.ctes);
      var first: nat :| FirstBad(q.ctes, first) && BaseTables(q.ctes).error == CteError(q.ctes, first);
      forall i: nat | FirstBad(q.ctes, i) ensures i == first {
        OneBad(q.ctes, i, first);
      }
    } else {
      WalkIsInlining(q.body, BaseTables(q.ctes).value, Definitions(q.ctes, map[]));
    }
  }

  function From(name: string): Body {
    Select([TableWithJoins(Table(name), 0)])
  }

  function FromQuery(q: Query): Body {
    Select([TableWithJoins(Derived(q), 0)])
  }

  /** The exact condition for the main body: extraction reports for every FROM leaf the one table that
      the leaf reads in the inlined query exactly when the body agrees with its scopes, and, where no
      CTE captures to its harm, exactly when the body's nested WITH clauses do not either. */
  lemma ExtractionExactly(q: Query)
    requires QueryReferences(q).Ok?
    ensures BaseTables(q.ctes).Ok?
    ensures var env, defs, blocks := BaseTables(q.ctes).value, Definitions(q.ctes, map[]),
                                     Blocks(q.body, Definitions(q.ctes, map[]));
      && (Agrees(q.body, env, defs) <==> blocks.Ok? && Reported(QueryReferences(q).value, blocks.value))
      && (CtesHarmless(q.ctes) ==>
            (HarmlessCaptures(q.body, env, defs, {}) <==>
               blocks.Ok? && Reported(QueryReferences(q).value, blocks.value)))
      && (blocks.Ok? ==> Leaves(InlineQuery(q, map[])) == Ok(Concat(blocks.value)))
  {
    var env, defs := BaseTables(q.ctes).value, Definitions(q.ctes, map[]);
    AgreesExactly(q.body, env, defs);
    BlocksAreInlined(q.body, defs);
    if CtesHarmless(q.ctes) {
      CtesCapturesDecide(q.ctes);
      CtesResolve(q.ctes);
      CapturesDecide(q.body, env, defs, defs, {});
    }
  }

  /** A WITH clause inside a derived table is not looked at: its CTE is reported as a table, here
      instead of the table `t` that the query reads. */
  lemma NestedWithIsMissed()
    ensures var nested := Query(false, [Cte("c", Query(false, [], From("t")))], From("c"));
            var q := Query(false, [], FromQuery(nested));
            QueryReferences(q) == Ok(["c"]) && Leaves(InlineQuery(q, map[])) == Ok(["t"])
  {
    var ctes := [Cte("c", Query(false, [], From("t")))];
    var nested := Query(false, ctes, From("c"));
    var q := Query(false, [], FromQuery(nested));
    assert Leaves(From("c")) == Ok(["c"]);
    assert Leaves(FromQuery(nested)) == Ok(["c"]);
    assert Resolve(map[], ["c"]) == ["c"];
    assert ctes[..0] == [];
    assert Definitions(ctes[..0], map[]) == map[];
    assert InlineQuery(ctes[0].query, map[]) == From("t");
    assert Definitions(ctes, map[]) == map["c" := From("t")];
    assert InlineQuery(nested, map[]) == FromQuery(Query(false, [], From("t")));
    assert Leaves(From("t")) == Ok(["t"]);
    assert InlineQuery(q, map[]) == FromQuery(Query(false, [], InlineQuery(nested, map[])));
  }

  /** Shadowing: a later CTE of the same name hides the earlier one, and its own body still sees
      the earlier one. */
  lemma ShadowingSeesTheEarlierOne(q: Query)
    requires q.ctes == [Cte("c", Query(false, [], From("t"))), Cte("c", Query(false, [], From("c")))]
    requires q == Query(false, q.ctes, From("c"))
    ensures QueryReferences(q) == Ok(["t"])
  {
    assert q.ctes[..1][..0] == [];
    assert BaseTables(q.ctes[..1][..0]) == Ok(map[]);
    assert Leaves(From("t")) == Ok(["t"]) && Leaves(From("c")) == Ok(["c"]);
    assert Resolve(map[], ["t"]) == ["t"];
    assert BaseTables(q.ctes[..1]) == Ok(map["c" := "t"]);
    assert Resolve(map["c" := "t"], ["c"]) == ["t"];
    assert map["c" := "t"]["c" := "t"] == map["c" := "t"];
    assert BaseTables(q.ctes) == Ok(map["c" := "t"]);
  }
}
