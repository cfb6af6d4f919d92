/** The order in which Rust sorts strings, and sorted listings of a set of names. */
module Sorting {

  /** Lexicographic, by character. */
  predicate AtMost(a: string, b: string) {
    a == "" || (b != "" && (a[0] < b[0] || (a[0] == b[0] && AtMost(a[1..], b[1..]))))
  }

  lemma {:induction false} AtMostTotal(a: string, b: string)
    ensures AtMost(a, b) || AtMost(b, a)
  {
    if a != "" && b != "" && a[0] == b[0] {
      AtMostTotal(a[1..], b[1..]);
    }
  }

  lemma {:induction false} AtMostAntisymmetric(a: string, b: string)
    requires AtMost(a, b) && AtMost(b, a)
    ensures a == b
  {
    if a != "" && b != "" {
      AtMostAntisymmetric(a[1..], b[1..]);
      assert a == [a[0]] + a[1..] && b == [b[0]] + b[1..];
    }
  }

  lemma {:induction false} AtMostTransitive(a: string, b: string, c: string)
    requires AtMost(a, b) && AtMost(b, c)
    ensures AtMost(a, c)
  {
    if a != "" && a[0] == b[0] == c[0] {
      AtMostTransitive(a[1..], b[1..], c[1..]);
    }
  }

  predicate Below(a: string, b: string) {
    AtMost(a, b) && a != b
  }

  /** a and b agree up to position i, where a ends or has the smaller character. */
  predicate SmallerAt(a: string, b: string, i: nat) {
    i <= |a| && i < |b| && (forall j | 0 <= j < i :: a[j] == b[j]) && (i == |a| || a[i] < b[i])
  }

  lemma SmallerBehind(a: string, b: string, i: nat)
    requires a != "" && b != "" && a[0] == b[0]
    ensures SmallerAt(a, b, i + 1) <==> SmallerAt(a[1..], b[1..], i)
  {
    if SmallerAt(a, b, i + 1) {
      assert forall j | 0 <= j < i :: a[1..][j] == a[j + 1] && b[1..][j] == b[j + 1];
    }
    if SmallerAt(a[1..], b[1..], i) {
      assert forall j | 0 < j <= i :: a[j] == a[1..][j - 1] && b[j] == b[1..][j - 1];
    }
  }

  /** The order is the one of the first difference. */
  lemma {:induction false} BelowIsLexicographic(a: string, b: string)
    ensures Below(a, b) <==> exists i: nat :: SmallerAt(a, b, i)
  {
    if a == "" || b == "" || a[0] != b[0] {
      assert Below(a, b) ==> SmallerAt(a, b, 0);
    } else {
      BelowIsLexicographic(a[1..], b[1..]);
      assert a == [a[0]] + a[1..] && b == [b[0]] + b[1..];
      assert !SmallerAt(a, b, 0);
      forall i: nat ensures SmallerAt(a, b, i + 1) <==> SmallerAt(a[1..], b[1..], i) {
        SmallerBehind(a, b, i);
      }
      if i: nat :| SmallerAt(a, b, i) {
        assert SmallerAt(a[1..], b[1..], i - 1);
      }
    }
  }

  predicate Ascends(names: seq<string>) {
    forall i, j | 0 <= i < j < |names| :: Below(names[i], names[j])
  }

  /** `names` lists exactly the elements of `all`, each once, in order. */
  ghost predicate Lists(names: seq<string>, all: set<string>) {
    Ascends(names) && forall n :: n in names <==> n in all
  }

  function Insert(name: string, names: seq<string>): (r: seq<string>)
    requires Ascends(names) && name !in names
    ensures Ascends(r)
    ensures forall n :: n in r <==> n == name || n in names
  {
    if names == [] then [name]
    else if AtMost(name, names[0]) then
      BelowAll(name, names);
      [name] + names
    else
      var rest := Insert(name, names[1..]);
      AtMostTotal(name, names[0]);
      assert forall n | n in rest :: n == name || n in names[1..];
      assert forall n | n in names[1..] :: Below(names[0], n);
      [names[0]] + rest
  }

  lemma BelowAll(name: string, names: seq<string>)
    requires Ascends(names) && names != [] && AtMost(name, names[0]) && name !in names
    ensures forall i | 0 <= i < |names| :: Below(name, names[i])
  {
    forall i | 0 <= i < |names| ensures Below(name, names[i]) {
      if i > 0 {
        assert Below(names[0], names[i]);
        AtMostTransitive(name, names[0], names[i]);
      }
      assert names[i] in names;
    }
  }

  function Sort(names: seq<string>): (r: seq<string>)
    requires forall i, j | 0 <= i < j < |names| :: names[i] != names[j]
    ensures Ascends(r)
    ensures forall n :: n in r <==> n in names
  {
    if names == [] then []
    else
      assert names[0] !in names[1..];
      Insert(names[0], Sort(names[1..]))
  }

  /** There is only one such listing. */
  lemma {:induction false} ListingIsUnique(a: seq<string>, b: seq<string>, all: set<string>)
    requires Lists(a, all) && Lists(b, all)
    ensures a == b
    decreases |a|
  {
    assert b != [] ==> b[0] in b && b[0] in all;
    if a != [] {
      assert a[0] in a && a[0] in b;
      assert b[0] in b && b[0] in a;
      LeastFirst(a, b[0]);
      LeastFirst(b, a[0]);
      AtMostAntisymmetric(a[0], b[0]);
      RestLists(a, all);
      RestLists(b, all);
      ListingIsUnique(a[1..], b[1..], all - {a[0]});
      assert a == [a[0]] + a[1..] && b == [b[0]] + b[1..];
    }
  }

  lemma LeastFirst(a: seq<string>, n: string)
    requires Ascends(a) && n in a
    ensures AtMost(a[0], n)
  {
    var i :| 0 <= i < |a| && a[i] == n;
    if i == 0 {
      AtMostTotal(n, n);
    }
  }

  lemma RestLists(a: seq<string>, all: set<string>)
    requires Lists(a, all) && a != []
    ensures Lists(a[1..], all - {a[0]})
  {
    assert a == [a[0]] + a[1..];
    assert forall i | 0 < i < |a| :: a[i] != a[0];
  }
}
