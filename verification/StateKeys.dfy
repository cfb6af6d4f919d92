/** A plugin's state handles: every partition instance of a node and the shared handle write to one
    flat key store, under keys composed from the node's name. */
module StateKeys {
  import opened Wrappers

  // ---------------------------------------------------------------- keys

  /** The node-wide handle, or the one of a partition instance. */
  datatype Handle = Shared | Partition(index: nat)

  /** What a handle addresses: its default value or one of its named values. */
  datatype Entry = Default | Named(key: string)

  function DigitChar(d: nat): (c: char)
    requires d < 10
    ensures '0' <= c <= '9'
  {
    ['0', '1', '2', '3', '4', '5', '6', '7', '8', '9'][d]
  }

  function Decimal(n: nat): (s: string)
    ensures s != "" && forall i | 0 <= i < |s| :: '0' <= s[i] <= '9'
    ensures n >= 10 <==> |s| >= 2
  {
    if n < 10 then [DigitChar(n)] else Decimal(n / 10) + [DigitChar(n % 10)]
  }

  function InstanceName(reference: string, h: Handle): string {
    match h
    case Shared => reference
    case Partition(i) => reference + "[" + Decimal(i) + "]"
  }

  /** The key of an entry under an optional explicit prefix for named values. */
  function KeyFor(name: string, prefix: Option<string>, e: Entry): string {
    match e
    case Default => name
    case Named(key) =>
      match prefix
      case None => name + ":" + key
      case Some(p) => if p == "" then key else p + ":" + key
  }

  function Key(reference: string, h: Handle, e: Entry): string {
    KeyFor(InstanceName(reference, h), None, e)
  }

  lemma {:induction false} DecimalInjective(m: nat, n: nat)
    requires Decimal(m) == Decimal(n)
    ensures m == n
  {
    var s, t := Decimal(m), Decimal(n);
    if m >= 10 {
      assert s[..|s| - 1] == Decimal(m / 10) && t[..|t| - 1] == Decimal(n / 10);
      assert s[|s| - 1] == DigitChar(m % 10) && t[|t| - 1] == DigitChar(n % 10);
      DecimalInjective(m / 10, n / 10);
      DigitInjective(m % 10, n % 10);
    } else {
      assert s[0] == DigitChar(m) && t[0] == DigitChar(n);
      DigitInjective(m, n);
    }
  }

  lemma DigitInjective(a: nat, b: nat)
    requires a < 10 && b < 10 && DigitChar(a) == DigitChar(b)
    ensures a == b
  {
  }

  /** What a key says behind the node's name. */
  function Suffix(h: Handle, e: Entry): string {
    (if h.Partition? then "[" + Decimal(h.index) + "]" else "") + (if e.Named? then ":" + e.key else "")
  }

  lemma KeyIsSuffixed(reference: string, h: Handle, e: Entry)
    ensures Key(reference, h, e) == reference + Suffix(h, e)
  {
  }

  /** The bracket closes at the first `]`. */
  lemma SameLength(a: string, x: string, b: string, y: string)
    requires a + "]" + x == b + "]" + y
    requires (forall i | 0 <= i < |a| :: a[i] != ']') && forall i | 0 <= i < |b| :: b[i] != ']'
    ensures a == b && x == y
  {
    var s, t := a + "]" + x, b + "]" + y;
    assert s[|a|] == ']' && t[|b|] == ']';
    assert forall k | 0 <= k < |a| :: s[k] == a[k] && s[k] != ']';
    assert forall k | 0 <= k < |b| :: t[k] == b[k] && t[k] != ']';
    assert |a| == |b|;
    assert a == s[..|a|] && b == t[..|b|];
    assert x == s[|a| + 1..] && y == t[|b| + 1..];
  }

  lemma Unbracket(a: string, x: string)
    ensures ("[" + a + "]" + x)[1..] == a + "]" + x
  {
  }

  /** A bracketed number is recovered from whatever follows it. */
  lemma BracketsInjective(i: nat, x: string, j: nat, y: string)
    requires "[" + Decimal(i) + "]" + x == "[" + Decimal(j) + "]" + y
    ensures i == j && x == y
  {
    var a, b := Decimal(i), Decimal(j);
    Unbracket(a, x);
    Unbracket(b, y);
    SameLength(a, x, b, y);
    DecimalInjective(i, j);
  }

  lemma SuffixInjective(h: Handle, e: Entry, g: Handle, f: Entry)
    requires Suffix(h, e) == Suffix(g, f)
    ensures h == g && e == f
  {
    var x := if e.Named? then ":" + e.key else "";
    var y := if f.Named? then ":" + f.key else "";
    assert Suffix(h, e) == if h.Partition? then "[" + Decimal(h.index) + "]" + x else x;
    assert Suffix(g, f) == if g.Partition? then "[" + Decimal(g.index) + "]" + y else y;
    assert (x != "" ==> x[0] == ':') && (y != "" ==> y[0] == ':');
    assert (h.Partition? ==> Suffix(h, e)[0] == '[') && (g.Partition? ==> Suffix(g, f)[0] == '[');
    if h.Partition? && g.Partition? {
      BracketsInjective(h.index, x, g.index, y);
    }
    assert x == y;
    assert e.Named? ==> x[1..] == e.key;
    assert f.Named? ==> y[1..] == f.key;
    assert e.Named? <==> x != "";
    assert f.Named? <==> y != "";
  }

  /** All keys of a node are different, whatever the node and the named values are called. */
  lemma KeysInjective(reference: string, h: Handle, e: Entry, g: Handle, f: Entry)
    ensures Key(reference, h, e) == Key(reference, g, f) <==> h == g && e == f
  {
    KeyIsSuffixed(reference, h, e);
    KeyIsSuffixed(reference, g, f);
    if Key(reference, h, e) == Key(reference, g, f) {
      assert Suffix(h, e) == (reference + Suffix(h, e))[|reference|..];
      assert Suffix(g, f) == (reference + Suffix(g, f))[|reference|..];
      SuffixInjective(h, e, g, f);
    }
  }

  // ---------------------------------------------------------------- the backend

  /** The flat key store that all handles of an application share. */
  class Store {
    var entries: map<string, int>

    constructor ()
      ensures entries == map[]
    {
      entries := map[];
    }
  }

  class PluginStateBackend {
    const inner: Store
    const referenceName: string
    var kvPrefix: Option<string>

    constructor (inner: Store, referenceName: string)
      ensures this.inner == inner && this.referenceName == referenceName && kvPrefix == None
    {
      this.inner := inner;
      this.referenceName := referenceName;
      kvPrefix := None;
    }

    function KeyOf(e: Entry): string
      reads this
    {
      KeyFor(referenceName, kvPrefix, e)
    }

    method SetPrefix(prefix: Option<string>)
      modifies this`kvPrefix
      ensures forall e :: KeyOf(e) == KeyFor(referenceName, prefix, e)
      ensures prefix.None? ==> forall k :: KeyOf(Named(k)) == referenceName + ":" + k
      ensures prefix == Some("") ==> forall k :: KeyOf(Named(k)) == k
      ensures prefix.Some? && prefix.value != "" ==> forall k :: KeyOf(Named(k)) == prefix.value + ":" + k
      ensures KeyOf(Default) == referenceName
    {
      kvPrefix := prefix;
    }

    method Get() returns (value: Option<int>)
      ensures value == Find(inner.entries, KeyOf(Default))
    {
      value := Find(inner.entries, referenceName);
    }

    method Put(value: int)
      modifies inner
      ensures inner.entries == old(inner.entries)[KeyOf(Default) := value]
    {
      inner.entries := inner.entries[referenceName := value];
    }

    method Remove()
      modifies inner
      ensures inner.entries == old(inner.entries) - {KeyOf(Default)}
    {
      inner.entries := inner.entries - {referenceName};
    }

    method GetKv(key: string) returns (value: Option<int>)
      ensures value == Find(inner.entries, KeyOf(Named(key)))
    {
      var composed := BuildKvKey(key);
      value := Find(inner.entries, composed);
    }

    method PutKv(key: string, value: int)
      modifies inner
      ensures inner.entries == old(inner.entries)[KeyOf(Named(key)) := value]
    {
      var composed := BuildKvKey(key);
      inner.entries := inner.entries[composed := value];
    }

    method RemoveKv(key: string)
      modifies inner
      ensures inner.entries == old(inner.entries) - {KeyOf(Named(key))}
    {
      var composed := BuildKvKey(key);
      inner.entries := inner.entries - {composed};
    }

    method BuildKvKey(key: string) returns (composed: string)
      ensures composed == KeyOf(Named(key))
    {
      match kvPrefix {
        case None => composed := referenceName + ":" + key;
        case Some(p) =>
          if p == "" {
            composed := key;
          } else {
            composed := p + ":" + key;
          }
      }
    }
  }

  /** `create` of a factory, for a partition instance or not, and `create_shared`. */
  method Create(store: Store, reference: string, h: Handle) returns (b: PluginStateBackend)
    ensures fresh(b) && b.inner == store && b.kvPrefix == None
    ensures b.referenceName == if h.Shared? then reference else reference + "[" + Decimal(h.index) + "]"
    ensures forall e :: b.KeyOf(e) == Key(reference, h, e)
  {
    b := new PluginStateBackend(store, InstanceName(reference, h));
  }

  function Find(entries: map<string, int>, key: string): Option<int> {
    if key in entries then Some(entries[key]) else None
  }

  // ---------------------------------------------------------------- interleaved runs

  datatype Op =
    | Read(h: Handle, e: Entry)
    | Write(h: Handle, e: Entry, value: int)
    | Delete(h: Handle, e: Entry)

  /** One operation of one handle on the flat store, as the backend's methods do it. */
  function OnStore(reference: string, entries: map<string, int>, op: Op): map<string, int> {
    match op
    case Read(_, _) => entries
    case Write(h, e, v) => entries[Key(reference, h, e) := v]
    case Delete(h, e) => entries - {Key(reference, h, e)}
  }

  function AnswerFrom(reference: string, entries: map<string, int>, op: Op): Option<int> {
    if op.Read? then Find(entries, Key(reference, op.h, op.e)) else None
  }

  /** An operation performed by the handle's own backend object. */
  method Perform(b: PluginStateBackend, reference: string, op: Op) returns (answer: Option<int>)
    requires b.kvPrefix == None && b.referenceName == InstanceName(reference, op.h)
    modifies b.inner
    ensures b.inner.entries == OnStore(reference, old(b.inner.entries), op)
    ensures answer == AnswerFrom(reference, old(b.inner.entries), op)
  {
    answer := None;
    match op {
      case Read(_, Default) => answer := b.Get();
      case Read(_, Named(k)) => answer := b.GetKv(k);
      case Write(_, Default, v) => b.Put(v);
      case Write(_, Named(k), v) => b.PutKv(k, v);
      case Delete(_, Default) => b.Remove();
      case Delete(_, Named(k)) => b.RemoveKv(k);
    }
  }

  /** Every handle with a map of its own. */
  type Separate = Handle -> map<Entry, int>

  function OwnMap(own: map<Entry, int>, op: Op): map<Entry, int> {
    match op
    case Read(_, _) => own
    case Write(_, e, v) => own[e := v]
    case Delete(_, e) => own - {e}
  }

  function OnSeparate(maps: Separate, op: Op): Separate {
    (h: Handle) => if h == op.h then OwnMap(maps(h), op) else maps(h)
  }

  function AnswerFromOwn(maps: Separate, op: Op): Option<int> {
    if op.Read? && op.e in maps(op.h) then Some(maps(op.h)[op.e]) else None
  }

  function StoreAnswers(reference: string, entries: map<string, int>, ops: seq<Op>): seq<Option<int>>
    decreases |ops|
  {
    if ops == [] then []
    else
      [AnswerFrom(reference, entries, ops[0])]
      + StoreAnswers(reference, OnStore(reference, entries, ops[0]), ops[1..])
  }

  function SeparateAnswers(maps: Separate, ops: seq<Op>): seq<Option<int>>
    decreases |ops|
  {
    if ops == [] then []
    else [AnswerFromOwn(maps, ops[0])] + SeparateAnswers(OnSeparate(maps, ops[0]), ops[1..])
  }

  ghost predicate Agrees(reference: string, entries: map<string, int>, own: map<Entry, int>, h: Handle) {
    forall e :: Find(entries, Key(reference, h, e)) == if e in own then Some(own[e]) else None
  }

  ghost predicate AllAgree(reference: string, entries: map<string, int>, maps: Separate) {
    forall h :: Agrees(reference, entries, maps(h), h)
  }

  lemma StepAgrees(reference: string, entries: map<string, int>, maps: Separate, op: Op)
    requires AllAgree(reference, entries, maps)
    ensures AllAgree(reference, OnStore(reference, entries, op), OnSeparate(maps, op))
    ensures AnswerFrom(reference, entries, op) == AnswerFromOwn(maps, op)
  {
    var after, own := OnStore(reference, entries, op), OnSeparate(maps, op);
    assert Agrees(reference, entries, maps(op.h), op.h);
    forall h ensures Agrees(reference, after, own(h), h) {
      assert Agrees(reference, entries, maps(h), h);
      forall e ensures Find(after, Key(reference, h, e)) == if e in own(h) then Some(own(h)[e]) else None {
        KeysInjective(reference, h, e, op.h, op.e);
      }
    }
  }

  /** The main result: under the default prefix, any interleaving of reads, writes and deletes by
      all handles of a node gets the answers it would get if every handle had a store of its own. */
  lemma {:induction false} HandlesAreIsolated(reference: string, entries: map<string, int>, maps: Separate,
      ops: seq<Op>)
    requires AllAgree(reference, entries, maps)
    ensures StoreAnswers(reference, entries, ops) == SeparateAnswers(maps, ops)
    decreases |ops|
  {
    if ops != [] {
      StepAgrees(reference, entries, maps, ops[0]);
      HandlesAreIsolated(reference, OnStore(reference, entries, ops[0]), OnSeparate(maps, ops[0]), ops[1..]);
    }
  }

  lemma EmptyStoreAgrees(reference: string)
    ensures AllAgree(reference, map[], (h: Handle) => map[])
  {
    forall h: Handle ensures Agrees(reference, map[], map[], h) {
    }
  }

  /** On a fresh store every handle starts with an empty map of its own. */
  lemma FreshStoreIsSeparate(reference: string, ops: seq<Op>)
    ensures StoreAnswers(reference, map[], ops) == SeparateAnswers((h: Handle) => map[], ops)
  {
    EmptyStoreAgrees(reference);
    HandlesAreIsolated(reference, map[], (h: Handle) => map[], ops);
  }

  /** Whatever was in the store: each handle's view of it is a map to start from. */
  ghost predicate SameView(reference: string, a: map<string, int>, b: map<string, int>, h: Handle) {
    forall e :: Find(a, Key(reference, h, e)) == Find(b, Key(reference, h, e))
  }

  function By(h: Handle, ops: seq<Op>): seq<Op> {
    if ops == [] then [] else (if ops[0].h == h then [ops[0]] else []) + By(h, ops[1..])
  }

  function StoreAfter(reference: string, entries: map<string, int>, ops: seq<Op>): map<string, int>
    decreases |ops|
  {
    if ops == [] then entries else StoreAfter(reference, OnStore(reference, entries, ops[0]), ops[1..])
  }

  /** From any store: what a handle sees after a run is what its own operations alone leave. */
  lemma {:induction false} OthersDoNotInterfere(reference: string, a: map<string, int>, b: map<string, int>,
      h: Handle, ops: seq<Op>)
    requires SameView(reference, a, b, h)
    ensures SameView(reference, StoreAfter(reference, a, ops), StoreAfter(reference, b, By(h, ops)), h)
    decreases |ops|
  {
    if ops != [] {
      var op := ops[0];
      var next := OnStore(reference, a, op);
      var mine := if op.h == h then OnStore(reference, b, op) else b;
      forall e ensures Find(next, Key(reference, h, e)) == Find(mine, Key(reference, h, e)) {
        KeysInjective(reference, h, e, op.h, op.e);
      }
      OthersDoNotInterfere(reference, next, mine, h, ops[1..]);
      if op.h == h {
        assert By(h, ops)[0] == op && By(h, ops)[1..] == By(h, ops[1..]);
        assert StoreAfter(reference, b, By(h, ops)) == StoreAfter(reference, mine, By(h, ops[1..]));
      } else {
        assert By(h, ops) == By(h, ops[1..]);
      }
      assert StoreAfter(reference, a, ops) == StoreAfter(reference, next, ops[1..]);
    }
  }

  /** An explicit prefix steps out of the handle's own keys: set to an instance's name it reads and
      writes that instance's named values. */
  lemma PrefixReachesOtherHandles(reference: string, i: nat, key: string)
    ensures KeyFor(InstanceName(reference, Shared), Some(InstanceName(reference, Partition(i))), Named(key))
         == Key(reference, Partition(i), Named(key))
  {
    assert InstanceName(reference, Partition(i)) != "";
  }
}
