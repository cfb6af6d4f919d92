/** Turning a sink's node name into the key under which its connection settings arrive in
    environment variables: names are lower-cased and split on `__` on the way in. */
module SinkKey {

  /** Character classes as the program's library has them: `alphanumeric` is Unicode's, and `lower`
      is Unicode lower-casing, one character to one or more. */
  datatype Chars = Chars(alphanumeric: char -> bool, lower: char -> string)

  predicate Ascii(c: char) {
    c < 128 as char
  }

  predicate AsciiUpper(c: char) {
    'A' <= c <= 'Z'
  }

  predicate AsciiAlphanumeric(c: char) {
    'A' <= c <= 'Z' || 'a' <= c <= 'z' || '0' <= c <= '9'
  }

  function AsciiLower(c: char): char {
    if AsciiUpper(c) then (c as int + 32) as char else c
  }

  /** What Unicode says about ASCII, and that lower-casing leaves something of every character. */
  ghost predicate Proper(u: Chars) {
    && (forall c | Ascii(c) :: u.alphanumeric(c) <==> AsciiAlphanumeric(c))
    && (forall c | Ascii(c) :: u.lower(c) == [AsciiLower(c)])
    && (forall c :: u.lower(c) != "")
  }

  // ---------------------------------------------------------------- split, filter, join

  /** The name cut at every character that is not alphanumeric. */
  function Segments(u: Chars, s: string): (r: seq<string>)
    ensures r != []
  {
    if s == "" then [""]
    else
      var rest := Segments(u, s[1..]);
      if u.alphanumeric(s[0]) then [[s[0]] + rest[0]] + rest[1..] else [""] + rest
  }

  function NonEmpty(parts: seq<string>): seq<string> {
    if parts == [] then [] else (if parts[0] == "" then [] else [parts[0]]) + NonEmpty(parts[1..])
  }

  function LowerAscii(s: string): (r: string)
    ensures |r| == |s| && forall i | 0 <= i < |s| :: r[i] == AsciiLower(s[i])
  {
    seq(|s|, i requires 0 <= i < |s| => AsciiLower(s[i]))
  }

  function LowerEach(parts: seq<string>): (r: seq<string>)
    ensures |r| == |parts| && forall i | 0 <= i < |parts| :: r[i] == LowerAscii(parts[i])
  {
    seq(|parts|, i requires 0 <= i < |parts| => LowerAscii(parts[i]))
  }

  /** The alphanumeric runs of a name, lower-cased. */
  function Runs(u: Chars, name: string): seq<string> {
    LowerEach(NonEmpty(Segments(u, name)))
  }

  function Join(parts: seq<string>): string {
    if parts == [] then "" else if |parts| == 1 then parts[0] else parts[0] + "_" + Join(parts[1..])
  }

  // ---------------------------------------------------------------- the one-pass form

  /** Whether the name read so far ends inside a run. */
  predicate InRun(u: Chars, s: string) {
    s != "" && u.alphanumeric(s[|s| - 1])
  }

  /** The key while it is being built: a `_` is waiting for the next run. */
  function Pending(u: Chars, s: string): string {
    var runs := Runs(u, s);
    if runs == [] || InRun(u, s) then Join(runs) else Join(runs) + "_"
  }

  lemma NothingYet(u: Chars)
    ensures Pending(u, "") == ""
  {
    NonEmptyOne("");
    assert Segments(u, "") == [""];
  }

  method NormalizeSinkKey(u: Chars, name: string) returns (key: string)
    requires Proper(u)
    ensures key == Join(Runs(u, name))
  {
    key := "";
    NothingYet(u);
    for i := 0 to |name|
      invariant key == Pending(u, name[..i])
    {
      var c := name[i];
      assert name[..i + 1] == name[..i] + [c];
      PendingEnd(u, name[..i]);
      if u.alphanumeric(c) {
        PendingRun(u, name[..i], c);
        key := key + [AsciiLower(c)];
      } else {
        PendingGap(u, name[..i], c);
        if key != "" && key[|key| - 1] != '_' {
          key := key + "_";
        }
      }
    }
    assert name[..|name|] == name;
    PendingEnd(u, name);
    if key != "" && key[|key| - 1] == '_' {
      key := key[..|key| - 1];
    }
  }

  /** A lower-cased run: not empty, and alphanumeric throughout. */
  ghost predicate Run(u: Chars, part: string) {
    part != "" && forall c | c in part :: u.alphanumeric(c) && !AsciiUpper(c)
  }

  ghost predicate AllRuns(u: Chars, parts: seq<string>) {
    forall i | 0 <= i < |parts| :: Run(u, parts[i])
  }

  lemma {:induction false} SegmentsAlphanumeric(u: Chars, s: string)
    ensures forall i, c | 0 <= i < |Segments(u, s)| && c in Segments(u, s)[i] :: u.alphanumeric(c)
  {
    if s != "" {
      SegmentsAlphanumeric(u, s[1..]);
    }
  }

  lemma {:induction false} NonEmptyKeeps(parts: seq<string>)
    ensures forall p :: p in NonEmpty(parts) <==> p != "" && p in parts
  {
    if parts != [] {
      NonEmptyKeeps(parts[1..]);
      assert parts == [parts[0]] + parts[1..];
    }
  }

  lemma LowerKeepsAlphanumeric(u: Chars, c: char)
    requires Proper(u) && u.alphanumeric(c)
    ensures u.alphanumeric(AsciiLower(c)) && !AsciiUpper(AsciiLower(c))
  {
    if AsciiUpper(c) {
      assert Ascii(AsciiLower(c)) && AsciiAlphanumeric(AsciiLower(c));
    }
  }

  lemma RunsAreRuns(u: Chars, s: string)
    requires Proper(u)
    ensures AllRuns(u, Runs(u, s))
  {
    var parts := NonEmpty(Segments(u, s));
    SegmentsAlphanumeric(u, s);
    NonEmptyKeeps(Segments(u, s));
    forall i | 0 <= i < |parts| ensures Run(u, LowerAscii(parts[i])) {
      assert parts[i] in parts && parts[i] in Segments(u, s);
      forall c | c in LowerAscii(parts[i]) ensures u.alphanumeric(c) && !AsciiUpper(c) {
        var k :| 0 <= k < |parts[i]| && c == LowerAscii(parts[i])[k];
        assert parts[i][k] in parts[i];
        LowerKeepsAlphanumeric(u, parts[i][k]);
      }
    }
  }

  lemma JoinEnds(u: Chars, parts: seq<string>)
    requires Proper(u) && AllRuns(u, parts) && parts != []
    ensures Join(parts) != "" && u.alphanumeric(Join(parts)[0]) && u.alphanumeric(Join(parts)[|Join(parts)| - 1])
  {
    assert Run(u, parts[0]) && parts[0][0] in parts[0] && parts[0][|parts[0]| - 1] in parts[0];
    if |parts| > 1 {
      assert forall i | 0 <= i < |parts[1..]| :: parts[1..][i] == parts[i + 1];
      JoinEnds(u, parts[1..]);
    }
  }

  lemma PendingEnd(u: Chars, s: string)
    requires Proper(u)
    ensures var key := Pending(u, s);
            && (key == "" <==> Runs(u, s) == [])
            && (key != "" ==> (key[|key| - 1] == '_' <==> !InRun(u, s)))
            && Join(Runs(u, s)) == if key != "" && key[|key| - 1] == '_' then key[..|key| - 1] else key
  {
    RunsAreRuns(u, s);
    assert Ascii('_') && !u.alphanumeric('_');
    if Runs(u, s) != [] {
      JoinEnds(u, Runs(u, s));
    }
  }

  /** The segments with `c` put behind the last one. */
  function Extend(segments: seq<string>, c: char): (r: seq<string>)
    requires segments != []
    ensures r != []
  {
    segments[..|segments| - 1] + [segments[|segments| - 1] + [c]]
  }

  lemma ExtendCons(head: string, rest: seq<string>, c: char)
    requires rest != []
    ensures Extend([head] + rest, c) == [head] + Extend(rest, c)
  {
  }

  lemma ExtendFirst(x: char, rest: seq<string>, c: char)
    requires rest != []
    ensures Extend([[x] + rest[0]] + rest[1..], c) == [[x] + Extend(rest, c)[0]] + Extend(rest, c)[1..]
  {
    if |rest| > 1 {
      ExtendCons([x] + rest[0], rest[1..], c);
      ExtendCons(rest[0], rest[1..], c);
      assert rest == [rest[0]] + rest[1..];
    } else {
      assert [x] + (rest[0] + [c]) == [x] + rest[0] + [c];
    }
  }

  lemma {:induction false} SegmentsSnoc(u: Chars, s: string, c: char)
    requires u.alphanumeric(c)
    ensures Segments(u, s + [c]) == Extend(Segments(u, s), c)
  {
    if s == "" {
      assert (s + [c])[1..] == "" && [c] + "" == [c] && "" + [c] == [c];
      assert Segments(u, s + [c]) == [[c]];
    } else {
      SegmentsSnoc(u, s[1..], c);
      assert (s + [c])[1..] == s[1..] + [c] && (s + [c])[0] == s[0];
      if u.alphanumeric(s[0]) {
        ExtendFirst(s[0], Segments(u, s[1..]), c);
      } else {
        ExtendCons("", Segments(u, s[1..]), c);
      }
    }
  }

  lemma {:induction false} SegmentsClose(u: Chars, s: string, c: char)
    requires !u.alphanumeric(c)
    ensures Segments(u, s + [c]) == Segments(u, s) + [""]
  {
    if s == "" {
      assert (s + [c])[1..] == "";
    } else {
      SegmentsClose(u, s[1..], c);
      assert (s + [c])[1..] == s[1..] + [c] && (s + [c])[0] == s[0];
    }
  }

  lemma {:induction false} LastSegment(u: Chars, s: string)
    ensures InRun(u, s) <==> Segments(u, s)[|Segments(u, s)| - 1] != ""
  {
    if |s| == 1 {
      assert Segments(u, s[1..]) == [""];
    } else if s != "" {
      LastSegment(u, s[1..]);
    }
  }

  lemma {:induction false} NonEmptyAppend(a: seq<string>, b: seq<string>)
    ensures NonEmpty(a + b) == NonEmpty(a) + NonEmpty(b)
  {
    if a == [] {
      assert a + b == b;
    } else {
      NonEmptyAppend(a[1..], b);
      assert (a + b)[1..] == a[1..] + b && (a + b)[0] == a[0];
      if a[0] != "" {
        assert NonEmpty(a + b) == [a[0]] + NonEmpty(a[1..] + b);
      }
    }
  }

  lemma NonEmptyOne(part: string)
    ensures NonEmpty([part]) == if part == "" then [] else [part]
  {
  }

  lemma LowerSnoc(part: string, c: char)
    ensures LowerAscii(part + [c]) == LowerAscii(part) + [AsciiLower(c)]
  {
  }

  /** The runs are those of the closed segments and of the last one. */
  lemma RunsByLast(u: Chars, s: string, closed: seq<string>, last: string)
    requires Segments(u, s) == closed + [last]
    ensures Runs(u, s) == LowerEach(NonEmpty(closed)) + if last == "" then [] else [LowerAscii(last)]
  {
    NonEmptyAppend(closed, [last]);
    NonEmptyOne(last);
    LowerEachAppend(NonEmpty(closed), NonEmpty([last]));
  }

  lemma LowerEachAppend(a: seq<string>, b: seq<string>)
    ensures LowerEach(a + b) == LowerEach(a) + LowerEach(b)
  {
  }

  /** The runs before the last segment, and the last segment lower-cased. */
  lemma RunsSnoc(u: Chars, s: string, c: char) returns (closed: seq<string>, last: string)
    requires u.alphanumeric(c)
    ensures last == "" <==> !InRun(u, s)
    ensures Runs(u, s) == closed + if last == "" then [] else [last]
    ensures Runs(u, s + [c]) == closed + [last + [AsciiLower(c)]]
  {
    var front, back := SegmentsGrow(u, s, c);
    RunsByLast(u, s, front, back);
    RunsByLast(u, s + [c], front, back + [c]);
    LowerSnoc(back, c);
    closed, last := LowerEach(NonEmpty(front)), LowerAscii(back);
  }

  lemma SegmentsGrow(u: Chars, s: string, c: char) returns (front: seq<string>, back: string)
    requires u.alphanumeric(c)
    ensures Segments(u, s) == front + [back] && Segments(u, s + [c]) == front + [back + [c]]
    ensures back != "" <==> InRun(u, s)
  {
    var before := Segments(u, s);
    var n := |before| - 1;
    SegmentsSnoc(u, s, c);
    LastSegment(u, s);
    front, back := before[..n], before[n];
  }

  lemma RunsGap(u: Chars, s: string, c: char)
    requires !u.alphanumeric(c)
    ensures Runs(u, s + [c]) == Runs(u, s)
    ensures InRun(u, s) ==> Runs(u, s) != []
  {
    var before := Segments(u, s);
    var n := |before| - 1;
    SegmentsClose(u, s, c);
    LastSegment(u, s);
    assert before == before[..n] + [before[n]];
    RunsByLast(u, s, before[..n], before[n]);
    NonEmptyAppend(before, [""]);
    NonEmptyOne("");
  }

  lemma Regroup(a: string, b: string, c: string)
    ensures a + "_" + (b + "_" + c) == (a + "_" + b) + "_" + c
  {
    assert a + ("_" + b) == a + "_" + b;
  }

  lemma {:induction false} JoinSnoc(parts: seq<string>, part: string)
    ensures Join(parts + [part]) == if parts == [] then part else Join(parts) + "_" + part
  {
    if parts != [] {
      assert (parts + [part])[1..] == parts[1..] + [part] && (parts + [part])[0] == parts[0];
      JoinSnoc(parts[1..], part);
      if |parts| > 1 {
        Regroup(parts[0], Join(parts[1..]), part);
      }
    }
  }

  lemma PendingRun(u: Chars, s: string, c: char)
    requires u.alphanumeric(c)
    ensures Pending(u, s + [c]) == Pending(u, s) + [AsciiLower(c)]
  {
    var closed, last := RunsSnoc(u, s, c);
    var d := AsciiLower(c);
    assert InRun(u, s + [c]);
    JoinSnoc(closed, last);
    JoinSnoc(closed, last + [d]);
    assert Pending(u, s + [c]) == Join(closed + [last + [d]]);
    if last == "" {
      assert Runs(u, s) == closed && last + [d] == [d];
    } else {
      assert Pending(u, s) == Join(closed + [last]);
    }
  }

  lemma PendingGap(u: Chars, s: string, c: char)
    requires !u.alphanumeric(c)
    ensures Pending(u, s + [c]) == if InRun(u, s) then Pending(u, s) + "_" else Pending(u, s)
    ensures InRun(u, s) ==> Runs(u, s) != []
  {
    RunsGap(u, s, c);
  }

  // ---------------------------------------------------------------- what keys are good for

  lemma {:induction false} SegmentsOfRun(u: Chars, part: string, rest: string)
    requires forall c | c in part :: u.alphanumeric(c)
    requires rest == "" || !u.alphanumeric(rest[0])
    ensures Segments(u, part + rest) == [part] + Segments(u, rest)[1..]
  {
    if part == "" {
      assert part + rest == rest;
    } else {
      SegmentsOfRun(u, part[1..], rest);
      assert (part + rest)[1..] == part[1..] + rest;
      assert part == [part[0]] + part[1..];
    }
  }

  lemma RunIsLowered(u: Chars, part: string)
    requires Run(u, part)
    ensures LowerAscii(part) == part
  {
    forall i | 0 <= i < |part| ensures AsciiLower(part[i]) == part[i] {
      assert part[i] in part;
    }
  }

  /** A run and then `_` or nothing: its segment comes first. */
  lemma FirstRun(u: Chars, part: string, rest: string)
    requires Run(u, part) && (rest == "" || !u.alphanumeric(rest[0]))
    ensures Runs(u, part + rest) == [part] + LowerEach(NonEmpty(Segments(u, rest)[1..]))
  {
    SegmentsOfRun(u, part, rest);
    NonEmptyAppend([part], Segments(u, rest)[1..]);
    NonEmptyOne(part);
    RunIsLowered(u, part);
    LowerEachAppend([part], NonEmpty(Segments(u, rest)[1..]));
  }

  lemma SegmentsBehindGap(u: Chars, rest: string)
    requires Proper(u)
    ensures Segments(u, "_" + rest)[1..] == Segments(u, rest)
    ensures Segments(u, "")[1..] == []
  {
    assert Ascii('_') && !u.alphanumeric('_');
    assert ("_" + rest)[1..] == rest;
  }

  /** The runs can be read back off a key. */
  lemma {:induction false} RunsOfJoin(u: Chars, parts: seq<string>)
    requires Proper(u) && AllRuns(u, parts)
    ensures Runs(u, Join(parts)) == parts
  {
    assert Ascii('_') && !u.alphanumeric('_');
    if parts == [] {
      NonEmptyOne("");
    } else {
      var tail := parts[1..];
      assert Run(u, parts[0]);
      assert forall i | 0 <= i < |tail| :: tail[i] == parts[i + 1];
      RunsOfJoin(u, tail);
      SegmentsBehindGap(u, Join(tail));
      if |parts| == 1 {
        FirstRun(u, parts[0], "");
        assert parts[0] + "" == parts[0] && parts == [parts[0]];
      } else {
        FirstRun(u, parts[0], "_" + Join(tail));
        assert Join(parts) == parts[0] + ("_" + Join(tail));
        assert parts == [parts[0]] + tail;
      }
    }
  }

  /** Normalizing again changes nothing, and two names share a key exactly when they have the same
      runs. */
  lemma KeysIdentifyRuns(u: Chars, a: string, b: string)
    requires Proper(u)
    ensures Join(Runs(u, Join(Runs(u, a)))) == Join(Runs(u, a))
    ensures Join(Runs(u, a)) == Join(Runs(u, b)) <==> Runs(u, a) == Runs(u, b)
  {
    RunsAreRuns(u, a);
    RunsAreRuns(u, b);
    RunsOfJoin(u, Runs(u, a));
    RunsOfJoin(u, Runs(u, b));
  }

  // ---------------------------------------------------------------- through the environment

  /** Splitting on `__` from the left. */
  function SplitDouble(s: string): (r: seq<string>)
    ensures r != []
  {
    if s == "" then [""]
    else if |s| >= 2 && s[0] == '_' && s[1] == '_' then [""] + SplitDouble(s[2..])
    else
      var rest := SplitDouble(s[1..]);
      [[s[0]] + rest[0]] + rest[1..]
  }

  predicate DoubleAt(s: string, i: nat) {
    i + 1 < |s| && s[i] == '_' && s[i + 1] == '_'
  }

  predicate HasDouble(s: string) {
    exists i | 0 <= i < |s| :: DoubleAt(s, i)
  }

  lemma NoDoubleBehind(s: string)
    requires s != "" && !HasDouble(s)
    ensures !HasDouble(s[1..])
  {
    assert forall i: nat | i < |s[1..]| :: DoubleAt(s[1..], i) ==> DoubleAt(s, i + 1);
  }

  /** A segment that a split on `__` can give back. */
  predicate Segment(s: string) {
    s != "" && !HasDouble(s) && s[|s| - 1] != '_'
  }

  lemma {:induction false} SplitFirst(x: string, rest: string)
    requires x == "" || Segment(x)
    ensures SplitDouble(x + "__" + rest) == [x] + SplitDouble(rest)
  {
    var s := x + "__" + rest;
    if x == "" {
      assert s[2..] == rest;
    } else {
      assert s[1..] == x[1..] + "__" + rest;
      NoDoubleBehind(x);
      assert !DoubleAt(x, 0);
      SplitFirst(x[1..], rest);
      assert s[0] == x[0];
      assert x == [x[0]] + x[1..];
      assert |x| > 1 ==> s[1] == x[1];
    }
  }

  lemma {:induction false} SplitNothing(x: string)
    requires !HasDouble(x)
    ensures SplitDouble(x) == [x]
  {
    if x != "" {
      NoDoubleBehind(x);
      assert !DoubleAt(x, 0);
      SplitNothing(x[1..]);
      assert x == [x[0]] + x[1..];
    }
  }

  lemma {:induction false} KeyIsSegment(u: Chars, parts: seq<string>)
    requires Proper(u) && AllRuns(u, parts) && parts != []
    ensures Segment(Join(parts)) && Join(parts)[0] != '_'
  {
    assert Ascii('_') && !u.alphanumeric('_');
    JoinEnds(u, parts);
    assert Run(u, parts[0]);
    assert forall k | 0 <= k < |parts[0]| :: parts[0][k] in parts[0] && parts[0][k] != '_';
    if |parts| > 1 {
      assert forall i | 0 <= i < |parts[1..]| :: parts[1..][i] == parts[i + 1];
      KeyIsSegment(u, parts[1..]);
      var key, rest, n := Join(parts), Join(parts[1..]), |parts[0]|;
      assert key == parts[0] + "_" + rest;
      forall i: nat | i < |key| - 1 ensures !DoubleAt(key, i) {
        if i < n {
          assert key[i] == parts[0][i];
        } else if i == n {
          assert key[i + 1] == rest[0];
        } else {
          assert !DoubleAt(rest, i - n - 1);
          assert key[i] == rest[i - n - 1] && key[i + 1] == rest[i - n];
        }
      }
    }
  }

  function LowerAll(u: Chars, s: string): string {
    if s == "" then "" else u.lower(s[0]) + LowerAll(u, s[1..])
  }

  /** The key comes back whole from between two `__`, whatever stands before and behind it. */
  lemma KeySurvivesSplitting(u: Chars, before: string, name: string, field: string)
    requires Proper(u) && Runs(u, name) != []
    requires Segment(before) && !HasDouble(field)
    ensures SplitDouble(before + "__" + Join(Runs(u, name)) + "__" + field) == [before, Join(Runs(u, name)), field]
  {
    var key := Join(Runs(u, name));
    RunsAreRuns(u, name);
    KeyIsSegment(u, Runs(u, name));
    assert before + "__" + key + "__" + field == before + "__" + (key + "__" + field);
    SplitFirst(before, key + "__" + field);
    SplitFirst(key, field);
    SplitNothing(field);
  }

  lemma {:induction false} LowerAllLonger(u: Chars, s: string)
    requires Proper(u)
    ensures |LowerAll(u, s)| >= |s|
  {
    if s != "" {
      LowerAllLonger(u, s[1..]);
    }
  }

  lemma {:induction false} LowerAllFixed(u: Chars, s: string)
    requires Proper(u)
    ensures LowerAll(u, s) == s <==> forall c | c in s :: u.lower(c) == [c]
  {
    if s != "" {
      LowerAllFixed(u, s[1..]);
      LowerAllLonger(u, s[1..]);
      assert s == [s[0]] + s[1..];
      if LowerAll(u, s) == s {
        assert |u.lower(s[0])| == 1;
        assert u.lower(s[0]) == [s[0]];
        assert LowerAll(u, s) == [s[0]] + LowerAll(u, s[1..]);
        assert LowerAll(u, s)[1..] == LowerAll(u, s[1..]);
      }
    }
  }

  /** The characters of a key are those of the name's runs, and `_`. */
  lemma {:induction false} JoinChars(parts: seq<string>)
    ensures forall c | c in Join(parts) :: c == '_' || exists i | 0 <= i < |parts| :: c in parts[i]
    ensures forall i, c | 0 <= i < |parts| && c in parts[i] :: c in Join(parts)
  {
    if |parts| > 1 {
      JoinChars(parts[1..]);
      forall c | c in Join(parts) ensures c == '_' || exists i | 0 <= i < |parts| :: c in parts[i] {
        if c != '_' && c !in parts[0] {
          assert c in Join(parts[1..]);
          var i :| 0 <= i < |parts[1..]| && c in parts[1..][i];
          assert c in parts[i + 1];
        }
      }
      forall i, c | 0 <= i < |parts| && c in parts[i] ensures c in Join(parts) {
        if i > 0 {
          assert c in parts[1..][i - 1];
        }
      }
    }
  }

  lemma {:induction false} SegmentChars(u: Chars, s: string)
    ensures forall c | c in s && u.alphanumeric(c) :: exists i | 0 <= i < |Segments(u, s)| :: c in Segments(u, s)[i]
    ensures forall i, c | 0 <= i < |Segments(u, s)| && c in Segments(u, s)[i] :: c in s
  {
    if s != "" {
      SegmentChars(u, s[1..]);
      var all, rest := Segments(u, s), Segments(u, s[1..]);
      forall c | c in s && u.alphanumeric(c) ensures exists i | 0 <= i < |all| :: c in all[i] {
        if c == s[0] {
          assert c in all[0];
        } else {
          assert c in s[1..];
          var i :| 0 <= i < |rest| && c in rest[i];
          var k := if u.alphanumeric(s[0]) then i else i + 1;
          assert c in all[k];
        }
      }
      forall i, c | 0 <= i < |all| && c in all[i] ensures c in s {
        var k := if u.alphanumeric(s[0]) then i else i - 1;
        assert c == s[0] || (0 <= k < |rest| && c in rest[k]);
        assert s == [s[0]] + s[1..];
      }
    }
  }

  /** Where a name's key is made of: its alphanumeric characters, ASCII capitals lowered. */
  lemma KeyChars(u: Chars, name: string, c: char)
    requires Proper(u)
    ensures c in Join(Runs(u, name)) ==> c == '_' || exists d | d in name :: u.alphanumeric(d) && c == AsciiLower(d)
    ensures c in name && u.alphanumeric(c) ==> AsciiLower(c) in Join(Runs(u, name))
  {
    var segments := Segments(u, name);
    var parts := NonEmpty(segments);
    var runs := Runs(u, name);
    SegmentChars(u, name);
    SegmentsAlphanumeric(u, name);
    NonEmptyKeeps(segments);
    JoinChars(runs);
    if c in Join(runs) && c != '_' {
      var i :| 0 <= i < |runs| && c in runs[i];
      var k :| 0 <= k < |runs[i]| && runs[i][k] == c;
      assert parts[i] in parts && parts[i] in segments && parts[i][k] in parts[i];
      assert c == AsciiLower(parts[i][k]);
    }
    if c in name && u.alphanumeric(c) {
      var i :| 0 <= i < |segments| && c in segments[i];
      assert segments[i] in parts;
      var j :| 0 <= j < |parts| && parts[j] == segments[i];
      var k :| 0 <= k < |parts[j]| && parts[j][k] == c;
      assert runs[j][k] == AsciiLower(c) && AsciiLower(c) in runs[j];
    }
  }

  /** The key survives the environment's lower-casing exactly when the name has no alphanumeric
      character outside ASCII that lower-casing changes: only ASCII capitals are lowered here. */
  lemma KeySurvivesLowering(u: Chars, name: string)
    requires Proper(u)
    ensures LowerAll(u, Join(Runs(u, name))) == Join(Runs(u, name))
       <==> forall c | c in name && u.alphanumeric(c) && !Ascii(c) :: u.lower(c) == [c]
  {
    var key := Join(Runs(u, name));
    LowerAllFixed(u, key);
    forall c | c in key ensures u.lower(c) == [c] || (c in name && u.alphanumeric(c) && !Ascii(c)) {
      KeyChars(u, name, c);
      assert Ascii('_');
    }
    forall c | c in name && u.alphanumeric(c) && !Ascii(c) ensures c in key {
      KeyChars(u, name, c);
    }
  }

  /** A sink called `É` has the key `É`, but its variables arrive under the lower-cased letter. */
  lemma AccentedNameIsNotFound(u: Chars)
    requires Proper(u) && u.alphanumeric('\U{C9}') && u.lower('\U{C9}') == ['\U{E9}']
    ensures Join(Runs(u, ['\U{C9}'])) == ['\U{C9}']
    ensures LowerAll(u, Join(Runs(u, ['\U{C9}']))) == ['\U{E9}']
  {
    assert ['\U{C9}'][1..] == "" && Segments(u, "") == [""];
    assert ['\U{C9}'] + "" == ['\U{C9}'] && [""][1..] == [];
    assert Segments(u, ['\U{C9}']) == [['\U{C9}']];
    NonEmptyOne(['\U{C9}']);
    assert LowerAscii(['\U{C9}']) == ['\U{C9}'];
    assert Runs(u, ['\U{C9}']) == [['\U{C9}']];
    assert LowerAll(u, ['\U{C9}'][1..]) == "";
  }
}
