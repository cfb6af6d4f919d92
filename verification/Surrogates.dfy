/** Repairing lone surrogates in JSON text: a regular expression with a lookbehind and backslash
    pairs, against a rewrite of the text token by token. Text is a sequence of UTF-16 units. */
module Surrogates {
  import opened Wrappers

  type Unit = u: int | 0 <= u < 0x1_0000

  type Text = seq<Unit>

  const Backslash: Unit := 0x5C
  const LetterU: Unit := 0x75
  const LetterD: Unit := 0x64

  predicate Digit(u: Unit) {
    0x30 <= u <= 0x39
  }

  predicate LowerHex(u: Unit) {
    Digit(u) || 0x61 <= u <= 0x66
  }

  predicate Hex(u: Unit) {
    LowerHex(u) || 0x41 <= u <= 0x46
  }

  /** `\ufffd` as text. */
  const Replacement: Text := [0x5C, 0x75, 0x66, 0x66, 0x66, 0x64]

  // ---------------------------------------------------------------- the regular expression

  /** `\\ud[89a-f][0-9a-f]{2}` at position `i`. */
  predicate EscapeAt(s: Text, i: nat) {
    && i + 6 <= |s|
    && s[i] == Backslash && s[i + 1] == LetterU && s[i + 2] == LetterD
    && (0x38 <= s[i + 3] <= 0x39 || 0x61 <= s[i + 3] <= 0x66)
    && LowerHex(s[i + 4]) && LowerHex(s[i + 5])
  }

  /** `((?:\\\\)*)` and the escape behind it: greedy, giving back pairs until the escape matches.
      The result is where the escape starts. */
  function AfterPairs(s: Text, i: nat): (r: Option<nat>)
    ensures r.Some? ==> i <= r.value && EscapeAt(s, r.value)
    decreases |s| - i
  {
    if i + 2 <= |s| && s[i] == Backslash && s[i + 1] == Backslash && AfterPairs(s, i + 2).Some?
    then AfterPairs(s, i + 2)
    else if EscapeAt(s, i) then Some(i)
    else None
  }

  /** The whole pattern, with its lookbehind. */
  function MatchAt(s: Text, i: nat): (r: Option<nat>)
    requires i <= |s|
    ensures r.Some? ==> i <= r.value && EscapeAt(s, r.value)
  {
    if i > 0 && s[i - 1] == Backslash then None else AfterPairs(s, i)
  }

  /** Global replacement from position `i` on: the leftmost match, then on from its end. */
  function ReplaceFrom(s: Text, i: nat): Text
    requires i <= |s|
    decreases |s| - i
  {
    if i == |s| then []
    else
      match MatchAt(s, i)
      case Some(at) => s[i..at] + Replacement + ReplaceFrom(s, at + 6)
      case None => [s[i]] + ReplaceFrom(s, i + 1)
  }

  predicate NeedleAt(s: Text, i: nat) {
    i + 3 <= |s| && s[i] == Backslash && s[i + 1] == LetterU && s[i + 2] == LetterD
  }

  predicate HasNeedle(s: Text) {
    exists i | 0 <= i < |s| :: NeedleAt(s, i)
  }

  function FixLoneSurrogates(json: Text): Text {
    if !HasNeedle(json) then json else ReplaceFrom(json, 0)
  }

  // ---------------------------------------------------------------- token by token

  /** Reads escapes from the left: a surrogate escape is replaced, any other backslash is kept
      together with the unit it escapes. */
  function Repair(s: Text): Text {
    if s == [] then []
    else if s[0] != Backslash then [s[0]] + Repair(s[1..])
    else if EscapeAt(s, 0) then Replacement + Repair(s[6..])
    else if |s| == 1 then s
    else s[..2] + Repair(s[2..])
  }

  /** One token of `Repair`, by position. */
  lemma RepairAt(s: Text, i: nat)
    requires i < |s|
    ensures s[i] != Backslash ==> Repair(s[i..]) == [s[i]] + Repair(s[i + 1..])
    ensures EscapeAt(s, i) ==> Repair(s[i..]) == Replacement + Repair(s[i + 6..])
    ensures s[i] == Backslash && !EscapeAt(s, i) && i + 1 == |s| ==> Repair(s[i..]) == [s[i]]
    ensures s[i] == Backslash && !EscapeAt(s, i) && i + 1 < |s| ==>
              Repair(s[i..]) == [s[i], s[i + 1]] + Repair(s[i + 2..])
  {
    var rest := s[i..];
    assert rest[1..] == s[i + 1..];
    assert EscapeAt(rest, 0) <==> EscapeAt(s, i);
    if EscapeAt(s, i) {
      assert rest[6..] == s[i + 6..];
    } else if s[i] == Backslash && i + 1 < |s| {
      assert rest[2..] == s[i + 2..] && rest[..2] == [s[i], s[i + 1]];
    }
  }

  lemma PairAhead(s: Text, i: nat)
    requires i < |s| && AfterPairs(s, i).Some? && AfterPairs(s, i).value != i
    ensures i + 2 <= |s| && s[i] == Backslash && s[i + 1] == Backslash && AfterPairs(s, i + 2) == AfterPairs(s, i)
    ensures i + 2 <= AfterPairs(s, i).value && AfterPairs(s, i).value + 6 <= |s|
  {
  }

  lemma {:induction false} PairsAreTokens(s: Text, i: nat)
    requires i < |s| && AfterPairs(s, i).Some?
    ensures var at := AfterPairs(s, i).value;
            Repair(s[i..]) == s[i..at] + Replacement + Repair(s[at + 6..])
    decreases |s| - i
  {
    var at := AfterPairs(s, i).value;
    if at == i {
      RepairAt(s, i);
      assert s[i..at] == [];
    } else {
      PairAhead(s, i);
      PairsAreTokens(s, i + 2);
      PairBefore(s, i, at);
    }
  }

  lemma PairBefore(s: Text, i: nat, at: nat)
    requires i + 2 <= at && at + 6 <= |s| && s[i] == Backslash && s[i + 1] == Backslash
    requires Repair(s[i + 2..]) == s[i + 2..at] + Replacement + Repair(s[at + 6..])
    ensures Repair(s[i..]) == s[i..at] + Replacement + Repair(s[at + 6..])
  {
    RepairAt(s, i);
    assert s[i..at] == [s[i], s[i + 1]] + s[i + 2..at];
  }

  /** A backslash at which no match starts and the unit behind it are both copied. */
  lemma CopiesTwo(s: Text, i: nat)
    requires i + 1 < |s| && s[i] == Backslash && MatchAt(s, i) == None
    ensures ReplaceFrom(s, i) == [s[i], s[i + 1]] + ReplaceFrom(s, i + 2)
  {
    assert ReplaceFrom(s, i) == [s[i]] + ReplaceFrom(s, i + 1);
    assert MatchAt(s, i + 1) == None;
    assert ReplaceFrom(s, i + 1) == [s[i + 1]] + ReplaceFrom(s, i + 2);
  }

  /** Agreement behind a match carries over to the match. */
  lemma MatchAgrees(s: Text, i: nat)
    requires i < |s| && MatchAt(s, i).Some?
    requires ReplaceFrom(s, MatchAt(s, i).value + 6) == Repair(s[MatchAt(s, i).value + 6..])
    ensures ReplaceFrom(s, i) == Repair(s[i..])
  {
    var at := MatchAt(s, i).value;
    calc {
      ReplaceFrom(s, i);
      s[i..at] + Replacement + ReplaceFrom(s, at + 6);
      s[i..at] + Replacement + Repair(s[at + 6..]);
      { PairsAreTokens(s, i); }
      Repair(s[i..]);
    }
  }

  lemma CopyAgrees(s: Text, i: nat)
    requires i < |s| && s[i] != Backslash && ReplaceFrom(s, i + 1) == Repair(s[i + 1..])
    ensures ReplaceFrom(s, i) == Repair(s[i..])
  {
    RepairAt(s, i);
    assert MatchAt(s, i) == None;
  }

  lemma PairAgrees(s: Text, i: nat)
    requires i + 1 < |s| && s[i] == Backslash && MatchAt(s, i) == None && !EscapeAt(s, i)
    requires ReplaceFrom(s, i + 2) == Repair(s[i + 2..])
    ensures ReplaceFrom(s, i) == Repair(s[i..])
  {
    RepairAt(s, i);
    CopiesTwo(s, i);
  }

  lemma LastAgrees(s: Text, i: nat)
    requires i + 1 == |s| && MatchAt(s, i) == None && !EscapeAt(s, i)
    ensures ReplaceFrom(s, i) == Repair(s[i..])
  {
    assert ReplaceFrom(s, i + 1) == [];
    assert s[i..] == [s[i]];
  }

  /** The lookbehind and the pairs find the same escapes as reading from the left does. */
  lemma {:induction false} RegexIsTokens(s: Text, i: nat)
    requires i <= |s| && (i == 0 || s[i - 1] != Backslash || AfterPairs(s, i) == None)
    ensures ReplaceFrom(s, i) == Repair(s[i..])
    decreases |s| - i
  {
    if i < |s| {
      if MatchAt(s, i).Some? {
        RegexIsTokens(s, MatchAt(s, i).value + 6);
        MatchAgrees(s, i);
      } else if s[i] != Backslash {
        RegexIsTokens(s, i + 1);
        CopyAgrees(s, i);
      } else {
        assert AfterPairs(s, i) == None && !EscapeAt(s, i);
        if i + 1 < |s| {
          RegexIsTokens(s, i + 2);
          PairAgrees(s, i);
        } else {
          LastAgrees(s, i);
        }
      }
    }
  }

  lemma {:induction false} NoNeedleNoRepair(s: Text)
    requires !HasNeedle(s)
    ensures Repair(s) == s
    decreases |s|
  {
    assert EscapeAt(s, 0) ==> NeedleAt(s, 0);
    if s != [] && s[0] != Backslash {
      NoNeedleIn(s, 1);
      NoNeedleNoRepair(s[1..]);
    } else if |s| > 1 {
      NoNeedleIn(s, 2);
      NoNeedleNoRepair(s[2..]);
    }
  }

  lemma NoNeedleIn(s: Text, n: nat)
    requires !HasNeedle(s) && n <= |s|
    ensures !HasNeedle(s[n..])
  {
    assert forall i: nat | i < |s[n..]| :: NeedleAt(s[n..], i) ==> NeedleAt(s, n + i);
  }

  /** For every text, well formed or not: the regex with its fast path is the token rewrite. */
  lemma FixIsRepair(json: Text)
    ensures FixLoneSurrogates(json) == Repair(json)
  {
    if HasNeedle(json) {
      RegexIsTokens(json, 0);
      assert json[0..] == json;
    } else {
      NoNeedleNoRepair(json);
    }
  }

  // ---------------------------------------------------------------- well-escaped text

  /** JSON text as RFC 8259, section 7, reads it: a unit that is no backslash, a two-unit escape,
      or `\u` and four hex digits. */
  datatype Token = Plain(unit: Unit) | Short(unit: Unit) | Code(a: Unit, b: Unit, c: Unit, d: Unit)

  predicate ValidToken(t: Token) {
    match t
    case Plain(u) => u != Backslash
    case Short(u) => u in [0x22, 0x5C, 0x2F, 0x62, 0x66, 0x6E, 0x72, 0x74]
    case Code(a, b, c, d) => Hex(a) && Hex(b) && Hex(c) && Hex(d)
  }

  predicate ValidTokens(ts: seq<Token>) {
    forall t | t in ts :: ValidToken(t)
  }

  function TokenText(t: Token): Text {
    match t
    case Plain(u) => [u]
    case Short(u) => [Backslash, u]
    case Code(a, b, c, d) => [Backslash, LetterU, a, b, c, d]
  }

  function TextOf(ts: seq<Token>): Text {
    if ts == [] then [] else TokenText(ts[0]) + TextOf(ts[1..])
  }

  /** A surrogate written the way `JSON.stringify` writes one. */
  predicate LowerSurrogate(t: Token) {
    && t.Code? && t.a == LetterD
    && (0x38 <= t.b <= 0x39 || 0x61 <= t.b <= 0x66)
    && LowerHex(t.c) && LowerHex(t.d)
  }

  function RepairToken(t: Token): Token {
    if LowerSurrogate(t) then Code(0x66, 0x66, 0x66, 0x64) else t
  }

  function RepairTokens(ts: seq<Token>): (r: seq<Token>)
    ensures |r| == |ts|
    ensures forall i | 0 <= i < |ts| :: r[i] == RepairToken(ts[i])
  {
    seq(|ts|, i requires 0 <= i < |ts| => RepairToken(ts[i]))
  }

  lemma {:induction false} CopiesPlain(s: Text, i: nat, n: nat)
    requires i <= n <= |s| && forall k | i <= k < n :: s[k] != Backslash
    ensures Repair(s[i..]) == s[i..n] + Repair(s[n..])
    decreases n - i
  {
    if i < n {
      RepairAt(s, i);
      CopiesPlain(s, i + 1, n);
      assert s[i..n] == [s[i]] + s[i + 1..n];
    } else {
      assert s[i..n] == [];
    }
  }

  lemma RepairCode(t: Token, rest: Text)
    requires ValidToken(t) && t.Code?
    ensures Repair(TokenText(t) + rest) == TokenText(RepairToken(t)) + Repair(rest)
  {
    var s := TokenText(t) + rest;
    assert EscapeAt(s, 0) <==> LowerSurrogate(t);
    assert s[6..] == rest && s[0..] == s;
    if LowerSurrogate(t) {
      RepairAt(s, 0);
    } else {
      RepairAt(s, 0);
      CopiesPlain(s, 2, 6);
      assert s[..2] + s[2..6] == TokenText(t);
    }
  }

  lemma RepairOneToken(t: Token, rest: Text)
    requires ValidToken(t)
    ensures Repair(TokenText(t) + rest) == TokenText(RepairToken(t)) + Repair(rest)
  {
    var s := TokenText(t) + rest;
    match t
    case Plain(u) => assert s[1..] == rest;
    case Short(u) => assert s[2..] == rest && s[..2] == TokenText(t);
    case Code(_, _, _, _) => RepairCode(t, rest);
  }

  /** Exactly the lower-case surrogate escapes are replaced and every other token stays: an
      escaped backslash in front of `ud800` is one of those. */
  lemma {:induction false} RepairIsPerToken(ts: seq<Token>)
    requires ValidTokens(ts)
    ensures FixLoneSurrogates(TextOf(ts)) == TextOf(RepairTokens(ts))
    ensures |FixLoneSurrogates(TextOf(ts))| == |TextOf(ts)|
    decreases |ts|
  {
    FixIsRepair(TextOf(ts));
    if ts != [] {
      RepairIsPerToken(ts[1..]);
      FixIsRepair(TextOf(ts[1..]));
      assert ts[0] in ts;
      RepairOneToken(ts[0], TextOf(ts[1..]));
      assert RepairTokens(ts)[1..] == RepairTokens(ts[1..]);
      assert |TokenText(RepairToken(ts[0]))| == |TokenText(ts[0])|;
    }
  }

  lemma RepairTwice(ts: seq<Token>)
    requires ValidTokens(ts)
    ensures FixLoneSurrogates(FixLoneSurrogates(TextOf(ts))) == FixLoneSurrogates(TextOf(ts))
  {
    var once := RepairTokens(ts);
    RepairIsPerToken(ts);
    assert ValidTokens(once);
    RepairIsPerToken(once);
    assert RepairTokens(once) == once;
  }

  // ---------------------------------------------------------------- what a reader gets

  function HexValue(u: Unit): (v: int)
    requires Hex(u)
    ensures 0 <= v < 16
  {
    if u <= 0x39 then u - 0x30 else if u <= 0x46 then u - 0x41 + 10 else u - 0x61 + 10
  }

  function HexDigit(v: int): (u: Unit)
    requires 0 <= v < 16
    ensures LowerHex(u) && HexValue(u) == v
  {
    if v < 10 then 0x30 + v else 0x61 + v - 10
  }

  function ShortValue(u: Unit): Unit {
    if u == 0x62 then 0x08 else if u == 0x66 then 0x0C else if u == 0x6E then 0x0A
    else if u == 0x72 then 0x0D else if u == 0x74 then 0x09 else u
  }

  /** The string that escaped text stands for. */
  function Decode(s: Text): Text {
    if s == [] then []
    else if s[0] != Backslash then [s[0]] + Decode(s[1..])
    else if |s| >= 6 && s[1] == LetterU && Hex(s[2]) && Hex(s[3]) && Hex(s[4]) && Hex(s[5]) then
      [HexValue(s[2]) * 4096 + HexValue(s[3]) * 256 + HexValue(s[4]) * 16 + HexValue(s[5])] + Decode(s[6..])
    else if |s| == 1 then []
    else [ShortValue(s[1])] + Decode(s[2..])
  }

  predicate High(u: Unit) {
    0xD800 <= u <= 0xDBFF
  }

  predicate Low(u: Unit) {
    0xDC00 <= u <= 0xDFFF
  }

  function CodeOf(u: Unit): Token {
    Code(HexDigit(u / 4096), HexDigit(u / 256 % 16), HexDigit(u / 16 % 16), HexDigit(u % 16))
  }

  /** One unit that is no surrogate, as `JSON.stringify` writes it. */
  function Quote(u: Unit): Token {
    if u == 0x08 then Short(0x62) else if u == 0x09 then Short(0x74) else if u == 0x0A then Short(0x6E)
    else if u == 0x0C then Short(0x66) else if u == 0x0D then Short(0x72)
    else if u == 0x22 || u == 0x5C then Short(u)
    else if u < 0x20 then CodeOf(u)
    else Plain(u)
  }

  /** `JSON.stringify` of a string: surrogate pairs raw, lone surrogates escaped. */
  function Stringify(us: Text): seq<Token> {
    if us == [] then []
    else if |us| >= 2 && High(us[0]) && Low(us[1]) then [Plain(us[0]), Plain(us[1])] + Stringify(us[2..])
    else if High(us[0]) || Low(us[0]) then [CodeOf(us[0])] + Stringify(us[1..])
    else [Quote(us[0])] + Stringify(us[1..])
  }

  /** The string with each lone surrogate replaced by U+FFFD. */
  function WellFormed(us: Text): Text {
    if us == [] then []
    else if |us| >= 2 && High(us[0]) && Low(us[1]) then us[..2] + WellFormed(us[2..])
    else if High(us[0]) || Low(us[0]) then [0xFFFD] + WellFormed(us[1..])
    else [us[0]] + WellFormed(us[1..])
  }

  /** Four hex digits of a unit: what they are worth together. */
  lemma DigitsAddUp(u: Unit)
    ensures u / 4096 * 4096 + u / 256 % 16 * 256 + u / 16 % 16 * 16 + u % 16 == u
  {
    assert u / 16 / 16 == u / 256 && u / 256 / 16 == u / 4096;
  }

  lemma CodeDecodes(u: Unit, rest: Text)
    ensures Decode(TokenText(CodeOf(u)) + rest) == [u] + Decode(rest)
  {
    DigitsAddUp(u);
    HexDecodes(HexDigit(u / 4096), HexDigit(u / 256 % 16), HexDigit(u / 16 % 16), HexDigit(u % 16), rest);
  }

  lemma HexDecodes(a: Unit, b: Unit, c: Unit, d: Unit, rest: Text)
    requires Hex(a) && Hex(b) && Hex(c) && Hex(d)
    ensures Decode(TokenText(Code(a, b, c, d)) + rest)
         == [HexValue(a) * 4096 + HexValue(b) * 256 + HexValue(c) * 16 + HexValue(d)] + Decode(rest)
  {
    assert (TokenText(Code(a, b, c, d)) + rest)[6..] == rest;
  }

  lemma CodeIsSurrogate(u: Unit)
    ensures LowerSurrogate(CodeOf(u)) <==> High(u) || Low(u)
  {
    var high, next := u / 4096, u / 256 % 16;
    DigitsAddUp(u);
    assert HexDigit(high) == LetterD <==> high == 13;
    assert (0x38 <= HexDigit(next) <= 0x39 || 0x61 <= HexDigit(next) <= 0x66) <==> next >= 8;
  }

  lemma QuoteDecodes(u: Unit, rest: Text)
    requires !High(u) && !Low(u)
    ensures ValidToken(Quote(u)) && RepairToken(Quote(u)) == Quote(u)
    ensures Decode(TokenText(Quote(u)) + rest) == [u] + Decode(rest)
  {
    if Quote(u).Plain? {
      PlainDecodes(u, rest);
    } else if Quote(u).Short? {
      assert (TokenText(Quote(u)) + rest)[2..] == rest;
    } else {
      CodeDecodes(u, rest);
      CodeIsSurrogate(u);
    }
  }

  lemma ReplacementDecodes(rest: Text)
    ensures Decode(Replacement + rest) == [0xFFFD] + Decode(rest)
  {
    assert (Replacement + rest)[6..] == rest;
  }

  lemma TextOfStep(ts: seq<Token>, t: Token, rest: seq<Token>)
    requires ts == [t] + rest
    ensures RepairTokens(ts) == [RepairToken(t)] + RepairTokens(rest)
    ensures TextOf(RepairTokens(ts)) == TokenText(RepairToken(t)) + TextOf(RepairTokens(rest))
  {
    assert RepairTokens(ts) == [RepairToken(t)] + RepairTokens(rest);
    assert RepairTokens(ts)[1..] == RepairTokens(rest);
  }

  lemma PlainDecodes(u: Unit, rest: Text)
    requires u != Backslash
    ensures Decode([u] + rest) == [u] + Decode(rest)
  {
    assert ([u] + rest)[1..] == rest;
  }

  lemma OneUnitDecodes(u: Unit, rest: Text)
    ensures var lone := High(u) || Low(u);
            var t := if lone then CodeOf(u) else Quote(u);
            ValidToken(t) && Decode(TokenText(RepairToken(t)) + rest) == [if lone then 0xFFFD else u] + Decode(rest)
  {
    if High(u) || Low(u) {
      CodeIsSurrogate(u);
      ReplacementDecodes(rest);
      assert TokenText(RepairToken(CodeOf(u))) == Replacement;
    } else {
      QuoteDecodes(u, rest);
    }
  }

  lemma PairReadsBack(high: Unit, low: Unit, rest: seq<Token>)
    requires high != Backslash && low != Backslash
    ensures Decode(TextOf(RepairTokens([Plain(high), Plain(low)] + rest)))
         == [high, low] + Decode(TextOf(RepairTokens(rest)))
  {
    var tail := [Plain(low)] + rest;
    assert [Plain(high), Plain(low)] + rest == [Plain(high)] + tail;
    TextOfStep([Plain(high)] + tail, Plain(high), tail);
    TextOfStep(tail, Plain(low), rest);
    PlainDecodes(high, TextOf(RepairTokens(tail)));
    PlainDecodes(low, TextOf(RepairTokens(rest)));
  }

  lemma OneReadsBack(u: Unit, rest: seq<Token>)
    ensures var lone := High(u) || Low(u);
            var t := if lone then CodeOf(u) else Quote(u);
            && ValidToken(t)
            && Decode(TextOf(RepairTokens([t] + rest)))
               == [if lone then 0xFFFD else u] + Decode(TextOf(RepairTokens(rest)))
  {
    var t := if High(u) || Low(u) then CodeOf(u) else Quote(u);
    TextOfStep([t] + rest, t, rest);
    OneUnitDecodes(u, TextOf(RepairTokens(rest)));
  }

  lemma {:induction false} StringifiedDecodes(us: Text)
    ensures ValidTokens(Stringify(us))
    ensures Decode(TextOf(RepairTokens(Stringify(us)))) == WellFormed(us)
    decreases |us|
  {
    if us == [] {
    } else if |us| >= 2 && High(us[0]) && Low(us[1]) {
      StringifiedDecodes(us[2..]);
      PairReadsBack(us[0], us[1], Stringify(us[2..]));
    } else {
      StringifiedDecodes(us[1..]);
      OneReadsBack(us[0], Stringify(us[1..]));
    }
  }

  /** End to end: whatever string a script returns, the reader of the repaired JSON gets that
      string with each lone surrogate, and nothing else, turned into U+FFFD. */
  lemma RepairedStringReadsBack(us: Text)
    ensures Decode(FixLoneSurrogates(TextOf(Stringify(us)))) == WellFormed(us)
  {
    StringifiedDecodes(us);
    RepairIsPerToken(Stringify(us));
  }
}
