/**
 What the tokens of a scanner say about the layout of the text: which blocks are open where, and which
 tokens are keys.

 The laws are about the tokens alone, with their places, and hold of every list of lexemes that are in
 their places; how the scanner comes to insert its late tokens does not matter to them.
 */
module YamlScannerLaws {
  import opened Options
  import opened YamlScanner

  // ---------------------------------------------------------------------------------------------
  // Blocks by their columns

  predicate StartsBlock(t: Token) { t.kind == BlockSequenceStartKind || t.kind == BlockMappingStartKind }

  predicate InBlock(t: Token) { StartsBlock(t) || t.kind == BlockEndKind }

  /** The columns of the blocks that are open behind the tokens, from the outermost one. */
  function Blocks(ts: seq<Token>): seq<int> {
    if ts == [] then []
    else
      var open, t := Blocks(ts[..|ts| - 1]), ts[|ts| - 1];
      if StartsBlock(t) then open + [t.start.column]
      else if t.kind == BlockEndKind && open != [] then open[..|open| - 1]
      else open
  }

  function Top(open: seq<int>): int {
    if open == [] then -1 else open[|open| - 1]
  }

  predicate MayStartKey(t: Token) {
    t.kind == FlowStartKind || t.kind == AnchorKind || t.kind == TagKind || t.kind == ScalarKind
  }

  /** Outside flow collections a token stands at or behind the column of the innermost block.  An entry and a
      key stand just there; a block starts further in, and ends before a token that is further out or at
      the margin; the indicators of documents stand outside all blocks. */
  predicate Fits(open: seq<int>, depth: nat, t: Token) {
    if StartsBlock(t) then depth == 0 && Top(open) < t.start.column
    else if t.kind == BlockEndKind then depth == 0 && open != [] && (t.start.column < Top(open) || t.start.column == 0)
    else if depth > 0 then true
    else if t.kind == BlockEntryKind || t.kind == KeyKind then Top(open) == t.start.column
    else if t.kind == DirectiveKind || t.kind == DocumentStartKind || t.kind == DocumentEndKind
            || t.kind == StreamStartKind || t.kind == StreamEndKind then open == []
    else Top(open) <= t.start.column
  }

  predicate TokensFit(ts: seq<Token>) {
    ts != [] ==>
      && TokensFit(ts[..|ts| - 1])
      && Fits(Blocks(ts[..|ts| - 1]), FlowDepth(ts[..|ts| - 1]), ts[|ts| - 1])
  }

  /** A block sequence starts with an entry, and a block mapping with a key or a value, at its place. */
  predicate StartsFit(ts: seq<Token>) {
    forall i | 0 <= i < |ts| && StartsBlock(ts[i]) ::
      && i + 1 < |ts| && ts[i + 1].start == ts[i].start
      && (if ts[i].kind == BlockSequenceStartKind then ts[i + 1].kind == BlockEntryKind
          else ts[i + 1].kind == KeyKind || ts[i + 1].kind == ValueKind)
  }

  lemma BlocksSnoc(ts: seq<Token>, t: Token)
    ensures Blocks(ts + [t])
         == if StartsBlock(t) then Blocks(ts) + [t.start.column]
            else if t.kind == BlockEndKind && Blocks(ts) != [] then Blocks(ts)[..|Blocks(ts)| - 1]
            else Blocks(ts)
    ensures FlowDepth(ts + [t]) == FlowStep(FlowDepth(ts), t.kind)
    ensures TokensFit(ts + [t]) <==> TokensFit(ts) && Fits(Blocks(ts), FlowDepth(ts), t)
  {
    assert (ts + [t])[..|ts|] == ts;
  }

  predicate NoBlocks(ts: seq<Token>) {
    forall i | 0 <= i < |ts| :: !InBlock(ts[i])
  }

  lemma {:induction false} BlocksStay(a: seq<Token>, b: seq<Token>)
    requires NoBlocks(b)
    ensures Blocks(a + b) == Blocks(a)
  {
    if b == [] {
      assert a + b == a;
    } else {
      var k := |b| - 1;
      BlocksStay(a, b[..k]);
      assert (a + b)[..|a| + k] == a + b[..k];
    }
  }

  // ---------------------------------------------------------------------------------------------
  // What the scanner keeps

  /** A possible key names a token that may start one, at its depth, in front of where the scanner is. */
  predicate KeyStands(c: Core, l: nat, mark: Mark)
    requires l < |c.keys|
  {
    var k := c.keys[l];
    k.possible ==>
      && 0 <= k.number < |c.tokens| && MayStartKey(c.tokens[k.number]) && c.tokens[k.number].start == k.mark
      && FlowDepth(c.tokens[..k.number]) == l
      && k.mark.line <= mark.line && (k.mark.line == mark.line ==> k.mark.column < mark.column)
      && (l == 0 ==> c.indent <= k.mark.column && PlainFrom(c.tokens, k.number, k.mark.column))
  }

  /** From here on no block starts or ends, and outside flow collections there is nothing but what a key is
      made of, further in than the column. */
  predicate PlainFrom(ts: seq<Token>, n: nat, column: int) {
    forall i | n <= i < |ts| ::
      && !InBlock(ts[i])
      && (FlowDepth(ts[..i]) == 0 ==> MayStartKey(ts[i]) && column <= ts[i].start.column)
  }

  predicate Laid(c: Core, mark: Mark) {
    && c.indents + [c.indent] == [-1] + Blocks(c.tokens) && c.flow == FlowDepth(c.tokens) && |c.keys| == c.flow + 1
    && TokensFit(c.tokens) && StartsFit(c.tokens) && KeysIncrease(c.keys)
    && forall l | 0 <= l < |c.keys| :: KeyStands(c, l, mark)
  }

  lemma TopIsIndent(c: Core)
    requires c.indents + [c.indent] == [-1] + Blocks(c.tokens)
    ensures Top(Blocks(c.tokens)) == c.indent && (c.indents == [] <==> Blocks(c.tokens) == [])
  {
    var levels := c.indents + [c.indent];
    assert levels[|levels| - 1] == c.indent;
  }

  /** Standing where the lexeme is, with the keys that are near enough and the blocks that are left. */
  predicate Ready(c: Core, at: Mark) {
    && Laid(c, at) && (c.flow == 0 ==> c.indent <= at.column)
    && forall l | 0 <= l < |c.keys| && c.keys[l].possible :: c.keys[l].mark.line == at.line
  }

  // ---------------------------------------------------------------------------------------------
  // One token more

  predicate Framed(c: Core) {
    && c.indents + [c.indent] == [-1] + Blocks(c.tokens) && c.flow == FlowDepth(c.tokens)
    && TokensFit(c.tokens) && StartsFit(c.tokens)
  }

  predicate Strictly(a: Mark, b: Mark) {
    a.line <= b.line && (a.line == b.line ==> a.column < b.column)
  }

  /** A key that stays possible behind the token `t`. */
  predicate OldKey(c: Core, l: nat, k: SimpleKey, t: Token, at: Mark) {
    && l < |c.keys| && k == c.keys[l] && KeyStands(c, l, at)
    && (l == 0 && c.flow == 0 ==> MayStartKey(t) && k.mark.column <= t.start.column)
  }

  /** The key that the token `t` may be. */
  predicate NewKey(c: Core, l: nat, k: SimpleKey, t: Token) {
    && k.number == |c.tokens| && k.mark == t.start && MayStartKey(t) && l == c.flow
    && (l == 0 ==> c.indent <= t.start.column)
  }

  lemma PlainOn(ts: seq<Token>, n: nat, column: int, t: Token)
    requires n <= |ts| && PlainFrom(ts, n, column) && !InBlock(t)
    requires FlowDepth(ts) == 0 ==> MayStartKey(t) && column <= t.start.column
    ensures PlainFrom(ts + [t], n, column)
  {
    hide FlowDepth;
    var us := ts + [t];
    forall i | n <= i < |us|
      ensures !InBlock(us[i]) && (FlowDepth(us[..i]) == 0 ==> MayStartKey(us[i]) && column <= us[i].start.column)
    {
      if i < |ts| { assert us[..i] == ts[..i]; } else { assert us[..i] == ts; }
    }
  }

  lemma OldKeyStands(c: Core, l: nat, t: Token, at: Mark, mark: Mark, d: Core)
    requires l < |c.keys| && c.keys[l].possible && OldKey(c, l, c.keys[l], t, at) && NotBefore(at, mark) && !InBlock(t)
    requires d.tokens == c.tokens + [t] && d.indent == c.indent && c.flow == FlowDepth(c.tokens)
    requires l < |d.keys| && d.keys[l] == c.keys[l]
    ensures KeyStands(d, l, mark)
  {
    hide FlowDepth;
    var k := c.keys[l];
    assert d.tokens[..k.number] == c.tokens[..k.number];
    if l == 0 { PlainOn(c.tokens, k.number, k.mark.column, t); }
  }

  lemma NewKeyStands(c: Core, l: nat, t: Token, mark: Mark, d: Core)
    requires c.flow == FlowDepth(c.tokens) && l < |d.keys| && d.keys[l].possible && NewKey(c, l, d.keys[l], t)
    requires Strictly(t.start, mark) && d.tokens == c.tokens + [t] && d.indent == c.indent
    ensures KeyStands(d, l, mark)
  {
    hide FlowDepth;
    assert d.tokens[..|c.tokens|] == c.tokens;
  }

  lemma StartsSnoc(ts: seq<Token>, t: Token)
    requires StartsFit(ts) && !StartsBlock(t)
    ensures StartsFit(ts + [t])
  {
    var us := ts + [t];
    forall i | 0 <= i < |us| && StartsBlock(us[i])
      ensures i + 1 < |us| && us[i + 1].start == us[i].start
      ensures if us[i].kind == BlockSequenceStartKind then us[i + 1].kind == BlockEntryKind
              else us[i + 1].kind == KeyKind || us[i + 1].kind == ValueKind
    {
      assert i < |ts| && us[i] == ts[i] && us[i + 1] == ts[i + 1];
    }
  }

  /** A token that starts or ends no block is appended, with keys that stay and perhaps its own. */
  lemma OneMore(c: Core, t: Token, at: Mark, mark: Mark, d: Core)
    requires Framed(c) && !InBlock(t) && Fits(Blocks(c.tokens), FlowDepth(c.tokens), t) && NotBefore(at, mark)
    requires d.tokens == c.tokens + [t] && d.indent == c.indent && d.indents == c.indents
    requires d.flow == FlowStep(c.flow, t.kind) && |d.keys| == d.flow + 1 && KeysIncrease(d.keys)
    requires forall l | 0 <= l < |d.keys| && d.keys[l].possible ::
               || OldKey(c, l, d.keys[l], t, at)
               || (NewKey(c, l, d.keys[l], t) && Strictly(t.start, mark))
    ensures Laid(d, mark)
  {
    hide Fits, TokensFit, FlowDepth, Blocks, KeyStands, StartsFit, KeysIncrease;
    BlocksSnoc(c.tokens, t);
    StartsSnoc(c.tokens, t);
    forall l | 0 <= l < |d.keys| ensures KeyStands(d, l, mark) {
      if d.keys[l].possible {
        if OldKey(c, l, d.keys[l], t, at) {
          OldKeyStands(c, l, t, at, mark, d);
        } else {
          NewKeyStands(c, l, t, mark, d);
        }
      } else {
        NoKeyStands(d, l, mark);
      }
    }
  }

  lemma NoKeyStands(d: Core, l: nat, mark: Mark)
    requires l < |d.keys| && !d.keys[l].possible
    ensures KeyStands(d, l, mark)
  {}

  // ---------------------------------------------------------------------------------------------
  // Up to the lexeme

  lemma LaterLaid(c: Core, mark: Mark, at: Mark)
    requires Laid(c, mark) && NotBefore(mark, at)
    ensures Laid(c, at)
  {
    hide PlainFrom, FlowDepth, Blocks, TokensFit, StartsFit, KeysIncrease;
    forall l | 0 <= l < |c.keys| ensures KeyStands(c, l, at) {
      assert KeyStands(c, l, mark);
    }
  }

  /** Fewer keys are possible. */
  lemma FewerLaid(c: Core, ks: seq<SimpleKey>, allowed: bool, at: Mark)
    requires Laid(c, at) && |ks| == |c.keys|
    requires forall l | 0 <= l < |ks| :: ks[l] == c.keys[l] || ks[l] == c.keys[l].(possible := false)
    ensures Laid(c.(keys := ks, allowed := allowed), at)
  {
    hide PlainFrom, FlowDepth, Blocks, TokensFit, StartsFit;
    var d := c.(keys := ks, allowed := allowed);
    forall l | 0 <= l < |d.keys| ensures KeyStands(d, l, at) {
      assert KeyStands(c, l, at);
    }
    assert KeysIncrease(d.keys);
  }

  lemma UnrolledKeys(c: Core, ks: seq<SimpleKey>, column: int, mark: Mark)
    ensures Unrolled(c.(keys := ks), column, mark) == Unrolled(c, column, mark).(keys := ks)
    decreases |c.indents|
  {
    if c.flow > 0 || c.indent <= column || c.indents == [] {
    } else {
      var k := |c.indents| - 1;
      var ts := c.tokens + [Token(BlockEndKind, mark)];
      UnrolledKeys(c.(tokens := ts, indent := c.indents[k], indents := c.indents[..k]), ks, column, mark);
    }
  }

  /** One block is left, with no key of the block context in sight. */
  lemma BlockLeft(c: Core, at: Mark)
    requires Laid(c, at) && c.flow == 0 && c.indents != [] && !c.keys[0].possible
    requires at.column < c.indent || at.column == 0
    ensures var (k, ts) := (|c.indents| - 1, c.tokens + [Token(BlockEndKind, at)]);
            Laid(c.(tokens := ts, indent := c.indents[k], indents := c.indents[..k]), at)
  {
    hide TokensFit, FlowDepth, Blocks, KeyStands, StartsFit;
    var k, t := |c.indents| - 1, Token(BlockEndKind, at);
    var d := c.(tokens := c.tokens + [t], indent := c.indents[k], indents := c.indents[..k]);
    TopIsIndent(c);
    BlocksSnoc(c.tokens, t);
    StartsSnoc(c.tokens, t);
    var open := Blocks(c.tokens);
    assert c.indents == ([-1] + open)[..|open|] == [-1] + open[..|open| - 1];
    NoKeyStands(d, 0, at);
  }

  lemma {:induction false} UnrolledLaid(c: Core, column: int, at: Mark)
    requires Laid(c, at) && column >= -1 && (column == at.column || at.column == 0)
    requires c.flow == 0 && c.keys[0].possible ==> c.indent <= column
    ensures var d := Unrolled(c, column, at);
            Laid(d, at) && (c.flow == 0 ==> d.indent <= column) && d.keys == c.keys && d.flow == c.flow
            && d.allowed == c.allowed
    decreases |c.indents|
  {
    if c.flow > 0 || c.indent <= column || c.indents == [] {
      TopIsIndent(c);
    } else {
      BlockLeft(c, at);
      var k := |c.indents| - 1;
      hide Laid;
      var ts := c.tokens + [Token(BlockEndKind, at)];
      UnrolledLaid(c.(tokens := ts, indent := c.indents[k], indents := c.indents[..k]), column, at);
    }
  }

  lemma FreshNear(c: Core, mark: Mark, at: Mark, l: nat)
    requires Laid(c, mark) && NotBefore(mark, at) && l < |c.keys|
    ensures Freshen(c.keys, at)[l] == c.keys[l] || Freshen(c.keys, at)[l] == c.keys[l].(possible := false)
    ensures Freshen(c.keys, at)[l].possible ==> c.keys[l].mark.line == at.line && c.keys[l].mark.column < at.column
  {
    assert KeyStands(c, l, mark);
  }

  /** In front of the lexeme. */
  lemma ApproachedReady(c: Core, mark: Mark, lex: Lexeme)
    requires Laid(c, mark) && NotBefore(mark, lex.at) && Approached(c, lex).Some?
    ensures Ready(Approached(c, lex).value, lex.at)
  {
    var ks, allowed := Freshen(c.keys, lex.at), c.allowed || (lex.broken && c.flow == 0);
    LaterLaid(c, mark, lex.at);
    forall l | 0 <= l < |ks|
      ensures ks[l] == c.keys[l] || ks[l] == c.keys[l].(possible := false)
      ensures ks[l].possible ==> ks[l].mark.line == lex.at.line && ks[l].mark.column < lex.at.column
    {
      FreshNear(c, mark, lex.at, l);
    }
    FewerLaid(c, ks, allowed, lex.at);
    var b := c.(keys := ks, allowed := allowed);
    if b.flow == 0 && b.keys[0].possible { assert KeyStands(b, 0, lex.at); }
    hide Laid, Freshen;
    UnrolledLaid(b, lex.at.column, lex.at);
  }

  // ---------------------------------------------------------------------------------------------
  // What each lexeme does

  lemma LaidFramed(c: Core, at: Mark)
    requires Laid(c, at)
    ensures Framed(c) && |c.keys| == c.flow + 1 && KeysIncrease(c.keys) && Top(Blocks(c.tokens)) == c.indent
    ensures c.flow == FlowDepth(c.tokens)
    ensures forall l | 0 <= l < |c.keys| :: KeyStands(c, l, at)
    ensures forall l | 0 <= l < |c.keys| && c.keys[l].possible :: 0 <= c.keys[l].number < |c.tokens|
  {
    TopIsIndent(c);
    hide Blocks, TokensFit, StartsFit, FlowDepth, PlainFrom;
    forall l | 0 <= l < |c.keys| && c.keys[l].possible
      ensures 0 <= c.keys[l].number < |c.tokens|
    {
      assert KeyStands(c, l, at);
    }
  }

  /** The margin: everything is left, and the indicator stands outside. */
  lemma MarginLaid(c: Core, kind: Kind, at: Mark, mark: Mark)
    requires Laid(c, at) && at.column == 0 && NotBefore(at, mark) && AtMargin(c, kind, at).Some?
    requires kind == DirectiveKind || kind == DocumentStartKind || kind == DocumentEndKind || kind == StreamEndKind
    ensures Laid(AtMargin(c, kind, at).value, mark)
  {
    hide Laid, Unrolled, KeyStands, Blocks, TokensFit, StartsFit, FlowDepth, Framed, KeysIncrease, Left, Fits;
    LaidFramed(c, at);
    var ks := c.keys[c.flow := c.keys[c.flow].(possible := false)];
    var b := c.(keys := ks);
    FewerLaid(c, ks, c.allowed, at);
    UnrolledLaid(b, -1, at);
    UnrolledKeys(c, ks, -1, at);
    LeftKeys(c, at);
    var e := Unrolled(b, -1, at).(allowed := false);
    FewerLaid(Unrolled(b, -1, at), ks, false, at);
    LaidFramed(e, at);
    var t := Token(kind, at);
    assert Fits(Blocks(e.tokens), FlowDepth(e.tokens), t) by { MarginFits(e, t); }
    OneMore(e, t, at, mark, AtMargin(c, kind, at).value);
  }

  lemma MarginFits(c: Core, t: Token)
    requires Framed(c) && (c.flow == 0 ==> c.indent <= -1)
    requires || t.kind == DirectiveKind || t.kind == DocumentStartKind
             || t.kind == DocumentEndKind || t.kind == StreamEndKind
    ensures Fits(Blocks(c.tokens), FlowDepth(c.tokens), t)
  {
    hide Blocks, TokensFit, StartsFit, FlowDepth;
    if c.flow == 0 { NothingOpen(c); }
  }

  lemma LeftKeys(c: Core, at: Mark)
    requires c.flow < |c.keys| && Left(c, at).Some?
    ensures var ks := c.keys[c.flow := c.keys[c.flow].(possible := false)];
            Left(c, at) == Some(Unrolled(c, -1, at).(keys := ks, allowed := false))
  {
    UnrolledRest(c, -1, at);
  }

  lemma UnrolledRest(c: Core, column: int, mark: Mark)
    ensures Unrolled(c, column, mark).keys == c.keys && Unrolled(c, column, mark).flow == c.flow
    decreases |c.indents|
  {}

  lemma NothingOpen(c: Core)
    requires c.indents + [c.indent] == [-1] + Blocks(c.tokens) && c.indent <= -1
    ensures Blocks(c.tokens) == []
  {
    TopIsIndent(c);
    BlocksNatural(c.tokens);
  }

  lemma {:induction false} BlocksNatural(ts: seq<Token>)
    ensures forall i | 0 <= i < |Blocks(ts)| :: Blocks(ts)[i] >= 0
  {
    if ts == [] {
    } else {
      BlocksNatural(ts[..|ts| - 1]);
    }
  }

  lemma IncreaseFewer(ks: seq<SimpleKey>, l: nat)
    requires KeysIncrease(ks) && l < |ks|
    ensures KeysIncrease(ks[l := ks[l].(possible := false)])
  {}

  lemma IncreaseNew(ks: seq<SimpleKey>, k: SimpleKey, l: nat)
    requires KeysIncrease(ks) && l == |ks| - 1
    requires forall i | 0 <= i < l && ks[i].possible :: ks[i].number < k.number
    ensures KeysIncrease(ks[l := k])
  {}

  lemma IncreaseMore(ks: seq<SimpleKey>)
    requires KeysIncrease(ks)
    ensures KeysIncrease(ks + [NO_KEY]) && (ks != [] ==> KeysIncrease(ks[..|ks| - 1]))
  {}

  /** The keys behind a token that may start one, by itself or as the start of a flow collection. */
  lemma SavedKeys(c: Core, at: Mark, t: Token)
    requires Ready(c, at) && Saved(c, at).Some? && t.start == at && MayStartKey(t)
    ensures var d := Saved(c, at).value;
            && d == c.(keys := d.keys) && |d.keys| == |c.keys| && KeysIncrease(d.keys)
            && forall l | 0 <= l < |d.keys| && d.keys[l].possible ::
                 OldKey(c, l, d.keys[l], t, at) || NewKey(c, l, d.keys[l], t)
  {
    hide Blocks, TokensFit, StartsFit, FlowDepth, PlainFrom;
    LaidFramed(c, at);
    var d := Saved(c, at).value;
    if c.allowed { IncreaseNew(c.keys, d.keys[c.flow], c.flow); }
    forall l | 0 <= l < |d.keys| && d.keys[l].possible
      ensures OldKey(c, l, d.keys[l], t, at) || NewKey(c, l, d.keys[l], t)
    {
      assert KeyStands(c, l, at);
    }
  }

  lemma KeyableLaid(c: Core, kind: Kind, lex: Lexeme)
    requires Ready(c, lex.at) && Keyable(c, kind, lex).Some? && NotBefore(lex.at, lex.end) && Strictly(lex.at, lex.end)
    requires kind == AnchorKind || kind == TagKind || kind == ScalarKind
    ensures Laid(Keyable(c, kind, lex).value, lex.end)
  {
    hide Blocks, TokensFit, StartsFit, FlowDepth, KeyStands, Saved, OldKey, NewKey, KeysIncrease;
    var t := Token(kind, lex.at);
    LaidFramed(c, lex.at);
    SavedKeys(c, lex.at, t);
    var d := Keyable(c, kind, lex).value;
    OneMore(c, t, lex.at, lex.end, d);
  }

  lemma OpenedLaid(c: Core, at: Mark, mark: Mark)
    requires Ready(c, at) && Opened(c, at).Some? && NotBefore(at, mark) && Strictly(at, mark)
    ensures Laid(Opened(c, at).value, mark)
  {
    hide Blocks, TokensFit, StartsFit, FlowDepth, KeyStands, Saved, OldKey, NewKey, KeysIncrease;
    var t := Token(FlowStartKind, at);
    LaidFramed(c, at);
    SavedKeys(c, at, t);
    var s, d := Saved(c, at).value, Opened(c, at).value;
    IncreaseMore(s.keys);
    assert forall l | 0 <= l < |s.keys| :: d.keys[l] == s.keys[l];
    OneMore(c, t, at, mark, d);
  }

  /** Without the key of the current level. */
  lemma DroppedKeys(c: Core, at: Mark, t: Token)
    requires Laid(c, at) && Dropped(c).Some?
    ensures var d := Dropped(c).value;
            && d == c.(keys := d.keys) && |d.keys| == |c.keys| && KeysIncrease(d.keys) && !d.keys[c.flow].possible
            && forall l | 0 <= l < |d.keys| && d.keys[l].possible :: l < c.flow && OldKey(c, l, d.keys[l], t, at)
  {
    hide Blocks, TokensFit, StartsFit, FlowDepth, PlainFrom;
    LaidFramed(c, at);
    IncreaseFewer(c.keys, c.flow);
    forall l | 0 <= l < |c.keys| ensures KeyStands(c, l, at) {}
  }

  lemma ClosedLaid(c: Core, at: Mark, mark: Mark)
    requires Ready(c, at) && Closed(c, at).Some? && NotBefore(at, mark)
    ensures Laid(Closed(c, at).value, mark)
  {
    hide Blocks, TokensFit, StartsFit, FlowDepth, KeyStands, Dropped, OldKey, NewKey, KeysIncrease;
    var t := Token(FlowEndKind, at);
    LaidFramed(c, at);
    DroppedKeys(c, at, t);
    var s, d := Dropped(c).value, Closed(c, at).value;
    IncreaseMore(s.keys);
    OneMore(c, t, at, mark, d);
  }

  lemma EndedLaid(c: Core, kind: Kind, at: Mark, allowed: bool, mark: Mark)
    requires Ready(c, at) && Ended(c, kind, at, allowed).Some? && NotBefore(at, mark)
    requires kind == FlowEntryKind || kind == ScalarKind
    ensures Laid(Ended(c, kind, at, allowed).value, mark)
  {
    hide Blocks, TokensFit, StartsFit, FlowDepth, KeyStands, Dropped, OldKey, NewKey, KeysIncrease;
    var t := Token(kind, at);
    LaidFramed(c, at);
    DroppedKeys(c, at, t);
    OneMore(c, t, at, mark, Ended(c, kind, at, allowed).value);
  }

  /** A block starts with the token behind it, where no key is possible. */
  lemma StartMore(c: Core, start: Kind, t: Token, mark: Mark, d: Core)
    requires Framed(c) && c.flow == 0 && c.indent < t.start.column
    requires if start == BlockSequenceStartKind then t.kind == BlockEntryKind
             else start == BlockMappingStartKind && (t.kind == KeyKind || t.kind == ValueKind)
    requires d.tokens == c.tokens + [Token(start, t.start)] + [t] && d.flow == 0
    requires d.indents == c.indents + [c.indent] && d.indent == t.start.column
    requires |d.keys| == 1 && !d.keys[0].possible
    ensures Laid(d, mark)
  {
    hide TokensFit, FlowDepth, Blocks, KeyStands, StartsFit;
    var b := Token(start, t.start);
    TopIsIndent(c);
    BlocksSnoc(c.tokens, b);
    BlocksSnoc(c.tokens + [b], t);
    assert StartsFit(d.tokens) by { StartsTwo(c.tokens, b, t); }
    NoKeyStands(d, 0, mark);
  }

  lemma StartsTwo(ts: seq<Token>, b: Token, t: Token)
    requires StartsFit(ts) && StartsBlock(b) && t.start == b.start
    requires if b.kind == BlockSequenceStartKind then t.kind == BlockEntryKind
             else t.kind == KeyKind || t.kind == ValueKind
    ensures StartsFit(ts + [b] + [t])
  {
    var us := ts + [b] + [t];
    forall i | 0 <= i < |us| && StartsBlock(us[i])
      ensures i + 1 < |us| && us[i + 1].start == us[i].start
      ensures if us[i].kind == BlockSequenceStartKind then us[i + 1].kind == BlockEntryKind
              else us[i + 1].kind == KeyKind || us[i + 1].kind == ValueKind
    {
      if i < |ts| { assert us[i] == ts[i] && us[i + 1] == ts[i + 1]; }
    }
  }

  lemma IndicatedLaid(c: Core, start: Kind, kind: Kind, at: Mark, allowed: bool, mark: Mark)
    requires Ready(c, at) && Indicated(c, start, kind, at, allowed).Some? && NotBefore(at, mark)
    requires if start == BlockSequenceStartKind then kind == BlockEntryKind
             else start == BlockMappingStartKind && kind == KeyKind
    ensures Laid(Indicated(c, start, kind, at, allowed).value, mark)
  {
    hide Blocks, TokensFit, StartsFit, FlowDepth, KeyStands, OldKey, NewKey, KeysIncrease;
    var t := Token(kind, at);
    LaidFramed(c, at);
    var d := Indicated(c, start, kind, at, allowed).value;
    if c.flow == 0 && c.indent < at.column {
      StartMore(c, start, t, mark, d);
    } else {
      DroppedKeys(c, at, t);
      OneMore(c, t, at, mark, d);
    }
  }

  // ---------------------------------------------------------------------------------------------
  // A key that is found late

  lemma {:induction false} InsertFits(a: seq<Token>, t: Token, b: seq<Token>)
    requires TokensFit(a + b) && !InBlock(t) && !InFlow(t.kind) && Fits(Blocks(a), FlowDepth(a), t)
    ensures TokensFit(a + [t] + b) && Blocks(a + [t] + b) == Blocks(a + b)
  {
    hide Fits;
    if b == [] {
      assert a + b == a && a + [t] + b == a + [t];
      BlocksSnoc(a, t);
    } else {
      var k := |b| - 1;
      assert a + b == (a + b[..k]) + [b[k]] && a + [t] + b == (a + [t] + b[..k]) + [b[k]];
      BlocksSnoc(a + b[..k], b[k]);
      InsertFits(a, t, b[..k]);
      FlowDepthInsert(a, t, b[..k]);
      BlocksSnoc(a + [t] + b[..k], b[k]);
    }
  }

  lemma {:induction false} InsertStart(a: seq<Token>, t: Token, b: seq<Token>)
    requires TokensFit(a) && StartsBlock(t) && FlowDepth(a) == 0 && Top(Blocks(a)) < t.start.column
    requires PlainFrom(a + b, |a|, t.start.column)
    ensures TokensFit(a + [t] + b) && Blocks(a + [t] + b) == Blocks(a) + [t.start.column]
  {
    hide TokensFit, Blocks, FlowDepth;
    BlocksSnoc(a, t);
    if b == [] {
      assert a + [t] + b == a + [t];
    } else {
      var k := |b| - 1;
      assert a + b == (a + b[..k]) + [b[k]] && a + [t] + b == (a + [t] + b[..k]) + [b[k]];
      assert (a + b)[..|a| + k] == a + b[..k] && (a + b)[|a| + k] == b[k];
      PlainBefore(a + b[..k], b[k], |a|, t.start.column);
      InsertStart(a, t, b[..k]);
      FlowDepthInsert(a, t, b[..k]);
      BlocksSnoc(a + [t] + b[..k], b[k]);
    }
  }

  lemma PlainBefore(ts: seq<Token>, t: Token, n: nat, column: int)
    requires PlainFrom(ts + [t], n, column)
    ensures PlainFrom(ts, n, column)
  {
    hide FlowDepth;
    var us := ts + [t];
    forall i | n <= i < |ts|
      ensures !InBlock(ts[i]) && (FlowDepth(ts[..i]) == 0 ==> MayStartKey(ts[i]) && column <= ts[i].start.column)
    {
      assert us[i] == ts[i] && us[..i] == ts[..i];
    }
  }

  /** Starts stay right around a KEY, with or without its own start, put before a token that may start a key. */
  lemma StartsKeyed(q: seq<Token>, p: nat, mark: Mark, opens: bool)
    requires StartsFit(q) && p < |q| && MayStartKey(q[p])
    ensures StartsFit(KeyInserted(q, p, mark, opens))
  {
    var us, n := KeyInserted(q, p, mark, opens), if opens then 2 else 1;
    forall i | 0 <= i < |us| && StartsBlock(us[i])
      ensures i + 1 < |us| && us[i + 1].start == us[i].start
      ensures if us[i].kind == BlockSequenceStartKind then us[i + 1].kind == BlockEntryKind
              else us[i + 1].kind == KeyKind || us[i + 1].kind == ValueKind
    {
      if i < p {
        assert us[i] == q[i] && StartsBlock(q[i]);
        assert us[i + 1] == q[i + 1];
      } else if p + n <= i {
        assert us[i] == q[i - n] && StartsBlock(q[i - n]);
        assert us[i + 1] == q[i + 1 - n];
      }
    }
  }

  lemma {:induction false} FitPrefix(a: seq<Token>, b: seq<Token>)
    requires TokensFit(a + b)
    ensures TokensFit(a)
  {
    hide Fits, FlowDepth, Blocks;
    if b == [] {
      assert a + b == a;
    } else {
      var k := |b| - 1;
      assert (a + b)[..|a| + k] == a + b[..k];
      FitPrefix(a, b[..k]);
    }
  }

  lemma PlainNoBlocks(a: seq<Token>, b: seq<Token>, column: int)
    requires PlainFrom(a + b, |a|, column)
    ensures NoBlocks(b)
  {
    hide FlowDepth;
    forall i | 0 <= i < |b| ensures !InBlock(b[i]) {
      assert (a + b)[|a| + i] == b[i];
    }
  }

  /** A key of the block context becomes one; the block that it opens lies around what is behind it. */
  lemma BlockKeyedFits(q: seq<Token>, p: nat, mark: Mark, opens: bool)
    requires TokensFit(q) && p < |q| && FlowDepth(q[..p]) == 0 && PlainFrom(q, p, mark.column)
    requires if opens then Top(Blocks(q)) < mark.column else Top(Blocks(q)) == mark.column
    ensures var us := KeyInserted(q, p, mark, opens);
            && TokensFit(us) && FlowDepth(us) == FlowDepth(q)
            && Blocks(us) == if opens then Blocks(q) + [mark.column] else Blocks(q)
  {
    hide TokensFit, FlowDepth, Blocks, PlainFrom;
    var a, b, t := q[..p], q[p..], Token(KeyKind, mark);
    assert a + b == q;
    FitPrefix(a, b);
    PlainNoBlocks(a, b, mark.column);
    BlocksStay(a, b);
    if opens {
      var s := Token(BlockMappingStartKind, mark);
      InsertStart(a, s, b);
      FlowDepthInsert(a, s, b);
      BlocksSnoc(a, s);
      InsertFits(a + [s], t, b);
      FlowDepthInsert(a + [s], t, b);
      assert a + [s] + [t] + b == KeyInserted(q, p, mark, opens);
    } else {
      InsertFits(a, t, b);
      FlowDepthInsert(a, t, b);
    }
  }

  lemma FlowKeyedFits(q: seq<Token>, p: nat, mark: Mark)
    requires TokensFit(q) && p < |q| && FlowDepth(q[..p]) > 0
    ensures var us := KeyInserted(q, p, mark, false);
            TokensFit(us) && FlowDepth(us) == FlowDepth(q) && Blocks(us) == Blocks(q)
  {
    hide TokensFit, FlowDepth, Blocks;
    var a, b, t := q[..p], q[p..], Token(KeyKind, mark);
    assert a + b == q;
    InsertFits(a, t, b);
    FlowDepthInsert(a, t, b);
  }

  /** What is plain from an earlier place on stays so around a KEY in a flow collection. */
  lemma PlainKeyed(q: seq<Token>, p: nat, mark: Mark, n: nat, column: int)
    requires n <= p < |q| && FlowDepth(q[..p]) > 0 && PlainFrom(q, n, column)
    ensures PlainFrom(KeyInserted(q, p, mark, false), n, column)
  {
    hide FlowDepth;
    var us, t := KeyInserted(q, p, mark, false), Token(KeyKind, mark);
    forall i | n <= i < |us|
      ensures !InBlock(us[i]) && (FlowDepth(us[..i]) == 0 ==> MayStartKey(us[i]) && column <= us[i].start.column)
    {
      if i < p {
        assert us[i] == q[i] && us[..i] == q[..i];
      } else if i == p {
        assert us[..i] == q[..p];
      } else {
        assert us[i] == q[i - 1] && q[..i - 1] == q[..p] + q[p..i - 1];
        assert us[..i] == q[..p] + [t] + q[p..i - 1];
        FlowDepthInsert(q[..p], t, q[p..i - 1]);
      }
    }
  }

  lemma EarlierKeyStands(c: Core, l: nat, p: nat, mark: Mark, at: Mark, d: Core)
    requires l < |c.keys| && KeyStands(c, l, at) && (c.keys[l].possible ==> c.keys[l].number < p)
    requires p < |c.tokens| && FlowDepth(c.tokens[..p]) > 0
    requires d.tokens == KeyInserted(c.tokens, p, mark, false) && d.indent == c.indent
    requires l < |d.keys| && d.keys[l] == c.keys[l]
    ensures KeyStands(d, l, at)
  {
    hide FlowDepth, PlainFrom;
    var k := c.keys[l];
    if k.possible {
      assert d.tokens[..k.number] == c.tokens[..k.number] && d.tokens[k.number] == c.tokens[k.number];
      if l == 0 { PlainKeyed(c.tokens, p, mark, k.number, k.mark.column); }
    }
  }

  lemma KeyedLaid(c: Core, at: Mark)
    requires Ready(c, at) && c.keys[c.flow].possible
    ensures Laid(Keyed(c), at) && (c.flow == 0 ==> Keyed(c).indent <= at.column)
  {
    hide Blocks, TokensFit, StartsFit, FlowDepth, PlainFrom, KeysIncrease;
    LaidFramed(c, at);
    var k, d := c.keys[c.flow], Keyed(c);
    assert KeyStands(c, c.flow, at);
    StartsKeyed(c.tokens, k.number, k.mark, c.flow == 0 && c.indent < k.mark.column);
    IncreaseFewer(c.keys, c.flow);
    if c.flow == 0 {
      BlockKeyedFits(c.tokens, k.number, k.mark, c.indent < k.mark.column);
      NoKeyStands(d, 0, at);
    } else {
      FlowKeyedFits(c.tokens, k.number, k.mark);
      forall l | 0 <= l < |d.keys| ensures KeyStands(d, l, at) {
        if l < c.flow {
          EarlierKey(c.keys, l, c.flow);
          EarlierKeyStands(c, l, k.number, k.mark, at, d);
        }
      }
    }
  }

  lemma EarlierKey(ks: seq<SimpleKey>, i: nat, j: nat)
    requires KeysIncrease(ks) && i < j < |ks| && ks[j].possible
    ensures ks[i].possible ==> ks[i].number < ks[j].number
  {}

  lemma ValuedLaid(c: Core, at: Mark, mark: Mark)
    requires Ready(c, at) && Valued(c, at).Some? && NotBefore(at, mark)
    ensures Laid(Valued(c, at).value, mark)
  {
    hide Blocks, TokensFit, StartsFit, FlowDepth, KeyStands, OldKey, NewKey, KeysIncrease, Keyed;
    var t, d := Token(ValueKind, at), Valued(c, at).value;
    LaidFramed(c, at);
    if c.keys[c.flow].possible {
      KeyedLaid(c, at);
      var e := Keyed(c);
      KeyedRest(c);
      LaidFramed(e, at);
      OtherKeys(e, at, t);
      OneMore(e, t, at, mark, d);
    } else if c.flow == 0 && c.indent < at.column {
      StartMore(c, BlockMappingStartKind, t, mark, d);
    } else {
      OtherKeys(c, at, t);
      OneMore(c, t, at, mark, d);
    }
  }

  lemma KeyedRest(c: Core)
    requires c.flow < |c.keys|
    ensures Keyed(c).flow == c.flow && |Keyed(c).keys| == |c.keys| && !Keyed(c).keys[c.flow].possible
  {}

  lemma OtherKeys(c: Core, at: Mark, t: Token)
    requires Laid(c, at) && !c.keys[c.flow].possible
    ensures forall l | 0 <= l < |c.keys| && c.keys[l].possible :: OldKey(c, l, c.keys[l], t, at)
  {
    hide Blocks, TokensFit, StartsFit, FlowDepth, PlainFrom;
    forall l | 0 <= l < |c.keys| && c.keys[l].possible ensures OldKey(c, l, c.keys[l], t, at) {
      assert KeyStands(c, l, at);
    }
  }

  // ---------------------------------------------------------------------------------------------
  // Every run

  /** A lexeme in its place. */
  predicate InPlace(lex: Lexeme) {
    && NotBefore(lex.at, EndOf(lex)) && (!lex.kind.EndOfStream? ==> Strictly(lex.at, lex.end))
    && (lex.kind.Directive? || lex.kind.DocumentIndicator? ==> lex.at.column == 0)
  }

  lemma ReadLaid(c: Core, lex: Lexeme)
    requires Ready(c, lex.at) && InPlace(lex) && ReadOn(c, lex).Some?
    ensures Laid(ReadOn(c, lex).value, EndOf(lex))
  {
    hide Laid, AtMargin, Opened, Closed, Ended, Indicated, Valued, Keyable;
    match lex.kind
    case EndOfStream =>
      LaterLaid(c, lex.at, AtLineStart(lex.at));
      MarginLaid(c, StreamEndKind, AtLineStart(lex.at), EndOf(lex));
    case Directive => MarginLaid(c, DirectiveKind, lex.at, lex.end);
    case DocumentIndicator(starts) =>
      MarginLaid(c, if starts then DocumentStartKind else DocumentEndKind, lex.at, lex.end);
    case FlowOpen => OpenedLaid(c, lex.at, lex.end);
    case FlowClose => ClosedLaid(c, lex.at, lex.end);
    case FlowComma => EndedLaid(c, FlowEntryKind, lex.at, true, lex.end);
    case Dash => IndicatedLaid(c, BlockSequenceStartKind, BlockEntryKind, lex.at, true, lex.end);
    case Question => IndicatedLaid(c, BlockMappingStartKind, KeyKind, lex.at, c.flow == 0, lex.end);
    case Colon => ValuedLaid(c, lex.at, lex.end);
    case AnchorOrAlias => KeyableLaid(c, AnchorKind, lex);
    case TagLexeme => KeyableLaid(c, TagKind, lex);
    case BlockScalar => EndedLaid(c, ScalarKind, lex.at, true, lex.end);
    case FlowScalar => KeyableLaid(c, ScalarKind, lex);
    case PlainScalar(_) => KeyableLaid(c, ScalarKind, lex);
  }

  /** Where the scanner is behind the lexemes. */
  function Behind(lexs: seq<Lexeme>): Mark {
    if lexs == [] then BEGINNING else EndOf(lexs[|lexs| - 1])
  }

  lemma PlacedSnoc(lexs: seq<Lexeme>, lex: Lexeme)
    requires Placed(lexs + [lex])
    ensures Placed(lexs) && InPlace(lex) && NotBefore(Behind(lexs), lex.at)
  {
    var all := lexs + [lex];
    assert all[|lexs|] == lex;
    if lexs != [] { assert all[|lexs| - 1] == lexs[|lexs| - 1] && all[0] == lexs[0]; }
    assert forall i | 0 <= i < |lexs| :: all[i] == lexs[i];
  }

  lemma RunSnoc(lexs: seq<Lexeme>, lex: Lexeme)
    ensures RunCore(lexs + [lex]) == match RunCore(lexs) case None => None case Some(c) => Fetched(c, lex)
  {
    assert (lexs + [lex])[..|lexs|] == lexs;
  }

  lemma StartLaid()
    ensures Laid(CORE_START, BEGINNING)
  {
    var t := Token(StreamStartKind, BEGINNING);
    BlocksSnoc([], t);
    assert [] + [t] == [t];
  }

  /** The blocks of any lexemes in their places are laid out by their columns. */
  lemma {:induction false} RunLaid(lexs: seq<Lexeme>)
    requires Placed(lexs) && RunCore(lexs).Some?
    ensures Laid(RunCore(lexs).value, Behind(lexs))
  {
    hide Laid, Placed, Approached, ReadOn, Ready;
    if lexs == [] {
      StartLaid();
    } else {
      var k := |lexs| - 1;
      var lex := lexs[k];
      assert lexs == lexs[..k] + [lex];
      PlacedSnoc(lexs[..k], lex);
      RunLaid(lexs[..k]);
      var c := RunCore(lexs[..k]).value;
      ApproachedReady(c, Behind(lexs[..k]), lex);
      ReadLaid(Approached(c, lex).value, lex);
    }
  }

  lemma LaidPrefix(ts: seq<Token>, all: seq<Token>)
    requires ts <= all && TokensFit(all) && StartsFit(all)
    requires ts != [] && ts[|ts| - 1].kind == StreamEndKind
    ensures TokensFit(ts) && StartsFit(ts)
  {
    hide TokensFit, FlowDepth, Blocks;
    assert ts + all[|ts|..] == all;
    FitPrefix(ts, all[|ts|..]);
    forall i | 0 <= i < |ts| && StartsBlock(ts[i])
      ensures i + 1 < |ts| && ts[i + 1].start == ts[i].start
      ensures if ts[i].kind == BlockSequenceStartKind then ts[i + 1].kind == BlockEntryKind
              else ts[i + 1].kind == KeyKind || ts[i + 1].kind == ValueKind
    {
      assert all[i] == ts[i] && i + 1 < |ts| && all[i + 1] == ts[i + 1];
    }
  }

  /** The tokens handed out are laid out by the columns of the text. */
  method ScanLayout(input: seq<Lexeme>) returns (ok: bool, tokens: seq<Token>)
    requires EofSticky(input) && Placed(input)
    ensures ok ==> TokensFit(tokens) && StartsFit(tokens)
    ensures ok && FlowDepth(tokens) == 0 ==> Blocks(tokens) == []
  {
    hide TokensFit, StartsFit, FlowDepth, Blocks, RunCore, Laid, Placed;
    ok, tokens := ScanAll(input);
    if ok {
      ghost var n :| 0 <= n <= |input| && RunCore(input[..n]).Some? && tokens <= RunCore(input[..n]).value.tokens;
      PlacedPrefix(input, n);
      RunLaid(input[..n]);
      LaidFramed(RunCore(input[..n]).value, Behind(input[..n]));
      LaidPrefix(tokens, RunCore(input[..n]).value.tokens);
      if FlowDepth(tokens) == 0 { NothingOpenAtEnd(tokens); }
    }
  }

  lemma PlacedPrefix(input: seq<Lexeme>, n: nat)
    requires Placed(input) && n <= |input|
    ensures Placed(input[..n])
  {
    assert forall i | 0 <= i < n :: input[..n][i] == input[i];
  }

  lemma NothingOpenAtEnd(ts: seq<Token>)
    requires TokensFit(ts) && ts != [] && ts[|ts| - 1].kind == StreamEndKind && FlowDepth(ts) == 0
    ensures Blocks(ts) == []
  {
    var k := |ts| - 1;
    assert ts == ts[..k] + [ts[k]];
    BlocksSnoc(ts[..k], ts[k]);
  }

  // ---------------------------------------------------------------------------------------------
  // Which tokens are keys

  /** The KEY at `i` stands directly in front of what starts there, and its VALUE is on the same line and
      within 1024 characters, in the same flow collection. */
  predicate NearValue(ts: seq<Token>, i: nat, j: nat) {
    && i + 1 < j < |ts| && ts[i + 1].start == ts[i].start && ts[j].kind == ValueKind
    && ts[j].start.line == ts[i].start.line && ts[j].start.index <= ts[i].start.index + 1024
    && FlowDepth(ts[..j]) == FlowDepth(ts[..i])
  }

  predicate IsAsked(lexs: seq<Lexeme>, at: Mark) {
    exists i | 0 <= i < |lexs| :: lexs[i].kind.Question? && lexs[i].at == at
  }

  /** A KEY comes from a question mark, or is found late from a VALUE that is near. */
  predicate KeysNear(ts: seq<Token>, lexs: seq<Lexeme>) {
    forall i | 0 <= i < |ts| && ts[i].kind == KeyKind ::
      IsAsked(lexs, ts[i].start) || exists j | 0 <= j < |ts| :: NearValue(ts, i, j)
  }

  lemma NearSnoc(ts: seq<Token>, t: Token, lexs: seq<Lexeme>)
    requires KeysNear(ts, lexs) && (t.kind == KeyKind ==> IsAsked(lexs, t.start))
    ensures KeysNear(ts + [t], lexs)
  {
    hide FlowDepth;
    var us := ts + [t];
    forall i | 0 <= i < |us| && us[i].kind == KeyKind
      ensures IsAsked(lexs, us[i].start) || exists j | 0 <= j < |us| :: NearValue(us, i, j)
    {
      if i < |ts| && !IsAsked(lexs, us[i].start) {
        assert us[i] == ts[i];
        var j :| 0 <= j < |ts| && NearValue(ts, i, j);
        assert us[..j] == ts[..j] && us[..i] == ts[..i];
        assert NearValue(us, i, j);
      }
    }
  }

  /** Where a token is behind an insertion at `p`. */
  function Moved(i: nat, p: nat): nat { if i < p then i else i + 1 }

  lemma DepthMoved(q: seq<Token>, p: nat, t: Token, i: nat)
    requires p <= |q| && i < |q| && !InFlow(t.kind)
    ensures var us := q[..p] + [t] + q[p..];
            us[Moved(i, p)] == q[i] && FlowDepth(us[..Moved(i, p)]) == FlowDepth(q[..i])
  {
    hide FlowDepth;
    var us := q[..p] + [t] + q[p..];
    if i < p {
      assert us[..i] == q[..i];
    } else {
      assert us[..i + 1] == q[..p] + [t] + q[p..i] && q[..i] == q[..p] + q[p..i];
      FlowDepthInsert(q[..p], t, q[p..i]);
    }
  }

  lemma NearMoved(q: seq<Token>, p: nat, t: Token, i: nat, j: nat)
    requires p < |q| && !InFlow(t.kind) && t.start == q[p].start && NearValue(q, i, j)
    ensures NearValue(q[..p] + [t] + q[p..], Moved(i, p), Moved(j, p))
  {
    hide FlowDepth;
    var us := q[..p] + [t] + q[p..];
    DepthMoved(q, p, t, i);
    DepthMoved(q, p, t, j);
    if i + 1 != p { DepthMoved(q, p, t, i + 1); }
  }

  lemma InsertNear(q: seq<Token>, p: nat, t: Token, lexs: seq<Lexeme>, v: nat)
    requires KeysNear(q, lexs) && p < v < |q| && !InFlow(t.kind) && t.start == q[p].start
    requires t.kind == KeyKind ==>
               && q[v].kind == ValueKind && q[v].start.line == t.start.line
               && q[v].start.index <= t.start.index + 1024 && FlowDepth(q[..v]) == FlowDepth(q[..p])
    ensures KeysNear(q[..p] + [t] + q[p..], lexs)
  {
    hide FlowDepth;
    var us := q[..p] + [t] + q[p..];
    forall i | 0 <= i < |us| && us[i].kind == KeyKind
      ensures IsAsked(lexs, us[i].start) || exists j | 0 <= j < |us| :: NearValue(us, i, j)
    {
      if i == p {
        DepthMoved(q, p, t, v);
        assert us[..p] == q[..p] && us[p + 1] == q[p];
        assert NearValue(us, p, v + 1);
      } else if !IsAsked(lexs, us[i].start) {
        var o := if i < p then i else i - 1;
        assert us[i] == q[o] && Moved(o, p) == i;
        var j :| 0 <= j < |q| && NearValue(q, o, j);
        hide NearValue;
        NearMoved(q, p, t, o, j);
        NearInside(q, o, j);
        assert NearValue(us, i, Moved(j, p));
      }
    }
  }

  lemma NearInside(q: seq<Token>, i: nat, j: nat)
    requires NearValue(q, i, j)
    ensures j < |q|
  {}

  lemma KeyedNear(q: seq<Token>, p: nat, mark: Mark, opens: bool, at: Mark, lexs: seq<Lexeme>)
    requires KeysNear(q, lexs) && p < |q| && q[p].start == mark && FlowDepth(q[..p]) == FlowDepth(q)
    requires mark.line == at.line && at.index <= mark.index + 1024
    ensures KeysNear(KeyInserted(q, p, mark, opens) + [Token(ValueKind, at)], lexs)
  {
    hide FlowDepth, KeysNear;
    var v, k, b := Token(ValueKind, at), Token(KeyKind, mark), Token(BlockMappingStartKind, mark);
    var r := q + [v];
    NearSnoc(q, v, lexs);
    assert r[..|q|] == q && r[..p] == q[..p] && r[p..] == q[p..] + [v];
    InsertNear(r, p, k, lexs, |q|);
    var s := r[..p] + [k] + r[p..];
    assert s == KeyInserted(q, p, mark, false) + [v];
    if opens {
      InsertNear(s, p, b, lexs, |q| + 1);
      assert s[..p] + [b] + s[p..] == KeyInserted(q, p, mark, true) + [v];
    }
  }

  lemma AskedOn(ts: seq<Token>, lexs: seq<Lexeme>, lex: Lexeme)
    requires KeysNear(ts, lexs)
    ensures KeysNear(ts, lexs + [lex])
  {
    hide NearValue;
    forall i | 0 <= i < |ts| && ts[i].kind == KeyKind && IsAsked(lexs, ts[i].start)
      ensures IsAsked(lexs + [lex], ts[i].start)
    {
      var k :| 0 <= k < |lexs| && lexs[k].kind.Question? && lexs[k].at == ts[i].start;
      assert (lexs + [lex])[k] == lexs[k];
    }
  }

  lemma {:induction false} UnrolledNear(c: Core, column: int, mark: Mark, lexs: seq<Lexeme>)
    requires KeysNear(c.tokens, lexs)
    ensures KeysNear(Unrolled(c, column, mark).tokens, lexs)
    decreases |c.indents|
  {
    hide KeysNear;
    if c.flow > 0 || c.indent <= column || c.indents == [] {
    } else {
      var k, t := |c.indents| - 1, Token(BlockEndKind, mark);
      NearSnoc(c.tokens, t, lexs);
      UnrolledNear(c.(tokens := c.tokens + [t], indent := c.indents[k], indents := c.indents[..k]), column, mark, lexs);
    }
  }

  lemma MarginNear(c: Core, kind: Kind, mark: Mark, lexs: seq<Lexeme>)
    requires KeysNear(c.tokens, lexs) && AtMargin(c, kind, mark).Some? && kind != KeyKind
    ensures KeysNear(AtMargin(c, kind, mark).value.tokens, lexs)
  {
    hide KeysNear, Unrolled;
    UnrolledNear(c, -1, mark, lexs);
    NearSnoc(Unrolled(c, -1, mark).tokens, Token(kind, mark), lexs);
  }

  lemma IndicatedNear(c: Core, start: Kind, kind: Kind, at: Mark, allowed: bool, lexs: seq<Lexeme>)
    requires KeysNear(c.tokens, lexs) && Indicated(c, start, kind, at, allowed).Some?
    requires start != KeyKind && (kind == KeyKind ==> IsAsked(lexs, at))
    ensures KeysNear(Indicated(c, start, kind, at, allowed).value.tokens, lexs)
  {
    hide KeysNear;
    NearSnoc(c.tokens, Token(start, at), lexs);
    NearSnoc(Rolled(c, start, at).tokens, Token(kind, at), lexs);
  }

  /** The possible keys name their tokens, and none of them has fallen behind. */
  lemma ValuedNear(c: Core, at: Mark, lexs: seq<Lexeme>)
    requires Ready(c, at) && Valued(c, at).Some? && KeysNear(c.tokens, lexs)
    requires forall l | 0 <= l < |c.keys| :: !Stale(c.keys[l], at)
    ensures KeysNear(Valued(c, at).value.tokens, lexs)
  {
    hide KeysNear, TokensFit, StartsFit, FlowDepth, Blocks, PlainFrom, KeysIncrease;
    LaidFramed(c, at);
    var k := c.keys[c.flow];
    assert KeyStands(c, c.flow, at);
    if k.possible {
      KeyedNear(c.tokens, k.number, k.mark, c.flow == 0 && c.indent < k.mark.column, at, lexs);
    } else {
      NearSnoc(c.tokens, Token(BlockMappingStartKind, at), lexs);
      NearSnoc(Rolled(c, BlockMappingStartKind, at).tokens, Token(ValueKind, at), lexs);
    }
  }

  lemma ReadNear(c: Core, lex: Lexeme, lexs: seq<Lexeme>)
    requires Ready(c, lex.at) && ReadOn(c, lex).Some? && KeysNear(c.tokens, lexs)
    requires forall l | 0 <= l < |c.keys| :: !Stale(c.keys[l], lex.at)
    requires lex.kind.Question? ==> IsAsked(lexs, lex.at)
    ensures KeysNear(ReadOn(c, lex).value.tokens, lexs)
  {
    hide KeysNear, AtMargin, Indicated, Valued, Laid, Stale, IsAsked;
    match lex.kind
    case EndOfStream => MarginNear(c, StreamEndKind, AtLineStart(lex.at), lexs);
    case Directive => MarginNear(c, DirectiveKind, lex.at, lexs);
    case DocumentIndicator(starts) =>
      MarginNear(c, if starts then DocumentStartKind else DocumentEndKind, lex.at, lexs);
    case FlowOpen => NearSnoc(c.tokens, Token(FlowStartKind, lex.at), lexs);
    case FlowClose => NearSnoc(c.tokens, Token(FlowEndKind, lex.at), lexs);
    case FlowComma => NearSnoc(c.tokens, Token(FlowEntryKind, lex.at), lexs);
    case Dash => IndicatedNear(c, BlockSequenceStartKind, BlockEntryKind, lex.at, true, lexs);
    case Question => IndicatedNear(c, BlockMappingStartKind, KeyKind, lex.at, c.flow == 0, lexs);
    case Colon => ValuedNear(c, lex.at, lexs);
    case AnchorOrAlias => NearSnoc(c.tokens, Token(AnchorKind, lex.at), lexs);
    case TagLexeme => NearSnoc(c.tokens, Token(TagKind, lex.at), lexs);
    case BlockScalar => NearSnoc(c.tokens, Token(ScalarKind, lex.at), lexs);
    case FlowScalar => NearSnoc(c.tokens, Token(ScalarKind, lex.at), lexs);
    case PlainScalar(_) => NearSnoc(c.tokens, Token(ScalarKind, lex.at), lexs);
  }

  lemma ApproachedFresh(c: Core, lex: Lexeme)
    requires Approached(c, lex).Some?
    ensures forall l | 0 <= l < |Approached(c, lex).value.keys| :: !Stale(Approached(c, lex).value.keys[l], lex.at)
  {
    var ks, allowed := Freshen(c.keys, lex.at), c.allowed || (lex.broken && c.flow == 0);
    UnrolledRest(c.(keys := ks, allowed := allowed), lex.at.column, lex.at);
  }

  /** Every KEY of a run is asked for, or near its VALUE. */
  lemma {:induction false} RunNear(lexs: seq<Lexeme>)
    requires Placed(lexs) && RunCore(lexs).Some?
    ensures KeysNear(RunCore(lexs).value.tokens, lexs)
  {
    hide KeysNear, Laid, Placed, ReadOn, Ready, Stale, Unrolled, Freshen;
    if lexs == [] {
      StartNear();
    } else {
      var k := |lexs| - 1;
      var lex := lexs[k];
      assert lexs == lexs[..k] + [lex];
      PlacedSnoc(lexs[..k], lex);
      RunLaid(lexs[..k]);
      RunNear(lexs[..k]);
      var c := RunCore(lexs[..k]).value;
      ApproachedReady(c, Behind(lexs[..k]), lex);
      ApproachedFresh(c, lex);
      AskedOn(c.tokens, lexs[..k], lex);
      var ks, allowed := Freshen(c.keys, lex.at), c.allowed || (lex.broken && c.flow == 0);
      UnrolledNear(c.(keys := ks, allowed := allowed), lex.at.column, lex.at, lexs);
      ReadNear(Approached(c, lex).value, lex, lexs);
    }
  }

  lemma StartNear()
    ensures KeysNear(CORE_START.tokens, [])
  {}

  // ---------------------------------------------------------------------------------------------
  // What makes a key

  /** An anchor, a tag, a scalar on one line, or the start of a flow collection. */
  predicate Starter(kind: LexKind) {
    match kind
    case AnchorOrAlias => true
    case TagLexeme => true
    case FlowScalar => true
    case PlainScalar(wrapped) => !wrapped
    case FlowOpen => true
    case _ => false
  }

  function Depth(lexs: seq<Lexeme>): nat { FlowDepth(AllShown(lexs)) }

  /** A text on one line and of at most 1024 characters in front of `at` that may be a key: outside its own flow
      collections there is nothing but what may start a key, or closes such a collection. */
  predicate OneKey(lexs: seq<Lexeme>, at: Mark) {
    && lexs != [] && Near(lexs[0].at, at)
    && forall i | 0 <= i < |lexs| ::
         && (i > 0 ==> Near(lexs[0].at, lexs[i].at) && !lexs[i].broken)
         && (Depth(lexs[..i]) == 0 ==> Starter(lexs[i].kind))
  }

  predicate Near(a: Mark, b: Mark) { a.line == b.line && b.index <= a.index + 1024 }

  /** The key that started with the last token of `base` is still possible, at level `l`. */
  predicate Holds(c: Core, l: nat, base: seq<Token>, required: bool, start: Mark) {
    && l <= c.flow && |c.keys| == c.flow + 1 && base != [] && base <= c.tokens
    && c.keys[l] == SimpleKey(true, required, |base| - 1, start)
    && (c.flow == l ==> !c.allowed)
  }

  /** Going to the next lexeme changes nothing about it. */
  lemma HoldsNext(c: Core, mark: Mark, lex: Lexeme, l: nat, base: seq<Token>, required: bool, start: Mark)
    requires Laid(c, mark) && NotBefore(mark, lex.at) && Holds(c, l, base, required, start)
    requires !lex.broken && Near(start, lex.at) && Approached(c, lex).Some?
    ensures var d := Approached(c, lex).value;
            && Holds(d, l, base, required, start) && d.tokens == c.tokens && d.flow == c.flow
            && d.indent == c.indent && d.indents == c.indents
  {
    hide TokensFit, StartsFit, Blocks, FlowDepth, PlainFrom, KeysIncrease;
    assert KeyStands(c, l, mark);
    var ks := Freshen(c.keys, lex.at);
    assert ks[l] == c.keys[l];
  }

  lemma HoldsValued(c: Core, at: Mark, l: nat, base: seq<Token>, required: bool, start: Mark)
    requires Laid(c, at) && Holds(c, l, base, required, start) && c.flow > l && Valued(c, at).Some?
    ensures var d := Valued(c, at).value;
            Holds(d, l, base, required, start) && d.indent == c.indent && d.indents == c.indents && d.flow == c.flow
  {
    hide TokensFit, StartsFit, Blocks, FlowDepth, PlainFrom, KeysIncrease;
    LaidFramed(c, at);
    if c.keys[c.flow].possible {
      assert KeyStands(c, c.flow, at);
      EarlierKey(c.keys, l, c.flow);
      assert base <= c.tokens[..c.keys[c.flow].number];
    }
  }

  lemma HoldsMargin(c: Core, kind: Kind, at: Mark, l: nat, base: seq<Token>, required: bool, start: Mark)
    requires Holds(c, l, base, required, start) && c.flow > l && AtMargin(c, kind, at).Some?
    ensures var d := AtMargin(c, kind, at).value;
            Holds(d, l, base, required, start) && d.indent == c.indent && d.indents == c.indents && d.flow == c.flow
  {}

  lemma HoldsIndicated(c: Core, start_: Kind, kind: Kind, at: Mark, allowed: bool, l: nat, base: seq<Token>,
                       required: bool, start: Mark)
    requires Holds(c, l, base, required, start) && c.flow > l && Indicated(c, start_, kind, at, allowed).Some?
    ensures var d := Indicated(c, start_, kind, at, allowed).value;
            Holds(d, l, base, required, start) && d.indent == c.indent && d.indents == c.indents && d.flow == c.flow
  {}

  lemma HoldsKeyable(c: Core, kind: Kind, lex: Lexeme, l: nat, base: seq<Token>, required: bool, start: Mark)
    requires Holds(c, l, base, required, start) && c.flow > l && Keyable(c, kind, lex).Some?
    ensures var d := Keyable(c, kind, lex).value;
            Holds(d, l, base, required, start) && d.indent == c.indent && d.indents == c.indents && d.flow == c.flow
  {}

  /** A lexeme inside a flow collection of the key. */
  lemma HoldsInside(c: Core, lex: Lexeme, l: nat, base: seq<Token>, required: bool, start: Mark)
    requires Ready(c, lex.at) && Holds(c, l, base, required, start) && c.flow > l && ReadOn(c, lex).Some?
    ensures var d := ReadOn(c, lex).value;
            && Holds(d, l, base, required, start) && d.indent == c.indent && d.indents == c.indents
            && d.flow == if lex.kind.FlowOpen? then c.flow + 1 else if lex.kind.FlowClose? then c.flow - 1 else c.flow
  {
    hide Laid, AtMargin, Valued, Indicated, Keyable;
    match lex.kind
    case EndOfStream => HoldsMargin(c, StreamEndKind, AtLineStart(lex.at), l, base, required, start);
    case Directive => HoldsMargin(c, DirectiveKind, lex.at, l, base, required, start);
    case DocumentIndicator(starts) =>
      HoldsMargin(c, if starts then DocumentStartKind else DocumentEndKind, lex.at, l, base, required, start);
    case FlowOpen =>
    case FlowClose =>
    case FlowComma =>
    case Dash =>
      HoldsIndicated(c, BlockSequenceStartKind, BlockEntryKind, lex.at, true, l, base, required, start);
    case Question =>
      HoldsIndicated(c, BlockMappingStartKind, KeyKind, lex.at, c.flow == 0, l, base, required, start);
    case Colon => HoldsValued(c, lex.at, l, base, required, start);
    case AnchorOrAlias => HoldsKeyable(c, AnchorKind, lex, l, base, required, start);
    case TagLexeme => HoldsKeyable(c, TagKind, lex, l, base, required, start);
    case BlockScalar =>
    case FlowScalar => HoldsKeyable(c, ScalarKind, lex, l, base, required, start);
    case PlainScalar(_) => HoldsKeyable(c, ScalarKind, lex, l, base, required, start);
  }

  /** A lexeme that goes on with the key. */
  lemma HoldsOn(c: Core, lex: Lexeme, l: nat, base: seq<Token>, required: bool, start: Mark)
    requires Holds(c, l, base, required, start) && c.flow == l && Starter(lex.kind) && ReadOn(c, lex).Some?
    ensures var d := ReadOn(c, lex).value;
            && Holds(d, l, base, required, start) && d.indent == c.indent && d.indents == c.indents
            && d.flow == if lex.kind.FlowOpen? then c.flow + 1 else c.flow
  {}

  /** The lexeme that starts the key. */
  lemma HoldsFirst(c: Core, lex: Lexeme)
    requires |c.keys| == c.flow + 1 && c.allowed && Starter(lex.kind) && ReadOn(c, lex).Some?
    ensures var d := ReadOn(c, lex).value;
            && Holds(d, c.flow, c.tokens + ShownAs(lex.kind, lex.at), c.flow == 0 && c.indent == lex.at.column, lex.at)
            && d.indent == c.indent && d.indents == c.indents
            && d.flow == if lex.kind.FlowOpen? then c.flow + 1 else c.flow
  {}

  /** The scanner in front of the lexeme `x`. */
  function Before(pre: seq<Lexeme>, x: Lexeme): Core
    requires RunCore(pre).Some? && Approached(RunCore(pre).value, x).Some?
  {
    Approached(RunCore(pre).value, x).value
  }

  /** A key may start there. */
  predicate MayStartAt(pre: seq<Lexeme>, x: Lexeme) {
    RunCore(pre).Some? && Approached(RunCore(pre).value, x).Some? && Before(pre, x).allowed
  }

  lemma DepthSnoc(lexs: seq<Lexeme>, lex: Lexeme)
    ensures Depth(lexs + [lex])
         == if lex.kind.FlowOpen? then Depth(lexs) + 1
            else if lex.kind.FlowClose? && Depth(lexs) > 0 then Depth(lexs) - 1
            else Depth(lexs)
  {
    assert (lexs + [lex])[..|lexs|] == lexs;
    var ts := AllShown(lexs);
    if ShownAs(lex.kind, lex.at) != [] {
      var t := ShownAs(lex.kind, lex.at)[0];
      assert ShownAs(lex.kind, lex.at) == [t];
      BlocksSnoc(ts, t);
    } else {
      assert ts + [] == ts;
    }
  }

  /** The text of a key keeps its key possible. */
  lemma {:induction false} KeyKept(pre: seq<Lexeme>, lexs: seq<Lexeme>, at: Mark)
    requires Placed(pre + lexs) && RunCore(pre + lexs).Some? && OneKey(lexs, at) && MayStartAt(pre, lexs[0])
    ensures var (a, d, x) := (Before(pre, lexs[0]), RunCore(pre + lexs).value, lexs[0]);
            && Holds(d, a.flow, a.tokens + ShownAs(x.kind, x.at), a.flow == 0 && a.indent == x.at.column, x.at)
            && d.indent == a.indent && d.indents == a.indents && d.flow == a.flow + Depth(lexs)
    decreases |lexs|
  {
    hide Laid, Placed, RunCore, Approached, ReadOn, Ready, Holds, ShownAs;
    var k, x := |lexs| - 1, lexs[0];
    var y, front := lexs[k], lexs[..k];
    assert front + [y] == lexs && (pre + front) + [y] == pre + lexs;
    PlacedSnoc(pre + front, y);
    RunSnoc(pre + front, y);
    var c := RunCore(pre + front).value;
    RunLaid(pre + front);
    ApproachedReady(c, Behind(pre + front), y);
    DepthSnoc(front, y);
    if k == 0 {
      assert pre + front == pre && front == [];
      LaidFramedReady(Before(pre, x), x.at);
      HoldsFirst(Before(pre, x), x);
    } else {
      assert front[0] == x;
      KeyFront(lexs, at);
      KeyKept(pre, front, y.at);
      var a := Before(pre, x);
      var base, required := a.tokens + ShownAs(x.kind, x.at), a.flow == 0 && a.indent == x.at.column;
      HoldsNext(c, Behind(pre + front), y, a.flow, base, required, x.at);
      if Depth(front) == 0 {
        HoldsOn(Approached(c, y).value, y, a.flow, base, required, x.at);
      } else {
        HoldsInside(Approached(c, y).value, y, a.flow, base, required, x.at);
      }
    }
  }

  lemma LaidFramedReady(c: Core, at: Mark)
    requires Ready(c, at)
    ensures |c.keys| == c.flow + 1
  {}

  lemma KeyFront(lexs: seq<Lexeme>, at: Mark)
    requires OneKey(lexs, at) && |lexs| > 1
    ensures var k := |lexs| - 1;
            && OneKey(lexs[..k], lexs[k].at) && Near(lexs[0].at, lexs[k].at) && !lexs[k].broken
            && (Depth(lexs[..k]) == 0 ==> Starter(lexs[k].kind))
  {
    hide Depth;
    var k := |lexs| - 1;
    forall i | 0 <= i < k
      ensures (i > 0 ==> Near(lexs[0].at, lexs[i].at) && !lexs[i].broken)
              && (Depth(lexs[..k][..i]) == 0 ==> Starter(lexs[i].kind))
    {
      assert lexs[..k][..i] == lexs[..i];
    }
  }

  /** A text that may be a key is one if a colon follows on its line and within 1024 characters.  Its KEY stands in
      front of its first token, and in front of that a mapping starts if the text is further in than its block. */
  lemma FoundLate(pre: seq<Lexeme>, lexs: seq<Lexeme>, z: Lexeme)
    requires Placed(pre + lexs + [z]) && RunCore(pre + lexs).Some? && OneKey(lexs, z.at) && MayStartAt(pre, lexs[0])
    requires Depth(lexs) == 0 && z.kind.Colon? && !z.broken
    ensures RunCore(pre + lexs + [z]).Some? <==> !Overdue(RunCore(pre + lexs).value.keys, z.at)
    ensures FlowDepth(Before(pre, lexs[0]).tokens) == 0 ==> RunCore(pre + lexs + [z]).Some?
    ensures RunCore(pre + lexs + [z]).Some? ==>
              var (a, d, x) := (Before(pre, lexs[0]), RunCore(pre + lexs + [z]).value, lexs[0]);
              var opens := FlowDepth(a.tokens) == 0 && Top(Blocks(a.tokens)) < x.at.column;
              && a.tokens + (if opens then [Token(BlockMappingStartKind, x.at)] else []) + [Token(KeyKind, x.at)]
                 + ShownAs(x.kind, x.at) <= d.tokens
              && d.tokens[|d.tokens| - 1] == Token(ValueKind, z.at) && !d.allowed
  {
    hide Laid, Placed, RunCore, Approached, Ready, Holds, Blocks, FlowDepth, Keyed, Overdue;
    var x, all := lexs[0], pre + lexs;
    PlacedSnoc(all, z);
    KeyKept(pre, lexs, z.at);
    FirstStarts(lexs, z.at);
    RunSnoc(all, z);
    var c, a := RunCore(all).value, Before(pre, x);
    BeforeLaid(pre, lexs);
    OnlyOverdue(c, z);
    if a.flow == 0 {
      NotOverdue(c, a.tokens + ShownAs(x.kind, x.at), a.indent == x.at.column, x.at, z.at);
    }
    if Approached(c, z).Some? {
      RunLaid(all);
      var base, required := a.tokens + ShownAs(x.kind, x.at), a.flow == 0 && a.indent == x.at.column;
      HoldsNext(c, Behind(all), z, a.flow, base, required, x.at);
      HeldKeyed(Approached(c, z).value, a, base, required, x, z.at);
    }
  }

  lemma NotOverdue(c: Core, base: seq<Token>, required: bool, start: Mark, at: Mark)
    requires Holds(c, 0, base, required, start) && c.flow == 0 && Near(start, at)
    ensures !Overdue(c.keys, at)
  {}

  lemma FirstStarts(lexs: seq<Lexeme>, at: Mark)
    requires OneKey(lexs, at)
    ensures Starter(lexs[0].kind)
  {
    assert lexs[..0] == [];
  }

  lemma OnlyOverdue(c: Core, z: Lexeme)
    ensures Approached(c, z).None? <==> Overdue(c.keys, z.at)
  {}

  lemma BeforeLaid(pre: seq<Lexeme>, lexs: seq<Lexeme>)
    requires Placed(pre + lexs) && lexs != [] && MayStartAt(pre, lexs[0])
    ensures var a := Before(pre, lexs[0]);
            a.flow == FlowDepth(a.tokens) && a.indent == Top(Blocks(a.tokens)) && Ready(a, lexs[0].at)
  {
    hide Laid, Placed, Approached, RunCore, FlowDepth, Blocks;
    PlacedPrefix(pre + lexs, |pre| + 1);
    assert (pre + lexs)[..|pre| + 1] == pre + [lexs[0]];
    PlacedSnoc(pre, lexs[0]);
    RunLaid(pre);
    ApproachedReady(RunCore(pre).value, Behind(pre), lexs[0]);
    LaidFramed(Before(pre, lexs[0]), lexs[0].at);
  }

  /** The key that is held becomes one. */
  lemma HeldKeyed(c: Core, a: Core, base: seq<Token>, required: bool, x: Lexeme, at: Mark)
    requires Holds(c, a.flow, base, required, x.at) && c.flow == a.flow && c.indent == a.indent
    requires base == a.tokens + ShownAs(x.kind, x.at) && Starter(x.kind)
    ensures Valued(c, at).Some?
    ensures var d := Valued(c, at).value;
            var opens := a.flow == 0 && a.indent < x.at.column;
            && a.tokens + (if opens then [Token(BlockMappingStartKind, x.at)] else []) + [Token(KeyKind, x.at)]
               + ShownAs(x.kind, x.at) <= d.tokens
            && d.tokens[|d.tokens| - 1] == Token(ValueKind, at) && !d.allowed
  {
    assert |ShownAs(x.kind, x.at)| == 1;
    var n := |a.tokens|;
    assert c.keys[c.flow].number == n && c.tokens[..n] == a.tokens && c.tokens[n..n + 1] == ShownAs(x.kind, x.at);
    assert c.tokens[n..] == ShownAs(x.kind, x.at) + c.tokens[n + 1..];
  }

  /** A text at the column of its block has to be a key: nothing else may follow it on its line, and no text may
      come behind its line, or behind its 1024 characters, before its colon. */
  lemma MustBeKey(pre: seq<Lexeme>, lexs: seq<Lexeme>, z: Lexeme)
    requires lexs != [] && Placed(pre + lexs + [z]) && RunCore(pre + lexs).Some? && OneKey(lexs, lexs[0].at)
    requires MayStartAt(pre, lexs[0]) && FlowDepth(Before(pre, lexs[0]).tokens) == 0
    requires Top(Blocks(Before(pre, lexs[0]).tokens)) == lexs[0].at.column
    requires || !Near(lexs[0].at, z.at)
             || (Depth(lexs) == 0 && !z.broken && !z.kind.Colon? && !Starter(z.kind) && !z.kind.PlainScalar?)
    ensures RunCore(pre + lexs + [z]).None?
  {
    hide Laid, Placed, RunCore, Approached, Ready, Holds, Blocks, FlowDepth, Overdue, ReadOn;
    var x, all := lexs[0], pre + lexs;
    PlacedSnoc(all, z);
    KeyKept(pre, lexs, x.at);
    FirstStarts(lexs, x.at);
    RunSnoc(all, z);
    BeforeLaid(pre, lexs);
    RunLaid(all);
    var c, a := RunCore(all).value, Before(pre, x);
    var base := a.tokens + ShownAs(x.kind, x.at);
    OnlyOverdue(c, z);
    if !Near(x.at, z.at) {
      FallenBehind(c, Behind(all), base, x.at, z.at);
    } else if Approached(c, z).Some? {
      HoldsNext(c, Behind(all), z, 0, base, true, x.at);
      NothingElse(Approached(c, z).value, base, x.at, z);
    }
  }

  lemma FallenBehind(c: Core, mark: Mark, base: seq<Token>, start: Mark, at: Mark)
    requires Holds(c, 0, base, true, start) && Laid(c, mark) && NotBefore(mark, at) && !Near(start, at)
    ensures Overdue(c.keys, at)
  {
    hide PlainFrom, TokensFit, StartsFit, Blocks, FlowDepth, KeysIncrease;
    assert KeyStands(c, 0, mark);
    assert Stale(c.keys[0], at);
  }

  lemma NothingElse(c: Core, base: seq<Token>, start: Mark, z: Lexeme)
    requires Holds(c, 0, base, true, start) && c.flow == 0
    requires !z.kind.Colon? && !Starter(z.kind) && !z.kind.PlainScalar?
    ensures ReadOn(c, z).None?
  {
    UnrolledRest(c, -1, z.at);
    UnrolledRest(c, -1, AtLineStart(z.at));
    UnrolledDue(c, z.at);
    hide Unrolled;
  }

  lemma UnrolledDue(c: Core, at: Mark)
    ensures Due(Unrolled(c, -1, at)) <==> Due(c)
  {
    UnrolledRest(c, -1, at);
  }

  /** A key may start at the beginning, where the lexeme before allows it, and behind a line break outside flow
      collections. */
  lemma MayStartExactly(pre: seq<Lexeme>, x: Lexeme)
    requires Placed(pre) && RunCore(pre).Some?
    ensures pre == [] ==> MayStartAt(pre, x)
    ensures Approached(RunCore(pre).value, x).Some? ==>
              var c := RunCore(pre).value;
              MayStartAt(pre, x) <==> c.allowed || (x.broken && FlowDepth(c.tokens) == 0)
  {
    hide Placed, FlowDepth, Laid, Stale;
    RunLaid(pre);
    var c := RunCore(pre).value;
    LaidFramed(c, Behind(pre));
    UnrolledAllowed(c.(keys := Freshen(c.keys, x.at), allowed := c.allowed || (x.broken && c.flow == 0)), x);
    if pre == [] { NoneOverdue(x.at); }
  }

  lemma UnrolledAllowed(c: Core, x: Lexeme)
    ensures Unrolled(c, x.at.column, x.at).allowed == c.allowed
    decreases |c.indents|
  {}

  lemma NoneOverdue(at: Mark)
    ensures !Overdue(CORE_START.keys, at)
  {}

  /** Behind which lexemes a key may start. */
  lemma AllowedExactly(lexs: seq<Lexeme>, x: Lexeme)
    requires Placed(lexs + [x]) && RunCore(lexs + [x]).Some?
    ensures RunCore(lexs).Some? && Approached(RunCore(lexs).value, x).Some?
    ensures var (a, d) := (Before(lexs, x), RunCore(lexs + [x]).value);
            d.allowed <==>
              match x.kind
              case FlowOpen => true
              case FlowComma => true
              case Dash => true
              case BlockScalar => true
              case PlainScalar(wrapped) => wrapped
              case Question => FlowDepth(d.tokens) == 0
              case Colon => FlowDepth(d.tokens) == 0 && a.tokens <= d.tokens
              case _ => false
  {
    hide Laid, Placed, RunCore, Approached, Ready, FlowDepth, ReadOn;
    PlacedSnoc(lexs, x);
    RunSnoc(lexs, x);
    RunLaid(lexs);
    ApproachedReady(RunCore(lexs).value, Behind(lexs), x);
    var a := Before(lexs, x);
    RunLaid(lexs + [x]);
    LaidFramed(RunCore(lexs + [x]).value, Behind(lexs + [x]));
    ReadAllowed(a, x);
  }

  lemma ReadAllowed(a: Core, x: Lexeme)
    requires Ready(a, x.at) && ReadOn(a, x).Some?
    ensures var d := ReadOn(a, x).value;
            d.allowed <==>
              match x.kind
              case FlowOpen => true
              case FlowComma => true
              case Dash => true
              case BlockScalar => true
              case PlainScalar(wrapped) => wrapped
              case Question => d.flow == 0
              case Colon => d.flow == 0 && a.tokens <= d.tokens
              case _ => false
  {
    hide Laid, Valued, Unrolled;
    if x.kind.Colon? { ValuedAllowed(a, x.at); }
  }

  lemma ValuedAllowed(a: Core, at: Mark)
    requires Ready(a, at) && Valued(a, at).Some?
    ensures var d := Valued(a, at).value; d.allowed <==> d.flow == 0 && a.tokens <= d.tokens
  {
    hide PlainFrom, TokensFit, StartsFit, Blocks, FlowDepth, KeysIncrease;
    var k := a.keys[a.flow];
    assert KeyStands(a, a.flow, at);
    if k.possible {
      assert !MayStartKey(Valued(a, at).value.tokens[k.number]);
    }
  }

  /** Some key is possible at the current level. */
  predicate Waiting(c: Core) { c.flow < |c.keys| && c.keys[c.flow].possible }

  /** What is refused: a lexeme that cannot be read, an indicator of a block collection where no key may
      start, a colon there without a key, and whatever breaks off a key that has to come. */
  lemma LexemeRefused(lexs: seq<Lexeme>, x: Lexeme)
    requires RunCore(lexs).Some? && Approached(RunCore(lexs).value, x).Some?
    ensures var a := Before(lexs, x);
            RunCore(lexs + [x]).None? <==>
              match x.kind
              case Unknown => true
              case Colon => a.flow == 0 && !Waiting(a) && !a.allowed
              case Dash => (a.flow == 0 && !a.allowed) || Due(a)
              case Question => (a.flow == 0 && !a.allowed) || Due(a)
              case EndOfStream => Due(a)
              case DocumentIndicator(_) => Due(a)
              case FlowClose => Due(a)
              case FlowComma => Due(a)
              case FlowOpen => a.allowed && Due(a)
              case Directive => !x.sound || Due(a)
              case BlockScalar => !x.sound || Due(a)
              case _ => !x.sound || (a.allowed && Due(a))
  {
    hide RunCore, Approached, Unrolled;
    RunSnoc(lexs, x);
    UnrolledDue(Before(lexs, x), x.at);
    UnrolledDue(Before(lexs, x), AtLineStart(x.at));
  }
}
