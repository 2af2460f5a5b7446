/**
 The scanner's token queue, its possible simple keys and its indentation stack.

 What the characters of a token spell is left to the input: a lexeme says which kind of token comes
 next, where it starts and ends, and whether reading it succeeds.  The queue is a sequence here; the
 compacting array behind it is `TokenQueue`.
 */
module YamlScanner {
  import opened Options

  datatype Mark = Mark(index: int, line: int, column: nat)

  datatype Kind =
    | StreamStartKind | StreamEndKind | DirectiveKind | DocumentStartKind | DocumentEndKind
    | BlockSequenceStartKind | BlockMappingStartKind | BlockEndKind
    | FlowStartKind | FlowEndKind | BlockEntryKind | FlowEntryKind | KeyKind | ValueKind
    | AnchorKind | TagKind | ScalarKind

  datatype Token = Token(kind: Kind, start: Mark)

  /** Inserts before position `pos`; a negative position appends. */
  function InsertAt<T>(s: seq<T>, pos: int, t: T): seq<T>
    requires pos <= |s|
  {
    if pos < 0 then s + [t] else s[..pos] + [t] + s[pos..]
  }

  /** The growing slice of tokens, of which those before `head` have been consumed. */
  class TokenQueue {
    var tokens: array<Token>
    var length: nat
    var head: nat

    ghost predicate Valid()
      reads this
    {
      head <= length <= tokens.Length
    }

    ghost function Contents(): seq<Token>
      requires Valid()
      reads this, tokens
    {
      tokens[head..length]
    }

    constructor ()
      ensures Valid() && Contents() == [] && fresh(tokens)
    {
      tokens := new Token[0];
      length, head := 0, 0;
    }

    /** Moves the unconsumed tokens to the front of a full slice. */
    method Compact()
      requires Valid()
      modifies this, tokens
      ensures Valid() && Contents() == old(Contents()) && tokens == old(tokens)
      ensures head == 0 || length < tokens.Length
    {
      if head > 0 && length == tokens.Length {
        forall i | 0 <= i < length - head {
          tokens[i] := tokens[head + i];
        }
        length, head := length - head, 0;
      }
    }

    /** Appends, reallocating a slice that has no room. */
    method Append(token: Token)
      requires Valid()
      modifies this, tokens
      ensures Valid() && Contents() == old(Contents()) + [token] && head == old(head)
      ensures tokens == old(tokens) || fresh(tokens)
    {
      if length == tokens.Length {
        var larger := new Token[2 * length + 1](i requires 0 <= i < 2 * length + 1 reads this, tokens =>
          if i < tokens.Length then tokens[i] else token);
        assert larger[..length] == tokens[..length];
        assert larger[head..length] == tokens[head..length];
        tokens := larger;
      }
      tokens[length] := token;
      length := length + 1;
    }

    /** Moves the tokens from `at` on by one place, and the last of them there. */
    method Shift(at: nat)
      requires Valid() && at < length
      modifies tokens
      ensures forall i | 0 <= i < at :: tokens[i] == old(tokens[i])
      ensures tokens[at] == old(tokens[length - 1])
      ensures forall i | at < i < length :: tokens[i] == old(tokens[i - 1])
    {
      var token := tokens[length - 1];
      forall i | at < i < length {
        tokens[i] := tokens[i - 1];
      }
      tokens[at] := token;
    }

    /** Opens a place for the last token further to the front. */
    method MoveLast(pos: nat)
      requires Valid() && pos < |Contents()|
      modifies tokens
      ensures var was := old(Contents());
              var n := |was| - 1;
              Contents() == was[..pos] + [was[n]] + was[pos..n]
    {
      ghost var all := tokens[..];
      Shift(head + pos);
      ghost var now := tokens[..];
      assert all[head..length] == old(Contents()) && now[head..length] == Contents();
      ShiftedOnce(all, now, head, pos, length);
    }

    /** The compacting queue behaves like insertion into a sequence. */
    method Insert(pos: int, token: Token)
      requires Valid() && pos <= |Contents()|
      modifies this, tokens
      ensures Valid() && Contents() == InsertAt(old(Contents()), pos, token)
      ensures tokens == old(tokens) || fresh(tokens)
    {
      ghost var before := Contents();
      Compact();
      Append(token);
      if pos < 0 { return; }
      MoveLast(pos);
      assert (before + [token])[..pos] == before[..pos];
      assert (before + [token])[pos..|before|] == before[pos..];
    }

    /** Consumes the token at the head. */
    method Take() returns (token: Token)
      requires Valid() && Contents() != []
      modifies this`head
      ensures Valid() && token == old(Contents())[0] && Contents() == old(Contents())[1..]
    {
      token := tokens[head];
      head := head + 1;
    }
  }

  lemma ShiftedOnce(all: seq<Token>, now: seq<Token>, head: nat, pos: nat, length: nat)
    requires head + pos < length <= |all| == |now|
    requires forall i | 0 <= i < head + pos :: now[i] == all[i]
    requires now[head + pos] == all[length - 1]
    requires forall i | head + pos < i < length :: now[i] == all[i - 1]
    ensures var was := all[head..length];
            var n := |was| - 1;
            now[head..length] == was[..pos] + [was[n]] + was[pos..n]
  {}

  // ---------------------------------------------------------------------------------------------
  // Possible simple keys

  datatype SimpleKey = SimpleKey(possible: bool, required: bool, number: int, mark: Mark)

  const NO_KEY := SimpleKey(false, false, 0, Mark(0, 0, 0))

  /** Every possible key names a token of the queue, and the one that started it; a key saved for
      the token about to be appended at `mark` names the place behind the queue. */
  predicate KeysPending(keys: seq<SimpleKey>, parsed: int, queue: seq<Token>, mark: Mark) {
    forall i | 0 <= i < |keys| && keys[i].possible ::
      && parsed <= keys[i].number <= parsed + |queue|
      && keys[i].mark == (if keys[i].number < parsed + |queue| then queue[keys[i].number - parsed].start else mark)
  }

  predicate KeysFit(keys: seq<SimpleKey>, parsed: int, queue: seq<Token>) {
    forall i | 0 <= i < |keys| && keys[i].possible ::
      && parsed <= keys[i].number < parsed + |queue|
      && keys[i].mark == queue[keys[i].number - parsed].start
  }

  predicate KeysIncrease(keys: seq<SimpleKey>) {
    forall i, j | 0 <= i < j < |keys| && keys[i].possible && keys[j].possible :: keys[i].number < keys[j].number
  }

  /** Only a key of the block context can be required. */
  predicate OnlyBlockRequired(keys: seq<SimpleKey>) {
    forall i | 0 < i < |keys| && keys[i].possible :: !keys[i].required
  }

  predicate Stale(k: SimpleKey, mark: Mark) {
    k.possible && (k.mark.line < mark.line || k.mark.index + 1024 < mark.index)
  }

  function Freshened(k: SimpleKey, mark: Mark): SimpleKey {
    if Stale(k, mark) then k.(possible := false) else k
  }

  // ---------------------------------------------------------------------------------------------
  // Indentation

  /** The open levels increase strictly from -1. */
  predicate Rising(indents: seq<int>, indent: int) {
    var levels := indents + [indent];
    levels[0] == -1 && forall i, j | 0 <= i < j < |levels| :: levels[i] < levels[j]
  }

  function Weight(t: Token): int {
    if t.kind == BlockSequenceStartKind || t.kind == BlockMappingStartKind then 1
    else if t.kind == BlockEndKind then -1
    else 0
  }

  /** Block starts minus block ends. */
  function Balance(ts: seq<Token>): int {
    if ts == [] then 0 else Balance(ts[..|ts| - 1]) + Weight(ts[|ts| - 1])
  }

  /** No prefix ends more blocks than it started. */
  predicate NeverNegative(ts: seq<Token>) {
    forall k | 0 <= k <= |ts| :: Balance(ts[..k]) >= 0
  }

  /** A token's effect on the number of open flow collections; an end outside all of them has none. */
  function FlowStep(depth: nat, kind: Kind): nat {
    if kind == FlowStartKind then depth + 1
    else if kind == FlowEndKind && depth > 0 then depth - 1
    else depth
  }

  /** The number of flow collections that are open behind the tokens. */
  function FlowDepth(ts: seq<Token>): nat {
    if ts == [] then 0 else FlowStep(FlowDepth(ts[..|ts| - 1]), ts[|ts| - 1].kind)
  }

  predicate InFlow(kind: Kind) {
    kind == FlowStartKind || kind == FlowEndKind
  }

  /** The queue, with a token behind it if that opens a block. */
  function WithBlock(q: seq<Token>, opens: bool, t: Token): seq<Token> {
    if opens then q + [t] else q
  }

  /** The start of the next line, from the middle of one. */
  function AtLineStart(m: Mark): Mark {
    if m.column != 0 then Mark(m.index, m.line + 1, 0) else m
  }

  /** Tokens that stand in the input themselves.  The others mark the structure: block starts and
      ends, and keys, of which only some are written down. */
  predicate IsVisible(t: Token) {
    && t.kind != BlockSequenceStartKind && t.kind != BlockMappingStartKind && t.kind != BlockEndKind
    && t.kind != KeyKind
  }

  function Visible(ts: seq<Token>): seq<Token> {
    if ts == [] then []
    else
      var (rest, last) := (Visible(ts[..|ts| - 1]), ts[|ts| - 1]);
      if IsVisible(last) then rest + [last] else rest
  }

  lemma VisibleSnoc(ts: seq<Token>, t: Token)
    ensures Visible(ts + [t]) == if IsVisible(t) then Visible(ts) + [t] else Visible(ts)
  {
    assert (ts + [t])[..|ts|] == ts;
  }

  lemma {:induction false} VisibleConcat(a: seq<Token>, b: seq<Token>)
    ensures Visible(a + b) == Visible(a) + Visible(b)
  {
    if b == [] {
      assert a + b == a;
    } else {
      var k := |b| - 1;
      VisibleConcat(a, b[..k]);
      assert (a + b)[..|a| + k] == a + b[..k];
    }
  }

  /** BLOCK-ENDs do not show. */
  lemma {:induction false} VisibleEnds(before: seq<Token>, after: seq<Token>, mark: Mark)
    requires before <= after && forall i | |before| <= i < |after| :: after[i] == Token(BlockEndKind, mark)
    ensures Visible(after) == Visible(before)
    decreases |after|
  {
    if |before| < |after| {
      VisibleEnds(before, after[..|after| - 1], mark);
    } else {
      assert before == after;
    }
  }

  /** The input never comes back from its end. */
  predicate EofSticky(input: seq<Lexeme>) {
    forall i, j | 0 <= i < j < |input| :: input[i].kind.EndOfStream? ==> input[j].kind.EndOfStream?
  }

  predicate EndsLast(ts: seq<Token>) {
    forall i, j | 0 <= i < j < |ts| :: ts[i].kind == StreamEndKind ==> ts[j].kind == StreamEndKind
  }

  predicate NoEnds(ts: seq<Token>) {
    forall i | 0 <= i < |ts| :: ts[i].kind != StreamEndKind
  }

  lemma {:induction false} BalanceConcat(a: seq<Token>, b: seq<Token>)
    ensures Balance(a + b) == Balance(a) + Balance(b)
  {
    if b == [] {
      assert a + b == a;
    } else {
      var k := |b| - 1;
      BalanceConcat(a, b[..k]);
      assert (a + b)[..|a| + k] == a + b[..k];
    }
  }

  lemma {:induction false} BalanceOne(t: Token)
    ensures Balance([t]) == Weight(t)
  {
    assert [t][..0] == [];
  }

  lemma {:induction false} BalanceInsert(a: seq<Token>, t: Token, b: seq<Token>)
    ensures Balance(a + [t] + b) == Balance(a + b) + Weight(t)
  {
    hide Balance;
    BalanceConcat(a + [t], b);
    BalanceConcat(a, [t]);
    BalanceConcat(a, b);
    BalanceOne(t);
  }

  lemma {:induction false} FlowDepthInsert(a: seq<Token>, t: Token, b: seq<Token>)
    requires !InFlow(t.kind)
    ensures FlowDepth(a + [t] + b) == FlowDepth(a + b)
  {
    if b == [] {
      assert a + b == a && a + [t] + b == a + [t];
      assert (a + [t])[..|a|] == a;
    } else {
      var k := |b| - 1;
      FlowDepthInsert(a, t, b[..k]);
      assert (a + b)[..|a| + k] == a + b[..k];
      assert (a + [t] + b)[..|a| + 1 + k] == a + [t] + b[..k];
    }
  }

  /** Inserting a token that starts a block, or appending one that keeps the balance, is safe. */
  lemma {:induction false} NeverNegativeInsert(a: seq<Token>, t: Token, b: seq<Token>)
    requires NeverNegative(a + b)
    requires Weight(t) >= 0 || (b == [] && Balance(a + b) > 0)
    ensures NeverNegative(a + [t] + b)
  {
    hide Balance;
    var all := a + [t] + b;
    var old_ := a + b;
    forall k | 0 <= k <= |all| ensures Balance(all[..k]) >= 0 {
      if k <= |a| {
        assert all[..k] == old_[..k];
        assert Balance(old_[..k]) >= 0;
      } else {
        var b' := b[..k - |a| - 1];
        assert all[..k] == a + [t] + b';
        BalanceInsert(a, t, b');
        assert old_[..k - 1] == a + b';
        assert Balance(old_[..k - 1]) >= 0;
        if b == [] { assert a + b' == a + b; }
      }
    }
  }

  // ---------------------------------------------------------------------------------------------
  // Appending and inserting tokens

  lemma {:induction false} AppendKeepsKeys(keys: seq<SimpleKey>, parsed: int, queue: seq<Token>, t: Token)
    requires KeysPending(keys, parsed, queue, t.start)
    ensures KeysFit(keys, parsed, queue + [t])
  {
    forall i | 0 <= i < |keys| && keys[i].possible
      ensures parsed <= keys[i].number < parsed + |queue + [t]|
              && keys[i].mark == (queue + [t])[keys[i].number - parsed].start
    {}
  }

  lemma FitIsPending(keys: seq<SimpleKey>, parsed: int, queue: seq<Token>, mark: Mark)
    requires KeysFit(keys, parsed, queue)
    ensures KeysPending(keys, parsed, queue, mark)
  {}

  /** Keys that name tokens before the insertion point are not disturbed, and a key that names the
      token there may as well name the new one, if that starts at the same place. */
  lemma {:induction false} InsertKeepsKeys(keys: seq<SimpleKey>, parsed: int, queue: seq<Token>, pos: nat, t: Token)
    requires KeysFit(keys, parsed, queue) && pos <= |queue| && KeysUpTo(keys, parsed + pos, t.start)
    ensures KeysFit(keys, parsed, InsertAt(queue, pos, t))
  {
    var longer := InsertAt(queue, pos, t);
    forall i | 0 <= i < |keys| && keys[i].possible
      ensures parsed <= keys[i].number < parsed + |longer| && keys[i].mark == longer[keys[i].number - parsed].start
    {
      if keys[i].number - parsed < pos {
        assert longer[keys[i].number - parsed] == queue[keys[i].number - parsed];
      }
    }
  }

  predicate KeysUpTo(keys: seq<SimpleKey>, number: int, start: Mark) {
    forall i | 0 <= i < |keys| && keys[i].possible ::
      keys[i].number <= number && (keys[i].number == number ==> keys[i].mark == start)
  }

  lemma {:induction false} RisingPush(indents: seq<int>, indent: int, column: int)
    requires Rising(indents, indent) && indent < column
    ensures Rising(indents + [indent], column)
  {
    var levels := indents + [indent];
    var more := levels + [column];
    forall i, j | 0 <= i < j < |more| ensures more[i] < more[j] {
      assert i < |levels| && more[i] == levels[i];
      assert levels[i] <= levels[|levels| - 1] == indent;
      if j < |levels| { assert more[j] == levels[j]; }
    }
    assert more[0] == levels[0];
  }

  lemma {:induction false} RisingPop(indents: seq<int>, indent: int)
    requires Rising(indents, indent) && indent > -1
    ensures indents != [] && Rising(indents[..|indents| - 1], indents[|indents| - 1])
  {
    var levels := indents + [indent];
    assert levels[0] == -1 && levels[|indents|] == indent;
    var k := |indents| - 1;
    var fewer := indents[..k] + [indents[k]];
    forall i, j | 0 <= i < j < |fewer| ensures fewer[i] < fewer[j] {
      assert fewer[i] == levels[i] && fewer[j] == levels[j];
    }
    assert fewer[0] == levels[0];
  }

  lemma {:induction false} AllInsert(consumed: seq<Token>, queue: seq<Token>, pos: nat, t: Token)
    requires pos <= |queue| && NeverNegative(consumed + queue) && Weight(t) >= 0 && !InFlow(t.kind)
    ensures FlowDepth(consumed + InsertAt(queue, pos, t)) == FlowDepth(consumed + queue)
    ensures NeverNegative(consumed + InsertAt(queue, pos, t))
    ensures Balance(consumed + InsertAt(queue, pos, t)) == Balance(consumed + queue) + Weight(t)
  {
    hide Balance, NeverNegative, FlowDepth;
    var a := consumed + queue[..pos];
    var b := queue[pos..];
    assert a + b == consumed + queue;
    assert a + [t] + b == consumed + InsertAt(queue, pos, t);
    NeverNegativeInsert(a, t, b);
    BalanceInsert(a, t, b);
    FlowDepthInsert(a, t, b);
  }

  lemma {:induction false} AllAppend(consumed: seq<Token>, queue: seq<Token>, t: Token)
    requires NeverNegative(consumed + queue) && (Weight(t) >= 0 || Balance(consumed + queue) > 0)
    ensures NeverNegative(consumed + (queue + [t]))
    ensures FlowDepth(consumed + (queue + [t])) == FlowStep(FlowDepth(consumed + queue), t.kind)
    ensures Balance(consumed + (queue + [t])) == Balance(consumed + queue) + Weight(t)
  {
    hide Balance, NeverNegative;
    var a := consumed + queue;
    assert a + [] == a;
    NeverNegativeInsert(a, t, []);
    BalanceInsert(a, t, []);
    assert a + [t] + [] == consumed + (queue + [t]);
    assert (a + [t])[..|a|] == a && a + [t] == consumed + (queue + [t]);
  }

  // ---------------------------------------------------------------------------------------------
  // The scanner

  datatype LexKind =
    | EndOfStream | Directive | DocumentIndicator(starts: bool) | FlowOpen | FlowClose | FlowComma
    | Dash | Question | Colon | AnchorOrAlias | TagLexeme | BlockScalar | FlowScalar | PlainScalar(wrapped: bool)
    | Unknown
  {
    /** A plain scalar has read the line break behind it. */
    predicate Wraps() { PlainScalar? && wrapped }
  }

  /** The next token of the input.  `broken` says that a line break precedes it, `at` and `end` are
      the positions before and behind it, and `sound` that its characters can be read. */
  datatype Lexeme = Lexeme(broken: bool, at: Mark, kind: LexKind, end: Mark, sound: bool)

  /** What a lexeme shows of itself among the tokens. */
  function ShownAs(kind: LexKind, at: Mark): seq<Token> {
    match kind
    case EndOfStream => [Token(StreamEndKind, AtLineStart(at))]
    case Directive => [Token(DirectiveKind, at)]
    case DocumentIndicator(starts) => [Token(if starts then DocumentStartKind else DocumentEndKind, at)]
    case FlowOpen => [Token(FlowStartKind, at)]
    case FlowClose => [Token(FlowEndKind, at)]
    case FlowComma => [Token(FlowEntryKind, at)]
    case Dash => [Token(BlockEntryKind, at)]
    case Question => []
    case Colon => [Token(ValueKind, at)]
    case AnchorOrAlias => [Token(AnchorKind, at)]
    case TagLexeme => [Token(TagKind, at)]
    case BlockScalar => [Token(ScalarKind, at)]
    case FlowScalar => [Token(ScalarKind, at)]
    case PlainScalar(_) => [Token(ScalarKind, at)]
    case Unknown => []
  }

  function AllShown(lexemes: seq<Lexeme>): seq<Token> {
    if lexemes == [] then []
    else
      var last := lexemes[|lexemes| - 1];
      AllShown(lexemes[..|lexemes| - 1]) + ShownAs(last.kind, last.at)
  }

  /** The lexemes up to the first end of the input, with that. */
  function UpToEnd(lexemes: seq<Lexeme>): seq<Lexeme> {
    if lexemes == [] then []
    else [lexemes[0]] + if lexemes[0].kind.EndOfStream? then [] else UpToEnd(lexemes[1..])
  }

  // ---------------------------------------------------------------------------------------------
  // What a lexeme does, on values

  /** All the tokens so far, with those that the parser has taken, and what decides on the next ones. */
  datatype Core = Core(
    tokens: seq<Token>, keys: seq<SimpleKey>, indent: int, indents: seq<int>, flow: nat, allowed: bool)

  function Freshen(keys: seq<SimpleKey>, mark: Mark): seq<SimpleKey> {
    seq(|keys|, i requires 0 <= i < |keys| => Freshened(keys[i], mark))
  }

  /** A key that had to come has fallen behind. */
  predicate Overdue(keys: seq<SimpleKey>, mark: Mark) {
    exists i | 0 <= i < |keys| :: Stale(keys[i], mark) && keys[i].required
  }

  /** One BLOCK-END for each block that is indented further than the column, outside flow collections. */
  function Unrolled(c: Core, column: int, mark: Mark): Core
    decreases |c.indents|
  {
    if c.flow > 0 || c.indent <= column || c.indents == [] then c
    else
      var k := |c.indents| - 1;
      Unrolled(c.(tokens := c.tokens + [Token(BlockEndKind, mark)], indent := c.indents[k], indents := c.indents[..k]),
               column, mark)
  }

  predicate Due(c: Core) {
    c.flow < |c.keys| && c.keys[c.flow].possible && c.keys[c.flow].required
  }

  function Dropped(c: Core): Option<Core> {
    if Due(c) then None
    else if c.flow < |c.keys| then Some(c.(keys := c.keys[c.flow := c.keys[c.flow].(possible := false)]))
    else Some(c)
  }

  function Saved(c: Core, mark: Mark): Option<Core> {
    if !c.allowed then Some(c)
    else if Due(c) then None
    else if c.flow < |c.keys| then
      Some(c.(keys := c.keys[c.flow := SimpleKey(true, c.flow == 0 && c.indent == mark.column, |c.tokens|, mark)]))
    else Some(c)
  }

  function Rolled(c: Core, kind: Kind, mark: Mark): Core {
    if c.flow == 0 && c.indent < mark.column then
      c.(tokens := c.tokens + [Token(kind, mark)], indents := c.indents + [c.indent], indent := mark.column)
    else c
  }

  function Shown(c: Core, kind: Kind, mark: Mark): Core {
    c.(tokens := c.tokens + [Token(kind, mark)])
  }

  /** Before the lexeme: old keys are dropped, a line break allows a key outside flow collections, and the
      blocks that the lexeme is not indented enough for are left. */
  function Approached(c: Core, lex: Lexeme): Option<Core> {
    if Overdue(c.keys, lex.at) then None
    else
      var allowed := c.allowed || (lex.broken && c.flow == 0);
      Some(Unrolled(c.(keys := Freshen(c.keys, lex.at), allowed := allowed), lex.at.column, lex.at))
  }

  /** Every block is left. */
  function Left(c: Core, mark: Mark): Option<Core> {
    match Dropped(Unrolled(c, -1, mark))
    case None => None
    case Some(d) => Some(d.(allowed := false))
  }

  function AtMargin(c: Core, kind: Kind, mark: Mark): Option<Core> {
    match Left(c, mark)
    case None => None
    case Some(d) => Some(Shown(d, kind, mark))
  }

  function Opened(c: Core, mark: Mark): Option<Core> {
    match Saved(c, mark)
    case None => None
    case Some(d) => Some(Shown(d.(keys := d.keys + [NO_KEY], flow := d.flow + 1, allowed := true), FlowStartKind, mark))
  }

  function Closed(c: Core, mark: Mark): Option<Core> {
    match Dropped(c)
    case None => None
    case Some(d) =>
      var e := if d.flow > 0 && d.keys != [] then d.(flow := d.flow - 1, keys := d.keys[..|d.keys| - 1]) else d;
      Some(Shown(e.(allowed := false), FlowEndKind, mark))
  }

  /** A token that ends a possible key, behind which another one may or may not follow. */
  function Ended(c: Core, kind: Kind, mark: Mark, allowed: bool): Option<Core> {
    match Dropped(c)
    case None => None
    case Some(d) => Some(Shown(d.(allowed := allowed), kind, mark))
  }

  /** An indicator of a block collection. */
  function Indicated(c: Core, start: Kind, kind: Kind, mark: Mark, allowed: bool): Option<Core> {
    if c.flow == 0 && !c.allowed then None else Ended(Rolled(c, start, mark), kind, mark, allowed)
  }

  /** A key that has been possible becomes one. */
  function Keyed(c: Core): Core
    requires c.flow < |c.keys|
  {
    var key := c.keys[c.flow];
    var opens := c.flow == 0 && c.indent < key.mark.column;
    var p := if 0 <= key.number <= |c.tokens| then key.number else |c.tokens|;
    c.(tokens := KeyInserted(c.tokens, p, key.mark, opens),
       indents := if opens then c.indents + [c.indent] else c.indents,
       indent := if opens then key.mark.column else c.indent,
       keys := c.keys[c.flow := key.(possible := false)], allowed := false)
  }

  function Valued(c: Core, mark: Mark): Option<Core> {
    if c.flow < |c.keys| && c.keys[c.flow].possible then Some(Shown(Keyed(c), ValueKind, mark))
    else if c.flow == 0 && !c.allowed then None
    else Some(Shown(Rolled(c, BlockMappingStartKind, mark).(allowed := c.flow == 0), ValueKind, mark))
  }

  function Keyable(c: Core, kind: Kind, lex: Lexeme): Option<Core> {
    match Saved(c, lex.at)
    case None => None
    case Some(d) => if lex.sound then Some(Shown(d.(allowed := lex.kind.Wraps()), kind, lex.at)) else None
  }

  function ReadOn(c: Core, lex: Lexeme): Option<Core> {
    match lex.kind
    case EndOfStream => AtMargin(c, StreamEndKind, AtLineStart(lex.at))
    case Directive => if lex.sound then AtMargin(c, DirectiveKind, lex.at) else None
    case DocumentIndicator(starts) => AtMargin(c, if starts then DocumentStartKind else DocumentEndKind, lex.at)
    case FlowOpen => Opened(c, lex.at)
    case FlowClose => Closed(c, lex.at)
    case FlowComma => Ended(c, FlowEntryKind, lex.at, true)
    case Dash => Indicated(c, BlockSequenceStartKind, BlockEntryKind, lex.at, true)
    case Question => Indicated(c, BlockMappingStartKind, KeyKind, lex.at, c.flow == 0)
    case Colon => Valued(c, lex.at)
    case AnchorOrAlias => Keyable(c, AnchorKind, lex)
    case TagLexeme => Keyable(c, TagKind, lex)
    case BlockScalar => if lex.sound then Ended(c, ScalarKind, lex.at, true) else None
    case FlowScalar => Keyable(c, ScalarKind, lex)
    case PlainScalar(_) => Keyable(c, ScalarKind, lex)
    case Unknown => None
  }

  /** One lexeme. */
  function Fetched(c: Core, lex: Lexeme): Option<Core> {
    match Approached(c, lex)
    case None => None
    case Some(d) => ReadOn(d, lex)
  }

  const BEGINNING := Mark(0, 0, 0)
  const CORE_START := Core([Token(StreamStartKind, BEGINNING)], [NO_KEY], -1, [], 0, true)

  /** What lexemes come to. */
  function RunCore(lexs: seq<Lexeme>): Option<Core> {
    if lexs == [] then Some(CORE_START)
    else
      var k := |lexs| - 1;
      match RunCore(lexs[..k])
      case None => None
      case Some(c) => Fetched(c, lexs[k])
  }

  predicate NotBefore(a: Mark, b: Mark) {
    a.index <= b.index && a.line <= b.line && (a.line == b.line ==> a.column <= b.column)
  }

  /** Where the scanner is behind a lexeme. */
  function EndOf(lex: Lexeme): Mark {
    if lex.kind.EndOfStream? then AtLineStart(lex.at) else lex.end
  }

  /** A lexeme of some length, one behind the other; what leaves every block stands at the margin. */
  predicate Placed(input: seq<Lexeme>) {
    && (input != [] ==> NotBefore(BEGINNING, input[0].at))
    && (forall i | 0 <= i < |input| ::
          && NotBefore(input[i].at, EndOf(input[i]))
          && (!input[i].kind.EndOfStream? ==>
                input[i].at.line < input[i].end.line || input[i].at.column < input[i].end.column)
          && (input[i].kind.Directive? || input[i].kind.DocumentIndicator? ==> input[i].at.column == 0))
    && (forall i | 0 < i < |input| :: NotBefore(EndOf(input[i - 1]), input[i].at))
  }

  /** The keys that have fallen behind may have been dropped already. */
  predicate NearKeys(a: seq<SimpleKey>, b: seq<SimpleKey>, mark: Mark) {
    && |a| == |b|
    && forall i | 0 <= i < |a| ::
         b[i] == a[i] || (Stale(a[i], mark) && !a[i].required && b[i] == a[i].(possible := false))
  }

  predicate Same(c: Core, d: Core, mark: Mark) {
    d == c.(keys := d.keys) && NearKeys(c.keys, d.keys, mark)
  }

  lemma FreshenSame(a: seq<SimpleKey>, b: seq<SimpleKey>, mark: Mark, at: Mark)
    requires NearKeys(a, b, mark) && NotBefore(mark, at)
    ensures Freshen(a, at) == Freshen(b, at) && (Overdue(a, at) <==> Overdue(b, at))
  {
    forall i | 0 <= i < |a| ensures Freshened(a[i], at) == Freshened(b[i], at) {}
  }

  /** So they make no difference to the next lexeme. */
  lemma FetchedSame(c: Core, d: Core, mark: Mark, lex: Lexeme)
    requires Same(c, d, mark) && NotBefore(mark, lex.at)
    ensures Fetched(c, lex) == Fetched(d, lex)
  {
    hide ReadOn, Unrolled, Freshen, Overdue;
    FreshenSame(c.keys, d.keys, mark, lex.at);
  }

  lemma RunOn(input: seq<Lexeme>, n: nat, d: Core, mark: Mark)
    requires n < |input| && Placed(input) && RunCore(input[..n]).Some? && Same(RunCore(input[..n]).value, d, mark)
    requires mark == if n == 0 then BEGINNING else EndOf(input[n - 1])
    ensures RunCore(input[..n + 1]) == Fetched(d, input[n])
  {
    hide Fetched, NearKeys;
    assert input[..n + 1][..n] == input[..n];
    FetchedSame(RunCore(input[..n]).value, d, mark, input[n]);
  }

  lemma SameAgain(c: Core, mark: Mark)
    ensures Same(c, c, mark)
  {}

  lemma DroppedNear(a: seq<SimpleKey>, b: seq<SimpleKey>, mark: Mark)
    requires NearKeys(a, b, mark) && !Overdue(b, mark)
    ensures NearKeys(a, Freshen(b, mark), mark)
  {}

  class Scanner {
    const input: seq<Lexeme>
    var next: nat
    var queue: seq<Token>
    var parsed: nat
    var keys: seq<SimpleKey>
    var indent: int
    var indents: seq<int>
    var flowLevel: nat
    var keyAllowed: bool
    var mark: Mark
    var started: bool
    var available: bool
    var failed: bool
    ghost var consumed: seq<Token>

    /** Everything except where the possible keys are and how many flow collections are open. */
    ghost predicate Levels()
      reads this
    {
      && started && next <= |input| && parsed == |consumed|
      && |keys| == flowLevel + 1
      && Rising(indents, indent)
      && Balance(consumed + queue) == |indents|
      && NeverNegative(consumed + queue)
      && KeysIncrease(keys) && OnlyBlockRequired(keys)
    }

    /** Everything except where the possible keys are. */
    ghost predicate Framed()
      reads this
    {
      Levels() && flowLevel == FlowDepth(consumed + queue)
    }

    ghost predicate Running()
      reads this
    {
      Framed() && KeysFit(keys, parsed, queue)
    }

    ghost predicate Valid()
      reads this
    {
      && (if started then Running()
          else
            && next <= |input| && queue == [] && consumed == [] && parsed == 0 && keys == []
            && indents == [] && flowLevel == 0)
      && (available ==>
            queue != [] && started && forall i | 0 <= i < |keys| && keys[i].possible :: keys[i].number != parsed)
    }

    constructor (input: seq<Lexeme>)
      ensures Valid() && !failed && !available && !started && consumed == [] && this.input == input && next == 0
      ensures Conserved() && Agreed()
    {
      this.input, next := input, 0;
      queue, parsed, keys, indent, indents, flowLevel := [], 0, [], 0, [], 0;
      keyAllowed, mark, started, available, failed := false, BEGINNING, false, false, false;
      consumed := [];
    }

    method Fail() returns (ok: bool)
      modifies this`failed
      ensures !ok && failed
    {
      failed := true;
      return false;
    }

    ghost function Now(): Core
      reads this
    {
      Core(consumed + queue, keys, indent, indents, flowLevel, keyAllowed)
    }

    /** The outcome is that on values. */
    ghost predicate Did(ok: bool, r: Option<Core>)
      reads this
    {
      ok == r.Some? && (ok ==> Now() == r.value)
    }

    /** The current level has a possible key that has to become one. */
    ghost predicate KeyDue()
      reads this
    {
      flowLevel < |keys| && keys[flowLevel].possible && keys[flowLevel].required
    }

    /** Drops the keys that have fallen behind; it is an error if one of them is required. */
    method StaleSimpleKeys() returns (ok: bool)
      requires Running()
      modifies this`keys, this`failed
      ensures ok ==> Running() && failed == old(failed)
      ensures ok ==> forall i | 0 <= i < |keys| :: keys[i] == Freshened(old(keys)[i], mark)
      ensures ok <==> forall i | 0 <= i < |old(keys)| :: Stale(old(keys)[i], mark) ==> !old(keys)[i].required
      ensures |keys| == |old(keys)| && (!ok ==> failed)
      ensures ok <==> !Overdue(old(keys), mark)
      ensures ok ==> keys == Freshen(old(keys), mark)
    {
      hide NeverNegative, Balance, FlowDepth, Rising, KeysIncrease, OnlyBlockRequired, KeysFit;
      ghost var before := keys;
      var i := 0;
      while i < |keys|
        invariant 0 <= i <= |keys| == |old(keys)| && failed == old(failed)
        invariant forall j | 0 <= j < i :: keys[j] == Freshened(old(keys)[j], mark)
        invariant forall j | i <= j < |keys| :: keys[j] == old(keys)[j]
        invariant forall j | 0 <= j < i :: Stale(old(keys)[j], mark) ==> !old(keys)[j].required
      {
        if keys[i].possible && (keys[i].mark.line < mark.line || keys[i].mark.index + 1024 < mark.index) {
          if keys[i].required {
            ok := Fail();
            return;
          }
          keys := keys[i := keys[i].(possible := false)];
        }
        i := i + 1;
      }
      FewerKeys(before, keys, mark, parsed, queue);
      return true;
    }

    /** Drops the key of the current level; it is an error if it is required. */
    method RemoveSimpleKey() returns (ok: bool)
      requires Framed()
      modifies this`keys, this`failed
      ensures |keys| == |old(keys)|
      ensures ok <==> !old(KeyDue())
      ensures ok ==> keys == old(keys)[flowLevel := old(keys)[flowLevel].(possible := false)] && failed == old(failed)
      ensures ok ==> Framed() && (old(KeysFit(keys, parsed, queue)) ==> Running())
      ensures !ok ==> failed
      ensures Did(ok, Dropped(old(Now())))
    {
      hide NeverNegative, Balance, FlowDepth, Rising, KeysIncrease, OnlyBlockRequired, KeysFit;
      var i := |keys| - 1;
      if keys[i].possible && keys[i].required {
        ok := Fail();
        return;
      }
      StillOrdered(keys, i);
      if KeysFit(keys, parsed, queue) { WithoutKey(keys, i, parsed, queue); }
      keys := keys[i := keys[i].(possible := false)];
      return true;
    }

    /** Remembers that a simple key may start with the token about to be appended. */
    method SaveSimpleKey() returns (ok: bool)
      requires Running()
      modifies this`keys, this`failed
      ensures ok ==> Framed() && KeysPending(keys, parsed, queue, mark) && failed == old(failed)
      ensures ok ==> keys == if !keyAllowed then old(keys)
                             else
                               var required := flowLevel == 0 && indent == mark.column;
                               old(keys)[flowLevel := SimpleKey(true, required, parsed + |queue|, mark)]
      ensures ok <==> !(keyAllowed && old(KeyDue()))
      ensures !ok ==> failed
      ensures Did(ok, Saved(old(Now()), mark))
    {
      hide NeverNegative, Balance, FlowDepth, Rising, KeysIncrease, OnlyBlockRequired, KeysFit, KeysPending;
      FitIsPending(keys, parsed, queue, mark);
      var required := flowLevel == 0 && indent == mark.column;
      if keyAllowed {
        var key := SimpleKey(true, required, parsed + |queue|, mark);
        ok := RemoveSimpleKey();
        if !ok { return; }
        KeySaved(keys, parsed, queue, mark, key);
        keys := keys[|keys| - 1 := key];
      }
      return true;
    }

    /** Appends a token; a pending key becomes the key of that token. */
    method Append(kind: Kind, start: Mark)
      requires Levels() && KeysPending(keys, parsed, queue, start)
      requires Weight(Token(kind, start)) == 0 && flowLevel == FlowStep(FlowDepth(consumed + queue), kind)
      modifies this`queue
      ensures Running() && queue == old(queue) + [Token(kind, start)]
      ensures old(NoEnds(queue)) && kind != StreamEndKind ==> NoEnds(queue)
      ensures Now() == Shown(old(Now()), kind, start)
    {
      hide NeverNegative, Balance, FlowDepth, Rising, KeysIncrease;
      assert consumed + (queue + [Token(kind, start)]) == consumed + queue + [Token(kind, start)];
      AppendKeepsKeys(keys, parsed, queue, Token(kind, start));
      AllAppend(consumed, queue, Token(kind, start));
      queue := queue + [Token(kind, start)];
    }

    /** Opens a block at `column` unless one is open there already, by a token appended to the queue
        or, for a non-negative `number`, inserted before the token of that number. */
    method RollIndent(column: nat, number: int, kind: Kind, start: Mark)
      requires Running() && (kind == BlockSequenceStartKind || kind == BlockMappingStartKind)
      requires number == -1 || (parsed <= number <= parsed + |queue| && KeysUpTo(keys, number, start))
      modifies this`queue, this`indent, this`indents
      ensures Running()
      ensures if flowLevel == 0 && old(indent) < column then
                && indents == old(indents) + [old(indent)] && indent == column
                && queue == InsertAt(old(queue), if number == -1 then -1 else number - parsed, Token(kind, start))
              else indents == old(indents) && indent == old(indent) && queue == old(queue)
      ensures old(NoEnds(queue)) ==> NoEnds(queue)
      ensures number == -1 && column == start.column ==> Now() == Rolled(old(Now()), kind, start)
    {
      hide NeverNegative, Balance, FlowDepth, Rising, KeysIncrease, OnlyBlockRequired;
      if flowLevel > 0 { return; }
      if indent < column {
        var token := Token(kind, start);
        NoEndsInsert(queue, if number == -1 then -1 else number - parsed, token);
        RisingPush(indents, indent, column);
        indents := indents + [indent];
        indent := column;
        if number == -1 {
          FitIsPending(keys, parsed, queue, start);
          AppendKeepsKeys(keys, parsed, queue, token);
          AllAppend(consumed, queue, token);
          assert consumed + (queue + [token]) == consumed + queue + [token];
          queue := queue + [token];
        } else {
          InsertKeepsKeys(keys, parsed, queue, number - parsed, token);
          AllInsert(consumed, queue, number - parsed, token);
          queue := InsertAt(queue, number - parsed, token);
        }
      }
    }

    /** Closes the innermost block. */
    method CloseBlock()
      requires Running() && indent > -1
      modifies this`queue, this`indent, this`indents
      ensures Running() && queue == old(queue) + [Token(BlockEndKind, mark)]
      ensures old(indents) == indents + [indent]
      ensures forall column | column < old(indent) && flowLevel == 0 ::
                Unrolled(old(Now()), column, mark) == Unrolled(Now(), column, mark)
      ensures old(NoEnds(queue)) ==> NoEnds(queue)
    {
      hide NeverNegative, Balance, FlowDepth, Rising, KeysIncrease, OnlyBlockRequired, KeysFit, KeysPending, NoEnds,
           InsertAt;
      var token := Token(BlockEndKind, mark);
      RisingPop(indents, indent);
      FitIsPending(keys, parsed, queue, mark);
      AppendKeepsKeys(keys, parsed, queue, token);
      AllAppend(consumed, queue, token);
      NoEndsSnoc(queue, token);
      queue := queue + [token];
      assert consumed + queue == consumed + old(queue) + [token];
      indent := indents[|indents| - 1];
      indents := indents[..|indents| - 1];
    }

    /** Closes every block that is indented further than `column`. */
    method UnrollIndent(column: int)
      requires Running() && column >= -1
      modifies this`queue, this`indent, this`indents
      ensures Running() && old(queue) <= queue && indents <= old(indents)
      ensures |queue| - |old(queue)| == |old(indents)| - |indents|
      ensures forall i | |old(queue)| <= i < |queue| :: queue[i] == Token(BlockEndKind, mark)
      ensures if flowLevel > 0 then queue == old(queue) && indent == old(indent) else indent <= column
      ensures var levels := old(indents) + [old(indent)];
              && indent == levels[|indents|]
              && forall i | |indents| < i < |levels| :: levels[i] > column
      ensures old(NoEnds(queue)) ==> NoEnds(queue)
      ensures Now() == Unrolled(old(Now()), column, mark)
    {
      hide NoEnds, Running;
      if flowLevel > 0 { return; }
      ghost var levels := indents + [indent];
      while indent > column
        invariant indents <= old(indents) && indent == levels[|indents|]
        invariant forall i | |indents| < i < |levels| :: levels[i] > column
        invariant Running() && old(queue) <= queue
        invariant Unrolled(Now(), column, mark) == Unrolled(old(Now()), column, mark)
        invariant |queue| - |old(queue)| == |old(indents)| - |indents|
        invariant forall i | |old(queue)| <= i < |queue| :: queue[i] == Token(BlockEndKind, mark)
        invariant old(NoEnds(queue)) ==> NoEnds(queue)
        decreases |indents|
      {
        CloseBlock();
      }
    }

    method FetchStreamStart()
      requires Valid() && !started && !available
      modifies this`indent, this`keys, this`keyAllowed, this`started, this`queue
      ensures Running() && queue == [Token(StreamStartKind, mark)]
      ensures Now() == Core([Token(StreamStartKind, mark)], [NO_KEY], -1, [], 0, true)
    {
      hide NeverNegative, Balance, FlowDepth, Rising, KeysIncrease, OnlyBlockRequired, KeysFit, KeysPending;
      indent := -1;
      keys := keys + [NO_KEY];
      keyAllowed := true;
      started := true;
      var token := Token(StreamStartKind, mark);
      assert consumed + queue == [] && keys == [NO_KEY];
      NothingScanned();
      NoKeys(token);
      AllAppend(consumed, queue, token);
      assert queue + [token] == [token] && consumed + [token] == [token];
      queue := queue + [token];
    }

    /** What ends the stream, a document or a directive: every block is left. */
    method LeaveBlocks() returns (ok: bool)
      requires Running()
      modifies this`queue, this`indent, this`indents, this`keys, this`keyAllowed, this`failed
      ensures ok ==> Running() && failed == old(failed) && !keyAllowed && (flowLevel == 0 ==> indents == [])
      ensures ok && old(NoEnds(queue)) ==> NoEnds(queue)
      ensures ok && (flowLevel > 0 || old(indents) == []) ==> queue == old(queue)
      ensures ok ==> Visible(queue) == Visible(old(queue))
      ensures ok <==> !old(KeyDue())
      ensures !ok ==> failed
      ensures Did(ok, Left(old(Now()), mark))
    {
      hide Dropped, Unrolled;
      hide NeverNegative, Balance, FlowDepth, Rising, KeysIncrease, OnlyBlockRequired, KeysFit, KeysPending, NoEnds,
           Visible;
      ghost var before := queue;
      EmptyStack(indents, indent);
      UnrollIndent(-1);
      BottomLevel(indents, indent);
      VisibleEnds(before, queue, mark);
      ok := RemoveSimpleKey();
      if ok { keyAllowed := false; }
    }

    /** From the middle of a line to the start of the next one. */
    method NewLine()
      requires Running()
      modifies this`mark
      ensures Running() && mark == AtLineStart(old(mark))
    {
      hide NeverNegative, Balance, FlowDepth, Rising, KeysIncrease, OnlyBlockRequired, KeysFit;
      if mark.column != 0 {
        mark := Mark(mark.index, mark.line + 1, 0);
      }
    }

    /** Appends a token that stands in the input, from here to `end`. */
    method Read(kind: Kind, end: Mark)
      requires Running() && IsVisible(Token(kind, mark)) && !InFlow(kind)
      modifies this`queue, this`mark
      ensures Running() && mark == end && queue == old(queue) + [Token(kind, old(mark))]
      ensures old(NoEnds(queue)) && kind != StreamEndKind ==> NoEnds(queue)
      ensures Visible(queue) == Visible(old(queue)) + [Token(kind, old(mark))]
      ensures Now() == Shown(old(Now()), kind, old(mark))
    {
      hide NeverNegative, Balance, FlowDepth, Rising, KeysIncrease, OnlyBlockRequired, KeysFit, KeysPending, NoEnds,
           Visible;
      FitIsPending(keys, parsed, queue, mark);
      VisibleSnoc(queue, Token(kind, mark));
      Append(kind, mark);
      mark := end;
    }

    lemma AllClosed()
      requires Running() && indents == []
      ensures Balance(consumed + queue) == 0
    {}

    method FetchStreamEnd() returns (ok: bool)
      requires Running()
      modifies this`mark, this`queue, this`indent, this`indents, this`keys, this`keyAllowed, this`failed
      ensures ok ==> Running() && failed == old(failed)
      ensures ok ==> queue != [] && queue[|queue| - 1].kind == StreamEndKind
      ensures ok && flowLevel == 0 ==> indents == [] && Balance(consumed + queue) == 0
      ensures ok && old(NoEnds(queue)) ==> NoEnds(queue[..|queue| - 1])
      ensures ok && (flowLevel > 0 || old(indents) == []) ==> queue[..|queue| - 1] == old(queue)
      ensures ok ==> Visible(queue) == Visible(old(queue)) + [Token(StreamEndKind, AtLineStart(old(mark)))]
      ensures ok ==> mark == AtLineStart(old(mark)) && !keyAllowed
      ensures ok <==> !old(KeyDue())
      ensures !ok ==> failed
      ensures Did(ok, AtMargin(old(Now()), StreamEndKind, AtLineStart(old(mark))))
    {
      hide Left;
      hide NeverNegative, Balance, FlowDepth, Rising, KeysIncrease, OnlyBlockRequired, KeysFit, KeysPending, NoEnds,
           Visible;
      hide Running;
      NewLine();
      ok := LeaveBlocks();
      if !ok { return; }
      ghost var left := queue;
      Read(StreamEndKind, mark);
      assert queue[..|queue| - 1] == left;
      if flowLevel == 0 { AllClosed(); }
    }

    /** A directive, or a document indicator: both leave every block. */
    method FetchAtMargin(kind: Kind, lex: Lexeme) returns (ok: bool)
      requires Running() && (kind == DirectiveKind || kind == DocumentStartKind || kind == DocumentEndKind)
      modifies this`mark, this`queue, this`indent, this`indents, this`keys, this`keyAllowed, this`failed
      ensures ok && old(NoEnds(queue)) ==> NoEnds(queue)
      ensures ok ==> Running() && failed == old(failed) && (flowLevel == 0 ==> indents == [])
      ensures ok ==> Visible(queue) == Visible(old(queue)) + [Token(kind, old(mark))]
      ensures ok ==> mark == lex.end && !keyAllowed
      ensures ok <==> !old(KeyDue()) && (kind == DirectiveKind ==> lex.sound)
      ensures !ok ==> failed
      ensures Did(ok, if kind == DirectiveKind && !lex.sound then None else AtMargin(old(Now()), kind, old(mark)))
    {
      hide Left;
      hide NeverNegative, Balance, FlowDepth, Rising, KeysIncrease, OnlyBlockRequired, KeysFit, KeysPending, NoEnds,
           Visible;
      hide Running;
      ok := LeaveBlocks();
      if !ok { return; }
      if kind == DirectiveKind && !lex.sound {
        ok := Fail();
        return;
      }
      Read(kind, lex.end);
    }

    method FetchFlowCollectionStart(lex: Lexeme) returns (ok: bool)
      requires Running()
      modifies this`mark, this`queue, this`keys, this`flowLevel, this`keyAllowed, this`failed
      ensures ok && old(NoEnds(queue)) ==> NoEnds(queue)
      ensures ok ==> Running() && failed == old(failed) && flowLevel == old(flowLevel) + 1
      ensures ok ==> queue == old(queue) + [Token(FlowStartKind, old(mark))] && mark == lex.end && keyAllowed
      ensures ok <==> !(old(keyAllowed) && old(KeyDue()))
      ensures !ok ==> failed
      ensures Did(ok, Opened(old(Now()), old(mark)))
    {
      hide Saved;
      hide NeverNegative, Balance, FlowDepth, Rising, KeysIncrease, OnlyBlockRequired, KeysFit, KeysPending, NoEnds;
      ok := SaveSimpleKey();
      if !ok { return; }
      LevelEntered(keys, parsed, queue, mark);
      keys := keys + [NO_KEY];
      flowLevel := flowLevel + 1;
      keyAllowed := true;
      Append(FlowStartKind, mark);
      mark := lex.end;
    }

    method FetchFlowCollectionEnd(lex: Lexeme) returns (ok: bool)
      requires Running()
      modifies this`mark, this`queue, this`keys, this`flowLevel, this`keyAllowed, this`failed
      ensures ok && old(NoEnds(queue)) ==> NoEnds(queue)
      ensures ok ==> Running() && failed == old(failed)
      ensures ok ==> queue == old(queue) + [Token(FlowEndKind, old(mark))] && mark == lex.end && !keyAllowed
      ensures ok ==> flowLevel == if old(flowLevel) > 0 then old(flowLevel) - 1 else 0
      ensures ok <==> !old(KeyDue())
      ensures !ok ==> failed
      ensures Did(ok, Closed(old(Now()), old(mark)))
    {
      hide Dropped, Visible;
      hide NeverNegative, Balance, FlowDepth, Rising, KeysIncrease, OnlyBlockRequired, KeysFit, KeysPending, NoEnds;
      ok := EndKey(false);
      if !ok { return; }
      if flowLevel > 0 {
        LevelLeft(keys, parsed, queue);
        flowLevel := flowLevel - 1;
        keys := keys[..|keys| - 1];
      }
      FitIsPending(keys, parsed, queue, mark);
      Append(FlowEndKind, mark);
      mark := lex.end;
    }

    /** Drops the key of the current level, behind which another one may or may not follow. */
    method EndKey(allowed: bool) returns (ok: bool)
      requires Running()
      modifies this`keys, this`keyAllowed, this`failed
      ensures ok ==> Running() && failed == old(failed) && keyAllowed == allowed
      ensures ok <==> !old(KeyDue())
      ensures !ok ==> failed
      ensures Did(ok, match Dropped(old(Now())) case None => None case Some(d) => Some(d.(allowed := allowed)))
    {
      hide Dropped;
      hide NeverNegative, Balance, FlowDepth, Rising, KeysIncrease, OnlyBlockRequired, KeysFit, KeysPending, NoEnds;
      ok := RemoveSimpleKey();
      if !ok { return; }
      keyAllowed := allowed;
    }

    method FetchFlowEntry(lex: Lexeme) returns (ok: bool)
      requires Running()
      modifies this`mark, this`queue, this`keys, this`keyAllowed, this`failed
      ensures ok && old(NoEnds(queue)) ==> NoEnds(queue)
      ensures ok ==> Running() && failed == old(failed)
      ensures ok ==> queue == old(queue) + [Token(FlowEntryKind, old(mark))] && mark == lex.end && keyAllowed
      ensures ok <==> !old(KeyDue())
      ensures !ok ==> failed
      ensures Did(ok, Ended(old(Now()), FlowEntryKind, old(mark), true))
    {
      hide Dropped, Visible;
      hide NeverNegative, Balance, FlowDepth, Rising, KeysIncrease, OnlyBlockRequired, KeysFit, KeysPending, NoEnds;
      ok := EndKey(true);
      if !ok { return; }
      Read(FlowEntryKind, lex.end);
    }

    method FetchBlockEntry(lex: Lexeme) returns (ok: bool)
      requires Running()
      modifies this`mark, this`queue, this`indent, this`indents, this`keys, this`keyAllowed, this`failed
      ensures ok && old(NoEnds(queue)) ==> NoEnds(queue)
      ensures ok ==> Running() && failed == old(failed) && (flowLevel == 0 ==> indent >= old(mark.column))
      ensures ok ==> queue == WithBlock(old(queue), flowLevel == 0 && old(indent) < old(mark.column),
                                         Token(BlockSequenceStartKind, old(mark))) + [Token(BlockEntryKind, old(mark))]
      ensures ok ==> mark == lex.end && keyAllowed
      ensures ok ==> Visible(queue) == Visible(old(queue)) + [Token(BlockEntryKind, old(mark))]
      ensures ok <==> !old(KeyDue()) && (flowLevel > 0 || old(keyAllowed))
      ensures !ok ==> failed
      ensures Did(ok, Indicated(old(Now()), BlockSequenceStartKind, BlockEntryKind, old(mark), true))
    {
      hide Dropped;
      hide NeverNegative, Balance, FlowDepth, Rising, KeysIncrease, OnlyBlockRequired, KeysFit, KeysPending, NoEnds,
           Visible;
      var opens := flowLevel == 0 && indent < mark.column;
      VisibleBlock(queue, opens, Token(BlockSequenceStartKind, mark), Token(BlockEntryKind, mark));
      if flowLevel == 0 {
        if !keyAllowed {
          ok := Fail();
          return;
        }
        RollIndent(mark.column, -1, BlockSequenceStartKind, mark);
      }
      ok := EndKey(true);
      if !ok { return; }
      Read(BlockEntryKind, lex.end);
    }

    method FetchKey(lex: Lexeme) returns (ok: bool)
      requires Running()
      modifies this`mark, this`queue, this`indent, this`indents, this`keys, this`keyAllowed, this`failed
      ensures ok && old(NoEnds(queue)) ==> NoEnds(queue)
      ensures ok ==> Running() && failed == old(failed) && (flowLevel == 0 ==> indent >= old(mark.column))
      ensures ok ==> queue == WithBlock(old(queue), flowLevel == 0 && old(indent) < old(mark.column),
                                         Token(BlockMappingStartKind, old(mark))) + [Token(KeyKind, old(mark))]
      ensures ok ==> mark == lex.end && keyAllowed == (flowLevel == 0)
      ensures ok ==> Visible(queue) == Visible(old(queue))
      ensures ok <==> !old(KeyDue()) && (flowLevel > 0 || old(keyAllowed))
      ensures !ok ==> failed
      ensures Did(ok, Indicated(old(Now()), BlockMappingStartKind, KeyKind, old(mark), flowLevel == 0))
    {
      hide Dropped;
      hide NeverNegative, Balance, FlowDepth, Rising, KeysIncrease, OnlyBlockRequired, KeysFit, KeysPending, NoEnds,
           Visible;
      var opens := flowLevel == 0 && indent < mark.column;
      VisibleBlock(queue, opens, Token(BlockMappingStartKind, mark), Token(KeyKind, mark));
      if flowLevel == 0 {
        if !keyAllowed {
          ok := Fail();
          return;
        }
        RollIndent(mark.column, -1, BlockMappingStartKind, mark);
      }
      ok := EndKey(flowLevel == 0);
      if !ok { return; }
      FitIsPending(keys, parsed, queue, mark);
      Append(KeyKind, mark);
      mark := lex.end;
    }

    /** The tokens that a simple key may start with: anchors, aliases, tags and scalars in quotes or
        plain.  A plain scalar that has gone past a line break lets a key follow, even inside flow
        collections. */
    method FetchKeyable(kind: Kind, lex: Lexeme) returns (ok: bool)
      requires Running() && (kind == AnchorKind || kind == TagKind || kind == ScalarKind)
      modifies this`mark, this`queue, this`keys, this`keyAllowed, this`failed
      ensures ok && old(NoEnds(queue)) ==> NoEnds(queue)
      ensures ok ==> Running() && failed == old(failed)
      ensures ok ==> queue == old(queue) + [Token(kind, old(mark))] && mark == lex.end
      ensures ok ==> keyAllowed == lex.kind.Wraps()
      ensures ok && old(keyAllowed) ==> keys[flowLevel].possible && keys[flowLevel].number == parsed + |old(queue)|
      ensures ok <==> lex.sound && !(old(keyAllowed) && old(KeyDue()))
      ensures !ok ==> failed
      ensures old(mark) == lex.at ==> Did(ok, Keyable(old(Now()), kind, lex))
    {
      hide Saved;
      hide NeverNegative, Balance, FlowDepth, Rising, KeysIncrease, OnlyBlockRequired, KeysFit, KeysPending, NoEnds;
      ok := SaveSimpleKey();
      if !ok { return; }
      ghost var saved := Now();
      keyAllowed := false;
      if !lex.sound {
        ok := Fail();
        return;
      }
      Append(kind, mark);
      mark := lex.end;
      if lex.kind.Wraps() {
        keyAllowed := true;
      }
      assert Now() == Shown(saved.(allowed := lex.kind.Wraps()), kind, old(mark));
    }

    method FetchBlockScalar(lex: Lexeme) returns (ok: bool)
      requires Running()
      modifies this`mark, this`queue, this`keys, this`keyAllowed, this`failed
      ensures ok && old(NoEnds(queue)) ==> NoEnds(queue)
      ensures ok ==> Running() && failed == old(failed)
      ensures ok ==> queue == old(queue) + [Token(ScalarKind, old(mark))] && mark == lex.end && keyAllowed
      ensures ok <==> lex.sound && !old(KeyDue())
      ensures !ok ==> failed
      ensures lex.sound ==> Did(ok, Ended(old(Now()), ScalarKind, old(mark), true))
    {
      hide Visible;
      hide NeverNegative, Balance, FlowDepth, Rising, KeysIncrease, OnlyBlockRequired, KeysFit, KeysPending, NoEnds;
      ok := EndKey(true);
      if !ok { return; }
      if !lex.sound {
        ok := Fail();
        return;
      }
      Read(ScalarKind, lex.end);
    }

    /** A value indicator turns a possible simple key into a key: a KEY token is inserted before the
        token that started it and, where that opens a block, a BLOCK-MAPPING-START before that. */
    method FetchValue(lex: Lexeme) returns (ok: bool)
      requires Running()
      modifies this`mark, this`queue, this`indent, this`indents, this`keys, this`keyAllowed, this`failed
      ensures ok && old(NoEnds(queue)) ==> NoEnds(queue)
      ensures ok ==> Running() && failed == old(failed)
      ensures ok && old(keys)[flowLevel].possible ==>
                var key := old(keys)[flowLevel];
                var p := key.number - parsed;
                && 0 <= p < |old(queue)| && old(queue)[p].start == key.mark
                && queue == KeyInserted(old(queue), p, key.mark, flowLevel == 0 && old(indent) < key.mark.column)
                            + [Token(ValueKind, old(mark))]
      ensures ok && !old(keys)[flowLevel].possible ==>
                queue == WithBlock(old(queue), flowLevel == 0 && old(indent) < old(mark.column),
                                   Token(BlockMappingStartKind, old(mark))) + [Token(ValueKind, old(mark))]
      ensures ok <==> old(keys)[flowLevel].possible || flowLevel > 0 || old(keyAllowed)
      ensures ok ==> (keyAllowed <==> flowLevel == 0 && !old(keys)[flowLevel].possible)
      ensures ok ==> keys == old(keys)[flowLevel := old(keys)[flowLevel].(possible := false)]
      ensures ok ==> mark == lex.end
      ensures ok ==> Visible(queue) == Visible(old(queue)) + [Token(ValueKind, old(mark))]
      ensures !ok ==> failed
      ensures Did(ok, Valued(old(Now()), old(mark)))
    {
      hide Keyed;
      hide NeverNegative, Balance, FlowDepth, Rising, KeysIncrease, OnlyBlockRequired, KeysFit, KeysPending,
           KeyInserted, NoEnds, Visible, KeyDue;
      var key := keys[|keys| - 1];
      if key.possible {
        FetchSimpleValue(key);
      } else {
        if flowLevel == 0 {
          if !keyAllowed {
            ok := Fail();
            return;
          }
          VisibleSnoc(queue, Token(BlockMappingStartKind, mark));
          RollIndent(mark.column, -1, BlockMappingStartKind, mark);
        }
        keyAllowed := flowLevel == 0;
      }
      Read(ValueKind, lex.end);
      return true;
    }

    method FetchSimpleValue(key: SimpleKey)
      requires Running() && key == keys[flowLevel] && key.possible
      modifies this`queue, this`indent, this`indents, this`keys, this`keyAllowed
      ensures Running() && !keyAllowed && keys == old(keys)[flowLevel := key.(possible := false)]
      ensures old(NoEnds(queue)) ==> NoEnds(queue)
      ensures var p := key.number - parsed;
              && 0 <= p < |old(queue)| && old(queue)[p].start == key.mark
              && queue == KeyInserted(old(queue), p, key.mark, flowLevel == 0 && old(indent) < key.mark.column)
      ensures Visible(queue) == Visible(old(queue))
      ensures Now() == Keyed(old(Now()))
    {
      hide NeverNegative, Balance, FlowDepth, Rising, InsertAt, KeysFit, KeysIncrease, OnlyBlockRequired, NoEnds,
           KeysUpTo, KeyInserted, Visible;
      InsertKey(key);
      TwoInserts(old(queue), key.number - parsed, key.mark);
      VisibleKey(old(queue), key.number - parsed, key.mark, flowLevel == 0 && indent < key.mark.column);
      RollIndent(key.mark.column, key.number, BlockMappingStartKind, key.mark);
      WithoutKey(keys, flowLevel, parsed, queue);
      InsertedBehind(consumed, old(queue), key.number - parsed, key.mark,
                     flowLevel == 0 && old(indent) < key.mark.column);
      keys := keys[flowLevel := key.(possible := false)];
      keyAllowed := false;
    }

    method InsertKey(key: SimpleKey)
      requires Running() && key == keys[flowLevel] && key.possible
      modifies this`queue
      ensures Running() && KeysUpTo(keys, key.number, key.mark)
      ensures old(NoEnds(queue)) ==> NoEnds(queue)
      ensures var p := key.number - parsed;
              && 0 <= p < |old(queue)| && old(queue)[p].start == key.mark
              && queue == InsertAt(old(queue), p, Token(KeyKind, key.mark))
    {
      hide NeverNegative, Balance, FlowDepth, Rising, KeysIncrease, OnlyBlockRequired, KeysFit, KeysUpTo, NoEnds,
           InsertAt;
      ghost var p := key.number - parsed;
      TopKey(keys, flowLevel, key);
      KeyPlace(keys, parsed, queue, flowLevel);
      InsertKeepsKeys(keys, parsed, queue, p, Token(KeyKind, key.mark));
      AllInsert(consumed, queue, p, Token(KeyKind, key.mark));
      NoEndsInsert(queue, p, Token(KeyKind, key.mark));
      queue := InsertAt(queue, key.number - parsed, Token(KeyKind, key.mark));
    }

    /** The tokens, apart from those that mark the structure, are the lexemes in their order. */
    ghost predicate Conserved()
      reads this
    {
      if started then
        && next <= |input|
        && Visible(consumed + queue) == [Token(StreamStartKind, BEGINNING)] + AllShown(input[..next])
      else next == 0 && mark == BEGINNING
    }

    /** Where the lexemes are in their places, the scanner is where they come to. */
    ghost predicate Agreed()
      reads this
    {
      && next <= |input| && mark == (if next == 0 then BEGINNING else EndOf(input[next - 1]))
      && (started && Placed(input) ==>
            RunCore(input[..next]).Some? && Same(RunCore(input[..next]).value, Now(), mark))
      && (!started ==> next == 0)
    }

    ghost predicate AtEof()
      reads this
    {
      0 < next <= |input| && input[next - 1].kind.EndOfStream?
    }

    /** Before the end of the input no STREAM-END is scanned, and behind one only more of them. */
    ghost predicate Ending()
      reads this
    {
      if AtEof() then
        && EndsLast(consumed + queue)
        && (flowLevel == 0 ==> indents == [])
      else NoEnds(consumed + queue)
    }

    /** The first token is there before anything is read. */
    method OpenStream()
      requires Valid() && !started && !available
      modifies this`indent, this`keys, this`keyAllowed, this`started, this`queue
      ensures Running() && (old(Ending()) ==> Ending()) && (old(Conserved()) ==> Conserved())
      ensures old(Agreed()) ==> Agreed()
    {
      hide NeverNegative, Balance, FlowDepth, Rising, KeysIncrease, OnlyBlockRequired, KeysFit, Visible;
      FetchStreamStart();
      StartShown(mark, consumed + queue, input);
    }

    /** Reads the next token of the input into the queue. */
    method FetchNextToken() returns (ok: bool)
      requires Valid() && !available
      modifies this`next, this`queue, this`keys, this`indent, this`indents, this`flowLevel,
               this`keyAllowed, this`mark, this`started, this`failed
      ensures ok ==> Running() && failed == old(failed)
      ensures ok ==> (next > old(next) || !old(started))
      ensures next <= |input| && old(next) <= next && (old(started) ==> started)
      ensures ok && old(Ending()) && EofSticky(input) ==> Ending()
      ensures ok && old(Conserved()) ==> Conserved()
      ensures !ok ==> failed
      ensures ok && old(Agreed()) ==> Agreed()
    {
      hide NeverNegative, Balance, FlowDepth, Rising, KeysIncrease, OnlyBlockRequired, KeysFit, Visible, NoEnds,
           EndsLast, AllShown, EofSticky, RunCore, Placed, Fetched, Same;
      if !started {
        OpenStream();
        return true;
      }
      hide Running;
      if next == |input| {
        ok := Fail();
        return;
      }
      var lex := input[next];
      StaysEof(input, next);
      if Placed(input) && Agreed() { RunOn(input, next, Now(), mark); }
      next := next + 1;
      ok := FetchLexeme(lex);
      SameAgain(Now(), mark);
      ShownOnward(consumed, old(queue), queue, input, old(next));
    }

    /** No STREAM-END yet, or nothing else behind one and no block open. */
    ghost predicate Tidy()
      reads this
    {
      NoEnds(consumed + queue) || (EndsLast(consumed + queue) && (flowLevel == 0 ==> indents == []))
    }

    /** Goes to where the token starts, and leaves the blocks that it is not indented enough for. */
    method Approach(lex: Lexeme) returns (ok: bool)
      requires Running()
      modifies this`queue, this`keys, this`indent, this`indents, this`keyAllowed, this`mark, this`failed
      ensures ok ==> Running() && failed == old(failed) && mark == lex.at && Visible(queue) == Visible(old(queue))
      ensures ok && (flowLevel > 0 || old(indents) == []) ==> queue == old(queue) && indents == old(indents)
      ensures ok && flowLevel == 0 ==> indent <= lex.at.column
      ensures ok && old(NoEnds(queue)) ==> NoEnds(queue)
      ensures ok ==> keyAllowed == (old(keyAllowed) || (lex.broken && flowLevel == 0))
      ensures ok <==> forall i | 0 <= i < |old(keys)| :: Stale(old(keys)[i], lex.at) ==> !old(keys)[i].required
      ensures !ok ==> failed
      ensures Did(ok, Approached(old(Now()), lex))
    {
      hide Unrolled, Freshen, Overdue;
      hide NeverNegative, Balance, FlowDepth, Rising, KeysIncrease, OnlyBlockRequired, KeysFit, KeysPending, NoEnds,
           Visible, Stale, Freshened;
      ghost var before := queue;
      EmptyStack(indents, indent);
      mark := lex.at;
      if lex.broken && flowLevel == 0 {
        keyAllowed := true;
      }
      ok := StaleSimpleKeys();
      if !ok { return; }
      UnrollIndent(mark.column);
      VisibleEnds(before, queue, mark);
    }

    /** Leaves the blocks that the token is not indented enough for, and reads it. */
    method FetchLexeme(lex: Lexeme) returns (ok: bool)
      requires Running()
      modifies this`queue, this`keys, this`indent, this`indents, this`flowLevel, this`keyAllowed, this`mark, this`failed
      ensures ok ==> Running() && failed == old(failed)
      ensures ok && !lex.kind.EndOfStream? && old(NoEnds(consumed + queue)) ==> NoEnds(consumed + queue)
      ensures ok && lex.kind.EndOfStream? && old(Tidy()) ==>
                EndsLast(consumed + queue) && (flowLevel == 0 ==> indents == [])
      ensures ok ==> Visible(queue) == Visible(old(queue)) + ShownAs(lex.kind, lex.at)
      ensures !ok ==> failed
      ensures Did(ok, Fetched(old(Now()), lex))
      ensures ok ==> mark == EndOf(lex)
    {
      hide Approached, AtMargin, Opened, Closed, Ended, Indicated, Valued, Keyable;
      hide NeverNegative, Balance, FlowDepth, Rising, KeysIncrease, OnlyBlockRequired, KeysFit, KeysPending, NoEnds,
           EndsLast, Visible, Running;
      ghost var before := queue;
      if NoEnds(consumed + queue) { StillNoEnds(consumed, queue, queue); }
      ok := Approach(lex);
      if !ok { return; }
      if lex.kind.EndOfStream? {
        ok := FetchStreamEnd();
        if ok && old(Tidy()) { MoreEnds(consumed, before, queue); }
        return;
      }
      ok := FetchInner(lex);
      if ok && old(NoEnds(consumed + queue)) { StillNoEnds(consumed, before, queue); }
    }

    /** Dispatches on the first characters of a token. */
    method FetchInner(lex: Lexeme) returns (ok: bool)
      requires Running() && !lex.kind.EndOfStream?
      modifies this`queue, this`keys, this`indent, this`indents, this`flowLevel,
               this`keyAllowed, this`mark, this`failed
      ensures ok ==> Running() && failed == old(failed)
      ensures ok && old(NoEnds(queue)) ==> NoEnds(queue)
      ensures ok ==> Visible(queue) == Visible(old(queue)) + ShownAs(lex.kind, old(mark))
      ensures !ok ==> failed
      ensures old(mark) == lex.at ==> Did(ok, ReadOn(old(Now()), lex))
      ensures ok ==> mark == lex.end
    {
      hide AtMargin, Opened, Closed, Ended, Indicated, Valued, Keyable;
      hide NeverNegative, Balance, FlowDepth, Rising, KeysIncrease, OnlyBlockRequired, KeysFit, KeysPending, NoEnds,
           Visible;
      Snocs(queue, mark);
      match lex.kind
      case Directive => ok := FetchAtMargin(DirectiveKind, lex);
      case DocumentIndicator(starts) =>
        ok := FetchAtMargin(if starts then DocumentStartKind else DocumentEndKind, lex);
      case FlowOpen => ok := FetchFlowCollectionStart(lex);
      case FlowClose => ok := FetchFlowCollectionEnd(lex);
      case FlowComma => ok := FetchFlowEntry(lex);
      case Dash => ok := FetchBlockEntry(lex);
      case Question => ok := FetchKey(lex);
      case Colon => ok := FetchValue(lex);
      case AnchorOrAlias => ok := FetchKeyable(AnchorKind, lex);
      case TagLexeme => ok := FetchKeyable(TagKind, lex);
      case BlockScalar => ok := FetchBlockScalar(lex);
      case FlowScalar => ok := FetchKeyable(ScalarKind, lex);
      case PlainScalar(_) => ok := FetchKeyable(ScalarKind, lex);
      case Unknown => ok := Fail();
    }

    /** Whether a possible key may still claim the place at the head of the queue. */
    method NeedMoreTokens() returns (ok: bool, more: bool)
      requires Valid() && !available
      modifies this`keys, this`failed
      ensures ok ==> Valid() && failed == old(failed)
      ensures ok && !more ==>
                queue != [] && started && forall i | 0 <= i < |keys| && keys[i].possible :: keys[i].number != parsed
      ensures !ok ==> failed
      ensures ok ==> keys == if old(queue) == [] then old(keys) else Freshen(old(keys), mark)
      ensures ok <==> old(queue) == [] || !Overdue(old(keys), mark)
      ensures ok ==>
                (more <==> queue == [] || exists i | 0 <= i < |keys| :: keys[i].possible && keys[i].number == parsed)
      ensures ok && old(Agreed()) ==> Agreed()
    {
      hide NeverNegative, Balance, FlowDepth, Rising;
      if queue == [] { return true, true; }
      ok := StaleSimpleKeys();
      if !ok { return ok, false; }
      var i := 0;
      while i < |keys|
        invariant 0 <= i <= |keys|
        invariant forall j | 0 <= j < i && keys[j].possible :: keys[j].number != parsed
      {
        if keys[i].possible && keys[i].number == parsed {
          return true, true;
        }
        i := i + 1;
      }
      return true, false;
    }

    /** Fetches until the token at the head is sure to stay there. */
    method FetchMoreTokens() returns (ok: bool)
      requires Valid() && !available
      modifies this
      ensures consumed == old(consumed) && old(next) <= next <= |input|
      ensures ok ==> Valid() && available && failed == old(failed)
      ensures ok && old(started) && next == old(next) ==> queue == old(queue)
      ensures ok && old(Ending()) && EofSticky(input) ==> Ending()
      ensures ok && old(Conserved()) ==> Conserved()
      ensures !ok ==> failed
      ensures ok && old(Agreed()) ==> Agreed()
    {
      hide NeverNegative, Balance, FlowDepth, Rising, KeysIncrease, OnlyBlockRequired, KeysFit, KeysPending,
           EofSticky, EndsLast, NoEnds, Visible, AllShown, RunCore, Placed, Same;
      var more;
      ok, more := NeedMoreTokens();
      while ok && more
        invariant consumed == old(consumed) && old(next) <= next <= |input|
        invariant ok ==> Valid() && !available && failed == old(failed)
        invariant ok && old(started) && next == old(next) ==> queue == old(queue)
        invariant ok && old(Ending()) && EofSticky(input) ==> Ending()
        invariant ok && old(Conserved()) ==> Conserved()
        invariant ok && old(Agreed()) ==> Agreed()
        invariant ok && !more ==>
                    queue != [] && started && forall i | 0 <= i < |keys| && keys[i].possible :: keys[i].number != parsed
        invariant !ok ==> failed
        decreases !started, |input| - next, ok && more
      {
        ok := FetchNextToken();
        if ok {
          ok, more := NeedMoreTokens();
        }
      }
      if ok {
        available := true;
      }
    }

    /** Hands the token at the head to the parser.  No later insertion can come before it. */
    method Take() returns (token: Token)
      requires Valid() && available
      modifies this`queue, this`parsed, this`available, this`consumed
      ensures Valid() && !available && consumed == old(consumed) + [token]
      ensures token == old(queue)[0] && queue == old(queue)[1..] && parsed == old(parsed) + 1
      ensures (old(Ending()) ==> Ending()) && (old(Conserved()) ==> Conserved())
      ensures Now() == old(Now()) && (old(Agreed()) ==> Agreed())
    {
      hide NeverNegative, Balance, FlowDepth, Rising, KeysIncrease, OnlyBlockRequired, KeysFit, Visible, AllShown;
      assert consumed + queue == (consumed + [queue[0]]) + queue[1..];
      TakeKeepsKeys(keys, parsed, queue);
      token := queue[0];
      consumed := consumed + [token];
      queue := queue[1..];
      parsed := parsed + 1;
      available := false;
    }
  }

  lemma EmptyStack(indents: seq<int>, indent: int)
    requires Rising(indents, indent)
    ensures indents == [] ==> indent == -1
  {}

  lemma StaysEof(input: seq<Lexeme>, next: nat)
    requires next < |input|
    ensures EofSticky(input) && next > 0 && input[next - 1].kind.EndOfStream? ==> input[next].kind.EndOfStream?
  {}

  lemma BottomLevel(indents: seq<int>, indent: int)
    requires Rising(indents, indent)
    ensures indent <= -1 ==> indents == []
  {
    var levels := indents + [indent];
    if indents != [] { assert levels[0] < levels[|indents|]; }
  }

  lemma TakeKeepsKeys(keys: seq<SimpleKey>, parsed: int, queue: seq<Token>)
    requires KeysFit(keys, parsed, queue) && queue != []
    requires forall i | 0 <= i < |keys| && keys[i].possible :: keys[i].number != parsed
    ensures KeysFit(keys, parsed + 1, queue[1..])
  {}

  /** The queue with a KEY, and before it a BLOCK-MAPPING-START if it opens a block, put before
      the token at position `p`. */
  function KeyInserted(q: seq<Token>, p: nat, mark: Mark, opens: bool): seq<Token>
    requires p <= |q|
  {
    if opens then q[..p] + [Token(BlockMappingStartKind, mark), Token(KeyKind, mark)] + q[p..]
    else q[..p] + [Token(KeyKind, mark)] + q[p..]
  }

  /** A token appended to every prefix that stays visible. */
  lemma Snocs(q: seq<Token>, mark: Mark)
    ensures Visible(q + [Token(FlowStartKind, mark)]) == Visible(q) + [Token(FlowStartKind, mark)]
    ensures Visible(q + [Token(FlowEndKind, mark)]) == Visible(q) + [Token(FlowEndKind, mark)]
    ensures Visible(q + [Token(FlowEntryKind, mark)]) == Visible(q) + [Token(FlowEntryKind, mark)]
    ensures Visible(q + [Token(AnchorKind, mark)]) == Visible(q) + [Token(AnchorKind, mark)]
    ensures Visible(q + [Token(TagKind, mark)]) == Visible(q) + [Token(TagKind, mark)]
    ensures Visible(q + [Token(ScalarKind, mark)]) == Visible(q) + [Token(ScalarKind, mark)]
  {
    hide Visible;
    VisibleSnoc(q, Token(FlowStartKind, mark));
    VisibleSnoc(q, Token(FlowEndKind, mark));
    VisibleSnoc(q, Token(FlowEntryKind, mark));
    VisibleSnoc(q, Token(AnchorKind, mark));
    VisibleSnoc(q, Token(TagKind, mark));
    VisibleSnoc(q, Token(ScalarKind, mark));
  }

  lemma VisibleBlock(q: seq<Token>, opens: bool, t: Token, u: Token)
    requires !IsVisible(t)
    ensures Visible(WithBlock(q, opens, t) + [u]) == if IsVisible(u) then Visible(q) + [u] else Visible(q)
  {
    hide Visible;
    VisibleSnoc(q, t);
    VisibleSnoc(WithBlock(q, opens, t), u);
  }

  lemma VisibleInsert(a: seq<Token>, t: Token, b: seq<Token>)
    requires !IsVisible(t)
    ensures Visible(a + [t] + b) == Visible(a + b)
  {
    hide Visible;
    VisibleSnoc(a, t);
    VisibleConcat(a + [t], b);
    VisibleConcat(a, b);
  }

  lemma VisibleKey(q: seq<Token>, p: nat, mark: Mark, opens: bool)
    requires p <= |q|
    ensures Visible(KeyInserted(q, p, mark, opens)) == Visible(q)
  {
    hide Visible;
    var a, b := q[..p], q[p..];
    var key, start := Token(KeyKind, mark), Token(BlockMappingStartKind, mark);
    assert q == a + b;
    if opens {
      VisibleInsert(a + [start], key, b);
      VisibleInsert(a, start, b);
      assert KeyInserted(q, p, mark, opens) == a + [start] + [key] + b;
    } else {
      VisibleInsert(a, key, b);
    }
  }

  lemma InsertedBehind(consumed: seq<Token>, queue: seq<Token>, p: nat, mark: Mark, opens: bool)
    requires p <= |queue|
    ensures consumed + KeyInserted(queue, p, mark, opens) == KeyInserted(consumed + queue, |consumed| + p, mark, opens)
  {
    var all := consumed + queue;
    assert all[..|consumed| + p] == consumed + queue[..p] && all[|consumed| + p..] == queue[p..];
  }

  lemma TwoInserts(q: seq<Token>, p: nat, mark: Mark)
    requires p <= |q|
    ensures p <= |InsertAt(q, p, Token(KeyKind, mark))|
    ensures InsertAt(q, p, Token(KeyKind, mark)) == KeyInserted(q, p, mark, false)
    ensures InsertAt(InsertAt(q, p, Token(KeyKind, mark)), p, Token(BlockMappingStartKind, mark))
         == KeyInserted(q, p, mark, true)
  {
    var r := InsertAt(q, p, Token(KeyKind, mark));
    assert r[..p] == q[..p] && r[p..] == [Token(KeyKind, mark)] + q[p..];
  }

  lemma NoEndsInsert(q: seq<Token>, p: int, t: Token)
    requires p <= |q| && t.kind != StreamEndKind
    ensures NoEnds(q) ==> NoEnds(InsertAt(q, p, t))
  {
    if NoEnds(q) {
      var r := InsertAt(q, p, t);
      forall i | 0 <= i < |r| ensures r[i].kind != StreamEndKind {
        if p < 0 {
          if i < |q| { assert r[i] == q[i]; }
        } else if i < p {
          assert r[i] == q[i];
        } else if i > p {
          assert r[i] == q[i - 1];
        }
      }
    }
  }

  lemma FewerKeys(keys: seq<SimpleKey>, fewer: seq<SimpleKey>, mark: Mark, parsed: int, queue: seq<Token>)
    requires |keys| == |fewer| && forall i | 0 <= i < |keys| :: fewer[i] == Freshened(keys[i], mark)
    requires KeysFit(keys, parsed, queue) && KeysIncrease(keys) && OnlyBlockRequired(keys)
    ensures KeysFit(fewer, parsed, queue) && KeysIncrease(fewer) && OnlyBlockRequired(fewer)
  {}

  lemma StillOrdered(keys: seq<SimpleKey>, i: nat)
    requires i < |keys| && KeysIncrease(keys) && OnlyBlockRequired(keys)
    ensures var fewer := keys[i := keys[i].(possible := false)];
            KeysIncrease(fewer) && OnlyBlockRequired(fewer)
  {}

  /** A key saved for the token behind the queue. */
  lemma KeySaved(keys: seq<SimpleKey>, parsed: int, queue: seq<Token>, mark: Mark, key: SimpleKey)
    requires keys != [] && KeysIncrease(keys) && OnlyBlockRequired(keys) && KeysFit(keys, parsed, queue)
    requires key.possible && key.number == parsed + |queue| && key.mark == mark && (|keys| > 1 ==> !key.required)
    ensures var more := keys[|keys| - 1 := key];
            KeysIncrease(more) && OnlyBlockRequired(more) && KeysPending(more, parsed, queue, mark)
  {}

  /** The key of the innermost level is gone with its level. */
  lemma LevelLeft(keys: seq<SimpleKey>, parsed: int, queue: seq<Token>)
    requires |keys| > 1 && KeysIncrease(keys) && OnlyBlockRequired(keys) && KeysFit(keys, parsed, queue)
    ensures var fewer := keys[..|keys| - 1];
            KeysIncrease(fewer) && OnlyBlockRequired(fewer) && KeysFit(fewer, parsed, queue)
  {}

  /** A level without a key. */
  lemma LevelEntered(keys: seq<SimpleKey>, parsed: int, queue: seq<Token>, mark: Mark)
    requires KeysIncrease(keys) && OnlyBlockRequired(keys) && KeysPending(keys, parsed, queue, mark)
    ensures var more := keys + [NO_KEY];
            KeysIncrease(more) && OnlyBlockRequired(more) && KeysPending(more, parsed, queue, mark)
  {}

  /** The place of the innermost key. */
  lemma KeyPlace(keys: seq<SimpleKey>, parsed: int, queue: seq<Token>, top: nat)
    requires KeysFit(keys, parsed, queue) && top < |keys| && keys[top].possible
    ensures var p := keys[top].number - parsed; 0 <= p < |queue| && queue[p].start == keys[top].mark
  {}

  lemma WithoutKey(keys: seq<SimpleKey>, i: nat, parsed: int, queue: seq<Token>)
    requires i < |keys| && KeysFit(keys, parsed, queue) && KeysIncrease(keys) && OnlyBlockRequired(keys)
    ensures var fewer := keys[i := keys[i].(possible := false)];
            KeysFit(fewer, parsed, queue) && KeysIncrease(fewer) && OnlyBlockRequired(fewer)
  {}

  /** A further STREAM-END behind those at the end of the input. */
  lemma MoreEnds(consumed: seq<Token>, queue: seq<Token>, longer: seq<Token>)
    requires longer != [] && longer[|longer| - 1].kind == StreamEndKind
    requires if longer[..|longer| - 1] == queue then EndsLast(consumed + queue) || NoEnds(consumed + queue)
             else NoEnds(consumed + queue) && NoEnds(longer[..|longer| - 1])
    ensures EndsLast(consumed + longer)
  {
    var last := |longer| - 1;
    var fewer := longer[..last];
    if fewer != queue { StillNoEnds(consumed, queue, fewer); }
    assert consumed + longer == (consumed + fewer) + [longer[last]];
    EndBehind(consumed + fewer, longer[last]);
  }

  lemma EndBehind(ts: seq<Token>, t: Token)
    requires (EndsLast(ts) || NoEnds(ts)) && t.kind == StreamEndKind
    ensures EndsLast(ts + [t])
  {}

  lemma StillNoEnds(consumed: seq<Token>, queue: seq<Token>, longer: seq<Token>)
    requires NoEnds(consumed + queue)
    ensures NoEnds(queue) && (NoEnds(longer) ==> NoEnds(consumed + longer))
  {
    forall i | 0 <= i < |queue| ensures queue[i].kind != StreamEndKind {
      assert (consumed + queue)[|consumed| + i] == queue[i];
    }
    forall i | 0 <= i < |consumed| ensures consumed[i].kind != StreamEndKind {
      assert (consumed + queue)[i] == consumed[i];
    }
  }

  lemma TopKey(keys: seq<SimpleKey>, top: nat, key: SimpleKey)
    requires KeysIncrease(keys) && |keys| == top + 1 && key == keys[top] && key.possible
    ensures KeysUpTo(keys, key.number, key.mark)
  {}

  lemma {:induction false} EndsWeighNothing(ts: seq<Token>)
    requires forall i | 0 <= i < |ts| :: ts[i].kind == StreamEndKind
    ensures Balance(ts) == 0 && FlowDepth(ts) == 0
  {
    if ts == [] {
    } else {
      EndsWeighNothing(ts[..|ts| - 1]);
    }
  }

  lemma {:induction false} FlowDepthOfEnds(a: seq<Token>, b: seq<Token>)
    requires forall i | 0 <= i < |b| :: b[i].kind == StreamEndKind
    ensures FlowDepth(a + b) == FlowDepth(a)
  {
    if b == [] {
      assert a + b == a;
    } else {
      var k := |b| - 1;
      FlowDepthOfEnds(a, b[..k]);
      assert (a + b)[..|a| + k] == a + b[..k];
    }
  }

  /** What is left in the queue behind a STREAM-END changes nothing. */
  lemma {:induction false} BehindTheEnd(consumed: seq<Token>, queue: seq<Token>)
    requires EndsLast(consumed + queue)
    requires consumed != [] && consumed[|consumed| - 1].kind == StreamEndKind
    ensures Balance(consumed) == Balance(consumed + queue)
    ensures FlowDepth(consumed) == FlowDepth(consumed + queue)
  {
    var all := consumed + queue;
    forall i | 0 <= i < |queue| ensures queue[i].kind == StreamEndKind {
      assert all[|consumed| - 1] == consumed[|consumed| - 1] && all[|consumed| + i] == queue[i];
    }
    hide Balance, FlowDepth;
    EndsWeighNothing(queue);
    BalanceConcat(consumed, queue);
    FlowDepthOfEnds(consumed, queue);
  }

  lemma NeverNegativePrefix(a: seq<Token>, b: seq<Token>)
    requires NeverNegative(a + b)
    ensures NeverNegative(a)
  {
    hide Balance;
    forall k | 0 <= k <= |a| ensures Balance(a[..k]) >= 0 {
      assert (a + b)[..k] == a[..k];
    }
  }

  lemma EndSeen(consumed: seq<Token>, queue: seq<Token>)
    requires consumed != [] && consumed[|consumed| - 1].kind == StreamEndKind
    ensures !NoEnds(consumed + queue)
  {
    assert (consumed + queue)[|consumed| - 1] == consumed[|consumed| - 1];
  }

  lemma StartShown(mark: Mark, all: seq<Token>, input: seq<Lexeme>)
    requires all == [Token(StreamStartKind, mark)]
    ensures Visible(all) == all && AllShown(input[..0]) == []
  {
    assert all[..0] == [];
  }

  lemma ShownOnward(consumed: seq<Token>, queue: seq<Token>, longer: seq<Token>, input: seq<Lexeme>, next: nat)
    requires next < |input|
    ensures Visible(longer) == Visible(queue) + ShownAs(input[next].kind, input[next].at) ==>
              Visible(consumed + longer) == Visible(consumed + queue) + ShownAs(input[next].kind, input[next].at)
    ensures AllShown(input[..next + 1]) == AllShown(input[..next]) + ShownAs(input[next].kind, input[next].at)
  {
    hide Visible, ShownAs;
    VisibleConcat(consumed, longer);
    VisibleConcat(consumed, queue);
    assert input[..next + 1][..next] == input[..next];
  }

  /** The list ends with its first STREAM-END. */
  predicate EndsAt(ts: seq<Token>) {
    ts != [] && ts[|ts| - 1].kind == StreamEndKind && NoEnds(ts[..|ts| - 1])
  }

  /** The first STREAM-END tells where a list of tokens is to be cut. */
  lemma CutAtEnd(a: seq<Token>, q: seq<Token>, b: seq<Token>, r: seq<Token>)
    requires a + q == b + r && EndsAt(a) && EndsAt(b)
    ensures a == b
  {
    hide EndsAt;
    EndsNotBefore(a, q);
    EndsNotBefore(b, r);
    assert a == (a + q)[..|a|] && b == (b + r)[..|b|];
  }

  lemma EndsNotBefore(a: seq<Token>, q: seq<Token>)
    requires EndsAt(a)
    ensures a != [] && (a + q)[|a| - 1].kind == StreamEndKind
    ensures forall i | 0 <= i < |a| - 1 :: (a + q)[i].kind != StreamEndKind
  {
    forall i | 0 <= i < |a| - 1 ensures (a + q)[i].kind != StreamEndKind {
      assert (a + q)[i] == a[..|a| - 1][i];
    }
  }

  lemma {:induction false} VisibleNoEnds(ts: seq<Token>)
    requires NoEnds(ts)
    ensures NoEnds(Visible(ts))
  {
    if ts == [] {
    } else {
      VisibleNoEnds(ts[..|ts| - 1]);
    }
  }

  lemma VisibleEndsAt(ts: seq<Token>)
    requires EndsAt(ts)
    ensures EndsAt(Visible(ts))
  {
    hide Visible, NoEnds;
    var k := |ts| - 1;
    assert ts == ts[..k] + [ts[k]];
    VisibleSnoc(ts[..k], ts[k]);
    VisibleNoEnds(ts[..k]);
    var shown := Visible(ts[..k]);
    assert (shown + [ts[k]])[..|shown|] == shown;
  }

  lemma EndsAtSnoc(before: seq<Token>, one: seq<Token>)
    requires NoEnds(before) && |one| <= 1 && !NoEnds(before + one)
    ensures EndsAt(before + one)
  {
    assert before + [] == before;
    assert (before + one)[..|before|] == before;
  }

  lemma EndsAtBehind(start: seq<Token>, shown: seq<Token>)
    requires EndsAt(shown) && NoEnds(start)
    ensures EndsAt(start + shown)
  {
    var all := start + shown;
    var init := shown[..|shown| - 1];
    assert all[..|all| - 1] == start + init;
    forall i | 0 <= i < |start + init| ensures (start + init)[i].kind != StreamEndKind {}
  }

  lemma ShownOne(kind: LexKind, at: Mark)
    ensures |ShownAs(kind, at)| <= 1 && NoEnds(ShownAs(kind, at)) == !kind.EndOfStream?
  {
    assert kind.EndOfStream? ==> ShownAs(kind, at)[0].kind == StreamEndKind;
  }

  lemma NoEndsConcat(a: seq<Token>, b: seq<Token>)
    ensures NoEnds(a + b) == (NoEnds(a) && NoEnds(b))
  {
    if NoEnds(a + b) {
      StillNoEnds(a, b, b);
      assert forall i | 0 <= i < |a| :: (a + b)[i] == a[i];
    }
  }

  /** Only the end of the input shows as a STREAM-END. */
  lemma {:induction false} NoEofShown(input: seq<Lexeme>, k: nat)
    requires k <= |input| && NoEnds(AllShown(input[..k]))
    ensures forall i | 0 <= i < k :: !input[i].kind.EndOfStream?
  {
    if k == 0 {
    } else {
      var lex := input[k - 1];
      assert input[..k][..k - 1] == input[..k - 1];
      hide NoEnds, ShownAs;
      NoEndsConcat(AllShown(input[..k - 1]), ShownAs(lex.kind, lex.at));
      ShownOne(lex.kind, lex.at);
      NoEofShown(input, k - 1);
    }
  }

  lemma {:induction false} UpToEndAt(input: seq<Lexeme>, n: nat)
    requires 0 < n <= |input| && input[n - 1].kind.EndOfStream?
    requires forall i | 0 <= i < n - 1 :: !input[i].kind.EndOfStream?
    ensures UpToEnd(input) == input[..n]
    decreases n
  {
    if n == 1 {
      assert input[..n] == [input[0]];
    } else {
      UpToEndAt(input[1..], n - 1);
      assert input[..n] == [input[0]] + input[1..][..n - 1];
    }
  }

  /** What lexemes show ends with the first end of the input. */
  lemma {:induction false} FirstEnd(input: seq<Lexeme>, next: nat) returns (n: nat)
    requires next <= |input| && !NoEnds(AllShown(input[..next]))
    ensures n <= next && EndsAt(AllShown(input[..n])) && AllShown(input[..n]) <= AllShown(input[..next])
    ensures UpToEnd(input) == input[..n]
  {
    hide ShownAs, EndsAt, UpToEnd;
    assert input[..0] == [] && NoEnds(AllShown([]));
    assert next > 0;
    var lex := input[next - 1];
    var before, one := AllShown(input[..next - 1]), ShownAs(lex.kind, lex.at);
    assert input[..next][..next - 1] == input[..next - 1];
    ShownOne(lex.kind, lex.at);
    hide NoEnds, AllShown;
    if NoEnds(before) {
      n := next;
      EndsAtSnoc(before, one);
      NoEndsConcat(before, one);
      NoEofShown(input, next - 1);
      UpToEndAt(input, next);
    } else {
      n := FirstEnd(input, next - 1);
    }
  }

  /** At the end of the stream the tokens handed out show just the lexemes up to there. */
  lemma ShownAtEnd(tokens: seq<Token>, queue: seq<Token>, input: seq<Lexeme>, next: nat)
    requires next <= |input| && EndsAt(tokens)
    requires Visible(tokens + queue) == [Token(StreamStartKind, BEGINNING)] + AllShown(input[..next])
    ensures Visible(tokens) == [Token(StreamStartKind, BEGINNING)] + AllShown(UpToEnd(input))
  {
    var start, all := [Token(StreamStartKind, BEGINNING)], AllShown(input[..next]);
    assert NoEnds(start);
    hide Visible, AllShown, NoEnds, EndsAt, UpToEnd;
    VisibleEndsAt(tokens);
    VisibleConcat(tokens, queue);
    EndIsShown(Visible(tokens), Visible(queue), start, all);
    var n := FirstEnd(input, next);
    var shown := AllShown(input[..n]);
    EndsAtBehind(start, shown);
    ShownCut(Visible(tokens), Visible(queue), start, shown, all);
  }

  lemma ShownCut(a: seq<Token>, q: seq<Token>, start: seq<Token>, shown: seq<Token>, all: seq<Token>)
    requires a + q == start + all && shown <= all && EndsAt(a) && EndsAt(start + shown)
    ensures a == start + shown
  {
    hide EndsAt;
    var rest := all[|shown|..];
    assert start + all == (start + shown) + rest;
    CutAtEnd(a, q, start + shown, rest);
  }

  lemma EndIsShown(a: seq<Token>, q: seq<Token>, start: seq<Token>, all: seq<Token>)
    requires a + q == start + all && EndsAt(a) && |start| == 1 && NoEnds(start)
    ensures !NoEnds(all)
  {
    var i := |a| - 1;
    assert (a + q)[i] == a[i] && (start + all)[0] == start[0];
    assert i > 0;
    assert (start + all)[i] == all[i - 1];
  }

  /** Drains the scanner up to the end of the stream.  Whatever the lexemes, no prefix of the tokens
      handed out ends more blocks than it has started, and a stream that ends outside flow
      collections has ended every block.  Apart from the marks of the structure, the tokens are the
      lexemes up to the end of the input, in their order, at their places. */
  method ScanAll(input: seq<Lexeme>) returns (ok: bool, tokens: seq<Token>)
    requires EofSticky(input)
    ensures NeverNegative(tokens)
    ensures ok ==> tokens != [] && tokens[|tokens| - 1].kind == StreamEndKind && NoEnds(tokens[..|tokens| - 1])
    ensures ok && FlowDepth(tokens) == 0 ==> Balance(tokens) == 0
    ensures ok ==> Visible(tokens) == [Token(StreamStartKind, BEGINNING)] + AllShown(UpToEnd(input))
    ensures ok && Placed(input) ==>
              exists n | 0 <= n <= |input| :: RunCore(input[..n]).Some? && tokens <= RunCore(input[..n]).value.tokens
  {
    hide RunCore, Placed, NearKeys;
    hide Balance, NeverNegative, FlowDepth, EofSticky, EndsLast, NoEnds, Rising, KeysIncrease, OnlyBlockRequired,
         KeysFit, Visible, AllShown, UpToEnd;
    var scanner := new Scanner(input);
    tokens := [];
    NothingScanned();
    assert scanner.consumed + scanner.queue == [];
    ok := false;
    while true
      invariant fresh(scanner) && scanner.Valid() && !scanner.available && scanner.consumed == tokens
      invariant scanner.input == input && scanner.Ending() && scanner.Conserved() && scanner.Agreed()
      invariant NeverNegative(tokens) && NoEnds(tokens)
      decreases !scanner.started, |input| - scanner.next, |scanner.queue|
    {
      var more := scanner.FetchMoreTokens();
      if !more { return; }
      var token := scanner.Take();
      ghost var before := tokens;
      tokens := tokens + [token];
      NeverNegativePrefix(tokens, scanner.queue);
      if token.kind == StreamEndKind {
        assert tokens[..|tokens| - 1] == before;
        EndSeen(tokens, scanner.queue);
        BehindTheEnd(tokens, scanner.queue);
        assert EndsAt(tokens);
        ShownAtEnd(tokens, scanner.queue, input, scanner.next);
        assert tokens <= scanner.Now().tokens;
        return true, tokens;
      }
      NoEndsSnoc(before, token);
    }
  }

  lemma NoEndsSnoc(ts: seq<Token>, t: Token)
    ensures NoEnds(ts) && t.kind != StreamEndKind ==> NoEnds(ts + [t])
  {}

  lemma NoKeys(t: Token)
    ensures KeysFit([NO_KEY], 0, [t]) && KeysIncrease([NO_KEY]) && OnlyBlockRequired([NO_KEY]) && Rising([], -1)
  {}

  lemma NothingScanned()
    ensures NeverNegative([]) && NoEnds([]) && Balance([]) == 0 && FlowDepth([]) == 0
  {}
}
