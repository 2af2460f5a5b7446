/**
 The productions of the parser, on values.

 What a production does with the tokens ahead is a function from one configuration of the machine to
 an event and the next configuration, or to an error.  Every such step follows a transition table,
 and the table follows the automaton of the event language: the stacks have exactly the entries that
 the open collections call for, every token that carries content is turned into an event, and no
 cycle of states returns events without consuming tokens.
 */
module YamlProductions {
  import opened Options
  import opened YamlEvents

  datatype Token =
    | StreamStartToken
    | StreamEndToken
    | VersionDirectiveToken(major: int, minor: int)
    | TagDirectiveToken(handle: string, prefix: string)
    | DocumentStartToken
    | DocumentEndToken
    | BlockSequenceStartToken
    | BlockMappingStartToken
    | BlockEndToken
    | FlowSequenceStartToken
    | FlowSequenceEndToken
    | FlowMappingStartToken
    | FlowMappingEndToken
    | BlockEntryToken
    | FlowEntryToken
    | KeyToken
    | ValueToken
    | AliasToken(value: string)
    | AnchorToken(value: string)
    | TagToken(handle: string, suffix: string)
    | ScalarToken(value: string, style: ScalarStyle)

  /** The dispatcher's states.  Two states that run the same production differ in its flag. */
  datatype State =
    | StreamStartState
    | DocumentStartState(implicit: bool)
    | DocumentContentState
    | DocumentEndState
    | BlockNodeState
    | BlockNodeOrIndentlessSequenceState
    | FlowNodeState
    | BlockSequenceEntryState(first: bool)
    | IndentlessSequenceEntryState
    | BlockMappingKeyState(first: bool)
    | BlockMappingValueState
    | FlowSequenceEntryState(first: bool)
    | FlowSequenceEntryMappingKeyState
    | FlowSequenceEntryMappingValueState
    | FlowSequenceEntryMappingEndState
    | FlowMappingKeyState(first: bool)
    | FlowMappingValueState(empty: bool)
    | EndState
  {
    predicate ForSequence() {
      BlockSequenceEntryState? || IndentlessSequenceEntryState? || FlowSequenceEntryState?
    }

    /** The states of a single-pair mapping written inside a flow sequence.  The sequence has no
        entry of its own in `states`, so these stand for two open collections. */
    predicate ForPair() {
      || FlowSequenceEntryMappingKeyState? || FlowSequenceEntryMappingValueState?
      || FlowSequenceEntryMappingEndState?
    }

    predicate ForKey() {
      || BlockMappingKeyState? || FlowMappingKeyState?
      || FlowSequenceEntryMappingKeyState? || FlowSequenceEntryMappingEndState?
    }

    predicate ForValue() {
      BlockMappingValueState? || FlowMappingValueState? || FlowSequenceEntryMappingValueState?
    }

    predicate InCollection() { ForSequence() || ForKey() || ForValue() }

    /** The production has yet to consume the token that opened its collection. */
    predicate First() {
      (BlockSequenceEntryState? || BlockMappingKeyState? || FlowSequenceEntryState? || FlowMappingKeyState?)
      && first
    }

    /** How many open collections the state stands for. */
    function Arity(): nat {
      if ForPair() then 2 else if InCollection() then 1 else 0
    }
  }

  datatype Error = NoError | ScannerError | ParserError

  // ---------------------------------------------------------------------------------------------
  // How the state stack mirrors the open collections

  /** The innermost frames are those of state `s` once `extra` more nodes are attached. */
  predicate Shape(s: State, frames: seq<Frame>, extra: nat) {
    && s.Arity() <= |frames|
    && (s.ForSequence() ==> frames[|frames| - 1].start.SequenceStart?)
    && (s.ForKey() || s.ForValue() ==>
          && frames[|frames| - 1].start.MappingStart?
          && ((|frames[|frames| - 1].children| + extra) % 2 == 1 <==> s.ForValue()))
    && (s.ForPair() ==> frames[|frames| - 2].start.SequenceStart?)
  }

  predicate ResumesBlockMapping(states: seq<State>) {
    states != [] && var s := states[|states| - 1]; s == BlockMappingKeyState(false) || s.BlockMappingValueState?
  }

  /** The entries below the current state `s` continue the collections around its own. */
  predicate Below(s: State, states: seq<State>, frames: seq<Frame>, extra: nat)
    decreases |states|, 1
  {
    && Shape(s, frames, extra)
    && (s.IndentlessSequenceEntryState? ==> ResumesBlockMapping(states))
    && Awaits(states, frames[..|frames| - s.Arity()])
  }

  /** `states` holds where to go once a node has been attached below `frames`. */
  predicate Awaits(states: seq<State>, frames: seq<Frame>)
    decreases |states|, 0
  {
    && states != []
    && var k := |states| - 1;
       if states[k].DocumentEndState? then k == 0 && frames == []
       else states[k].InCollection() && !states[k].First() && Below(states[k], states[..k], frames, 1)
  }

  predicate Positioned(s: State, states: seq<State>, p: Partial) {
    if s.InCollection() then p.Inside? && p.root.None? && Below(s, states, p.frames, 0)
    else if s.StreamStartState? then p.Unstarted? && states == []
    else if s.DocumentStartState? then p.Between? && states == []
    else if s.EndState? then p.Complete? && states == []
    else if s.DocumentEndState? then p.Inside? && p.frames == [] && p.root.Some? && states == []
    else if s.DocumentContentState? || s.BlockNodeState? then
      p.Inside? && p.frames == [] && p.root.None? && states == [DocumentEndState]
    else false
  }

  /** Whether a collection in this state has pushed a mark. */
  function MarksOf(s: State): nat {
    if s.InCollection() && !s.First() && !s.IndentlessSequenceEntryState? then 1 else 0
  }

  function MarkCount(states: seq<State>): nat {
    if states == [] then 0 else MarkCount(states[..|states| - 1]) + MarksOf(states[|states| - 1])
  }

  /** A state entered by a start token still has that token at the head of the queue. */
  predicate HeadFits(s: State, tokens: seq<Token>, head: nat) {
    s.First() ==>
      && head < |tokens|
      && (s.BlockSequenceEntryState? ==> tokens[head] == BlockSequenceStartToken)
      && (s.BlockMappingKeyState? ==> tokens[head] == BlockMappingStartToken)
      && (s.FlowSequenceEntryState? ==> tokens[head] == FlowSequenceStartToken)
      && (s.FlowMappingKeyState? ==> tokens[head] == FlowMappingStartToken)
  }

  /** How many more events the parser may return from a state without consuming a token. */
  function Credit(s: State): (c: nat)
    ensures c <= 2
  {
    if s.DocumentContentState? || s.IndentlessSequenceEntryState?
       || s.FlowSequenceEntryMappingValueState? || (s.DocumentStartState? && s.implicit) then 2
    else if s.DocumentEndState? || s.BlockNodeState? || s.BlockMappingValueState?
            || s.FlowSequenceEntryMappingKeyState? || s.FlowSequenceEntryMappingEndState?
            || s.FlowMappingValueState? then 1
    else 0
  }

  // ---------------------------------------------------------------------------------------------
  // The transition table

  /** The parts of the machine that decide what comes next; `marks` is the depth of that stack. */
  datatype Config = Config(state: State, states: seq<State>, marks: nat, head: nat, ended: bool)

  /** Where a production goes once the node it asks for is complete. */
  predicate After(s: State, next: State) {
    if s.BlockSequenceEntryState? then next == BlockSequenceEntryState(false)
    else if s.IndentlessSequenceEntryState? then next == s
    else if s.BlockMappingKeyState? then next == BlockMappingValueState
    else if s.BlockMappingValueState? then next == BlockMappingKeyState(false)
    else if s.FlowSequenceEntryState? then next == FlowSequenceEntryState(false)
    else if s.FlowSequenceEntryMappingKeyState? then next == FlowSequenceEntryMappingValueState
    else if s.FlowSequenceEntryMappingValueState? then next == FlowSequenceEntryMappingEndState
    else if s.FlowMappingKeyState? then next.FlowMappingValueState?
    else if s.FlowMappingValueState? then next == FlowMappingKeyState(false)
    else false
  }

  /** The first state of a collection that event `e` opens, given the states that await it. */
  predicate Opened(e: Event, s: State, states: seq<State>) {
    || (e.SequenceStart? && (s == BlockSequenceEntryState(true) || s == FlowSequenceEntryState(true)))
    || (e.SequenceStart? && s.IndentlessSequenceEntryState? && ResumesBlockMapping(states))
    || (e.MappingStart? && (s == BlockMappingKeyState(true) || s == FlowMappingKeyState(true)))
  }

  function Started(s: State): nat {
    if s.First() then 1 else 0
  }

  /** The node is a leaf: the production moves on within its collection. */
  predicate Stays(c: Config, e: Event, d: Config) {
    && e.IsLeaf() && After(c.state, d.state) && d.states == c.states
    && d.marks == c.marks + Started(c.state)
  }

  /** The node is a collection: the production's continuation is pushed. */
  predicate Enters(c: Config, e: Event, d: Config) {
    && d.states != [] && After(c.state, d.states[|d.states| - 1])
    && d.states[..|d.states| - 1] == c.states
    && Opened(e, d.state, d.states)
    && d.marks == c.marks + Started(c.state)
  }

  /** The collection ends, and its own continuation is popped. */
  predicate Leaves(c: Config, e: Event, d: Config) {
    && !c.state.ForPair()
    && (if c.state.ForSequence() then e == SequenceEnd
        else (c.state.BlockMappingKeyState? || c.state.FlowMappingKeyState?) && e == MappingEnd)
    && c.states != []
    && d.state == c.states[|c.states| - 1] && d.states == c.states[..|c.states| - 1]
    && d.marks + MarksOf(c.state) == c.marks
  }

  predicate MovesPair(c: Config, e: Event, d: Config) {
    && d.states == c.states
    && (|| (&& c.state.FlowSequenceEntryState? && d.state.FlowSequenceEntryMappingKeyState?
            && e.MappingStart? && d.marks == c.marks + Started(c.state))
        || (&& c.state.FlowSequenceEntryMappingEndState? && d.state == FlowSequenceEntryState(false)
            && e == MappingEnd && d.marks == c.marks))
  }

  predicate MovesDocument(c: Config, e: Event, d: Config) {
    && d.marks == c.marks
    && (if c.state.StreamStartState? then
          e == StreamStart && d.state == DocumentStartState(true) && d.states == c.states
        else if c.state.DocumentStartState? then
          || (&& e.DocumentStart? && (d.state.BlockNodeState? || d.state.DocumentContentState?)
              && d.states == c.states + [DocumentEndState])
          || (e == StreamEnd && d.state.EndState? && d.states == c.states)
        else if c.state.DocumentEndState? then
          e.DocumentEnd? && d.state == DocumentStartState(false) && d.states == c.states
        else
          && (c.state.DocumentContentState? || c.state.BlockNodeState?) && c.states != []
          && (|| (&& e.IsLeaf() && d.state == c.states[|c.states| - 1]
                  && d.states == c.states[..|c.states| - 1])
              || (Opened(e, d.state, d.states) && d.states == c.states)))
  }

  /** One event: the machine follows the table, keeps a start token for the production that
      expects it, and either consumes a token or spends credit. */
  predicate Transition(tokens: seq<Token>, c: Config, e: Event, d: Config) {
    && c.head <= d.head <= |tokens|
    && (c.head < d.head || Credit(d.state) < Credit(c.state))
    && HeadFits(d.state, tokens, d.head)
    && (d.ended <==> d.state.EndState?)
    && (Stays(c, e, d) || Enters(c, e, d) || Leaves(c, e, d) || MovesPair(c, e, d) || MovesDocument(c, e, d))
  }

  predicate Resumable(s: State) {
    s.DocumentEndState? || (s.InCollection() && !s.First())
  }

  /** The facts about the stacks a production relies on. */
  predicate Usable(tokens: seq<Token>, c: Config) {
    && c.head <= |tokens|
    && (c.state.InCollection() || c.state.DocumentContentState? || c.state.BlockNodeState? ==> c.states != [])
    && (c.states != [] ==> Resumable(c.states[|c.states| - 1]))
    && (c.state.DocumentContentState? || c.state.BlockNodeState? ==> c.states == [DocumentEndState])
    && (c.state.IndentlessSequenceEntryState? ==> ResumesBlockMapping(c.states))
    && MarksOf(c.state) <= c.marks
    && HeadFits(c.state, tokens, c.head)
    && (c.ended <==> c.state.EndState?)
  }

  predicate InStep(tokens: seq<Token>, c: Config, p: Partial) {
    && Usable(tokens, c)
    && Positioned(c.state, c.states, p)
    && c.marks == MarkCount(c.states) + MarksOf(c.state)
  }

  lemma {:induction false} AttachResumes(states: seq<State>, p: Partial, n: Node)
    requires p.Inside? && p.root.None? && Awaits(states, p.frames)
    ensures Positioned(states[|states| - 1], states[..|states| - 1], Attach(p, n))
    ensures !states[|states| - 1].First()
  {
    var k := |states| - 1;
    var s := states[k];
    if !s.DocumentEndState? {
      hide Attach;
      AttachTop(p, n);
      ShapeAttached(s, p.frames, Attach(p, n).frames);
      hide Shape;
    }
  }

  lemma {:induction false} AttachTop(p: Partial, n: Node)
    requires p.Inside? && p.root.None? && p.frames != []
    ensures Attach(p, n).Inside? && Attach(p, n).root.None? && OneMore(p.frames, Attach(p, n).frames)
  {}

  /** The innermost of the open collections has one more child. */
  predicate OneMore(f: seq<Frame>, g: seq<Frame>) {
    && |f| == |g| > 0
    && var k := |f| - 1;
       g[..k] == f[..k] && g[k].start == f[k].start && |g[k].children| == |f[k].children| + 1
  }

  lemma {:induction false} ShapeAttached(s: State, f: seq<Frame>, g: seq<Frame>)
    requires s.InCollection() && Shape(s, f, 1) && OneMore(f, g)
    ensures Shape(s, g, 0) && g[..|g| - s.Arity()] == f[..|f| - s.Arity()]
  {
    var k := |f| - 1;
    assert g[..k] == f[..k];
    if s.ForPair() { assert g[..k][k - 1] == g[k - 1] && f[..k][k - 1] == f[k - 1]; }
    assert g[..k][..|g| - s.Arity()] == g[..|g| - s.Arity()];
    assert f[..k][..|f| - s.Arity()] == f[..|f| - s.Arity()];
  }

  lemma {:induction false} OpenCollection(states: seq<State>, p: Partial, e: Event, s: State)
    requires p.Inside? && p.root.None? && Awaits(states, p.frames)
    requires Opened(e, s, states)
    ensures Feed(p, e).Some? && Positioned(s, states, Feed(p, e).value) && MarksOf(s) == 0
  {
    hide Awaits, ResumesBlockMapping;
    var q := p.(frames := p.frames + [Frame(e, [])]);
    assert Feed(p, e) == Some(q);
    hide Feed;
    assert q.frames[..|p.frames|] == p.frames;
    assert Shape(s, q.frames, 0);
    hide Shape;
  }

  /** A collection state may be pushed to wait for one more child of its own collection. */
  lemma {:induction false} PushAwaits(s: State, states: seq<State>, frames: seq<Frame>, next: State)
    requires s.InCollection() && Below(s, states, frames, 0) && After(s, next)
    ensures Awaits(states + [next], frames)
    ensures MarkCount(states + [next]) == MarkCount(states) + MarksOf(next)
    ensures MarksOf(next) == MarksOf(s) + Started(s)
  {
    assert (states + [next])[..|states|] == states;
  }

  lemma {:induction false} InsideCollection(s: State, states: seq<State>, p: Partial)
    requires Positioned(s, states, p) && s.InCollection()
    ensures p.Inside? && p.root.None? && Below(s, states, p.frames, 0)
    ensures Shape(s, p.frames, 0) && Awaits(states, p.frames[..|p.frames| - s.Arity()]) && states != []
    ensures Resumable(states[|states| - 1])
    ensures s.IndentlessSequenceEntryState? ==> ResumesBlockMapping(states)
  {
    hide MarkCount;
    assert Awaits(states, p.frames[..|p.frames| - s.Arity()]);
  }

  lemma {:induction false} MarkPop(states: seq<State>)
    requires states != []
    ensures MarkCount(states) == MarkCount(states[..|states| - 1]) + MarksOf(states[|states| - 1])
  {}

  lemma {:induction false} StaysKeeps(c: Config, p: Partial, e: Event, d: Config)
    requires Positioned(c.state, c.states, p) && c.marks == MarkCount(c.states) + MarksOf(c.state)
    requires Stays(c, e, d)
    ensures Feed(p, e).Some? && Positioned(d.state, d.states, Feed(p, e).value)
    ensures d.marks == MarkCount(d.states) + MarksOf(d.state)
  {
    hide Positioned, Awaits, Below, Shape, MarkCount;
    InsideCollection(c.state, c.states, p);
    PushAwaits(c.state, c.states, p.frames, d.state);
    AttachResumes(c.states + [d.state], p, Leaf(e));
    assert (c.states + [d.state])[..|c.states|] == c.states;
  }

  lemma {:induction false} EntersKeeps(c: Config, p: Partial, e: Event, d: Config)
    requires Positioned(c.state, c.states, p) && c.marks == MarkCount(c.states) + MarksOf(c.state)
    requires Enters(c, e, d)
    ensures Feed(p, e).Some? && Positioned(d.state, d.states, Feed(p, e).value)
    ensures d.marks == MarkCount(d.states) + MarksOf(d.state)
  {
    hide Positioned, Awaits, Below, Shape, MarkCount, Feed;
    InsideCollection(c.state, c.states, p);
    var next := d.states[|d.states| - 1];
    PushAwaits(c.state, c.states, p.frames, next);
    assert d.states == c.states + [next];
    OpenCollection(d.states, p, e, d.state);
  }

  lemma {:induction false} LeavesKeeps(c: Config, p: Partial, e: Event, d: Config)
    requires Positioned(c.state, c.states, p) && c.marks == MarkCount(c.states) + MarksOf(c.state)
    requires Leaves(c, e, d)
    ensures Feed(p, e).Some? && Positioned(d.state, d.states, Feed(p, e).value)
    ensures d.marks == MarkCount(d.states) + MarksOf(d.state)
  {
    hide Positioned, Awaits, Below, MarkCount, Attach;
    InsideCollection(c.state, c.states, p);
    var k := |p.frames| - 1;
    var top := p.frames[k];
    AttachResumes(c.states, p.(frames := p.frames[..k]), Collection(top.start, top.children));
    MarkPop(c.states);
  }

  lemma {:induction false} PairKeeps(c: Config, p: Partial, e: Event, d: Config)
    requires Positioned(c.state, c.states, p) && c.marks == MarkCount(c.states) + MarksOf(c.state)
    requires MovesPair(c, e, d)
    ensures Feed(p, e).Some? && Positioned(d.state, d.states, Feed(p, e).value)
    ensures d.marks == MarkCount(d.states) + MarksOf(d.state)
  {
    hide Positioned, Awaits, Below, Shape, MarkCount, Feed;
    InsideCollection(c.state, c.states, p);
    DeepEnough(c.state, p.frames);
    if c.state.FlowSequenceEntryState? {
      PairOpens(p, c.states, e, c.state, d.state);
    } else {
      PairCloses(p, c.states, e, d.state);
    }
  }

  lemma {:induction false} DeepEnough(s: State, frames: seq<Frame>)
    requires Shape(s, frames, 0)
    ensures s.Arity() <= |frames|
  {}

  lemma {:induction false} PairOpens(p: Partial, states: seq<State>, e: Event, s: State, next: State)
    requires p.Inside? && p.root.None? && p.frames != []
    requires Shape(s, p.frames, 0) && Awaits(states, p.frames[..|p.frames| - 1])
    requires s.FlowSequenceEntryState? && next.FlowSequenceEntryMappingKeyState? && e.MappingStart?
    ensures Feed(p, e).Some? && Positioned(next, states, Feed(p, e).value)
  {
    hide Awaits, MarkCount;
    var q := Feed(p, e).value;
    assert q.frames[..|q.frames| - 2] == p.frames[..|p.frames| - 1];
  }

  lemma {:induction false} PairCloses(p: Partial, states: seq<State>, e: Event, next: State)
    requires p.Inside? && p.root.None? && |p.frames| >= 2 && Shape(FlowSequenceEntryMappingEndState, p.frames, 0)
    requires Awaits(states, p.frames[..|p.frames| - 2]) && e == MappingEnd && next == FlowSequenceEntryState(false)
    ensures Feed(p, e).Some? && Positioned(next, states, Feed(p, e).value)
  {
    hide Awaits, MarkCount;
    var q := Feed(p, e).value;
    assert q.frames[..|q.frames| - 1] == p.frames[..|p.frames| - 2];
  }

  /** The position of the document's root node: its only continuation ends the document. */
  lemma {:induction false} AtRoot(s: State, states: seq<State>, p: Partial)
    requires Positioned(s, states, p) && (s.DocumentContentState? || s.BlockNodeState?)
    ensures p.Inside? && p.root.None? && Awaits(states, p.frames)
    ensures states == [DocumentEndState] && MarkCount(states) == 0
  {}

  lemma {:induction false} RootKeeps(c: Config, p: Partial, e: Event, d: Config)
    requires Positioned(c.state, c.states, p) && c.marks == MarkCount(c.states) + MarksOf(c.state)
    requires c.state.DocumentContentState? || c.state.BlockNodeState?
    requires MovesDocument(c, e, d)
    ensures Feed(p, e).Some? && Positioned(d.state, d.states, Feed(p, e).value)
    ensures d.marks == MarkCount(d.states) + MarksOf(d.state)
  {
    hide Positioned, Awaits, Below, Shape, MarkCount, Attach;
    AtRoot(c.state, c.states, p);
    if e.IsLeaf() {
      AttachResumes(c.states, p, Leaf(e));
      MarkPop(c.states);
    } else {
      OpenCollection(d.states, p, e, d.state);
    }
  }

  lemma {:induction false} DocumentKeeps(c: Config, p: Partial, e: Event, d: Config)
    requires Positioned(c.state, c.states, p) && c.marks == MarkCount(c.states) + MarksOf(c.state)
    requires MovesDocument(c, e, d)
    ensures Feed(p, e).Some? && Positioned(d.state, d.states, Feed(p, e).value)
    ensures d.marks == MarkCount(d.states) + MarksOf(d.state)
  {
    hide Awaits, Below, Shape, MarkCount;
    MarkNone();
    if c.state.DocumentContentState? || c.state.BlockNodeState? {
      hide Positioned, Feed, MovesDocument;
      RootKeeps(c, p, e, d);
    } else if c.state.DocumentStartState? && e.DocumentStart? {
      assert [] + [DocumentEndState] == [DocumentEndState];
    } else {
      assert d.states == c.states == [];
    }
  }

  lemma {:induction false} MarkNone()
    ensures MarkCount([]) == 0 && MarkCount([DocumentEndState]) == 0
  {
    assert [DocumentEndState][..0] == [];
  }

  lemma {:induction false} UsableAgain(tokens: seq<Token>, c: Config, p: Partial)
    requires Positioned(c.state, c.states, p) && c.marks == MarkCount(c.states) + MarksOf(c.state)
    requires c.head <= |tokens| && HeadFits(c.state, tokens, c.head) && (c.ended <==> c.state.EndState?)
    ensures InStep(tokens, c, p)
  {
    hide Awaits, Below, Shape, MarkCount;
    if c.state.InCollection() {
      InsideCollection(c.state, c.states, p);
    }
  }

  /** Every transition of the table follows the event language: the event is one the automaton
      accepts, and the stacks again mirror what is open. */
  lemma {:induction false} TransitionKeeps(tokens: seq<Token>, c: Config, p: Partial, e: Event, d: Config)
    requires InStep(tokens, c, p) && Transition(tokens, c, e, d)
    ensures Feed(p, e).Some? && InStep(tokens, d, Feed(p, e).value)
  {
    hide Positioned, MarkCount, Stays, Enters, Leaves, MovesPair, MovesDocument, Feed;
    if Stays(c, e, d) {
      StaysKeeps(c, p, e, d);
    } else if Enters(c, e, d) {
      EntersKeeps(c, p, e, d);
    } else if Leaves(c, e, d) {
      LeavesKeeps(c, p, e, d);
    } else if MovesPair(c, e, d) {
      PairKeeps(c, p, e, d);
    } else {
      DocumentKeeps(c, p, e, d);
    }
    UsableAgain(tokens, d, Feed(p, e).value);
  }

  // ---------------------------------------------------------------------------------------------
  // The content that tokens and events carry

  datatype Content = AnchorName(name: string) | AliasName(name: string) | Text(text: string, style: ScalarStyle)

  function NonEmptyAnchor(a: string): seq<Content> {
    if a == "" then [] else [AnchorName(a)]
  }

  function NonEmptyText(v: string, style: ScalarStyle): seq<Content> {
    if v == "" then [] else [Text(v, style)]
  }

  function TokenContent(t: Token): seq<Content> {
    if t.AliasToken? then [AliasName(t.value)]
    else if t.AnchorToken? then NonEmptyAnchor(t.value)
    else if t.ScalarToken? then NonEmptyText(t.value, t.style)
    else []
  }

  function EventContent(e: Event): seq<Content> {
    if e.Alias? then [AliasName(e.anchor)]
    else if e.Scalar? then NonEmptyAnchor(e.anchor) + NonEmptyText(e.value, e.style)
    else if e.SequenceStart? || e.MappingStart? then NonEmptyAnchor(e.anchor)
    else []
  }

  /** The content of the first `n` tokens. */
  function TokensContent(ts: seq<Token>, n: nat): seq<Content>
    requires n <= |ts|
  {
    if n == 0 then [] else TokensContent(ts, n - 1) + TokenContent(ts[n - 1])
  }

  function EventsContent(es: seq<Event>): seq<Content> {
    if es == [] then [] else EventsContent(es[..|es| - 1]) + EventContent(es[|es| - 1])
  }

  // ---------------------------------------------------------------------------------------------
  // Tag directives

  const DEFAULT_TAG_DIRECTIVES: seq<TagDirective> :=
    [TagDirective("!", "!"), TagDirective("!!", "tag:yaml.org,2002:")]

  /** A child of the collection of `c`, which continues in `next`: a leaf or a new collection. */
  lemma ChildSteps(tokens: seq<Token>, c: Config, next: State, e: Event, d: Config)
    requires After(c.state, next) && d.marks == c.marks + Started(c.state)
    requires c.head <= d.head <= |tokens| && (c.head == d.head ==> Credit(c.state) > 0)
    requires HeadFits(d.state, tokens, d.head) && !d.ended && !d.state.EndState?
    requires || (e.IsLeaf() && c.head < d.head && d.state == next && d.states == c.states)
             || (&& Opened(e, d.state, d.states) && d.states == c.states + [next]
                 && (d.state.IndentlessSequenceEntryState? ==> c.head < d.head))
    ensures Transition(tokens, c, e, d)
  {
    hide HeadFits;
    if e.IsLeaf() {
      assert Stays(c, e, d);
    } else {
      assert Enters(c, e, d);
    }
  }

  lemma DocumentSteps(tokens: seq<Token>, c: Config, e: Event, d: Config)
    requires c.state.DocumentStartState? && d.marks == c.marks && c.head <= d.head <= |tokens|
    requires c.head == d.head ==> d.state.BlockNodeState? && c.state.implicit
    requires d.ended <==> d.state.EndState?
    requires || (&& e.DocumentStart? && (d.state.BlockNodeState? || d.state.DocumentContentState?)
                 && d.states == c.states + [DocumentEndState])
             || (e == StreamEnd && d.state.EndState? && d.states == c.states)
    ensures Transition(tokens, c, e, d)
  {
    assert MovesDocument(c, e, d);
  }

  /** A single-pair mapping starts inside a flow sequence. */
  lemma PairSteps(tokens: seq<Token>, c: Config, e: Event, d: Config)
    requires c.state.FlowSequenceEntryState? && d.state.FlowSequenceEntryMappingKeyState? && e.MappingStart?
    requires d.states == c.states && d.marks == c.marks + Started(c.state) && c.head < d.head <= |tokens| && !d.ended
    ensures Transition(tokens, c, e, d)
  {
    assert MovesPair(c, e, d);
  }

  // ---------------------------------------------------------------------------------------------
  // What the productions do

  datatype Machine = Machine(cfg: Config, directives: seq<TagDirective>)

  datatype Step = Stuck(error: Error) | Next(event: Event, machine: Machine)

  /** The stream has ended when the last token consumed says so. */
  predicate EndedAt(tokens: seq<Token>, h: nat) {
    0 < h <= |tokens| && tokens[h - 1].StreamEndToken?
  }

  /** The step to a configuration with these parts. */
  function To(tokens: seq<Token>, e: Event, s: State, states: seq<State>, marks: nat, h: nat,
              ds: seq<TagDirective>): Step {
    Next(e, Machine(Config(s, states, marks, h, EndedAt(tokens, h)), ds))
  }

  function PrefixOf(ds: seq<TagDirective>, handle: string): Option<string> {
    if ds == [] then None else if ds[0].handle == handle then Some(ds[0].prefix) else PrefixOf(ds[1..], handle)
  }

  /** The tag that a handle and a suffix stand for; it must not be empty if there is a handle. */
  function TagOf(ds: seq<TagDirective>, handle: string, suffix: string): Option<string> {
    if handle == "" then Some(suffix)
    else
      match PrefixOf(ds, handle)
      case None => None
      case Some(prefix) => if prefix + suffix == "" then None else Some(prefix + suffix)
  }

  /** An anchor and a tag, and where the content starts. */
  datatype Properties = Properties(anchor: string, tag: string, head: nat) | Unreadable(error: Error)

  function WithTag(tokens: seq<Token>, h: nat, anchor: string, tag: Option<string>): Properties {
    if h >= |tokens| then Unreadable(ScannerError)
    else if tag.None? then Unreadable(ParserError)
    else Properties(anchor, tag.value, h)
  }

  function PropertiesAt(tokens: seq<Token>, h: nat, ds: seq<TagDirective>): Properties
    requires h < |tokens|
  {
    if tokens[h].AnchorToken? then
      if h + 1 >= |tokens| then Unreadable(ScannerError)
      else if tokens[h + 1].TagToken? then
        WithTag(tokens, h + 2, tokens[h].value, TagOf(ds, tokens[h + 1].handle, tokens[h + 1].suffix))
      else Properties(tokens[h].value, "", h + 1)
    else if tokens[h].TagToken? then
      var tag := TagOf(ds, tokens[h].handle, tokens[h].suffix);
      if h + 1 >= |tokens| then Unreadable(ScannerError)
      else if tokens[h + 1].AnchorToken? then WithTag(tokens, h + 2, tokens[h + 1].value, tag)
      else WithTag(tokens, h + 1, "", tag)
    else Properties("", "", h)
  }

  /** A scalar with the flags that its tag and its style imply. */
  function ScalarOf(anchor: string, tag: string, value: string, style: ScalarStyle): Event {
    var plain := (tag == "" && style == Plain) || tag == "!";
    Scalar(anchor, tag, value, plain, !plain && tag == "", style)
  }

  /** What follows the properties. */
  function ContentAt(tokens: seq<Token>, p: Properties, states: seq<State>, marks: nat, ds: seq<TagDirective>,
                     block: bool, indentless: bool): Step
    requires p.Properties? && p.head < |tokens| && states != []
  {
    var (h, t, implicit) := (p.head, tokens[p.head], p.tag == "");
    var (top, below) := (states[|states| - 1], states[..|states| - 1]);
    if indentless && t.BlockEntryToken? then
      To(tokens, SequenceStart(p.anchor, p.tag, implicit, false), IndentlessSequenceEntryState, states, marks, h, ds)
    else if t.ScalarToken? then
      To(tokens, ScalarOf(p.anchor, p.tag, t.value, t.style), top, below, marks, h + 1, ds)
    else if t.FlowSequenceStartToken? then
      To(tokens, SequenceStart(p.anchor, p.tag, implicit, true), FlowSequenceEntryState(true), states, marks, h, ds)
    else if t.FlowMappingStartToken? then
      To(tokens, MappingStart(p.anchor, p.tag, implicit, true), FlowMappingKeyState(true), states, marks, h, ds)
    else if block && t.BlockSequenceStartToken? then
      To(tokens, SequenceStart(p.anchor, p.tag, implicit, false), BlockSequenceEntryState(true), states, marks, h, ds)
    else if block && t.BlockMappingStartToken? then
      To(tokens, MappingStart(p.anchor, p.tag, implicit, false), BlockMappingKeyState(true), states, marks, h, ds)
    else if p.anchor != "" || p.tag != "" then
      To(tokens, Scalar(p.anchor, p.tag, "", implicit, false, Plain), top, below, marks, h, ds)
    else Stuck(ParserError)
  }

  function NodeAt(tokens: seq<Token>, h: nat, states: seq<State>, marks: nat, ds: seq<TagDirective>,
                  block: bool, indentless: bool): Step
    requires states != []
  {
    if h >= |tokens| then Stuck(ScannerError)
    else if tokens[h].AliasToken? then
      To(tokens, Alias(tokens[h].value), states[|states| - 1], states[..|states| - 1], marks, h + 1, ds)
    else
      var p := PropertiesAt(tokens, h, ds);
      match p
      case Unreadable(error) => Stuck(error)
      case Properties(_, _, _) => ContentAt(tokens, p, states, marks, ds, block, indentless)
  }

  /** The version, the tag directives, and what becomes of the parser's own directives. */
  datatype Directives =
    | Directives(version: Option<Version>, tags: seq<TagDirective>, known: seq<TagDirective>, head: nat)
    | BadDirectives(error: Error)

  function DirectivesAt(tokens: seq<Token>, h: nat, version: Option<Version>, tags: seq<TagDirective>,
                        known: seq<TagDirective>): Directives
    decreases |tokens| - h
  {
    if h >= |tokens| then BadDirectives(ScannerError)
    else if tokens[h].VersionDirectiveToken? then
      if version.Some? || tokens[h].major != 1 || tokens[h].minor != 1 then BadDirectives(ParserError)
      else DirectivesAt(tokens, h + 1, Some(Version(tokens[h].major, tokens[h].minor)), tags, known)
    else if tokens[h].TagDirectiveToken? then
      if HasHandle(known, tokens[h].handle) then BadDirectives(ParserError)
      else
        var d := TagDirective(tokens[h].handle, tokens[h].prefix);
        DirectivesAt(tokens, h + 1, version, tags + [d], known + [d])
    else Directives(version, tags, WithDefaults(known), h)
  }

  function WithDirective(ds: seq<TagDirective>, d: TagDirective): seq<TagDirective> {
    if HasHandle(ds, d.handle) then ds else ds + [d]
  }

  function WithDefaults(ds: seq<TagDirective>): seq<TagDirective> {
    WithDirective(WithDirective(ds, DEFAULT_TAG_DIRECTIVES[0]), DEFAULT_TAG_DIRECTIVES[1])
  }

  /** The first token that does not end a document. */
  function BehindDocumentEnds(tokens: seq<Token>, h: nat): nat
    decreases |tokens| - h
  {
    if h < |tokens| && tokens[h].DocumentEndToken? then BehindDocumentEnds(tokens, h + 1) else h
  }

  predicate StartsDocument(t: Token) {
    t.VersionDirectiveToken? || t.TagDirectiveToken? || t.DocumentStartToken?
  }

  function StreamStartStep(tokens: seq<Token>, c: Config, ds: seq<TagDirective>): Step {
    if c.head >= |tokens| then Stuck(ScannerError)
    else if !tokens[c.head].StreamStartToken? then Stuck(ParserError)
    else To(tokens, StreamStart, DocumentStartState(true), c.states, c.marks, c.head + 1, ds)
  }

  function DocumentStartStep(tokens: seq<Token>, c: Config, ds: seq<TagDirective>, implicit: bool): Step {
    var h := if implicit then c.head else BehindDocumentEnds(tokens, c.head);
    if h >= |tokens| then Stuck(ScannerError)
    else if tokens[h].StreamEndToken? then To(tokens, StreamEnd, EndState, c.states, c.marks, h + 1, ds)
    else if implicit && !StartsDocument(tokens[h]) then ImplicitStartStep(tokens, c, h, ds)
    else ExplicitStartStep(tokens, c, h, ds)
  }

  function ImplicitStartStep(tokens: seq<Token>, c: Config, h: nat, ds: seq<TagDirective>): Step {
    match DirectivesAt(tokens, h, None, [], ds)
    case BadDirectives(error) => Stuck(error)
    case Directives(_, _, known, k) =>
      To(tokens, DocumentStart(None, [], false), BlockNodeState, c.states + [DocumentEndState], c.marks, k, known)
  }

  function ExplicitStartStep(tokens: seq<Token>, c: Config, h: nat, ds: seq<TagDirective>): Step {
    match DirectivesAt(tokens, h, None, [], ds)
    case BadDirectives(error) => Stuck(error)
    case Directives(version, tags, known, k) =>
      if k >= |tokens| then Stuck(ScannerError)
      else if !tokens[k].DocumentStartToken? then Stuck(ParserError)
      else
        To(tokens, DocumentStart(version, tags, false), DocumentContentState, c.states + [DocumentEndState], c.marks,
           k + 1, known)
  }

  function DocumentContentStep(tokens: seq<Token>, c: Config, ds: seq<TagDirective>): Step
    requires c.states != []
  {
    if c.head >= |tokens| then Stuck(ScannerError)
    else
      var t := tokens[c.head];
      if StartsDocument(t) || t.DocumentEndToken? || t.StreamEndToken? then
        To(tokens, FILLER, c.states[|c.states| - 1], c.states[..|c.states| - 1], c.marks, c.head, ds)
      else NodeAt(tokens, c.head, c.states, c.marks, ds, true, false)
  }

  function DocumentEndStep(tokens: seq<Token>, c: Config): Step {
    if c.head >= |tokens| then Stuck(ScannerError)
    else if tokens[c.head].DocumentEndToken? then
      To(tokens, DocumentEnd(false), DocumentStartState(false), c.states, c.marks, c.head + 1, [])
    else To(tokens, DocumentEnd(true), DocumentStartState(false), c.states, c.marks, c.head, [])
  }

  /** An empty node: the production goes on without one. */
  function EmptyStep(tokens: seq<Token>, c: Config, marks: nat, h: nat, ds: seq<TagDirective>, next: State): Step {
    To(tokens, FILLER, next, c.states, marks, h, ds)
  }

  /** A node at `h`, after which the production goes on. */
  function ChildStep(tokens: seq<Token>, c: Config, marks: nat, h: nat, ds: seq<TagDirective>, next: State,
                     block: bool, indentless: bool): Step {
    NodeAt(tokens, h, c.states + [next], marks, ds, block, indentless)
  }

  /** The end of a collection at `h`. */
  function CloseStep(tokens: seq<Token>, c: Config, marks: nat, h: nat, ds: seq<TagDirective>, end: Event): Step
    requires c.states != [] && marks > 0
  {
    To(tokens, end, c.states[|c.states| - 1], c.states[..|c.states| - 1], marks - 1, h + 1, ds)
  }

  function BlockSequenceEntryStep(tokens: seq<Token>, c: Config, ds: seq<TagDirective>): Step
    requires c.states != [] && c.marks + Started(c.state) > 0
  {
    BlockItemStep(tokens, c, c.marks + Started(c.state), c.head + Started(c.state), ds)
  }

  function BlockItemStep(tokens: seq<Token>, c: Config, marks: nat, h: nat, ds: seq<TagDirective>): Step
    requires c.states != [] && marks > 0
  {
    if h >= |tokens| then Stuck(ScannerError)
    else if tokens[h].BlockEntryToken? then
      if h + 1 >= |tokens| then Stuck(ScannerError)
      else if tokens[h + 1].BlockEntryToken? || tokens[h + 1].BlockEndToken? then
        EmptyStep(tokens, c, marks, h + 1, ds, BlockSequenceEntryState(false))
      else ChildStep(tokens, c, marks, h + 1, ds, BlockSequenceEntryState(false), true, false)
    else if tokens[h].BlockEndToken? then CloseStep(tokens, c, marks, h, ds, SequenceEnd)
    else Stuck(ParserError)
  }

  function IndentlessSequenceEntryStep(tokens: seq<Token>, c: Config, ds: seq<TagDirective>): Step
    requires c.states != []
  {
    var h := c.head;
    if h >= |tokens| then Stuck(ScannerError)
    else if tokens[h].BlockEntryToken? then
      if h + 1 >= |tokens| then Stuck(ScannerError)
      else if tokens[h + 1].BlockEntryToken? || tokens[h + 1].KeyToken? || tokens[h + 1].ValueToken?
              || tokens[h + 1].BlockEndToken? then
        EmptyStep(tokens, c, c.marks, h + 1, ds, IndentlessSequenceEntryState)
      else ChildStep(tokens, c, c.marks, h + 1, ds, IndentlessSequenceEntryState, true, false)
    else To(tokens, SequenceEnd, c.states[|c.states| - 1], c.states[..|c.states| - 1], c.marks, h, ds)
  }

  predicate EndsBlockNode(t: Token) { t.KeyToken? || t.ValueToken? || t.BlockEndToken? }

  function BlockMappingKeyStep(tokens: seq<Token>, c: Config, ds: seq<TagDirective>): Step
    requires c.states != [] && c.marks + Started(c.state) > 0
  {
    BlockKeyStep(tokens, c, c.marks + Started(c.state), c.head + Started(c.state), ds)
  }

  function BlockKeyStep(tokens: seq<Token>, c: Config, marks: nat, h: nat, ds: seq<TagDirective>): Step
    requires c.states != [] && marks > 0
  {
    if h >= |tokens| then Stuck(ScannerError)
    else if tokens[h].KeyToken? then
      if h + 1 >= |tokens| then Stuck(ScannerError)
      else if EndsBlockNode(tokens[h + 1]) then EmptyStep(tokens, c, marks, h + 1, ds, BlockMappingValueState)
      else ChildStep(tokens, c, marks, h + 1, ds, BlockMappingValueState, true, true)
    else if tokens[h].BlockEndToken? then CloseStep(tokens, c, marks, h, ds, MappingEnd)
    else Stuck(ParserError)
  }

  function BlockMappingValueStep(tokens: seq<Token>, c: Config, ds: seq<TagDirective>): Step {
    var h := c.head;
    if h >= |tokens| then Stuck(ScannerError)
    else if !tokens[h].ValueToken? then EmptyStep(tokens, c, c.marks, h, ds, BlockMappingKeyState(false))
    else if h + 1 >= |tokens| then Stuck(ScannerError)
    else if EndsBlockNode(tokens[h + 1]) then EmptyStep(tokens, c, c.marks, h + 1, ds, BlockMappingKeyState(false))
    else ChildStep(tokens, c, c.marks, h + 1, ds, BlockMappingKeyState(false), true, true)
  }

  function FlowSequenceEntryStep(tokens: seq<Token>, c: Config, ds: seq<TagDirective>, first: bool): Step
    requires c.states != [] && c.marks + Started(c.state) > 0
  {
    FlowItemsStep(tokens, c, c.marks + Started(c.state), c.head + Started(c.state), ds, first)
  }

  /** The end, or another entry behind a comma; the first entry needs none. */
  function FlowItemsStep(tokens: seq<Token>, c: Config, marks: nat, h: nat, ds: seq<TagDirective>, first: bool): Step
    requires c.states != [] && marks > 0
  {
    if h >= |tokens| then Stuck(ScannerError)
    else if tokens[h].FlowSequenceEndToken? then CloseStep(tokens, c, marks, h, ds, SequenceEnd)
    else if first then FlowItemStep(tokens, c, marks, h, ds)
    else if tokens[h].FlowEntryToken? then FlowItemStep(tokens, c, marks, h + 1, ds)
    else Stuck(ParserError)
  }

  /** Behind the comma. */
  function FlowItemStep(tokens: seq<Token>, c: Config, marks: nat, h: nat, ds: seq<TagDirective>): Step
    requires c.states != [] && marks > 0
  {
    if h >= |tokens| then Stuck(ScannerError)
    else if tokens[h].KeyToken? then
      To(tokens, MappingStart("", "", true, true), FlowSequenceEntryMappingKeyState, c.states, marks, h + 1, ds)
    else if tokens[h].FlowSequenceEndToken? then CloseStep(tokens, c, marks, h, ds, SequenceEnd)
    else ChildStep(tokens, c, marks, h, ds, FlowSequenceEntryState(false), false, false)
  }

  /** The token that shows the key to be empty is consumed, whichever it is. */
  function PairKeyStep(tokens: seq<Token>, c: Config, ds: seq<TagDirective>): Step {
    var h := c.head;
    if h >= |tokens| then Stuck(ScannerError)
    else if tokens[h].ValueToken? || tokens[h].FlowEntryToken? || tokens[h].FlowSequenceEndToken? then
      EmptyStep(tokens, c, c.marks, h + 1, ds, FlowSequenceEntryMappingValueState)
    else ChildStep(tokens, c, c.marks, h, ds, FlowSequenceEntryMappingValueState, false, false)
  }

  function PairValueStep(tokens: seq<Token>, c: Config, ds: seq<TagDirective>): Step {
    var h := c.head;
    if h >= |tokens| then Stuck(ScannerError)
    else if !tokens[h].ValueToken? then EmptyStep(tokens, c, c.marks, h, ds, FlowSequenceEntryMappingEndState)
    else if h + 1 >= |tokens| then Stuck(ScannerError)
    else if tokens[h + 1].FlowEntryToken? || tokens[h + 1].FlowSequenceEndToken? then
      EmptyStep(tokens, c, c.marks, h + 1, ds, FlowSequenceEntryMappingEndState)
    else ChildStep(tokens, c, c.marks, h + 1, ds, FlowSequenceEntryMappingEndState, false, false)
  }

  function PairEndStep(tokens: seq<Token>, c: Config, ds: seq<TagDirective>): Step {
    if c.head >= |tokens| then Stuck(ScannerError)
    else To(tokens, MappingEnd, FlowSequenceEntryState(false), c.states, c.marks, c.head, ds)
  }

  function FlowMappingKeyStep(tokens: seq<Token>, c: Config, ds: seq<TagDirective>, first: bool): Step
    requires c.states != [] && c.marks + Started(c.state) > 0
  {
    FlowKeysStep(tokens, c, c.marks + Started(c.state), c.head + Started(c.state), ds, first)
  }

  /** The end, or another entry behind a comma; the first entry needs none. */
  function FlowKeysStep(tokens: seq<Token>, c: Config, marks: nat, h: nat, ds: seq<TagDirective>, first: bool): Step
    requires c.states != [] && marks > 0
  {
    if h >= |tokens| then Stuck(ScannerError)
    else if tokens[h].FlowMappingEndToken? then CloseStep(tokens, c, marks, h, ds, MappingEnd)
    else if first then FlowKeyStep(tokens, c, marks, h, ds)
    else if tokens[h].FlowEntryToken? then FlowKeyStep(tokens, c, marks, h + 1, ds)
    else Stuck(ParserError)
  }

  /** Behind the comma. */
  function FlowKeyStep(tokens: seq<Token>, c: Config, marks: nat, h: nat, ds: seq<TagDirective>): Step
    requires c.states != [] && marks > 0
  {
    if h >= |tokens| then Stuck(ScannerError)
    else if tokens[h].KeyToken? then ExplicitKeyStep(tokens, c, marks, h + 1, ds)
    else if tokens[h].FlowMappingEndToken? then CloseStep(tokens, c, marks, h, ds, MappingEnd)
    else ChildStep(tokens, c, marks, h, ds, FlowMappingValueState(true), false, false)
  }

  /** Behind the KEY. */
  function ExplicitKeyStep(tokens: seq<Token>, c: Config, marks: nat, h: nat, ds: seq<TagDirective>): Step {
    if h >= |tokens| then Stuck(ScannerError)
    else if tokens[h].ValueToken? || tokens[h].FlowEntryToken? || tokens[h].FlowMappingEndToken? then
      EmptyStep(tokens, c, marks, h, ds, FlowMappingValueState(false))
    else ChildStep(tokens, c, marks, h, ds, FlowMappingValueState(false), false, false)
  }

  function FlowMappingValueStep(tokens: seq<Token>, c: Config, ds: seq<TagDirective>, empty: bool): Step {
    var h := c.head;
    if h >= |tokens| then Stuck(ScannerError)
    else if empty || !tokens[h].ValueToken? then EmptyStep(tokens, c, c.marks, h, ds, FlowMappingKeyState(false))
    else if h + 1 >= |tokens| then Stuck(ScannerError)
    else if tokens[h + 1].FlowEntryToken? || tokens[h + 1].FlowMappingEndToken? then
      EmptyStep(tokens, c, c.marks, h + 1, ds, FlowMappingKeyState(false))
    else ChildStep(tokens, c, c.marks, h + 1, ds, FlowMappingKeyState(false), false, false)
  }

  /** There is something to return to, and a mark to pop. */
  predicate Poppable(c: Config) {
    && (c.state.InCollection() || c.state.DocumentContentState? || c.state.BlockNodeState? ==> c.states != [])
    && MarksOf(c.state) <= c.marks
  }

  /** One step of the state machine. */
  function Production(tokens: seq<Token>, m: Machine): Step
    requires Poppable(m.cfg)
  {
    var (c, ds) := (m.cfg, m.directives);
    match c.state
    case StreamStartState => StreamStartStep(tokens, c, ds)
    case DocumentStartState(implicit) => DocumentStartStep(tokens, c, ds, implicit)
    case DocumentContentState => DocumentContentStep(tokens, c, ds)
    case DocumentEndState => DocumentEndStep(tokens, c)
    case BlockNodeState => NodeAt(tokens, c.head, c.states, c.marks, ds, true, false)
    case BlockSequenceEntryState(_) => BlockSequenceEntryStep(tokens, c, ds)
    case IndentlessSequenceEntryState => IndentlessSequenceEntryStep(tokens, c, ds)
    case BlockMappingKeyState(_) => BlockMappingKeyStep(tokens, c, ds)
    case BlockMappingValueState => BlockMappingValueStep(tokens, c, ds)
    case FlowSequenceEntryState(first) => FlowSequenceEntryStep(tokens, c, ds, first)
    case FlowSequenceEntryMappingKeyState => PairKeyStep(tokens, c, ds)
    case FlowSequenceEntryMappingValueState => PairValueStep(tokens, c, ds)
    case FlowSequenceEntryMappingEndState => PairEndStep(tokens, c, ds)
    case FlowMappingKeyState(first) => FlowMappingKeyStep(tokens, c, ds, first)
    case FlowMappingValueState(empty) => FlowMappingValueStep(tokens, c, ds, empty)
    case BlockNodeOrIndentlessSequenceState => Stuck(ParserError)
    case FlowNodeState => Stuck(ParserError)
    case EndState => Stuck(ParserError)
  }

  // ---------------------------------------------------------------------------------------------
  // Every production follows the table

  /** A step follows the table and turns the content of the tokens that it consumes into its event. */
  predicate Follows(tokens: seq<Token>, c: Config, s: Step) {
    s.Next? ==>
      var d := s.machine.cfg;
      && c.head <= d.head <= |tokens| && Transition(tokens, c, s.event, d) && d.ended == EndedAt(tokens, d.head)
      && TokensContent(tokens, d.head) == TokensContent(tokens, c.head) + EventContent(s.event)
  }

  lemma ContentStep(tokens: seq<Token>, h: nat)
    requires h < |tokens|
    ensures TokensContent(tokens, h + 1) == TokensContent(tokens, h) + TokenContent(tokens[h])
  {}

  /** Properties carry their anchor and consume tokens if there are any. */
  lemma PropertiesMean(tokens: seq<Token>, h: nat, ds: seq<TagDirective>)
    requires h < |tokens| && !EndedAt(tokens, h) && PropertiesAt(tokens, h, ds).Properties?
    ensures var p := PropertiesAt(tokens, h, ds);
            && h <= p.head < |tokens| && !EndedAt(tokens, p.head)
            && (p.anchor != "" || p.tag != "" ==> h < p.head)
            && TokensContent(tokens, p.head) == TokensContent(tokens, h) + NonEmptyAnchor(p.anchor)
  {
    hide TokensContent, TagOf;
    ContentStep(tokens, h);
    if h + 1 < |tokens| { ContentStep(tokens, h + 1); }
  }

  /** The outcome of reading a node at `h`: either a leaf, which resumes the innermost continuation,
      or the start of a collection, whose own first state is entered. */
  predicate ReadsNode(tokens: seq<Token>, h: nat, states: seq<State>, marks: nat, ds: seq<TagDirective>,
                      indentless: bool, s: Step)
    requires h <= |tokens| && states != []
  {
    s.Next? ==>
      var (e, d) := (s.event, s.machine.cfg);
      && h <= d.head <= |tokens| && d.marks == marks && s.machine.directives == ds
      && HeadFits(d.state, tokens, d.head) && !d.ended && !d.state.EndState? && !EndedAt(tokens, d.head)
      && (|| (&& e.IsLeaf() && h < d.head && d.state == states[|states| - 1] && d.states == states[..|states| - 1])
          || (&& Opened(e, d.state, d.states) && d.states == states
              && (d.state.IndentlessSequenceEntryState? ==> indentless)))
      && TokensContent(tokens, d.head) == TokensContent(tokens, h) + EventContent(e)
  }

  lemma ContentMeans(tokens: seq<Token>, h: nat, p: Properties, states: seq<State>, marks: nat, ds: seq<TagDirective>,
                     block: bool, indentless: bool)
    requires p.Properties? && h <= p.head < |tokens| && states != [] && Resumable(states[|states| - 1])
    requires !EndedAt(tokens, p.head) && (indentless ==> ResumesBlockMapping(states))
    requires p.anchor != "" || p.tag != "" ==> h < p.head
    requires TokensContent(tokens, p.head) == TokensContent(tokens, h) + NonEmptyAnchor(p.anchor)
    ensures ReadsNode(tokens, h, states, marks, ds, indentless,
                      ContentAt(tokens, p, states, marks, ds, block, indentless))
  {
    hide TokensContent, ResumesBlockMapping, NonEmptyAnchor, NonEmptyText, Resumable, ReadsNode;
    NothingEmpty();
    var s := ContentAt(tokens, p, states, marks, ds, block, indentless);
    if s.Next? {
      var before, anchor := TokensContent(tokens, h), NonEmptyAnchor(p.anchor);
      if s.event.Scalar? {
        ResumesOutside(states[|states| - 1], tokens, p.head);
        var text := NonEmptyText(s.event.value, s.event.style);
        assert before + anchor + text == before + (anchor + text);
        ContentStep(tokens, p.head);
        ReadsScalar(tokens, h, p, states, marks, ds, indentless, s);
      } else {
        ReadsStart(tokens, h, p, states, marks, ds, indentless, s);
      }
    } else {
      ReadsNothing(tokens, h, states, marks, ds, indentless, s.error);
    }
  }

  lemma ReadsNothing(tokens: seq<Token>, h: nat, states: seq<State>, marks: nat, ds: seq<TagDirective>,
                     indentless: bool, error: Error)
    requires h <= |tokens| && states != []
    ensures ReadsNode(tokens, h, states, marks, ds, indentless, Stuck(error))
  {}

  lemma ReadsScalar(tokens: seq<Token>, h: nat, p: Properties, states: seq<State>, marks: nat, ds: seq<TagDirective>,
                    indentless: bool, s: Step)
    requires p.Properties? && h <= p.head < |tokens| && states != [] && Resumable(states[|states| - 1])
    requires s.Next? && s.event.Scalar? && h < s.machine.cfg.head <= |tokens| && s.machine.directives == ds
    requires s.machine.cfg == Config(states[|states| - 1], states[..|states| - 1], marks, s.machine.cfg.head, false)
    requires !EndedAt(tokens, s.machine.cfg.head)
    requires TokensContent(tokens, s.machine.cfg.head) == TokensContent(tokens, h) + EventContent(s.event)
    ensures ReadsNode(tokens, h, states, marks, ds, indentless, s)
  {
    hide TokensContent, EventContent;
    ResumesOutside(states[|states| - 1], tokens, s.machine.cfg.head);
  }

  lemma ReadsStart(tokens: seq<Token>, h: nat, p: Properties, states: seq<State>, marks: nat, ds: seq<TagDirective>,
                   indentless: bool, s: Step)
    requires p.Properties? && h <= p.head < |tokens| && states != []
    requires s.Next? && s.event.Opens() && s.event.anchor == p.anchor && s.machine.directives == ds
    requires s.machine.cfg == Config(s.machine.cfg.state, states, marks, p.head, false) && !EndedAt(tokens, p.head)
    requires var d := s.machine.cfg;
             && Opened(s.event, d.state, states) && HeadFits(d.state, tokens, p.head)
             && (d.state.IndentlessSequenceEntryState? ==> indentless)
    requires TokensContent(tokens, p.head) == TokensContent(tokens, h) + NonEmptyAnchor(p.anchor)
    ensures ReadsNode(tokens, h, states, marks, ds, indentless, s)
  {
    hide TokensContent, NonEmptyAnchor, HeadFits;
  }

  lemma NothingEmpty()
    ensures NonEmptyAnchor("") == [] && forall style :: NonEmptyText("", style) == []
  {}

  /** A continuation expects no particular token. */
  lemma ResumesOutside(s: State, tokens: seq<Token>, h: nat)
    requires Resumable(s)
    ensures !s.EndState? && HeadFits(s, tokens, h) && HeadFits(s, tokens, h + 1)
  {}

  lemma NodeMeans(tokens: seq<Token>, h: nat, states: seq<State>, marks: nat, ds: seq<TagDirective>,
                  block: bool, indentless: bool)
    requires h <= |tokens| && states != [] && Resumable(states[|states| - 1]) && !EndedAt(tokens, h)
    requires indentless ==> ResumesBlockMapping(states)
    ensures ReadsNode(tokens, h, states, marks, ds, indentless, NodeAt(tokens, h, states, marks, ds, block, indentless))
  {
    hide TokensContent, ContentAt, PropertiesAt, ResumesBlockMapping;
    if h < |tokens| {
      if tokens[h].AliasToken? {
        ContentStep(tokens, h);
      } else {
        var p := PropertiesAt(tokens, h, ds);
        if p.Properties? {
          hide ReadsNode;
          PropertiesMean(tokens, h, ds);
          ContentMeans(tokens, h, p, states, marks, ds, block, indentless);
        }
      }
    }
  }

  /** The tokens between the production's start and `h` have been consumed and carried nothing. */
  predicate Consumed(tokens: seq<Token>, c: Config, h: nat) {
    c.head <= h <= |tokens| && !EndedAt(tokens, h) && TokensContent(tokens, h) == TokensContent(tokens, c.head)
  }

  lemma ConsumedNone(tokens: seq<Token>, c: Config)
    requires Usable(tokens, c) && !c.state.EndState? && c.ended == EndedAt(tokens, c.head)
    ensures Consumed(tokens, c, c.head)
  {}

  lemma ConsumedOne(tokens: seq<Token>, c: Config, h: nat)
    requires Consumed(tokens, c, h) && h < |tokens| && TokenContent(tokens[h]) == [] && !tokens[h].StreamEndToken?
    ensures Consumed(tokens, c, h + 1)
  {
    hide TokensContent;
    ContentStep(tokens, h);
  }

  lemma ChildFollows(tokens: seq<Token>, c: Config, marks: nat, h: nat, ds: seq<TagDirective>, next: State,
                     block: bool, indentless: bool)
    requires Consumed(tokens, c, h) && After(c.state, next) && marks == c.marks + Started(c.state)
    requires c.head < h || (Credit(c.state) > 0 && !indentless)
    requires indentless ==> next.BlockMappingValueState? || next == BlockMappingKeyState(false)
    ensures Follows(tokens, c, ChildStep(tokens, c, marks, h, ds, next, block, indentless))
  {
    hide TokensContent, Transition, HeadFits, NodeAt;
    var states := c.states + [next];
    assert states[|states| - 1] == next && states[..|states| - 1] == c.states;
    NodeMeans(tokens, h, states, marks, ds, block, indentless);
    var s := NodeAt(tokens, h, states, marks, ds, block, indentless);
    if s.Next? { ChildSteps(tokens, c, next, s.event, s.machine.cfg); }
  }

  lemma EmptyFollows(tokens: seq<Token>, c: Config, marks: nat, h: nat, ds: seq<TagDirective>, next: State)
    requires Consumed(tokens, c, h) && After(c.state, next) && marks == c.marks + Started(c.state)
    requires c.head < h || Credit(next) < Credit(c.state)
    ensures Follows(tokens, c, EmptyStep(tokens, c, marks, h, ds, next))
  {
    hide TokensContent;
    var s := EmptyStep(tokens, c, marks, h, ds, next);
    assert Stays(c, FILLER, s.machine.cfg);
  }

  lemma CloseFollows(tokens: seq<Token>, c: Config, marks: nat, h: nat, ds: seq<TagDirective>, end: Event)
    requires Consumed(tokens, c, h) && h < |tokens| && TokenContent(tokens[h]) == [] && !tokens[h].StreamEndToken?
    requires marks == c.marks + Started(c.state) && marks > 0 && c.states != [] && Resumable(c.states[|c.states| - 1])
    requires if c.state.BlockSequenceEntryState? || c.state.FlowSequenceEntryState? then end == SequenceEnd
             else (c.state.BlockMappingKeyState? || c.state.FlowMappingKeyState?) && end == MappingEnd
    ensures Follows(tokens, c, CloseStep(tokens, c, marks, h, ds, end))
  {
    ConsumedOne(tokens, c, h);
    hide TokensContent;
    assert Leaves(c, end, CloseStep(tokens, c, marks, h, ds, end).machine.cfg);
  }

  /** The first state of a collection consumes the token that opened it. */
  lemma ConsumedStart(tokens: seq<Token>, c: Config)
    requires Usable(tokens, c) && c.ended == EndedAt(tokens, c.head) && c.state.First()
    ensures Consumed(tokens, c, c.head + 1)
  {
    ConsumedNone(tokens, c);
    hide TokensContent;
    ConsumedOne(tokens, c, c.head);
  }

  /** The configurations that productions start from. */
  predicate Starts(tokens: seq<Token>, c: Config) {
    Usable(tokens, c) && !c.state.EndState? && c.ended == EndedAt(tokens, c.head)
  }

  lemma StartFacts(tokens: seq<Token>, c: Config)
    requires Starts(tokens, c)
    ensures c.head <= |tokens| && Consumed(tokens, c, c.head) && Poppable(c)
    ensures c.states != [] ==> Resumable(c.states[|c.states| - 1])
    ensures c.state.First() ==> Consumed(tokens, c, c.head + 1)
    ensures c.state.DocumentContentState? || c.state.BlockNodeState? ==> c.states == [DocumentEndState]
    ensures c.state.IndentlessSequenceEntryState? ==> ResumesBlockMapping(c.states)
  {
    hide TokensContent, HeadFits;
    ConsumedNone(tokens, c);
    if c.state.First() { ConsumedStart(tokens, c); }
  }

  /** Where the entries of a collection start, with the mark of its start. */
  lemma EntryFacts(tokens: seq<Token>, c: Config)
    requires Starts(tokens, c)
    requires || c.state.BlockSequenceEntryState? || c.state.BlockMappingKeyState?
             || c.state.FlowSequenceEntryState? || c.state.FlowMappingKeyState?
    ensures c.states != [] && Resumable(c.states[|c.states| - 1]) && c.marks + Started(c.state) > 0
    ensures Consumed(tokens, c, c.head + Started(c.state))
  {
    hide TokensContent;
    StartFacts(tokens, c);
  }

  lemma NoStep(tokens: seq<Token>, c: Config)
    ensures Follows(tokens, c, Stuck(ScannerError)) && Follows(tokens, c, Stuck(ParserError))
  {}

  lemma BlockItemFollows(tokens: seq<Token>, c: Config, marks: nat, h: nat, ds: seq<TagDirective>)
    requires Consumed(tokens, c, h) && c.state.BlockSequenceEntryState?
    requires marks == c.marks + Started(c.state) && marks > 0 && c.states != [] && Resumable(c.states[|c.states| - 1])
    ensures Follows(tokens, c, BlockItemStep(tokens, c, marks, h, ds))
  {
    NoStep(tokens, c);
    hide TokensContent, Follows, EmptyStep, ChildStep, CloseStep, Resumable;
    if h < |tokens| {
      if tokens[h].BlockEntryToken? {
        ConsumedOne(tokens, c, h);
        EmptyFollows(tokens, c, marks, h + 1, ds, BlockSequenceEntryState(false));
        ChildFollows(tokens, c, marks, h + 1, ds, BlockSequenceEntryState(false), true, false);
      } else if tokens[h].BlockEndToken? {
        CloseFollows(tokens, c, marks, h, ds, SequenceEnd);
      }
    }
  }

  lemma BlockSequenceEntryFollows(tokens: seq<Token>, c: Config, ds: seq<TagDirective>)
    requires Starts(tokens, c) && c.state.BlockSequenceEntryState?
    ensures c.states != [] && c.marks + Started(c.state) > 0
    ensures Follows(tokens, c, BlockSequenceEntryStep(tokens, c, ds))
  {
    hide TokensContent, Follows, Consumed, Starts, Resumable, BlockItemStep;
    EntryFacts(tokens, c);
    hide Started;
    BlockItemFollows(tokens, c, c.marks + Started(c.state), c.head + Started(c.state), ds);
  }

  lemma IndentlessSequenceEntryFollows(tokens: seq<Token>, c: Config, ds: seq<TagDirective>)
    requires Starts(tokens, c) && c.state.IndentlessSequenceEntryState?
    ensures c.states != [] && Follows(tokens, c, IndentlessSequenceEntryStep(tokens, c, ds))
  {
    hide TokensContent, Consumed, Starts, EmptyStep, ChildStep, Follows, To, Poppable, Resumable;
    StartFacts(tokens, c);
    NoStep(tokens, c);
    if c.head < |tokens| {
      if tokens[c.head].BlockEntryToken? {
        IndentlessItemFollows(tokens, c, ds);
      } else {
        EndIndentless(tokens, c, ds);
      }
    }
  }

  lemma IndentlessItemFollows(tokens: seq<Token>, c: Config, ds: seq<TagDirective>)
    requires c.state.IndentlessSequenceEntryState? && Consumed(tokens, c, c.head)
    requires c.head < |tokens| && tokens[c.head].BlockEntryToken?
    ensures Follows(tokens, c, EmptyStep(tokens, c, c.marks, c.head + 1, ds, IndentlessSequenceEntryState))
    ensures Follows(tokens, c,
                    ChildStep(tokens, c, c.marks, c.head + 1, ds, IndentlessSequenceEntryState, true, false))
  {
    hide TokensContent, Consumed, EmptyStep, ChildStep, Follows;
    ConsumedOne(tokens, c, c.head);
    EmptyFollows(tokens, c, c.marks, c.head + 1, ds, IndentlessSequenceEntryState);
    ChildFollows(tokens, c, c.marks, c.head + 1, ds, IndentlessSequenceEntryState, true, false);
  }

  lemma EndIndentless(tokens: seq<Token>, c: Config, ds: seq<TagDirective>)
    requires c.state.IndentlessSequenceEntryState? && ResumesBlockMapping(c.states) && Consumed(tokens, c, c.head)
    ensures Follows(tokens, c,
                    To(tokens, SequenceEnd, c.states[|c.states| - 1], c.states[..|c.states| - 1], c.marks, c.head, ds))
  {
    hide TokensContent;
    var s := To(tokens, SequenceEnd, c.states[|c.states| - 1], c.states[..|c.states| - 1], c.marks, c.head, ds);
    assert Leaves(c, SequenceEnd, s.machine.cfg);
  }

  lemma BlockKeyFollows(tokens: seq<Token>, c: Config, marks: nat, h: nat, ds: seq<TagDirective>)
    requires Consumed(tokens, c, h) && c.state.BlockMappingKeyState?
    requires marks == c.marks + Started(c.state) && marks > 0 && c.states != [] && Resumable(c.states[|c.states| - 1])
    ensures Follows(tokens, c, BlockKeyStep(tokens, c, marks, h, ds))
  {
    NoStep(tokens, c);
    hide TokensContent, Follows, EmptyStep, ChildStep, CloseStep, Resumable, EndsBlockNode;
    if h < |tokens| {
      if tokens[h].KeyToken? {
        ConsumedOne(tokens, c, h);
        EmptyFollows(tokens, c, marks, h + 1, ds, BlockMappingValueState);
        ChildFollows(tokens, c, marks, h + 1, ds, BlockMappingValueState, true, true);
      } else if tokens[h].BlockEndToken? {
        CloseFollows(tokens, c, marks, h, ds, MappingEnd);
      }
    }
  }

  lemma BlockMappingKeyFollows(tokens: seq<Token>, c: Config, ds: seq<TagDirective>)
    requires Starts(tokens, c) && c.state.BlockMappingKeyState?
    ensures c.states != [] && c.marks + Started(c.state) > 0 && Follows(tokens, c, BlockMappingKeyStep(tokens, c, ds))
  {
    hide TokensContent, Follows, Consumed, Starts, Resumable, BlockKeyStep;
    EntryFacts(tokens, c);
    hide Started;
    BlockKeyFollows(tokens, c, c.marks + Started(c.state), c.head + Started(c.state), ds);
  }

  lemma BlockMappingValueFollows(tokens: seq<Token>, c: Config, ds: seq<TagDirective>)
    requires Starts(tokens, c) && c.state.BlockMappingValueState?
    ensures Follows(tokens, c, BlockMappingValueStep(tokens, c, ds))
  {
    hide TokensContent, Follows, Consumed, EmptyStep, ChildStep;
    ConsumedNone(tokens, c);
    NoStep(tokens, c);
    var h := c.head;
    assert After(c.state, BlockMappingKeyState(false)) && Credit(BlockMappingKeyState(false)) < Credit(c.state)
        && Started(c.state) == 0;
    hide Starts, After, Credit, Started;
    EmptyFollows(tokens, c, c.marks, h, ds, BlockMappingKeyState(false));
    if h < |tokens| && tokens[h].ValueToken? {
      ConsumedOne(tokens, c, h);
      EmptyFollows(tokens, c, c.marks, h + 1, ds, BlockMappingKeyState(false));
      ChildFollows(tokens, c, c.marks, h + 1, ds, BlockMappingKeyState(false), true, true);
    }
  }

  lemma FlowItemFollows(tokens: seq<Token>, c: Config, marks: nat, h: nat, ds: seq<TagDirective>)
    requires Consumed(tokens, c, h) && c.head < h && c.state.FlowSequenceEntryState?
    requires marks == c.marks + Started(c.state) && marks > 0 && c.states != [] && Resumable(c.states[|c.states| - 1])
    ensures Follows(tokens, c, FlowItemStep(tokens, c, marks, h, ds))
  {
    NoStep(tokens, c);
    hide TokensContent, ChildStep, CloseStep;
    if h < |tokens| {
      if tokens[h].KeyToken? {
        ConsumedOne(tokens, c, h);
        hide Transition;
        var s := FlowItemStep(tokens, c, marks, h, ds);
        PairSteps(tokens, c, s.event, s.machine.cfg);
      } else if tokens[h].FlowSequenceEndToken? {
        CloseFollows(tokens, c, marks, h, ds, SequenceEnd);
      } else {
        ChildFollows(tokens, c, marks, h, ds, FlowSequenceEntryState(false), false, false);
      }
    }
  }

  lemma FlowItemsFollow(tokens: seq<Token>, c: Config, marks: nat, h: nat, ds: seq<TagDirective>, first: bool)
    requires Consumed(tokens, c, h) && (first ==> c.head < h) && c.state.FlowSequenceEntryState?
    requires marks == c.marks + Started(c.state) && marks > 0 && c.states != [] && Resumable(c.states[|c.states| - 1])
    ensures Follows(tokens, c, FlowItemsStep(tokens, c, marks, h, ds, first))
  {
    hide TokensContent, Follows, Started, Resumable, FlowItemStep, CloseStep;
    NoStep(tokens, c);
    if h < |tokens| {
      if tokens[h].FlowSequenceEndToken? {
        CloseFollows(tokens, c, marks, h, ds, SequenceEnd);
      } else if first {
        FlowItemFollows(tokens, c, marks, h, ds);
      } else if tokens[h].FlowEntryToken? {
        ConsumedOne(tokens, c, h);
        FlowItemFollows(tokens, c, marks, h + 1, ds);
      }
    }
  }

  lemma FlowSequenceEntryFollows(tokens: seq<Token>, c: Config, ds: seq<TagDirective>, first: bool)
    requires Starts(tokens, c) && c.state == FlowSequenceEntryState(first)
    ensures c.states != [] && c.marks + Started(c.state) > 0
    ensures Follows(tokens, c, FlowSequenceEntryStep(tokens, c, ds, first))
  {
    hide TokensContent, Follows, Consumed, Starts, Resumable, FlowItemsStep;
    EntryFacts(tokens, c);
    assert first ==> c.head < c.head + Started(c.state);
    hide Started;
    FlowItemsFollow(tokens, c, c.marks + Started(c.state), c.head + Started(c.state), ds, first);
  }

  lemma PairKeyFollows(tokens: seq<Token>, c: Config, ds: seq<TagDirective>)
    requires Starts(tokens, c) && c.state.FlowSequenceEntryMappingKeyState?
    ensures Follows(tokens, c, PairKeyStep(tokens, c, ds))
  {
    hide TokensContent, Follows, Consumed, EmptyStep, ChildStep;
    ConsumedNone(tokens, c);
    NoStep(tokens, c);
    var h := c.head;
    assert After(c.state, FlowSequenceEntryMappingValueState) && Credit(c.state) > 0 && Started(c.state) == 0;
    hide Starts, After, Credit, Started;
    if h < |tokens| {
      if tokens[h].ValueToken? || tokens[h].FlowEntryToken? || tokens[h].FlowSequenceEndToken? {
        ConsumedOne(tokens, c, h);
        EmptyFollows(tokens, c, c.marks, h + 1, ds, FlowSequenceEntryMappingValueState);
      } else {
        ChildFollows(tokens, c, c.marks, h, ds, FlowSequenceEntryMappingValueState, false, false);
      }
    }
  }

  lemma PairValueFollows(tokens: seq<Token>, c: Config, ds: seq<TagDirective>)
    requires Starts(tokens, c) && c.state.FlowSequenceEntryMappingValueState?
    ensures Follows(tokens, c, PairValueStep(tokens, c, ds))
  {
    hide TokensContent, Follows, Consumed, EmptyStep, ChildStep;
    ConsumedNone(tokens, c);
    NoStep(tokens, c);
    var h := c.head;
    assert After(c.state, FlowSequenceEntryMappingEndState)
        && Credit(FlowSequenceEntryMappingEndState) < Credit(c.state) && Started(c.state) == 0;
    hide Starts, After, Credit, Started;
    EmptyFollows(tokens, c, c.marks, h, ds, FlowSequenceEntryMappingEndState);
    if h < |tokens| && tokens[h].ValueToken? {
      ConsumedOne(tokens, c, h);
      EmptyFollows(tokens, c, c.marks, h + 1, ds, FlowSequenceEntryMappingEndState);
      ChildFollows(tokens, c, c.marks, h + 1, ds, FlowSequenceEntryMappingEndState, false, false);
    }
  }

  lemma PairEndFollows(tokens: seq<Token>, c: Config, ds: seq<TagDirective>)
    requires Starts(tokens, c) && c.state.FlowSequenceEntryMappingEndState?
    ensures Follows(tokens, c, PairEndStep(tokens, c, ds))
  {
    StartFacts(tokens, c);
    hide TokensContent, Starts;
    var s := PairEndStep(tokens, c, ds);
    if s.Next? { assert MovesPair(c, MappingEnd, s.machine.cfg); }
  }

  lemma FlowKeyFollows(tokens: seq<Token>, c: Config, marks: nat, h: nat, ds: seq<TagDirective>)
    requires Consumed(tokens, c, h) && c.head < h && c.state.FlowMappingKeyState?
    requires marks == c.marks + Started(c.state) && marks > 0 && c.states != [] && Resumable(c.states[|c.states| - 1])
    ensures Follows(tokens, c, FlowKeyStep(tokens, c, marks, h, ds))
  {
    NoStep(tokens, c);
    hide TokensContent, Follows, EmptyStep, ChildStep, CloseStep;
    if h < |tokens| {
      if tokens[h].KeyToken? {
        ConsumedOne(tokens, c, h);
        hide Consumed;
        EmptyFollows(tokens, c, marks, h + 1, ds, FlowMappingValueState(false));
        ChildFollows(tokens, c, marks, h + 1, ds, FlowMappingValueState(false), false, false);
      } else if tokens[h].FlowMappingEndToken? {
        CloseFollows(tokens, c, marks, h, ds, MappingEnd);
      } else {
        ChildFollows(tokens, c, marks, h, ds, FlowMappingValueState(true), false, false);
      }
    }
  }

  lemma FlowKeysFollow(tokens: seq<Token>, c: Config, marks: nat, h: nat, ds: seq<TagDirective>, first: bool)
    requires Consumed(tokens, c, h) && (first ==> c.head < h) && c.state.FlowMappingKeyState?
    requires marks == c.marks + Started(c.state) && marks > 0 && c.states != [] && Resumable(c.states[|c.states| - 1])
    ensures Follows(tokens, c, FlowKeysStep(tokens, c, marks, h, ds, first))
  {
    hide TokensContent, Follows, Started, Resumable, FlowKeyStep, CloseStep;
    NoStep(tokens, c);
    if h < |tokens| {
      if tokens[h].FlowMappingEndToken? {
        CloseFollows(tokens, c, marks, h, ds, MappingEnd);
      } else if first {
        FlowKeyFollows(tokens, c, marks, h, ds);
      } else if tokens[h].FlowEntryToken? {
        ConsumedOne(tokens, c, h);
        FlowKeyFollows(tokens, c, marks, h + 1, ds);
      }
    }
  }

  lemma FlowMappingKeyFollows(tokens: seq<Token>, c: Config, ds: seq<TagDirective>, first: bool)
    requires Starts(tokens, c) && c.state == FlowMappingKeyState(first)
    ensures c.states != [] && c.marks + Started(c.state) > 0
    ensures Follows(tokens, c, FlowMappingKeyStep(tokens, c, ds, first))
  {
    hide TokensContent, Follows, Consumed, Starts, Resumable, FlowKeysStep;
    EntryFacts(tokens, c);
    assert first ==> c.head < c.head + Started(c.state);
    hide Started;
    FlowKeysFollow(tokens, c, c.marks + Started(c.state), c.head + Started(c.state), ds, first);
  }

  lemma FlowMappingValueFollows(tokens: seq<Token>, c: Config, ds: seq<TagDirective>, empty: bool)
    requires Starts(tokens, c) && c.state == FlowMappingValueState(empty)
    ensures Follows(tokens, c, FlowMappingValueStep(tokens, c, ds, empty))
  {
    hide TokensContent, Follows, Consumed, EmptyStep, ChildStep;
    ConsumedNone(tokens, c);
    NoStep(tokens, c);
    var h := c.head;
    assert After(c.state, FlowMappingKeyState(false)) && Credit(FlowMappingKeyState(false)) < Credit(c.state)
        && Started(c.state) == 0;
    hide Starts, After, Credit, Started;
    EmptyFollows(tokens, c, c.marks, h, ds, FlowMappingKeyState(false));
    if h < |tokens| && tokens[h].ValueToken? {
      ConsumedOne(tokens, c, h);
      EmptyFollows(tokens, c, c.marks, h + 1, ds, FlowMappingKeyState(false));
      ChildFollows(tokens, c, c.marks, h + 1, ds, FlowMappingKeyState(false), false, false);
    }
  }

  // Documents

  lemma {:induction false} BehindEnds(tokens: seq<Token>, h: nat)
    requires h <= |tokens| && !EndedAt(tokens, h)
    ensures var k := BehindDocumentEnds(tokens, h);
            && h <= k <= |tokens| && !EndedAt(tokens, k) && TokensContent(tokens, k) == TokensContent(tokens, h)
            && (k < |tokens| ==> !tokens[k].DocumentEndToken?)
    decreases |tokens| - h
  {
    hide TokensContent;
    if h < |tokens| && tokens[h].DocumentEndToken? {
      ContentStep(tokens, h);
      BehindEnds(tokens, h + 1);
    }
  }

  lemma {:induction false} DirectivesMean(tokens: seq<Token>, h: nat, version: Option<Version>, tags: seq<TagDirective>,
                                          known: seq<TagDirective>)
    requires h <= |tokens| && !EndedAt(tokens, h) && DistinctHandles(known)
    ensures var r := DirectivesAt(tokens, h, version, tags, known);
            r.Directives? ==>
              && h <= r.head < |tokens| && !EndedAt(tokens, r.head)
              && TokensContent(tokens, r.head) == TokensContent(tokens, h)
              && DistinctHandles(r.known)
              && (r.head != h ==> tokens[h].VersionDirectiveToken? || tokens[h].TagDirectiveToken?)
    decreases |tokens| - h
  {
    hide TokensContent, WithDefaults;
    if h < |tokens| {
      ContentStep(tokens, h);
      if tokens[h].VersionDirectiveToken? {
        DirectivesMean(tokens, h + 1, Some(Version(tokens[h].major, tokens[h].minor)), tags, known);
      } else if tokens[h].TagDirectiveToken? {
        var d := TagDirective(tokens[h].handle, tokens[h].prefix);
        if !HasHandle(known, d.handle) { DirectivesMean(tokens, h + 1, version, tags + [d], known + [d]); }
      } else {
        DefaultsDistinct(known);
      }
    }
  }

  lemma DefaultsDistinct(ds: seq<TagDirective>)
    requires DistinctHandles(ds)
    ensures DistinctHandles(WithDefaults(ds))
  {}

  lemma StreamStartFollows(tokens: seq<Token>, c: Config, ds: seq<TagDirective>)
    requires Starts(tokens, c) && c.state.StreamStartState?
    ensures Follows(tokens, c, StreamStartStep(tokens, c, ds))
  {
    StartFacts(tokens, c);
    hide TokensContent, Starts;
    var s := StreamStartStep(tokens, c, ds);
    if s.Next? {
      ContentStep(tokens, c.head);
      assert MovesDocument(c, StreamStart, s.machine.cfg);
    }
  }

  /** A step of a document's start keeps the handles distinct as well. */
  predicate StartsWell(tokens: seq<Token>, c: Config, s: Step) {
    Follows(tokens, c, s) && (s.Next? ==> DistinctHandles(s.machine.directives))
  }

  lemma DocumentStartFollows(tokens: seq<Token>, c: Config, ds: seq<TagDirective>, implicit: bool)
    requires Starts(tokens, c) && c.state == DocumentStartState(implicit) && DistinctHandles(ds)
    ensures StartsWell(tokens, c, DocumentStartStep(tokens, c, ds, implicit))
  {
    hide TokensContent, Starts, StartsWell, ImplicitStartStep, ExplicitStartStep, BehindDocumentEnds, DistinctHandles,
         Consumed;
    StartHead(tokens, c, implicit);
    var h := if implicit then c.head else BehindDocumentEnds(tokens, c.head);
    if h >= |tokens| {
      NoStart(tokens, c, ScannerError);
    } else if tokens[h].StreamEndToken? {
      StreamEndFollows(tokens, c, h, ds);
    } else if implicit && !StartsDocument(tokens[h]) {
      ImplicitStartFollows(tokens, c, h, ds);
    } else {
      ExplicitStartFollows(tokens, c, h, ds);
    }
  }

  lemma StartHead(tokens: seq<Token>, c: Config, implicit: bool)
    requires Starts(tokens, c) && c.state == DocumentStartState(implicit)
    ensures Consumed(tokens, c, if implicit then c.head else BehindDocumentEnds(tokens, c.head))
  {
    hide TokensContent, BehindDocumentEnds;
    ConsumedNone(tokens, c);
    BehindEnds(tokens, c.head);
  }

  lemma NoStart(tokens: seq<Token>, c: Config, error: Error)
    ensures StartsWell(tokens, c, Stuck(error))
  {}

  lemma StreamEndFollows(tokens: seq<Token>, c: Config, h: nat, ds: seq<TagDirective>)
    requires Consumed(tokens, c, h) && h < |tokens| && tokens[h].StreamEndToken?
    requires c.state.DocumentStartState? && DistinctHandles(ds)
    ensures StartsWell(tokens, c, To(tokens, StreamEnd, EndState, c.states, c.marks, h + 1, ds))
  {
    hide TokensContent, Transition, DistinctHandles;
    ContentStep(tokens, h);
    DocumentSteps(tokens, c, StreamEnd, Config(EndState, c.states, c.marks, h + 1, true));
  }

  lemma ImplicitStartFollows(tokens: seq<Token>, c: Config, h: nat, ds: seq<TagDirective>)
    requires Consumed(tokens, c, h) && c.state.DocumentStartState? && c.state.implicit && DistinctHandles(ds)
    ensures StartsWell(tokens, c, ImplicitStartStep(tokens, c, h, ds))
  {
    hide TokensContent, Transition, DirectivesAt, DistinctHandles;
    DirectivesMean(tokens, h, None, [], ds);
    var s := ImplicitStartStep(tokens, c, h, ds);
    if s.Next? { DocumentSteps(tokens, c, s.event, s.machine.cfg); }
  }

  lemma ExplicitStartFollows(tokens: seq<Token>, c: Config, h: nat, ds: seq<TagDirective>)
    requires Consumed(tokens, c, h) && c.state.DocumentStartState? && DistinctHandles(ds)
    ensures StartsWell(tokens, c, ExplicitStartStep(tokens, c, h, ds))
  {
    hide TokensContent, Transition, DirectivesAt, DistinctHandles;
    DirectivesMean(tokens, h, None, [], ds);
    var s := ExplicitStartStep(tokens, c, h, ds);
    if s.Next? {
      ContentStep(tokens, s.machine.cfg.head - 1);
      DocumentSteps(tokens, c, s.event, s.machine.cfg);
    }
  }

  /** The root node of a document, for which only the document's end is waiting. */
  lemma RootFollows(tokens: seq<Token>, c: Config, ds: seq<TagDirective>)
    requires Starts(tokens, c) && (c.state.DocumentContentState? || c.state.BlockNodeState?)
    ensures c.states != [] && Follows(tokens, c, NodeAt(tokens, c.head, c.states, c.marks, ds, true, false))
  {
    StartFacts(tokens, c);
    hide TokensContent, Starts, NodeAt, HeadFits, Poppable, Resumable, Transition;
    NodeMeans(tokens, c.head, c.states, c.marks, ds, true, false);
    var s := NodeAt(tokens, c.head, c.states, c.marks, ds, true, false);
    if s.Next? { RootSteps(tokens, c, s.event, s.machine.cfg); }
  }

  lemma RootSteps(tokens: seq<Token>, c: Config, e: Event, d: Config)
    requires (c.state.DocumentContentState? || c.state.BlockNodeState?) && c.states == [DocumentEndState]
    requires c.head <= d.head <= |tokens| && d.marks == c.marks && HeadFits(d.state, tokens, d.head)
    requires !d.ended && !d.state.EndState?
    requires || (e.IsLeaf() && c.head < d.head && d.state == DocumentEndState && d.states == [])
             || (&& Opened(e, d.state, d.states) && d.states == c.states
                 && !d.state.IndentlessSequenceEntryState?)
    ensures Transition(tokens, c, e, d)
  {
    hide HeadFits;
    assert MovesDocument(c, e, d);
  }

  lemma DocumentContentFollows(tokens: seq<Token>, c: Config, ds: seq<TagDirective>)
    requires Starts(tokens, c) && c.state.DocumentContentState?
    ensures c.states != [] && Follows(tokens, c, DocumentContentStep(tokens, c, ds))
  {
    StartFacts(tokens, c);
    RootFollows(tokens, c, ds);
    hide TokensContent, Starts, NodeAt;
    var s := DocumentContentStep(tokens, c, ds);
    if s.Next? && s.event == FILLER {
      assert MovesDocument(c, s.event, s.machine.cfg)
          || s == NodeAt(tokens, c.head, c.states, c.marks, ds, true, false);
    }
  }

  lemma DocumentEndFollows(tokens: seq<Token>, c: Config)
    requires Starts(tokens, c) && c.state.DocumentEndState?
    ensures Follows(tokens, c, DocumentEndStep(tokens, c))
  {
    hide TokensContent, Starts, Transition, Resumable, ResumesBlockMapping;
    StartFacts(tokens, c);
    var s := DocumentEndStep(tokens, c);
    if s.Next? {
      ContentStep(tokens, c.head);
      EndsDocument(tokens, c, s.event, s.machine.cfg);
    }
  }

  lemma EndsDocument(tokens: seq<Token>, c: Config, e: Event, d: Config)
    requires c.state.DocumentEndState? && e.DocumentEnd? && d.state == DocumentStartState(false)
    requires d.states == c.states && d.marks == c.marks && !d.ended && c.head <= d.head <= |tokens|
    ensures Transition(tokens, c, e, d)
  {
    hide Stays, Enters, Leaves, MovesPair;
    assert MovesDocument(c, e, d);
  }

  lemma NodeKeepsDirectives(tokens: seq<Token>, h: nat, states: seq<State>, marks: nat, ds: seq<TagDirective>,
                            block: bool, indentless: bool)
    requires states != []
    ensures var s := NodeAt(tokens, h, states, marks, ds, block, indentless);
            s.Next? ==> s.machine.directives == ds
  {
    if h < |tokens| && !tokens[h].AliasToken? {
      var p := PropertiesAt(tokens, h, ds);
      hide PropertiesAt;
    }
  }

  /** Only a document's start and its end change the directives. */
  lemma KeepsDirectives(tokens: seq<Token>, m: Machine)
    requires Poppable(m.cfg) && !m.cfg.state.DocumentStartState? && Production(tokens, m).Next?
    ensures var ds := Production(tokens, m).machine.directives; ds == m.directives || ds == []
  {
    hide NodeAt;
    forall h: nat, states: seq<State>, marks: nat, block: bool, indentless: bool | states != []
      ensures var s := NodeAt(tokens, h, states, marks, m.directives, block, indentless);
              s.Next? ==> s.machine.directives == m.directives
    {
      NodeKeepsDirectives(tokens, h, states, marks, m.directives, block, indentless);
    }
  }

  /** Every step of the machine follows the table. */
  lemma ProductionFollows(tokens: seq<Token>, m: Machine)
    requires Starts(tokens, m.cfg) && DistinctHandles(m.directives)
    ensures Poppable(m.cfg) && Follows(tokens, m.cfg, Production(tokens, m))
    ensures Production(tokens, m).Next? ==> DistinctHandles(Production(tokens, m).machine.directives)
  {
    var (c, ds) := (m.cfg, m.directives);
    StartFacts(tokens, c);
    var s := Production(tokens, m);
    if s.Next? && !c.state.DocumentStartState? {
      KeepsDirectives(tokens, m);
      assert DistinctHandles([]);
    }
    hide TokensContent, Follows, Starts, StreamStartStep, DocumentStartStep, DocumentContentStep, DocumentEndStep,
         NodeAt, BlockSequenceEntryStep, IndentlessSequenceEntryStep, BlockMappingKeyStep, BlockMappingValueStep,
         FlowSequenceEntryStep, PairKeyStep, PairValueStep, PairEndStep, FlowMappingKeyStep, FlowMappingValueStep,
         DistinctHandles;
    match c.state
    case StreamStartState => StreamStartFollows(tokens, c, ds);
    case DocumentStartState(implicit) => DocumentStartFollows(tokens, c, ds, implicit);
    case DocumentContentState => DocumentContentFollows(tokens, c, ds);
    case DocumentEndState => DocumentEndFollows(tokens, c);
    case BlockNodeState => RootFollows(tokens, c, ds);
    case BlockSequenceEntryState(_) => BlockSequenceEntryFollows(tokens, c, ds);
    case IndentlessSequenceEntryState => IndentlessSequenceEntryFollows(tokens, c, ds);
    case BlockMappingKeyState(_) => BlockMappingKeyFollows(tokens, c, ds);
    case BlockMappingValueState => BlockMappingValueFollows(tokens, c, ds);
    case FlowSequenceEntryState(first) => FlowSequenceEntryFollows(tokens, c, ds, first);
    case FlowSequenceEntryMappingKeyState => PairKeyFollows(tokens, c, ds);
    case FlowSequenceEntryMappingValueState => PairValueFollows(tokens, c, ds);
    case FlowSequenceEntryMappingEndState => PairEndFollows(tokens, c, ds);
    case FlowMappingKeyState(first) => FlowMappingKeyFollows(tokens, c, ds, first);
    case FlowMappingValueState(empty) => FlowMappingValueFollows(tokens, c, ds, empty);
    case BlockNodeOrIndentlessSequenceState => NoStep(tokens, c);
    case FlowNodeState => NoStep(tokens, c);
    case EndState => NoStep(tokens, c);
  }

  // ---------------------------------------------------------------------------------------------
  // Runs of the machine

  const START := Machine(Config(StreamStartState, [], 0, 0, false), [])

  function StepOf(tokens: seq<Token>, m: Machine): Step {
    if Poppable(m.cfg) && !m.cfg.state.EndState? then Production(tokens, m) else Stuck(NoError)
  }

  /** The machine returns the events `es` on its way from `m` to `d`. */
  predicate Emits(tokens: seq<Token>, m: Machine, es: seq<Event>, d: Machine)
    decreases |es|
  {
    if es == [] then d == m
    else
      var s := StepOf(tokens, m);
      s.Next? && s.event == es[0] && Emits(tokens, s.machine, es[1..], d)
  }

  lemma {:induction false} EmitsOn(tokens: seq<Token>, m: Machine, es: seq<Event>, d: Machine, more: seq<Event>,
                                   f: Machine)
    requires Emits(tokens, m, es, d) && Emits(tokens, d, more, f)
    ensures Emits(tokens, m, es + more, f)
    decreases |es|
  {
    hide StepOf;
    if es == [] {
      assert es + more == more;
    } else {
      assert (es + more)[0] == es[0] && (es + more)[1..] == es[1..] + more;
      EmitsOn(tokens, StepOf(tokens, m).machine, es[1..], d, more, f);
    }
  }

  lemma EmitsOne(tokens: seq<Token>, m: Machine, e: Event, d: Machine)
    requires StepOf(tokens, m) == Next(e, d)
    ensures Emits(tokens, m, [e], d)
  {
    hide StepOf;
    assert [e][1..] == [];
    assert Emits(tokens, d, [], d);
  }

  /** The machine is deterministic: two runs up to where it stops are the same. */
  lemma {:induction false} OneRun(tokens: seq<Token>, m: Machine, es: seq<Event>, d: Machine, fs: seq<Event>,
                                  f: Machine)
    requires Emits(tokens, m, es, d) && StepOf(tokens, d).Stuck?
    requires Emits(tokens, m, fs, f) && StepOf(tokens, f).Stuck?
    ensures es == fs && d == f
    decreases |es|
  {
    hide StepOf;
    if es != [] && fs != [] {
      OneRun(tokens, StepOf(tokens, m).machine, es[1..], d, fs[1..], f);
      assert es == [es[0]] + es[1..] && fs == [fs[0]] + fs[1..];
    }
  }

  /** And a run is the start of any run up to where the machine stops. */
  lemma {:induction false} StartOfRun(tokens: seq<Token>, m: Machine, es: seq<Event>, d: Machine, fs: seq<Event>,
                                      f: Machine)
    requires Emits(tokens, m, es, d) && Emits(tokens, m, fs, f) && StepOf(tokens, f).Stuck?
    ensures es <= fs
    decreases |es|
  {
    hide StepOf;
    if es == [] {
    } else {
      StartOfRun(tokens, StepOf(tokens, m).machine, es[1..], d, fs[1..], f);
      assert es == [es[0]] + es[1..] && fs == [fs[0]] + fs[1..];
    }
  }

  // ---------------------------------------------------------------------------------------------
  // The flags of events

  /** Without a tag a scalar may be resolved by its text exactly if it is plain, and is a string exactly
      if it is not; with a tag neither, except for the tag "!", which stands for a plain scalar.  The
      tag of a collection is implicit exactly if there is none. */
  predicate FlagsFit(e: Event) {
    && (e.Scalar? ==>
          && (e.tag == "" ==> (e.implicit <==> e.style == Plain) && (e.quotedImplicit <==> e.style != Plain))
          && (e.tag != "" && e.tag != "!" ==> !e.implicit && !e.quotedImplicit)
          && (e.tag == "!" ==> !e.quotedImplicit && (e.value != "" || e.style != Plain ==> e.implicit)))
    && (e.Opens() ==> (e.implicit <==> e.tag == ""))
  }

  lemma NodeFlags(tokens: seq<Token>, h: nat, states: seq<State>, marks: nat, ds: seq<TagDirective>, block: bool,
                  indentless: bool)
    requires states != []
    ensures var s := NodeAt(tokens, h, states, marks, ds, block, indentless); s.Next? ==> FlagsFit(s.event)
  {
    hide PropertiesAt;
  }

  lemma ChildFlags(tokens: seq<Token>, c: Config, marks: nat, h: nat, ds: seq<TagDirective>, next: State, block: bool,
                   indentless: bool)
    ensures var s := ChildStep(tokens, c, marks, h, ds, next, block, indentless); s.Next? ==> FlagsFit(s.event)
  {
    hide NodeAt, FlagsFit;
    NodeFlags(tokens, h, c.states + [next], marks, ds, block, indentless);
  }

  lemma StepFlags(tokens: seq<Token>, m: Machine)
    ensures StepOf(tokens, m).Next? ==> FlagsFit(StepOf(tokens, m).event)
  {
    hide NodeAt, ChildStep, DirectivesAt, BehindDocumentEnds;
    var (c, ds) := (m.cfg, m.directives);
    if c.states != [] { NodeFlags(tokens, c.head, c.states, c.marks, ds, true, false); }
    forall marks: nat, h: nat, next, block, indentless
      ensures var s := ChildStep(tokens, c, marks, h, ds, next, block, indentless); s.Next? ==> FlagsFit(s.event)
    {
      ChildFlags(tokens, c, marks, h, ds, next, block, indentless);
    }
  }

  /** The flags of every event of a run fit its tag and its style. */
  lemma {:induction false} RunFlags(tokens: seq<Token>, m: Machine, es: seq<Event>, d: Machine)
    requires Emits(tokens, m, es, d)
    ensures forall i | 0 <= i < |es| :: FlagsFit(es[i])
    decreases |es|
  {
    hide StepOf, FlagsFit;
    if es == [] {
    } else {
      StepFlags(tokens, m);
      RunFlags(tokens, StepOf(tokens, m).machine, es[1..], d);
      assert forall i | 0 < i < |es| :: es[i] == es[1..][i - 1];
    }
  }

  // ---------------------------------------------------------------------------------------------
  // What tags stand for

  /** A handle stands for the prefix declared for it in the document; of those that are not declared,
      "!" stands for itself and "!!" for the tags of YAML.  Any other handle is an error. */
  lemma TagMeans(tags: seq<TagDirective>, handle: string, suffix: string)
    requires DistinctHandles(tags)
    ensures handle == "" ==> TagOf(WithDefaults(tags), handle, suffix) == Some(suffix)
    ensures forall d | d in tags && d.handle == handle != "" ::
              TagOf(WithDefaults(tags), handle, suffix)
              == if d.prefix == suffix == "" then None else Some(d.prefix + suffix)
    ensures (forall d | d in tags :: d.handle != handle) && handle != "" ==>
              TagOf(WithDefaults(tags), handle, suffix)
              == if handle == "!" then Some("!" + suffix)
                 else if handle == "!!" then Some("tag:yaml.org,2002:" + suffix)
                 else None
  {
    var (d0, d1) := (DEFAULT_TAG_DIRECTIVES[0], DEFAULT_TAG_DIRECTIVES[1]);
    var some := WithDirective(tags, d0);
    PrefixSnoc(tags, d0, handle);
    PrefixSnoc(some, d1, handle);
    PrefixFound(tags, handle);
    forall d | d in tags && d.handle == handle
      ensures PrefixOf(tags, handle) == Some(d.prefix)
    {
      var i :| 0 <= i < |tags| && tags[i] == d;
      PrefixFirst(tags, handle, i);
    }
  }

  lemma {:induction false} PrefixFound(ds: seq<TagDirective>, handle: string)
    ensures PrefixOf(ds, handle).Some? <==> HasHandle(ds, handle)
  {
    if ds == [] {
    } else {
      PrefixFound(ds[1..], handle);
      assert forall i | 0 < i < |ds| :: ds[i] == ds[1..][i - 1];
    }
  }

  lemma {:induction false} PrefixFirst(ds: seq<TagDirective>, handle: string, i: nat)
    requires DistinctHandles(ds) && i < |ds| && ds[i].handle == handle
    ensures PrefixOf(ds, handle) == Some(ds[i].prefix)
  {
    if i == 0 {
    } else {
      assert ds[0].handle != ds[i].handle;
      PrefixFirst(ds[1..], handle, i - 1);
    }
  }

  lemma {:induction false} PrefixSnoc(ds: seq<TagDirective>, d: TagDirective, handle: string)
    ensures PrefixOf(WithDirective(ds, d), handle)
         == if PrefixOf(ds, handle).Some? then PrefixOf(ds, handle)
            else if d.handle == handle then Some(d.prefix) else None
  {
    PrefixFound(ds, handle);
    PrefixFound(ds, d.handle);
    PrefixAppend(ds, d, handle);
  }

  lemma {:induction false} PrefixAppend(ds: seq<TagDirective>, d: TagDirective, handle: string)
    ensures PrefixOf(ds + [d], handle)
         == if PrefixOf(ds, handle).Some? then PrefixOf(ds, handle)
            else if d.handle == handle then Some(d.prefix) else None
  {
    if ds == [] {
      assert ds + [d] == [d];
    } else {
      assert (ds + [d])[1..] == ds[1..] + [d];
      PrefixAppend(ds[1..], d, handle);
    }
  }
}
