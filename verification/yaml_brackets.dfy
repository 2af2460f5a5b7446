/**
 Two things that every production keeps: the brackets of flow sequences are counted by the stack of
 states, except that one production loses a closing bracket; and a list of tokens that ends where the
 stream does never runs out.
 */
module YamlBrackets {
  import opened Options
  import opened YamlEvents
  import opened YamlProductions

  // ---------------------------------------------------------------------------------------------
  // Counting

  function Bracket(t: Token): int {
    if t.FlowSequenceStartToken? then 1 else if t.FlowSequenceEndToken? then -1 else 0
  }

  /** The flow sequences that the first `h` tokens open, less those that they close. */
  function Net(tokens: seq<Token>, h: nat): int
    requires h <= |tokens|
  {
    if h == 0 then 0 else Net(tokens, h - 1) + Bracket(tokens[h - 1])
  }

  /** Whether a state stands for a flow sequence whose bracket has been consumed. */
  function OpenAt(s: State): nat {
    if s == FlowSequenceEntryState(false) || s.ForPair() then 1 else 0
  }

  function OpenIn(states: seq<State>): nat {
    if states == [] then 0 else OpenIn(states[..|states| - 1]) + OpenAt(states[|states| - 1])
  }

  function Open(c: Config): nat {
    OpenIn(c.states) + OpenAt(c.state)
  }

  /** Here the end of the sequence shows that the key of a single pair is empty, and is lost. */
  predicate Loses(tokens: seq<Token>, c: Config) {
    c.state.FlowSequenceEntryMappingKeyState? && c.head < |tokens| && tokens[c.head].FlowSequenceEndToken?
  }

  /** The list ends with its one STREAM-END. */
  predicate Whole(tokens: seq<Token>) {
    && tokens != [] && tokens[|tokens| - 1].StreamEndToken?
    && forall i | 0 <= i < |tokens| - 1 :: !tokens[i].StreamEndToken?
  }

  /** A step counts the brackets that it consumes, apart from one that is lost. */
  predicate Counted(tokens: seq<Token>, c: Config, s: Step) {
    s.Next? ==>
      var d := s.machine.cfg;
      && c.head <= d.head <= |tokens|
      && Net(tokens, d.head) + (if Loses(tokens, c) then 1 else 0) - Open(d) == Net(tokens, c.head) - Open(c)
  }

  /** On a whole list a step is refused only for what the tokens are. */
  predicate Fed(tokens: seq<Token>, s: Step) {
    Whole(tokens) && s.Stuck? ==> s.error == ParserError
  }

  lemma NetStep(tokens: seq<Token>, h: nat)
    requires h < |tokens|
    ensures Net(tokens, h + 1) == Net(tokens, h) + Bracket(tokens[h])
  {}

  lemma OpenPush(states: seq<State>, s: State)
    ensures OpenIn(states + [s]) == OpenIn(states) + OpenAt(s)
  {
    assert (states + [s])[..|states|] == states;
  }

  /** Behind a token that is not the end of the stream there is another. */
  lemma MoreTokens(tokens: seq<Token>, h: nat)
    requires h < |tokens|
    ensures Whole(tokens) && !tokens[h].StreamEndToken? ==> h + 1 < |tokens|
    ensures Net(tokens, h + 1) == Net(tokens, h) + Bracket(tokens[h])
  {}

  // ---------------------------------------------------------------------------------------------
  // Nodes

  lemma PropertiesCounted(tokens: seq<Token>, h: nat, ds: seq<TagDirective>)
    requires h < |tokens|
    ensures var p := PropertiesAt(tokens, h, ds);
            p.Properties? ==> h <= p.head < |tokens| && Net(tokens, p.head) == Net(tokens, h)
    ensures Whole(tokens) && PropertiesAt(tokens, h, ds).Unreadable? ==>
              PropertiesAt(tokens, h, ds) == Unreadable(ParserError)
  {
    hide TagOf;
    NetStep(tokens, h);
    if h + 1 < |tokens| { NetStep(tokens, h + 1); }
    hide Net;
  }

  lemma ContentCounted(tokens: seq<Token>, p: Properties, states: seq<State>, marks: nat, ds: seq<TagDirective>,
                       block: bool, indentless: bool)
    requires p.Properties? && p.head < |tokens| && states != []
    ensures var s := ContentAt(tokens, p, states, marks, ds, block, indentless);
            && (s.Next? ==>
                  var d := s.machine.cfg;
                  && p.head <= d.head <= |tokens| && Net(tokens, d.head) == Net(tokens, p.head)
                  && Open(d) == OpenIn(states))
            && (s.Stuck? ==> s.error == ParserError)
  {
    NetStep(tokens, p.head);
    hide Net;
  }

  lemma NodeCounted(tokens: seq<Token>, h: nat, states: seq<State>, marks: nat, ds: seq<TagDirective>, block: bool,
                    indentless: bool)
    requires h <= |tokens| && states != []
    ensures var s := NodeAt(tokens, h, states, marks, ds, block, indentless);
            && (s.Next? ==>
                  var d := s.machine.cfg;
                  h <= d.head <= |tokens| && Net(tokens, d.head) == Net(tokens, h) && Open(d) == OpenIn(states))
            && (h < |tokens| ==> Fed(tokens, s))
  {
    if h < |tokens| {
      if tokens[h].AliasToken? {
        NetStep(tokens, h);
      } else {
        PropertiesCounted(tokens, h, ds);
        var p := PropertiesAt(tokens, h, ds);
        hide PropertiesAt, ContentAt, Net;
        if p.Properties? { ContentCounted(tokens, p, states, marks, ds, block, indentless); }
      }
    }
  }

  lemma ChildCounted(tokens: seq<Token>, c: Config, marks: nat, h: nat, ds: seq<TagDirective>, next: State, block: bool,
                     indentless: bool)
    requires h <= |tokens|
    ensures var s := ChildStep(tokens, c, marks, h, ds, next, block, indentless);
            && (s.Next? ==>
                  var d := s.machine.cfg;
                  && h <= d.head <= |tokens| && Net(tokens, d.head) == Net(tokens, h)
                  && Open(d) == OpenIn(c.states) + OpenAt(next))
            && (h < |tokens| ==> Fed(tokens, s))
  {
    hide NodeAt, Net;
    OpenPush(c.states, next);
    NodeCounted(tokens, h, c.states + [next], marks, ds, block, indentless);
  }

  lemma EmptyCounted(tokens: seq<Token>, c: Config, marks: nat, h: nat, ds: seq<TagDirective>, next: State)
    ensures var s := EmptyStep(tokens, c, marks, h, ds, next);
            s.Next? && s.machine.cfg.head == h && Open(s.machine.cfg) == OpenIn(c.states) + OpenAt(next)
  {}

  lemma CloseCounted(tokens: seq<Token>, c: Config, marks: nat, h: nat, ds: seq<TagDirective>, end: Event)
    requires c.states != [] && marks > 0
    ensures var s := CloseStep(tokens, c, marks, h, ds, end);
            s.Next? && s.machine.cfg.head == h + 1 && Open(s.machine.cfg) == OpenIn(c.states)
  {}

  // ---------------------------------------------------------------------------------------------
  // Productions

  /** There is a token at the head, unless the list is not whole. */
  lemma HeadThere(tokens: seq<Token>, c: Config)
    requires Starts(tokens, c) && Whole(tokens)
    ensures c.head < |tokens|
  {}

  /** What the first state of a collection has at its head. */
  lemma StartThere(tokens: seq<Token>, c: Config)
    requires Starts(tokens, c)
    ensures c.head <= |tokens| && c.head + Started(c.state) <= |tokens|
    ensures Net(tokens, c.head + Started(c.state))
         == Net(tokens, c.head) + if c.state == FlowSequenceEntryState(true) then 1 else 0
    ensures Whole(tokens) ==> c.head + Started(c.state) < |tokens|
  {
    if c.state.First() { NetStep(tokens, c.head); }
    if Whole(tokens) { HeadThere(tokens, c); }
    hide Net;
  }

  lemma BlockSequenceCounted(tokens: seq<Token>, c: Config, ds: seq<TagDirective>)
    requires Starts(tokens, c) && c.state.BlockSequenceEntryState? && Poppable(c)
    ensures c.states != [] && c.marks + Started(c.state) > 0
    ensures Counted(tokens, c, BlockSequenceEntryStep(tokens, c, ds))
    ensures Fed(tokens, BlockSequenceEntryStep(tokens, c, ds))
  {
    hide Whole, Starts, Net, ChildStep, EmptyStep, CloseStep;
    StartThere(tokens, c);
    var h, marks := c.head + Started(c.state), c.marks + Started(c.state);
    if h < |tokens| { MoreTokens(tokens, h); }
    if h + 1 < |tokens| { ChildCounted(tokens, c, marks, h + 1, ds, BlockSequenceEntryState(false), true, false); }
    EmptyCounted(tokens, c, marks, h + 1, ds, BlockSequenceEntryState(false));
    CloseCounted(tokens, c, marks, h, ds, SequenceEnd);
  }

  lemma IndentlessCounted(tokens: seq<Token>, c: Config, ds: seq<TagDirective>)
    requires Starts(tokens, c) && c.state.IndentlessSequenceEntryState? && Poppable(c)
    ensures c.states != []
    ensures Counted(tokens, c, IndentlessSequenceEntryStep(tokens, c, ds))
    ensures Fed(tokens, IndentlessSequenceEntryStep(tokens, c, ds))
  {
    hide Whole, Starts, Net, ChildStep, EmptyStep;
    StartThere(tokens, c);
    var h := c.head;
    if h < |tokens| { MoreTokens(tokens, h); }
    if h + 1 < |tokens| { ChildCounted(tokens, c, c.marks, h + 1, ds, IndentlessSequenceEntryState, true, false); }
    EmptyCounted(tokens, c, c.marks, h + 1, ds, IndentlessSequenceEntryState);
  }

  lemma BlockKeyCounted(tokens: seq<Token>, c: Config, ds: seq<TagDirective>)
    requires Starts(tokens, c) && c.state.BlockMappingKeyState? && Poppable(c)
    ensures c.states != [] && c.marks + Started(c.state) > 0
    ensures Counted(tokens, c, BlockMappingKeyStep(tokens, c, ds)) && Fed(tokens, BlockMappingKeyStep(tokens, c, ds))
  {
    hide Whole, Starts, Net, ChildStep, EmptyStep, CloseStep;
    StartThere(tokens, c);
    var h, marks := c.head + Started(c.state), c.marks + Started(c.state);
    if h < |tokens| { MoreTokens(tokens, h); }
    if h + 1 < |tokens| { ChildCounted(tokens, c, marks, h + 1, ds, BlockMappingValueState, true, true); }
    EmptyCounted(tokens, c, marks, h + 1, ds, BlockMappingValueState);
    CloseCounted(tokens, c, marks, h, ds, MappingEnd);
  }

  lemma BlockValueCounted(tokens: seq<Token>, c: Config, ds: seq<TagDirective>)
    requires Starts(tokens, c) && c.state.BlockMappingValueState?
    ensures Counted(tokens, c, BlockMappingValueStep(tokens, c, ds))
    ensures Fed(tokens, BlockMappingValueStep(tokens, c, ds))
  {
    hide Whole, Starts, Net, ChildStep, EmptyStep;
    StartThere(tokens, c);
    var h, next := c.head, BlockMappingKeyState(false);
    if h < |tokens| { MoreTokens(tokens, h); }
    if h + 1 < |tokens| { ChildCounted(tokens, c, c.marks, h + 1, ds, next, true, true); }
    EmptyCounted(tokens, c, c.marks, h, ds, next);
    EmptyCounted(tokens, c, c.marks, h + 1, ds, next);
  }

  lemma FlowItemCounted(tokens: seq<Token>, c: Config, marks: nat, h: nat, ds: seq<TagDirective>)
    requires c.states != [] && marks > 0 && h <= |tokens|
    ensures var s := FlowItemStep(tokens, c, marks, h, ds);
            && (s.Next? ==>
                  var d := s.machine.cfg;
                  h <= d.head <= |tokens| && Net(tokens, d.head) - Open(d) == Net(tokens, h) - OpenIn(c.states) - 1)
            && (h < |tokens| ==> Fed(tokens, s))
  {
    hide Whole, Net, ChildStep, CloseStep;
    if h < |tokens| { MoreTokens(tokens, h); }
    ChildCounted(tokens, c, marks, h, ds, FlowSequenceEntryState(false), false, false);
    CloseCounted(tokens, c, marks, h, ds, SequenceEnd);
  }

  lemma FlowSequenceCounted(tokens: seq<Token>, c: Config, ds: seq<TagDirective>, first: bool)
    requires Starts(tokens, c) && c.state == FlowSequenceEntryState(first) && Poppable(c)
    ensures c.states != [] && c.marks + Started(c.state) > 0
    ensures Counted(tokens, c, FlowSequenceEntryStep(tokens, c, ds, first))
    ensures Fed(tokens, FlowSequenceEntryStep(tokens, c, ds, first))
  {
    hide Whole, Starts, Net, FlowItemStep, CloseStep;
    StartThere(tokens, c);
    var h, marks := c.head + Started(c.state), c.marks + Started(c.state);
    if h < |tokens| { MoreTokens(tokens, h); }
    FlowItemCounted(tokens, c, marks, h, ds);
    if h + 1 <= |tokens| { FlowItemCounted(tokens, c, marks, h + 1, ds); }
    CloseCounted(tokens, c, marks, h, ds, SequenceEnd);
  }

  lemma PairKeyCounted(tokens: seq<Token>, c: Config, ds: seq<TagDirective>)
    requires Starts(tokens, c) && c.state.FlowSequenceEntryMappingKeyState?
    ensures Counted(tokens, c, PairKeyStep(tokens, c, ds)) && Fed(tokens, PairKeyStep(tokens, c, ds))
  {
    hide Whole, Starts, Net, ChildStep, EmptyStep;
    StartThere(tokens, c);
    var h, next := c.head, FlowSequenceEntryMappingValueState;
    if h < |tokens| { MoreTokens(tokens, h); }
    ChildCounted(tokens, c, c.marks, h, ds, next, false, false);
    EmptyCounted(tokens, c, c.marks, h + 1, ds, next);
  }

  lemma PairValueCounted(tokens: seq<Token>, c: Config, ds: seq<TagDirective>)
    requires Starts(tokens, c) && c.state.FlowSequenceEntryMappingValueState?
    ensures Counted(tokens, c, PairValueStep(tokens, c, ds)) && Fed(tokens, PairValueStep(tokens, c, ds))
  {
    hide Whole, Starts, Net, ChildStep, EmptyStep;
    StartThere(tokens, c);
    var h, next := c.head, FlowSequenceEntryMappingEndState;
    if h < |tokens| { MoreTokens(tokens, h); }
    if h + 1 < |tokens| { ChildCounted(tokens, c, c.marks, h + 1, ds, next, false, false); }
    EmptyCounted(tokens, c, c.marks, h, ds, next);
    EmptyCounted(tokens, c, c.marks, h + 1, ds, next);
  }

  lemma PairEndCounted(tokens: seq<Token>, c: Config, ds: seq<TagDirective>)
    requires Starts(tokens, c) && c.state.FlowSequenceEntryMappingEndState?
    ensures Counted(tokens, c, PairEndStep(tokens, c, ds)) && Fed(tokens, PairEndStep(tokens, c, ds))
  {
    hide Whole, Starts, Net;
    StartThere(tokens, c);
  }

  lemma ExplicitKeyCounted(tokens: seq<Token>, c: Config, marks: nat, h: nat, ds: seq<TagDirective>)
    requires h <= |tokens|
    ensures var s := ExplicitKeyStep(tokens, c, marks, h, ds);
            && (s.Next? ==>
                  var d := s.machine.cfg;
                  h <= d.head <= |tokens| && Net(tokens, d.head) - Open(d) == Net(tokens, h) - OpenIn(c.states))
            && (h < |tokens| ==> Fed(tokens, s))
  {
    hide Whole, Net, ChildStep, EmptyStep;
    ChildCounted(tokens, c, marks, h, ds, FlowMappingValueState(false), false, false);
    EmptyCounted(tokens, c, marks, h, ds, FlowMappingValueState(false));
  }

  lemma FlowKeyCounted(tokens: seq<Token>, c: Config, marks: nat, h: nat, ds: seq<TagDirective>)
    requires c.states != [] && marks > 0 && h <= |tokens|
    ensures var s := FlowKeyStep(tokens, c, marks, h, ds);
            && (s.Next? ==>
                  var d := s.machine.cfg;
                  h <= d.head <= |tokens| && Net(tokens, d.head) - Open(d) == Net(tokens, h) - OpenIn(c.states))
            && (h < |tokens| ==> Fed(tokens, s))
  {
    hide Whole, Net, ChildStep, CloseStep, ExplicitKeyStep;
    if h < |tokens| {
      MoreTokens(tokens, h);
      ExplicitKeyCounted(tokens, c, marks, h + 1, ds);
    }
    ChildCounted(tokens, c, marks, h, ds, FlowMappingValueState(true), false, false);
    CloseCounted(tokens, c, marks, h, ds, MappingEnd);
  }

  lemma FlowMappingCounted(tokens: seq<Token>, c: Config, ds: seq<TagDirective>, first: bool)
    requires Starts(tokens, c) && c.state == FlowMappingKeyState(first) && Poppable(c)
    ensures c.states != [] && c.marks + Started(c.state) > 0
    ensures Counted(tokens, c, FlowMappingKeyStep(tokens, c, ds, first))
    ensures Fed(tokens, FlowMappingKeyStep(tokens, c, ds, first))
  {
    hide Whole, Starts, Net, FlowKeyStep, CloseStep;
    StartThere(tokens, c);
    var h, marks := c.head + Started(c.state), c.marks + Started(c.state);
    if h < |tokens| { MoreTokens(tokens, h); }
    FlowKeyCounted(tokens, c, marks, h, ds);
    if h + 1 <= |tokens| { FlowKeyCounted(tokens, c, marks, h + 1, ds); }
    CloseCounted(tokens, c, marks, h, ds, MappingEnd);
  }

  lemma FlowValueCounted(tokens: seq<Token>, c: Config, ds: seq<TagDirective>, empty: bool)
    requires Starts(tokens, c) && c.state == FlowMappingValueState(empty)
    ensures Counted(tokens, c, FlowMappingValueStep(tokens, c, ds, empty))
    ensures Fed(tokens, FlowMappingValueStep(tokens, c, ds, empty))
  {
    hide Whole, Starts, Net, ChildStep, EmptyStep;
    StartThere(tokens, c);
    var h, next := c.head, FlowMappingKeyState(false);
    if h < |tokens| { MoreTokens(tokens, h); }
    if h + 1 < |tokens| { ChildCounted(tokens, c, c.marks, h + 1, ds, next, false, false); }
    EmptyCounted(tokens, c, c.marks, h, ds, next);
    EmptyCounted(tokens, c, c.marks, h + 1, ds, next);
  }

  lemma {:induction false} EndsCounted(tokens: seq<Token>, h: nat)
    requires h <= |tokens|
    ensures var k := BehindDocumentEnds(tokens, h); h <= k <= |tokens| && Net(tokens, k) == Net(tokens, h)
    ensures Whole(tokens) && h < |tokens| ==> BehindDocumentEnds(tokens, h) < |tokens|
    decreases |tokens| - h
  {
    if h < |tokens| && tokens[h].DocumentEndToken? {
      NetStep(tokens, h);
      hide Net;
      EndsCounted(tokens, h + 1);
    }
  }

  lemma {:induction false} DirectivesCounted(tokens: seq<Token>, h: nat, version: Option<Version>,
                                             tags: seq<TagDirective>, known: seq<TagDirective>)
    requires h <= |tokens|
    ensures var r := DirectivesAt(tokens, h, version, tags, known);
            r.Directives? ==> h <= r.head < |tokens| && Net(tokens, r.head) == Net(tokens, h)
    ensures Whole(tokens) && h < |tokens| ==>
              var r := DirectivesAt(tokens, h, version, tags, known);
              r.BadDirectives? ==> r.error == ParserError
    decreases |tokens| - h
  {
    hide HasHandle, WithDefaults;
    if h < |tokens| {
      NetStep(tokens, h);
      hide Net;
      var t := tokens[h];
      if t.VersionDirectiveToken? {
        DirectivesCounted(tokens, h + 1, Some(Version(t.major, t.minor)), tags, known);
      } else if t.TagDirectiveToken? {
        var d := TagDirective(t.handle, t.prefix);
        DirectivesCounted(tokens, h + 1, version, tags + [d], known + [d]);
      }
    }
  }

  /** A document starts at `h`, with or without its mark. */
  predicate StartsAt(tokens: seq<Token>, c: Config, h: nat, s: Step) {
    && (s.Next? ==>
          var d := s.machine.cfg;
          && h <= d.head <= |tokens| && h <= |tokens|
          && Net(tokens, d.head) == Net(tokens, h) && Open(d) == OpenIn(c.states))
    && (h < |tokens| ==> Fed(tokens, s))
  }

  lemma StartCounted(tokens: seq<Token>, c: Config, h: nat, ds: seq<TagDirective>)
    requires h <= |tokens|
    ensures StartsAt(tokens, c, h, ImplicitStartStep(tokens, c, h, ds))
    ensures StartsAt(tokens, c, h, ExplicitStartStep(tokens, c, h, ds))
  {
    hide DirectivesAt, Net, Whole, OpenIn;
    DirectivesCounted(tokens, h, None, [], ds);
    var r := DirectivesAt(tokens, h, None, [], ds);
    if r.Directives? { MoreTokens(tokens, r.head); }
    OpenPush(c.states, DocumentEndState);
  }

  lemma DocumentStartCounted(tokens: seq<Token>, c: Config, ds: seq<TagDirective>, implicit: bool)
    requires Starts(tokens, c) && c.state == DocumentStartState(implicit)
    ensures Counted(tokens, c, DocumentStartStep(tokens, c, ds, implicit))
    ensures Fed(tokens, DocumentStartStep(tokens, c, ds, implicit))
  {
    hide BehindDocumentEnds, Starts, ImplicitStartStep, ExplicitStartStep, Whole, Net;
    StartThere(tokens, c);
    EndsCounted(tokens, c.head);
    var h := if implicit then c.head else BehindDocumentEnds(tokens, c.head);
    if h < |tokens| { MoreTokens(tokens, h); }
    StartCounted(tokens, c, h, ds);
  }

  lemma OutsideCounted(tokens: seq<Token>, c: Config, ds: seq<TagDirective>)
    requires Starts(tokens, c) && Poppable(c)
    requires || c.state.StreamStartState? || c.state.DocumentContentState? || c.state.DocumentEndState?
             || c.state.BlockNodeState?
    ensures var s := Production(tokens, Machine(c, ds)); Counted(tokens, c, s) && Fed(tokens, s)
  {
    hide Starts, Net, NodeAt, Whole;
    StartThere(tokens, c);
    if c.head < |tokens| { MoreTokens(tokens, c.head); }
    if c.state.DocumentContentState? || c.state.BlockNodeState? {
      NodeCounted(tokens, c.head, c.states, c.marks, ds, true, false);
    }
  }

  /** Every production counts brackets, and on a whole list never lacks a token. */
  lemma ProductionCounted(tokens: seq<Token>, m: Machine)
    requires Starts(tokens, m.cfg) && Poppable(m.cfg)
    ensures Counted(tokens, m.cfg, Production(tokens, m)) && Fed(tokens, Production(tokens, m))
  {
    var (c, ds) := (m.cfg, m.directives);
    hide Starts, Poppable, Counted, StreamStartStep, DocumentStartStep, DocumentContentStep, DocumentEndStep, NodeAt,
         BlockSequenceEntryStep, IndentlessSequenceEntryStep, BlockMappingKeyStep, BlockMappingValueStep,
         FlowSequenceEntryStep, PairKeyStep, PairValueStep, PairEndStep, FlowMappingKeyStep, FlowMappingValueStep;
    match c.state
    case StreamStartState => OutsideCounted(tokens, c, ds);
    case DocumentStartState(implicit) => DocumentStartCounted(tokens, c, ds, implicit);
    case DocumentContentState => OutsideCounted(tokens, c, ds);
    case DocumentEndState => OutsideCounted(tokens, c, ds);
    case BlockNodeState => OutsideCounted(tokens, c, ds);
    case BlockSequenceEntryState(_) => BlockSequenceCounted(tokens, c, ds);
    case IndentlessSequenceEntryState => IndentlessCounted(tokens, c, ds);
    case BlockMappingKeyState(_) => BlockKeyCounted(tokens, c, ds);
    case BlockMappingValueState => BlockValueCounted(tokens, c, ds);
    case FlowSequenceEntryState(first) => FlowSequenceCounted(tokens, c, ds, first);
    case FlowSequenceEntryMappingKeyState => PairKeyCounted(tokens, c, ds);
    case FlowSequenceEntryMappingValueState => PairValueCounted(tokens, c, ds);
    case FlowSequenceEntryMappingEndState => PairEndCounted(tokens, c, ds);
    case FlowMappingKeyState(first) => FlowMappingCounted(tokens, c, ds, first);
    case FlowMappingValueState(empty) => FlowValueCounted(tokens, c, ds, empty);
    case BlockNodeOrIndentlessSequenceState => NeverCounted(tokens, c);
    case FlowNodeState => NeverCounted(tokens, c);
    case EndState => NeverCounted(tokens, c);
  }

  lemma NeverCounted(tokens: seq<Token>, c: Config)
    ensures Counted(tokens, c, Stuck(ParserError))
  {}

  // ---------------------------------------------------------------------------------------------
  // Whole runs

  /** The machine is in step with what it has returned. */
  ghost predicate Going(tokens: seq<Token>, m: Machine, p: Partial) {
    InStep(tokens, m.cfg, p) && DistinctHandles(m.directives) && m.cfg.ended == EndedAt(tokens, m.cfg.head)
  }

  lemma StartGoing(tokens: seq<Token>)
    ensures Going(tokens, START, Unstarted)
  {}

  function Balance(tokens: seq<Token>, c: Config): int
    requires c.head <= |tokens|
  {
    Net(tokens, c.head) - Open(c)
  }

  lemma GoingStarts(tokens: seq<Token>, m: Machine, p: Partial)
    requires Going(tokens, m, p)
    ensures m.cfg.head <= |tokens| && (!m.cfg.state.EndState? ==> Starts(tokens, m.cfg))
    ensures m.cfg.state.EndState? ==> m.cfg.states == [] && EndedAt(tokens, m.cfg.head)
  {}

  lemma StepGoes(tokens: seq<Token>, m: Machine, p: Partial) returns (q: Partial)
    requires Going(tokens, m, p) && StepOf(tokens, m).Next?
    ensures var d := StepOf(tokens, m).machine;
            && Going(tokens, d, q) && m.cfg.head <= |tokens| && d.cfg.head <= |tokens|
            && Balance(tokens, d.cfg) == Balance(tokens, m.cfg) - if Loses(tokens, m.cfg) then 1 else 0
  {
    var s := StepOf(tokens, m);
    GoingStarts(tokens, m, p);
    ProductionFollows(tokens, m);
    ProductionCounted(tokens, m);
    hide Production, Starts, Poppable, Net, Open, TokensContent, Transition, InStep, DistinctHandles, Loses;
    TransitionKeeps(tokens, m.cfg, p, s.event, s.machine.cfg);
    q := Feed(p, s.event).value;
  }

  /** A run never closes more sequences than it has opened, and one less for each bracket lost. */
  lemma {:induction false} RunGoes(tokens: seq<Token>, m: Machine, p: Partial, es: seq<Event>, d: Machine)
    returns (q: Partial)
    requires Going(tokens, m, p) && Emits(tokens, m, es, d)
    ensures Going(tokens, d, q) && m.cfg.head <= |tokens| && d.cfg.head <= |tokens|
    ensures Balance(tokens, d.cfg) <= Balance(tokens, m.cfg) - if es != [] && Loses(tokens, m.cfg) then 1 else 0
    decreases |es|
  {
    hide StepOf, Going, Balance, Loses;
    GoingStarts(tokens, m, p);
    q := p;
    if es == [] {
    } else {
      q := StepGoes(tokens, m, p);
      q := RunGoes(tokens, StepOf(tokens, m).machine, q, es[1..], d);
    }
  }

  lemma EndBalance(tokens: seq<Token>, d: Machine, q: Partial)
    requires Whole(tokens) && Going(tokens, d, q) && d.cfg.state.EndState?
    ensures d.cfg.head <= |tokens| && Balance(tokens, d.cfg) == Net(tokens, |tokens|)
  {
    GoingStarts(tokens, d, q);
    hide Going, Net;
  }

  lemma StartBalance(tokens: seq<Token>)
    ensures START.cfg.head <= |tokens| && Balance(tokens, START.cfg) == 0
  {}

  /** A run over a whole list of tokens with matching brackets does not get to the end once it has
      lost one. */
  lemma LostNeverEnds(tokens: seq<Token>, es: seq<Event>, x: Machine, fs: seq<Event>, d: Machine)
    requires Whole(tokens) && Net(tokens, |tokens|) == 0
    requires Emits(tokens, START, es, x) && Loses(tokens, x.cfg) && Emits(tokens, x, fs, d)
    ensures !d.cfg.state.EndState?
  {
    hide Emits, Whole, Net, Balance, Going;
    StartGoing(tokens);
    StartBalance(tokens);
    var p := RunGoes(tokens, START, Unstarted, es, x);
    var q := RunGoes(tokens, x, p, fs, d);
    if d.cfg.state.EndState? {
      EndBalance(tokens, d, q);
      EmitsNothing(tokens, x, d);
      assert false;
    }
  }

  lemma EmitsNothing(tokens: seq<Token>, m: Machine, d: Machine)
    ensures Emits(tokens, m, [], d) ==> d == m
  {}

  /** Over a whole list of tokens the machine stops only at the end of the stream or at a syntax
      error. */
  lemma NeverStarves(tokens: seq<Token>, es: seq<Event>, d: Machine)
    requires Whole(tokens) && Emits(tokens, START, es, d) && StepOf(tokens, d).Stuck?
    ensures d.cfg.state.EndState? || StepOf(tokens, d) == Stuck(ParserError)
  {
    hide Emits, Whole, Net;
    StartGoing(tokens);
    var p := RunGoes(tokens, START, Unstarted, es, d);
    GoingStarts(tokens, d, p);
    if !d.cfg.state.EndState? {
      StartFacts(tokens, d.cfg);
      ProductionCounted(tokens, d);
    }
  }
}
