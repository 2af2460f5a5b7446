/**
 What the parser and the composer make of documents as they are written.

 The parser turns the tokens of documents into exactly their events, and the composer into their
 trees, unless the directives of a document are at fault, a tag has an undeclared handle, or a single
 pair of a flow sequence has an empty key without a VALUE, or with a value behind it; then the tokens
 are refused.
 */
module YamlTokenPrinter {
  import opened Options
  import opened YamlEvents
  import opened YamlProductions
  import opened YamlBrackets
  import opened YamlSyntax
  import opened YamlParser
  import opened YamlComposer

  // ---------------------------------------------------------------------------------------------
  // Runs that go on and runs that fail

  /** The machine behind a node whose continuation is on top of `states`. */
  function Landed(states: seq<State>, marks: nat, h: nat, ds: seq<TagDirective>): Machine
    requires states != []
  {
    Machine(Config(states[|states| - 1], states[..|states| - 1], marks, h, false), ds)
  }

  /** From here the parser runs into a syntax error, or loses the end of a flow sequence. */
  ghost predicate Fails(tokens: seq<Token>, m: Machine) {
    exists es, d :: Emits(tokens, m, es, d) && (StepOf(tokens, d) == Stuck(ParserError) || Loses(tokens, d.cfg))
  }

  ghost predicate StepFails(tokens: seq<Token>, s: Step) {
    s == Stuck(ParserError) || (s.Next? && Fails(tokens, s.machine))
  }

  /** From `m` the machine returns `es` and is then in `d`, or fails if it is not `sound`. */
  ghost predicate Goes(tokens: seq<Token>, m: Machine, sound: bool, es: seq<Event>, d: Machine) {
    if sound then Emits(tokens, m, es, d) else Fails(tokens, m)
  }

  lemma FailsHere(tokens: seq<Token>, m: Machine)
    requires StepOf(tokens, m) == Stuck(ParserError) || Loses(tokens, m.cfg)
    ensures Fails(tokens, m)
  {
    hide StepOf, Loses;
    assert Emits(tokens, m, [], m);
  }

  lemma FailsLater(tokens: seq<Token>, m: Machine, es: seq<Event>, d: Machine)
    requires Emits(tokens, m, es, d) && Fails(tokens, d)
    ensures Fails(tokens, m)
  {
    hide Emits, StepOf, Loses;
    var fs, f :| Emits(tokens, d, fs, f) && (StepOf(tokens, f) == Stuck(ParserError) || Loses(tokens, f.cfg));
    EmitsOn(tokens, m, es, d, fs, f);
  }

  lemma GoesOn(tokens: seq<Token>, m: Machine, sound: bool, es: seq<Event>, d: Machine,
               sound': bool, es': seq<Event>, f: Machine)
    requires Goes(tokens, m, sound, es, d) && (sound ==> Goes(tokens, d, sound', es', f))
    ensures Goes(tokens, m, sound && sound', es + es', f)
  {
    hide Emits, Fails;
    if sound && sound' { EmitsOn(tokens, m, es, d, es', f); }
    if sound && !sound' { FailsLater(tokens, m, es, d); }
  }

  lemma GoesOne(tokens: seq<Token>, m: Machine, e: Event, d: Machine)
    requires StepOf(tokens, m) == Next(e, d)
    ensures Goes(tokens, m, true, [e], d)
  {
    hide Emits, StepOf;
    EmitsOne(tokens, m, e, d);
  }

  /** The step returns the first event of the node, and the machine the others, or it fails. */
  ghost predicate Spells(tokens: seq<Token>, s: Step, n: Syntax, place: Place, ds: seq<TagDirective>, d: Machine) {
    if Sound(n, place, ds) then
      var es := NodeEvents(NodeOf(n, ds));
      s.Next? && es != [] && s.event == es[0] && Emits(tokens, s.machine, es[1..], d)
    else StepFails(tokens, s)
  }

  lemma StepFailing(tokens: seq<Token>, m: Machine)
    requires StepFails(tokens, StepOf(tokens, m))
    ensures Fails(tokens, m)
  {
    hide StepOf, Emits, Fails;
    var s := StepOf(tokens, m);
    if s.Next? {
      EmitsOne(tokens, m, s.event, s.machine);
      FailsLater(tokens, m, [s.event], s.machine);
    } else {
      FailsHere(tokens, m);
    }
  }

  lemma SpellsNode(tokens: seq<Token>, m: Machine, n: Syntax, place: Place, ds: seq<TagDirective>, d: Machine)
    requires Spells(tokens, StepOf(tokens, m), n, place, ds, d)
    ensures Goes(tokens, m, Sound(n, place, ds), NodeEvents(NodeOf(n, ds)), d)
  {
    hide StepOf, Sound, NodeOf, NodeEvents, StepFails;
    if !Sound(n, place, ds) { StepFailing(tokens, m); }
  }

  // ---------------------------------------------------------------------------------------------
  // Nodes without children, and where the others start

  function ReadAt(tokens: seq<Token>, h: nat, place: Place, states: seq<State>, marks: nat, ds: seq<TagDirective>): Step
    requires states != []
  {
    NodeAt(tokens, h, states, marks, ds, place.Block(), place.BlockEntry?)
  }

  /** A node stands at `h`, with something behind it that may stand there. */
  predicate Stands(tokens: seq<Token>, h: nat, n: Syntax, place: Place) {
    && Shaped(n, place) && Reads(tokens, h, Tokens(n)) && !EndedAt(tokens, h)
    && var k := h + |Tokens(n)|; k < |tokens| && MayFollow(place, tokens[k])
  }

  lemma OneEvent(e: Event)
    ensures NodeEvents(Leaf(e)) == [e] && [e][1..] == []
  {}

  lemma {:induction false} ReferenceSpells(tokens: seq<Token>, h: nat, n: Syntax, place: Place, states: seq<State>,
                                           marks: nat, ds: seq<TagDirective>)
    requires n.Reference? && Stands(tokens, h, n, place) && states != []
    ensures Spells(tokens, ReadAt(tokens, h, place, states, marks, ds), n, place, ds,
                   Landed(states, marks, h + |Tokens(n)|, ds))
  {
    hide Reads, StepFails;
    NodeInner(tokens, h, n);
    ReadsOne(tokens, h, AliasToken(n.name));
    OneEvent(Alias(n.name));
  }

  lemma WordContent(tokens: seq<Token>, p: Properties, place: Place, states: seq<State>, marks: nat,
                    ds: seq<TagDirective>)
    requires p.Properties? && states != [] && p.head < |tokens| && tokens[p.head].ScalarToken?
    ensures ContentAt(tokens, p, states, marks, ds, place.Block(), place.BlockEntry?)
         == To(tokens, ScalarOf(p.anchor, p.tag, tokens[p.head].value, tokens[p.head].style), states[|states| - 1],
               states[..|states| - 1], marks, p.head + 1, ds)
  {}

  lemma BareContent(tokens: seq<Token>, p: Properties, place: Place, states: seq<State>, marks: nat,
                    ds: seq<TagDirective>)
    requires p.Properties? && (p.anchor != "" || p.tag != "") && states != []
    requires p.head < |tokens| && MayFollow(place, tokens[p.head])
    ensures ContentAt(tokens, p, states, marks, ds, place.Block(), place.BlockEntry?)
         == To(tokens, Scalar(p.anchor, p.tag, "", p.tag == "", false, Plain), states[|states| - 1],
               states[..|states| - 1], marks, p.head, ds)
  {}

  /** A node whose tag has an undeclared handle is refused. */
  lemma Unresolved(tokens: seq<Token>, h: nat, props: Props, place: Place, states: seq<State>, marks: nat,
                   ds: seq<TagDirective>)
    requires states != [] && h < |tokens| && !tokens[h].AliasToken?
    requires PropertiesAt(tokens, h, ds) == Unreadable(ParserError)
    ensures StepFails(tokens, ReadAt(tokens, h, place, states, marks, ds))
  {
    hide PropertiesAt, Fails;
  }

  lemma {:induction false} WordSpells(tokens: seq<Token>, h: nat, n: Syntax, place: Place, states: seq<State>,
                                      marks: nat, ds: seq<TagDirective>)
    requires n.Word? && Stands(tokens, h, n, place) && states != []
    ensures Spells(tokens, ReadAt(tokens, h, place, states, marks, ds), n, place, ds,
                   Landed(states, marks, h + |Tokens(n)|, ds))
  {
    hide ContentAt, PropertiesAt, Reads, MayFollow, PropertyTokens, StepFails, Resolves;
    NodeInner(tokens, h, n);
    var ps, t := PropertyTokens(n.props), ScalarToken(n.text, n.style);
    ReadsBoth(tokens, h, ps, [t]);
    ReadsOne(tokens, h + |ps|, t);
    PropertiesBack(tokens, h, n.props, ds);
    NoAlias(tokens, h, n.props, t);
    if Resolves(ds, n.props) {
      WordContent(tokens, Properties(n.props.anchor, NameOf(ds, n.props), h + |ps|), place, states, marks, ds);
      hide EndedAt;
      OneEvent(ScalarOf(n.props.anchor, NameOf(ds, n.props), n.text, n.style));
    } else {
      Unresolved(tokens, h, n.props, place, states, marks, ds);
    }
  }

  /** What starts with properties, or else with `t`, is no alias. */
  lemma NoAlias(tokens: seq<Token>, h: nat, props: Props, t: Token)
    requires Reads(tokens, h, PropertyTokens(props)) && !t.AliasToken?
    requires var k := h + |PropertyTokens(props)|; k < |tokens| && tokens[k] == t
    ensures h < |tokens| && !tokens[h].AliasToken?
  {
    var ps := PropertyTokens(props);
    if ps != [] { ReadsFirst(tokens, h, ps); }
  }

  lemma {:induction false} BareSpells(tokens: seq<Token>, h: nat, n: Syntax, place: Place, states: seq<State>,
                                      marks: nat, ds: seq<TagDirective>)
    requires n.Bare? && Stands(tokens, h, n, place) && states != []
    ensures Spells(tokens, ReadAt(tokens, h, place, states, marks, ds), n, place, ds,
                   Landed(states, marks, h + |Tokens(n)|, ds))
  {
    hide ContentAt, PropertiesAt, Reads, PropertyTokens, StepFails, Resolves;
    var k := h + |Tokens(n)|;
    NodeInner(tokens, h, n);
    NoProperty(place, tokens[k]);
    PropertiesBack(tokens, h, n.props, ds);
    if Resolves(ds, n.props) {
      NamesSomething(n.props, ds);
      BareContent(tokens, Properties(n.props.anchor, NameOf(ds, n.props), k), place, states, marks, ds);
      hide MayFollow, EndedAt;
      OneEvent(Scalar(n.props.anchor, NameOf(ds, n.props), "", NameOf(ds, n.props) == "", false, Plain));
    } else {
      Unresolved(tokens, h, n.props, place, states, marks, ds);
    }
  }

  lemma NoProperty(place: Place, t: Token)
    requires MayFollow(place, t)
    ensures !t.AnchorToken? && !t.TagToken? && !t.AliasToken?
  {}

  lemma NamesSomething(props: Props, ds: seq<TagDirective>)
    requires Resolves(ds, props) && TagShaped(props.tag) && (props.anchor != "" || props.tag.Tagged?)
    ensures props.anchor != "" || NameOf(ds, props) != ""
  {}

  function FirstState(form: Form): State {
    match form
    case BlockSequence => BlockSequenceEntryState(true)
    case IndentlessSequence => IndentlessSequenceEntryState
    case BlockMapping => BlockMappingKeyState(true)
    case FlowSequence(_) => FlowSequenceEntryState(true)
    case FlowMapping(_) => FlowMappingKeyState(true)
  }

  /** The state in which a collection waits for its next entry. */
  function NextState(form: Form): State {
    match form
    case BlockSequence => BlockSequenceEntryState(false)
    case IndentlessSequence => IndentlessSequenceEntryState
    case BlockMapping => BlockMappingKeyState(false)
    case FlowSequence(_) => FlowSequenceEntryState(false)
    case FlowMapping(_) => FlowMappingKeyState(false)
  }

  function ValueState(form: Form, written: Written): State {
    if form.FlowMapping? then FlowMappingValueState(written.Loose?) else BlockMappingValueState
  }

  /** What follows the properties of a collection. */
  function Opener(form: Form): Token {
    if form.IndentlessSequence? then BlockEntryToken else OpeningTokens(form)[0]
  }

  lemma NoPropertyOpens(form: Form)
    ensures !Opener(form).AliasToken? && !Opener(form).AnchorToken? && !Opener(form).TagToken?
  {}

  lemma StartContent(tokens: seq<Token>, p: Properties, form: Form, place: Place, states: seq<State>, marks: nat,
                     ds: seq<TagDirective>)
    requires (place.Block() || form.Flow()) && (form.IndentlessSequence? ==> place.BlockEntry?) && states != []
    requires p.Properties? && p.head < |tokens| && tokens[p.head] == Opener(form)
    ensures ContentAt(tokens, p, states, marks, ds, place.Block(), place.BlockEntry?)
         == To(tokens, StartOf(form, p.anchor, p.tag), FirstState(form), states, marks, p.head, ds)
  {}

  /** A collection is read up to the token that opens it, or refused for its tag. */
  lemma {:induction false} StartRead(tokens: seq<Token>, h: nat, n: Syntax, place: Place, states: seq<State>,
                                     marks: nat, ds: seq<TagDirective>)
    requires n.Group? && (place.Block() || n.form.Flow()) && (n.form.IndentlessSequence? ==> place.BlockEntry?)
    requires Reads(tokens, h, PropertyTokens(n.props)) && states != []
    requires var k := h + |PropertyTokens(n.props)|; k < |tokens| && tokens[k] == Opener(n.form)
    ensures Resolves(ds, n.props) ==>
              ReadAt(tokens, h, place, states, marks, ds)
              == To(tokens, StartOf(n.form, n.props.anchor, NameOf(ds, n.props)), FirstState(n.form), states, marks,
                    h + |PropertyTokens(n.props)|, ds)
    ensures !Resolves(ds, n.props) ==> StepFails(tokens, ReadAt(tokens, h, place, states, marks, ds))
  {
    hide PropertiesAt, PropertyTokens, Reads, ContentAt, Resolves, StepFails, Opener, StartOf, FirstState, NameOf;
    NoPropertyOpens(n.form);
    PropertiesBack(tokens, h, n.props, ds);
    NoAlias(tokens, h, n.props, Opener(n.form));
    if Resolves(ds, n.props) {
      var p := Properties(n.props.anchor, NameOf(ds, n.props), h + |PropertyTokens(n.props)|);
      StartContent(tokens, p, n.form, place, states, marks, ds);
    } else {
      Unresolved(tokens, h, n.props, place, states, marks, ds);
    }
  }

  // ---------------------------------------------------------------------------------------------
  // Places for children

  /** A child is read, or nothing if none is written, and the machine goes on in state `next`. */
  function ChildAt(tokens: seq<Token>, h: nat, n: Syntax, place: Place, next: State, states: seq<State>, marks: nat,
                   ds: seq<TagDirective>): Step {
    if n.Nothing? then To(tokens, FILLER, next, states, marks, h, ds)
    else ReadAt(tokens, h, place, states + [next], marks, ds)
  }

  /** The machine in a collection, at the place where its entries or its end are read. */
  predicate InCollection(c: Config, form: Form, first: bool, h: nat, marks: nat) {
    && c.state == (if first then FirstState(form) else NextState(form)) && c.states != []
    && h == c.head + Started(c.state) && c.marks + Started(c.state) == InnerMarks(form, marks)
  }

  /** The marks inside a collection; only an indentless sequence has none of its own. */
  function InnerMarks(form: Form, marks: nat): nat {
    if form.IndentlessSequence? then marks else marks + 1
  }

  lemma Returns(c: Config, form: Form, first: bool, h: nat, marks: nat)
    requires InCollection(c, form, first, h, marks)
    ensures c.states != []
  {}

  /** What stands where an item is expected: a node, or what may follow nothing. */
  predicate Expected(tokens: seq<Token>, p: nat, n: Syntax, form: Form) {
    && p < |tokens| && !n.Pair?
    && if n.Nothing? then !form.Flow() && BehindItem(form, tokens[p]) else Heads(ChildPlace(form), tokens[p])
  }

  lemma FlowItemHere(tokens: seq<Token>, form: Form, c: Config, h: nat, marks: nat, ds: seq<TagDirective>, first: bool,
                     n: Syntax)
    requires form.FlowSequence? && InCollection(c, form, first, h, marks) && Reads(tokens, h, Separator(form, first))
    requires Expected(tokens, h + |Separator(form, first)|, n, form)
    ensures StepOf(tokens, Machine(c, ds))
         == ChildAt(tokens, h + |Separator(form, first)|, n, FlowItem, NextState(form), c.states,
                    marks + 1, ds)
  {
    hide NodeAt, CloseStep, Reads;
    if !first { ReadsOne(tokens, h, FlowEntryToken); }
  }

  lemma BlockItemHere(tokens: seq<Token>, c: Config, h: nat, marks: nat, ds: seq<TagDirective>, first: bool, n: Syntax)
    requires InCollection(c, BlockSequence, first, h, marks) && Reads(tokens, h, [BlockEntryToken])
    requires Expected(tokens, h + 1, n, BlockSequence)
    ensures StepOf(tokens, Machine(c, ds))
         == ChildAt(tokens, h + 1, n, BlockItem, NextState(BlockSequence), c.states, marks + 1, ds)
  {
    hide NodeAt, CloseStep, Reads;
    ReadsOne(tokens, h, BlockEntryToken);
  }

  lemma IndentlessItemHere(tokens: seq<Token>, c: Config, h: nat, marks: nat, ds: seq<TagDirective>, first: bool,
                           n: Syntax)
    requires InCollection(c, IndentlessSequence, first, h, marks) && Reads(tokens, h, [BlockEntryToken])
    requires Expected(tokens, h + 1, n, IndentlessSequence)
    ensures StepOf(tokens, Machine(c, ds))
         == ChildAt(tokens, h + 1, n, BlockItem, NextState(IndentlessSequence), c.states, marks, ds)
  {
    hide NodeAt, Reads;
    ReadsOne(tokens, h, BlockEntryToken);
  }

  /** An item of a sequence, behind its indicator or comma. */
  lemma ItemHere(tokens: seq<Token>, c: Config, h: nat, form: Form, marks: nat, ds: seq<TagDirective>, first: bool,
                 n: Syntax)
    requires InCollection(c, form, first, h, marks) && !form.Mapping() && Reads(tokens, h, Separator(form, first))
    requires Expected(tokens, h + |Separator(form, first)|, n, form)
    ensures StepOf(tokens, Machine(c, ds))
         == ChildAt(tokens, h + |Separator(form, first)|, n, ChildPlace(form), NextState(form), c.states,
                    InnerMarks(form, marks), ds)
  {
    hide StepOf, ChildAt;
    if form.FlowSequence? {
      FlowItemHere(tokens, form, c, h, marks, ds, first, n);
    } else if form.BlockSequence? {
      BlockItemHere(tokens, c, h, marks, ds, first, n);
    } else {
      IndentlessItemHere(tokens, c, h, marks, ds, first, n);
    }
  }

  /** What stands where a key is expected: a node, or what may follow an empty key. */
  predicate KeyExpected(tokens: seq<Token>, p: nat, n: Syntax, place: Place) {
    && p < |tokens| && !n.Pair?
    && if n.Nothing? then MayFollow(EntryPlace(place), tokens[p]) && !tokens[p].FlowSequenceEndToken?
       else Heads(EntryPlace(place), tokens[p])
  }

  lemma KeysStep(tokens: seq<Token>, form: Form, c: Config, h: nat, marks: nat, ds: seq<TagDirective>, first: bool)
    requires form.FlowMapping? && InCollection(c, form, first, h, marks)
    ensures StepOf(tokens, Machine(c, ds)) == FlowKeysStep(tokens, c, marks + 1, h, ds, first)
  {
    hide FlowKeysStep;
  }

  lemma FlowKeyHere(tokens: seq<Token>, form: Form, c: Config, h: nat, marks: nat, ds: seq<TagDirective>, first: bool,
                    n: Syntax, written: Written)
    requires form.FlowMapping? && InCollection(c, form, first, h, marks) && Reads(tokens, h, Separator(form, first))
    requires var k := h + |Separator(form, first)|;
             && Reads(tokens, k, KeyIndicator(written))
             && KeyExpected(tokens, k + |KeyIndicator(written)|, n, FlowPair) && (written.Loose? ==> !n.Nothing?)
    ensures StepOf(tokens, Machine(c, ds))
         == ChildAt(tokens, h + |Separator(form, first)| + |KeyIndicator(written)|, n, FlowEntry,
                    ValueState(form, written), c.states, marks + 1, ds)
  {
    hide StepOf, NodeAt, CloseStep, Reads;
    KeysStep(tokens, form, c, h, marks, ds, first);
    if !first { ReadsOne(tokens, h, FlowEntryToken); }
    if !written.Loose? { ReadsOne(tokens, h + |Separator(form, first)|, KeyToken); }
  }

  lemma BlockKeyHere(tokens: seq<Token>, c: Config, h: nat, marks: nat, ds: seq<TagDirective>, first: bool, n: Syntax,
                     written: Written)
    requires InCollection(c, BlockMapping, first, h, marks) && Reads(tokens, h, [KeyToken]) && !written.Loose?
    requires KeyExpected(tokens, h + 1, n, BlockPair)
    ensures StepOf(tokens, Machine(c, ds))
         == ChildAt(tokens, h + 1, n, BlockEntry, ValueState(BlockMapping, written), c.states, marks + 1, ds)
  {
    hide NodeAt, CloseStep, Reads;
    ReadsOne(tokens, h, KeyToken);
  }

  /** A key of a mapping, with its value to follow. */
  lemma KeyHere(tokens: seq<Token>, c: Config, h: nat, form: Form, marks: nat, ds: seq<TagDirective>, first: bool,
                n: Syntax, written: Written)
    requires InCollection(c, form, first, h, marks) && form.Mapping() && Reads(tokens, h, Separator(form, first))
    requires var k := h + |Separator(form, first)|;
             && Reads(tokens, k, KeyIndicator(written))
             && KeyExpected(tokens, k + |KeyIndicator(written)|, n, ChildPlace(form))
    requires written.Loose? ==> form.FlowMapping? && !n.Nothing?
    ensures StepOf(tokens, Machine(c, ds))
         == ChildAt(tokens, h + |Separator(form, first)| + |KeyIndicator(written)|, n, EntryPlace(ChildPlace(form)),
                    ValueState(form, written), c.states, marks + 1, ds)
  {
    hide StepOf, ChildAt, Reads, KeyExpected;
    if form.FlowMapping? {
      FlowKeyHere(tokens, form, c, h, marks, ds, first, n, written);
    } else {
      BlockKeyHere(tokens, c, h, marks, ds, first, n, written);
    }
  }

  /** A value of a mapping, behind its indicator. */
  lemma ValueHere(tokens: seq<Token>, c: Config, form: Form, ds: seq<TagDirective>, n: Syntax)
    requires form.Mapping() && c.state == ValueState(form, Full) && c.states != [] && c.marks > 0
    requires Reads(tokens, c.head, [ValueToken]) && c.head + 1 < |tokens| && !n.Pair?
    requires if n.Nothing? then BehindItem(form, tokens[c.head + 1])
             else Heads(EntryPlace(ChildPlace(form)), tokens[c.head + 1])
    ensures StepOf(tokens, Machine(c, ds))
         == ChildAt(tokens, c.head + 1, n, EntryPlace(ChildPlace(form)), NextState(form), c.states, c.marks, ds)
  {
    hide NodeAt, Reads;
    ReadsOne(tokens, c.head, ValueToken);
  }

  /** Without an indicator the value is empty. */
  lemma NoValueThere(tokens: seq<Token>, c: Config, form: Form, written: Written, ds: seq<TagDirective>)
    requires form.Mapping() && !written.Full? && c.state == ValueState(form, written) && c.states != [] && c.marks > 0
    requires c.head < |tokens| && BehindItem(form, tokens[c.head]) && !EndedAt(tokens, c.head)
    requires written.Loose? ==> form.FlowMapping?
    ensures StepOf(tokens, Machine(c, ds))
         == Next(FILLER, Machine(Config(NextState(form), c.states, c.marks, c.head, false), ds))
  {
    hide NodeAt;
  }

  function ClosingOf(form: Form): Event {
    Closing(StartOf(form, "", ""))
  }

  /** The end of a collection in any style. */
  lemma EndHere(tokens: seq<Token>, c: Config, h: nat, ds: seq<TagDirective>, form: Form, first: bool, marks: nat)
    requires InCollection(c, form, first, h, marks) && h < |tokens| && !EndedAt(tokens, h)
    requires if form.IndentlessSequence? then EndsBlockNode(tokens[h]) else tokens[h] == EndingTokens(form)[0]
    requires form.Comma() ==> !first && h + 1 < |tokens| && tokens[h + 1] == EndingTokens(form)[1]
    ensures StepOf(tokens, Machine(c, ds))
         == Next(ClosingOf(form), Landed(c.states, marks, h + |EndingTokens(form)|, ds))
  {
    hide NodeAt, ChildStep, EmptyStep;
  }

  // ---------------------------------------------------------------------------------------------
  // The parts of pairs

  function KeyAt(h: nat, n: Syntax): nat
    requires n.Pair?
  {
    h + |KeyIndicator(n.written)|
  }

  function KeyEnd(h: nat, n: Syntax): nat
    requires n.Pair?
  {
    KeyAt(h, n) + |Tokens(n.key)|
  }

  function ValueAt(h: nat, n: Syntax): nat
    requires n.Pair?
  {
    KeyEnd(h, n) + |ValueIndicator(n.written)|
  }

  function PairEnd(h: nat, n: Syntax): nat
    requires n.Pair?
  {
    ValueAt(h, n) + |Tokens(n.value)|
  }

  /** The parts of a pair are in their places. */
  predicate PairStands(tokens: seq<Token>, h: nat, n: Syntax, place: Place) {
    && n.Pair? && Shaped(n, place) && !EndedAt(tokens, h)
    && Reads(tokens, h, KeyIndicator(n.written)) && Reads(tokens, KeyAt(h, n), Tokens(n.key))
    && Reads(tokens, KeyEnd(h, n), ValueIndicator(n.written)) && Reads(tokens, ValueAt(h, n), Tokens(n.value))
    && PairEnd(h, n) < |tokens| && MayFollow(place, tokens[PairEnd(h, n)])
  }

  lemma PairParts(tokens: seq<Token>, h: nat, n: Syntax, place: Place)
    requires n.Pair? && Shaped(n, place) && Reads(tokens, h, Tokens(n)) && !EndedAt(tokens, h)
    requires h + |Tokens(n)| < |tokens| && MayFollow(place, tokens[h + |Tokens(n)|])
    ensures PairStands(tokens, h, n, place) && PairEnd(h, n) == h + |Tokens(n)|
  {
    hide Reads, Shaped, Tokens, MayFollow, KeyIndicator, ValueIndicator, EndedAt;
    var ki, key := KeyIndicator(n.written), Tokens(n.key);
    var vi, value := ValueIndicator(n.written), Tokens(n.value);
    PairTokens(n);
    ReadsBoth(tokens, h, ki, key + (vi + value));
    ReadsBoth(tokens, h + |ki|, key, vi + value);
    ReadsBoth(tokens, h + |ki| + |key|, vi, value);
  }

  lemma PairShaped(n: Syntax, place: Place)
    requires n.Pair? && Shaped(n, place)
    ensures place.FlowItem? || place.ForPairs()
    ensures Shaped(n.key, EntryPlace(place)) && Shaped(n.value, EntryPlace(place)) && !n.key.Pair? && !n.value.Pair?
    ensures (n.written.Full? || n.value.Nothing?) && (n.written.Loose? ==> place.FlowPair? && !n.key.Nothing?)
  {}

  lemma NarrowFollow(place: Place, t: Token)
    requires place.FlowItem? || place.ForPairs()
    ensures MayFollow(place, t) ==> MayFollow(EntryPlace(place), t)
    ensures t.ValueToken? ==> MayFollow(EntryPlace(place), t)
  {}

  lemma PairPlaces(tokens: seq<Token>, h: nat, n: Syntax, place: Place)
    requires n.Pair? && PairStands(tokens, h, n, place)
    ensures !n.key.Pair? && !n.value.Pair?
    ensures Stands(tokens, KeyAt(h, n), n.key, EntryPlace(place))
    ensures Stands(tokens, ValueAt(h, n), n.value, EntryPlace(place))
    ensures !EndedAt(tokens, KeyEnd(h, n)) && !EndedAt(tokens, PairEnd(h, n)) && KeyEnd(h, n) < |tokens|
    ensures n.written.Full? ==> tokens[KeyEnd(h, n)] == ValueToken
    ensures !n.written.Full? ==> KeyEnd(h, n) == PairEnd(h, n) && n.value.Nothing?
  {
    hide Reads, Shaped, Tokens, MayFollow, EndedAt, KeyIndicator, ValueIndicator;
    PairShaped(n, place);
    IndicatorsInner(n.written);
    StillInner(tokens, h, KeyIndicator(n.written));
    NodeInner(tokens, KeyAt(h, n), n.key);
    StillInner(tokens, KeyEnd(h, n), ValueIndicator(n.written));
    NodeInner(tokens, ValueAt(h, n), n.value);
    NothingThere(n.value, []);
    if n.written.Full? {
      ReadsOne(tokens, KeyEnd(h, n), ValueToken);
    }
    NarrowFollow(place, tokens[KeyEnd(h, n)]);
    NarrowFollow(place, tokens[PairEnd(h, n)]);
  }

  lemma IndicatorsInner(written: Written)
    ensures Inner(KeyIndicator(written)) && Inner(ValueIndicator(written))
    ensures ValueIndicator(written) == if written.Full? then [ValueToken] else []
  {
    hide Inner;
    InnerPlain(KeyIndicator(written));
    InnerPlain(ValueIndicator(written));
  }

  lemma PairHeads(tokens: seq<Token>, h: nat, n: Syntax, place: Place)
    requires n.Pair? && PairStands(tokens, h, n, place)
    ensures place.ForPairs() ==> KeyExpected(tokens, KeyAt(h, n), n.key, place)
    ensures KeyAt(h, n) < |tokens| && (!n.key.Nothing? ==> Heads(EntryPlace(place), tokens[KeyAt(h, n)]))
    ensures ValueAt(h, n) < |tokens|
    ensures if n.value.Nothing? then ValueAt(h, n) == PairEnd(h, n) && MayFollow(place, tokens[ValueAt(h, n)])
            else Heads(EntryPlace(place), tokens[ValueAt(h, n)])
    ensures n.key.Nothing? ==> KeyEnd(h, n) == KeyAt(h, n)
  {
    PairPlaces(tokens, h, n, place);
    PairShaped(n, place);
    hide Reads, Shaped, Tokens, EndedAt, KeyIndicator, ValueIndicator, Heads;
    NothingThere(n.key, []);
    NothingThere(n.value, []);
    if !n.key.Nothing? { NodeAhead(tokens, KeyAt(h, n), n.key, EntryPlace(place)); }
    if !n.value.Nothing? { NodeAhead(tokens, ValueAt(h, n), n.value, EntryPlace(place)); }
  }

  lemma PairSound(n: Syntax, place: Place, ds: seq<TagDirective>)
    requires n.Pair?
    ensures Sound(n, place, ds)
        <==> (place.FlowItem? && n.key.Nothing? ==> n.written.Full? && n.value.Nothing?)
             && Sound(n.key, EntryPlace(place), ds) && Sound(n.value, EntryPlace(place), ds)
  {}

  // ---------------------------------------------------------------------------------------------
  // Whole nodes

  lemma RegroupedEvents(a: seq<Event>, b: seq<Event>, c: seq<Event>)
    ensures a + (b + c) == a + b + c
  {}

  lemma Regrouped(a: seq<Token>, b: seq<Token>, c: seq<Token>, d: seq<Token>)
    ensures a + (b + c) + d == a + (b + (c + d))
  {}

  /** A child, or nothing, in its place. */
  lemma {:induction false} ChildGoes(tokens: seq<Token>, m: Machine, h: nat, n: Syntax, place: Place, next: State,
                                     states: seq<State>, marks: nat, ds: seq<TagDirective>)
    requires !n.Pair? && Stands(tokens, h, n, place)
    requires StepOf(tokens, m) == ChildAt(tokens, h, n, place, next, states, marks, ds)
    ensures Goes(tokens, m, Sound(n, place, ds), NodeEvents(NodeOf(n, ds)),
                 Machine(Config(next, states, marks, h + |Tokens(n)|, false), ds))
    decreases n, 3
  {
    hide Emits, StepOf, Goes, Spells, Shaped, Tokens, NodeOf, NodeEvents, Sound, NodeAt, Reads, MayFollow;
    if n.Nothing? {
      NothingThere(n, ds);
      GoesOne(tokens, m, FILLER, Machine(Config(next, states, marks, h, false), ds));
    } else {
      hide Stands, EndedAt;
      var all := states + [next];
      assert all[..|all| - 1] == states && all[|all| - 1] == next;
      NodeSpells(tokens, h, n, place, all, marks, ds);
      SpellsNode(tokens, m, n, place, ds, Landed(all, marks, h + |Tokens(n)|, ds));
    }
  }

  lemma {:induction false} NodeSpells(tokens: seq<Token>, h: nat, n: Syntax, place: Place, states: seq<State>,
                                      marks: nat, ds: seq<TagDirective>)
    requires n.Visible() && Stands(tokens, h, n, place) && states != []
    ensures Spells(tokens, ReadAt(tokens, h, place, states, marks, ds), n, place, ds,
                   Landed(states, marks, h + |Tokens(n)|, ds))
    decreases n, 2
  {
    hide Stands, Spells, ReadAt, Tokens;
    if n.Reference? { ReferenceSpells(tokens, h, n, place, states, marks, ds); }
    else if n.Word? { WordSpells(tokens, h, n, place, states, marks, ds); }
    else if n.Bare? { BareSpells(tokens, h, n, place, states, marks, ds); }
    else { GroupSpells(tokens, h, n, place, states, marks, ds); }
  }

  lemma IndentlessBody(n: Syntax, place: Place)
    requires n.Group? && Shaped(n, place) && n.form.IndentlessSequence?
    ensures var body := ItemTokens(n.children, n.form, true) + EndingTokens(n.form);
            body != [] && body[0] == BlockEntryToken
  {
    ItemsCons(n.children, n.form, true);
    hide ItemTokens;
  }

  lemma StartInner(n: Syntax)
    requires n.Group?
    ensures n.form.FlowSequence? || Inner(PropertyTokens(n.props) + OpeningTokens(n.form))
    ensures forall i | 0 <= i < |PropertyTokens(n.props) + OpeningTokens(n.form)| ::
              !(PropertyTokens(n.props) + OpeningTokens(n.form))[i].StreamEndToken?
  {
    if !n.form.FlowSequence? {
      InnerPlain(PropertyTokens(n.props));
      InnerPlain(OpeningTokens(n.form));
      InnerBoth(PropertyTokens(n.props), OpeningTokens(n.form));
    }
  }

  lemma BehindStart(tokens: seq<Token>, h: nat, ts: seq<Token>)
    requires Reads(tokens, h, ts) && !EndedAt(tokens, h)
    requires forall i | 0 <= i < |ts| :: !ts[i].StreamEndToken?
    ensures !EndedAt(tokens, h + |ts|)
  {
    if ts != [] { assert tokens[h..h + |ts|][|ts| - 1] == tokens[h + |ts| - 1]; }
  }

  lemma GroupParts(tokens: seq<Token>, h: nat, n: Syntax, place: Place)
    requires n.Group? && Stands(tokens, h, n, place)
    ensures var k := h + |PropertyTokens(n.props)|;
            && Reads(tokens, h, PropertyTokens(n.props)) && k < |tokens| && tokens[k] == Opener(n.form)
            && Reads(tokens, k + |OpeningTokens(n.form)|,
                     ItemTokens(n.children, n.form, true) + EndingTokens(n.form))
            && !EndedAt(tokens, k + |OpeningTokens(n.form)|)
            && h + |Tokens(n)|
               == k + |OpeningTokens(n.form)| + |ItemTokens(n.children, n.form, true)| + |EndingTokens(n.form)|
  {
    hide Reads, ItemTokens, PropertyTokens, EndedAt, Shaped, Tokens, MayFollow;
    var ps, start := PropertyTokens(n.props), OpeningTokens(n.form);
    var body := ItemTokens(n.children, n.form, true) + EndingTokens(n.form);
    if n.form.IndentlessSequence? { IndentlessBody(n, place); }
    GroupTokens(n);
    StartInner(n);
    ReadsBoth(tokens, h, ps + start, body);
    ReadsBoth(tokens, h, ps, start);
    BehindStart(tokens, h, ps + start);
    if n.form.IndentlessSequence? {
      ReadsFirst(tokens, h + |ps|, body);
    } else {
      ReadsFirst(tokens, h + |ps|, start);
    }
  }

  lemma GroupShaped(tokens: seq<Token>, h: nat, n: Syntax, place: Place)
    requires n.Group? && Stands(tokens, h, n, place)
    ensures (place.Block() || n.form.Flow()) && (n.form.IndentlessSequence? ==> place.BlockEntry?)
    ensures AllShaped(n.children, ChildPlace(n.form)) && (n.form.Comma() ==> n.children != [])
    ensures n.form.IndentlessSequence? ==>
              EndingTokens(n.form) == [] && h + |Tokens(n)| < |tokens| && EndsBlockNode(tokens[h + |Tokens(n)|])
  {
    hide Tokens, Reads;
  }

  lemma Entered(c: Config, form: Form, marks: nat)
    requires c.state == FirstState(form) && c.states != [] && c.marks == marks
    ensures InCollection(c, form, true, c.head + |OpeningTokens(form)|, marks)
  {}

  lemma {:induction false} GroupSpells(tokens: seq<Token>, h: nat, n: Syntax, place: Place, states: seq<State>,
                                       marks: nat, ds: seq<TagDirective>)
    requires n.Group? && Stands(tokens, h, n, place) && states != []
    ensures Spells(tokens, ReadAt(tokens, h, place, states, marks, ds), n, place, ds,
                   Landed(states, marks, h + |Tokens(n)|, ds))
    decreases n, 1
  {
    hide Emits, NodeAt, Reads, ItemTokens, PropertyTokens, Spelled, Tokens, Stands, Spells, Shaped, ReadAt,
         InCollection, Goes, EndedAt, AllSound, AllShaped, StartOf, FirstState, OpeningTokens, EndingTokens, Opener,
         ChildPlace, NameOf, Resolves, StepFails, NodeOf;
    GroupParts(tokens, h, n, place);
    GroupShaped(tokens, h, n, place);
    var k := h + |PropertyTokens(n.props)|;
    StartRead(tokens, h, n, place, states, marks, ds);
    if Resolves(ds, n.props) {
      var c := Config(FirstState(n.form), states, marks, k, EndedAt(tokens, k));
      var p := k + |OpeningTokens(n.form)|;
      Entered(c, n.form, marks);
      ItemsGo(tokens, c, p, n.children, n.form, marks, ds, true);
      SpellsGroup(tokens, n, place, ds, Machine(c, ds), Landed(states, marks, h + |Tokens(n)|, ds));
    } else {
      NeverSpells(tokens, ReadAt(tokens, h, place, states, marks, ds), n, place, ds,
                  Landed(states, marks, h + |Tokens(n)|, ds));
    }
  }

  lemma NeverSpells(tokens: seq<Token>, s: Step, n: Syntax, place: Place, ds: seq<TagDirective>, d: Machine)
    requires n.Group? && !Resolves(ds, n.props) && StepFails(tokens, s)
    ensures Spells(tokens, s, n, place, ds, d)
  {
    hide StepFails, Resolves;
  }

  lemma SpellsGroup(tokens: seq<Token>, n: Syntax, place: Place, ds: seq<TagDirective>, m: Machine, d: Machine)
    requires n.Group? && Resolves(ds, n.props)
    requires Goes(tokens, m, AllSound(n.children, n.form, ds), Spelled(n.children, n.form, ds)
                                                                          + [ClosingOf(n.form)], d)
    ensures Spells(tokens, Next(StartOf(n.form, n.props.anchor, NameOf(ds, n.props)), m), n, place, ds, d)
  {
    hide Emits, NodesEvents, AllSound, Fails, Resolves, NameOf;
    assert NodeEvents(NodeOf(n, ds))[1..] == Spelled(n.children, n.form, ds) + [ClosingOf(n.form)];
  }

  /** The first token of an item of a flow sequence or of a pair of a block mapping. */
  lemma FirstOfItem(n: Syntax, place: Place)
    requires Shaped(n, place) && (place.FlowItem? || place.BlockPair?)
    ensures Tokens(n) != [] && if place.FlowItem? then StartsItem(Tokens(n)[0]) else Tokens(n)[0].KeyToken?
  {
    if n.Pair? {
      PairTokens(n);
      hide Tokens;
    } else {
      FirstToken(n, place);
      hide Tokens;
    }
  }

  /** What stands behind a child, and behind a comma. */
  lemma ItemFollowed(tokens: seq<Token>, q: nat, ns: seq<Syntax>, form: Form)
    requires Reads(tokens, q, ItemTokens(ns, form, false) + EndingTokens(form)) && AllShaped(ns, ChildPlace(form))
    requires form.IndentlessSequence? ==>
               var k := q + |ItemTokens(ns, form, false)|; k < |tokens| && EndsBlockNode(tokens[k])
    ensures q < |tokens| && BehindItem(form, tokens[q])
    ensures form.FlowSequence? && ns != [] ==> q + 1 < |tokens| && StartsItem(tokens[q + 1])
    ensures form.FlowSequence? && ns == [] && !form.comma ==> tokens[q].FlowSequenceEndToken?
  {
    hide Reads, Tokens, Shaped, ItemTokens;
    if ns == [] {
      NoItems(form);
      if form.IndentlessSequence? { return; }
      ReadsFirst(tokens, q, EndingTokens(form));
    } else {
      ItemsCons(ns, form, false);
      var sep, node := Separator(form, false), Tokens(ns[0]);
      var rest := ItemTokens(ns[1..], form, false);
      Regrouped(sep, node, rest, EndingTokens(form));
      ReadsBoth(tokens, q, sep, node + (rest + EndingTokens(form)));
      ReadsBoth(tokens, q + |sep|, node, rest + EndingTokens(form));
      if form.FlowSequence? || form.BlockMapping? {
        FirstOfItem(ns[0], ChildPlace(form));
        ReadsFirst(tokens, q + |sep|, node);
      }
      if sep != [] { ReadsFirst(tokens, q, sep); }
    }
  }

  lemma NoItems(form: Form)
    ensures ItemTokens([], form, false) == [] && [] + EndingTokens(form) == EndingTokens(form)
  {}

  lemma GroupEnds(tokens: seq<Token>, c: Config, h: nat, form: Form, marks: nat, ds: seq<TagDirective>, first: bool)
    requires InCollection(c, form, first, h, marks) && Reads(tokens, h, EndingTokens(form)) && !EndedAt(tokens, h)
    requires form.IndentlessSequence? ==> h < |tokens| && EndsBlockNode(tokens[h])
    requires form.Comma() ==> !first
    ensures Goes(tokens, Machine(c, ds), true, [ClosingOf(form)], Landed(c.states, marks, h + |EndingTokens(form)|, ds))
  {
    hide StepOf, Goes, Reads;
    if !form.IndentlessSequence? { ReadsFirst(tokens, h, EndingTokens(form)); }
    if form.Comma() { ReadsSecond(tokens, h, EndingTokens(form)); }
    EndHere(tokens, c, h, ds, form, first, marks);
    GoesOne(tokens, Machine(c, ds), ClosingOf(form), Landed(c.states, marks, h + |EndingTokens(form)|, ds));
  }

  lemma NextEntry(c: Config, form: Form, first: bool, h: nat, marks: nat, d: Config)
    requires InCollection(c, form, first, h, marks) && d.state == NextState(form) && d.states == c.states
    requires d.marks == InnerMarks(form, marks)
    ensures InCollection(d, form, false, d.head, marks)
  {}

  lemma NothingSpelled(form: Form, ds: seq<TagDirective>)
    ensures Spelled([], form, ds) + [ClosingOf(form)] == [ClosingOf(form)] && AllSound([], form, ds)
    ensures forall first :: ItemTokens([], form, first) + EndingTokens(form) == EndingTokens(form)
    ensures forall first :: ItemTokens([], form, first) == []
  {}

  lemma TailShaped(ns: seq<Syntax>, place: Place)
    requires ns != [] && AllShaped(ns, place)
    ensures Shaped(ns[0], place) && AllShaped(ns[1..], place)
  {}

  lemma SepInner(tokens: seq<Token>, h: nat, form: Form, first: bool)
    requires Reads(tokens, h, Separator(form, first)) && !EndedAt(tokens, h)
    ensures !EndedAt(tokens, h + |Separator(form, first)|)
  {
    InnerPlain(Separator(form, first));
    StillInner(tokens, h, Separator(form, first));
  }

  /** The first child is in its place, and the others in theirs. */
  predicate ItemStands(tokens: seq<Token>, h: nat, n: Syntax, form: Form, first: bool) {
    var p := h + |Separator(form, first)|;
    var q := p + |Tokens(n)|;
    && Shaped(n, ChildPlace(form)) && !EndedAt(tokens, h)
    && Reads(tokens, h, Separator(form, first)) && Reads(tokens, p, Tokens(n))
    && !EndedAt(tokens, p) && !EndedAt(tokens, q)
    && q < |tokens| && BehindItem(form, tokens[q])
    && (form.FlowSequence? && n == ORPHAN && tokens[q].FlowEntryToken? ==>
          q + 1 < |tokens| && StartsItem(tokens[q + 1]))
  }

  lemma ItemParts(tokens: seq<Token>, h: nat, ns: seq<Syntax>, form: Form, first: bool)
    requires ns != [] && AllShaped(ns, ChildPlace(form)) && !EndedAt(tokens, h)
    requires !(|ns| == 1 && Spared(ns[0], form))
    requires Reads(tokens, h, ItemTokens(ns, form, first) + EndingTokens(form))
    requires form.IndentlessSequence? ==>
               var k := h + |ItemTokens(ns, form, first)|; k < |tokens| && EndsBlockNode(tokens[k])
    ensures var q := h + |Separator(form, first)| + |Tokens(ns[0])|;
            && ItemStands(tokens, h, ns[0], form, first) && AllShaped(ns[1..], ChildPlace(form))
            && Reads(tokens, q, ItemTokens(ns[1..], form, false) + EndingTokens(form))
            && h + |ItemTokens(ns, form, first)| == q + |ItemTokens(ns[1..], form, false)|
  {
    hide Reads, Tokens, Shaped, ItemTokens, EndedAt, AllShaped, Separator, BehindItem, StartsItem, EndingTokens,
         ChildPlace;
    var sep, node := Separator(form, first), Tokens(ns[0]);
    var more, end := ItemTokens(ns[1..], form, false), EndingTokens(form);
    ItemsCons(ns, form, first);
    Regrouped(sep, node, more, end);
    ReadsBoth(tokens, h, sep, node + (more + end));
    ReadsBoth(tokens, h + |sep|, node, more + end);
    TailShaped(ns, ChildPlace(form));
    ItemFollowed(tokens, h + |sep| + |node|, ns[1..], form);
    SepInner(tokens, h, form, first);
    NodeInner(tokens, h + |sep|, ns[0]);
  }

  /** The children of a collection and its end. */
  lemma {:induction false} ItemsGo(tokens: seq<Token>, c: Config, h: nat, ns: seq<Syntax>, form: Form, marks: nat,
                                   ds: seq<TagDirective>, first: bool)
    requires InCollection(c, form, first, h, marks) && AllShaped(ns, ChildPlace(form)) && !EndedAt(tokens, h)
    requires Reads(tokens, h, ItemTokens(ns, form, first) + EndingTokens(form)) && (form.Comma() && first ==> ns != [])
    requires form.IndentlessSequence? ==>
               var k := h + |ItemTokens(ns, form, first)|; k < |tokens| && EndsBlockNode(tokens[k])
    ensures c.states != []
    ensures Goes(tokens, Machine(c, ds), AllSound(ns, form, ds), Spelled(ns, form, ds) + [ClosingOf(form)],
                 Landed(c.states, marks, h + |ItemTokens(ns, form, first)| + |EndingTokens(form)|, ds))
    decreases ns, 2
  {
    hide Goes, StepOf, NodeAt, Reads, Tokens, InCollection, Spelled, Sound, AllSound, AllShaped, EndedAt, Separator,
         ItemTokens, EndingTokens, ClosingOf, ChildPlace, ItemStands, ItemEvents, NextState, InnerMarks, EndsBlockNode;
    Returns(c, form, first, h, marks);
    if ns == [] {
      NothingSpelled(form, ds);
      GroupEnds(tokens, c, h, form, marks, ds, first);
    } else if |ns| == 1 && Spared(ns[0], form) {
      assert ns == [ORPHAN];
      SoundCons(ns, form, ds);
      SparedGoes(tokens, form, c, h, marks, ds, first);
    } else {
      var q := h + |Separator(form, first)| + |Tokens(ns[0])|;
      ItemParts(tokens, h, ns, form, first);
      ItemEnded(tokens, h, ns[0], form, first);
      ItemGoes(tokens, c, h, ns[0], form, marks, ds, first);
      var d := Machine(Config(NextState(form), c.states, InnerMarks(form, marks), q, false), ds);
      NextEntry(c, form, first, h, marks, d.cfg);
      ItemsGo(tokens, d.cfg, q, ns[1..], form, marks, ds, false);
      var f := Landed(c.states, marks, q + |ItemTokens(ns[1..], form, false)| + |EndingTokens(form)|, ds);
      GoesOn(tokens, Machine(c, ds), Sound(ns[0], ChildPlace(form), ds), ItemEvents(ns[0], form, ds), d,
             AllSound(ns[1..], form, ds), Spelled(ns[1..], form, ds) + [ClosingOf(form)], f);
      SpelledCons(ns, form, ds);
      SoundCons(ns, form, ds);
      RegroupedEvents(ItemEvents(ns[0], form, ds), Spelled(ns[1..], form, ds), [ClosingOf(form)]);
    }
  }

  lemma ItemEnded(tokens: seq<Token>, h: nat, n: Syntax, form: Form, first: bool)
    requires ItemStands(tokens, h, n, form, first)
    ensures !EndedAt(tokens, h + |Separator(form, first)| + |Tokens(n)|)
  {}

  /** One child. */
  lemma {:induction false} ItemGoes(tokens: seq<Token>, c: Config, h: nat, n: Syntax, form: Form, marks: nat,
                                    ds: seq<TagDirective>, first: bool)
    requires InCollection(c, form, first, h, marks) && ItemStands(tokens, h, n, form, first)
    ensures var q := h + |Separator(form, first)| + |Tokens(n)|;
            Goes(tokens, Machine(c, ds), Sound(n, ChildPlace(form), ds), ItemEvents(n, form, ds),
                 Machine(Config(NextState(form), c.states, InnerMarks(form, marks), q, false), ds))
    decreases n, 6
  {
    hide Goes, StepOf, NodeAt, Reads, Sound, NodeOf, NodeEvents, InCollection, EndedAt, Separator, ChildAt, ItemStands,
         Tokens, Shaped, ItemEvents, Expected, Stands;
    ItemMeans(n, form, ds);
    ItemShaped(tokens, h, n, form, first);
    var p := h + |Separator(form, first)|;
    if form.Mapping() {
      EntryGoes(tokens, c, h, n, form, marks, ds, first);
    } else if n.Pair? {
      PairGoes(tokens, form, c, h, n, marks, ds, first);
    } else {
      ItemExpected(tokens, h, n, form, first);
      ItemHere(tokens, c, h, form, marks, ds, first, n);
      ChildGoes(tokens, Machine(c, ds), p, n, ChildPlace(form), NextState(form), c.states, InnerMarks(form, marks), ds);
    }
  }

  lemma ItemShaped(tokens: seq<Token>, h: nat, n: Syntax, form: Form, first: bool)
    requires ItemStands(tokens, h, n, form, first)
    ensures form.Mapping() ==> n.Pair?
    ensures n.Pair? ==> form.Mapping() || form.FlowSequence?
    ensures Reads(tokens, h, Separator(form, first))
  {}

  lemma ItemExpected(tokens: seq<Token>, h: nat, n: Syntax, form: Form, first: bool)
    requires ItemStands(tokens, h, n, form, first) && !form.Mapping() && !n.Pair?
    ensures var p := h + |Separator(form, first)|;
            Expected(tokens, p, n, form) && Stands(tokens, p, n, ChildPlace(form))
  {
    hide Reads, Tokens, Separator, EndedAt;
    var p := h + |Separator(form, first)|;
    NothingThere(n, []);
    if !n.Nothing? { NodeAhead(tokens, p, n, ChildPlace(form)); }
    hide Shaped;
  }

  // ---------------------------------------------------------------------------------------------
  // Pairs of mappings

  lemma EntryStands(tokens: seq<Token>, h: nat, n: Syntax, form: Form, first: bool)
    requires ItemStands(tokens, h, n, form, first) && n.Pair? && (form.Mapping() || form.FlowSequence?)
    ensures var p := h + |Separator(form, first)|;
            PairStands(tokens, p, n, ChildPlace(form)) && PairEnd(p, n) == p + |Tokens(n)|
    ensures Reads(tokens, h, Separator(form, first))
  {
    hide Reads, Tokens, Separator, EndedAt, Shaped, PairStands;
    var p := h + |Separator(form, first)|;
    PairParts(tokens, p, n, ChildPlace(form));
  }

  lemma PairReads(tokens: seq<Token>, h: nat, n: Syntax, place: Place)
    requires n.Pair? && PairStands(tokens, h, n, place)
    ensures Reads(tokens, h, KeyIndicator(n.written)) && Reads(tokens, KeyEnd(h, n), ValueIndicator(n.written))
    ensures PairEnd(h, n) < |tokens| && MayFollow(place, tokens[PairEnd(h, n)])
    ensures ValueAt(h, n) == KeyEnd(h, n) + if n.written.Full? then 1 else 0
  {}

  /** The value of a pair of a mapping. */
  lemma {:induction false} ValueGoes(tokens: seq<Token>, h: nat, n: Syntax, form: Form, states: seq<State>, marks: nat,
                                     ds: seq<TagDirective>)
    requires n.Pair? && form.Mapping() && PairStands(tokens, h, n, ChildPlace(form)) && states != [] && marks > 0
    ensures Goes(tokens, Machine(Config(ValueState(form, n.written), states, marks, KeyEnd(h, n), false), ds),
                 Sound(n.value, EntryPlace(ChildPlace(form)), ds), NodeEvents(NodeOf(n.value, ds)),
                 Machine(Config(NextState(form), states, marks, PairEnd(h, n), false), ds))
    decreases n, 3
  {
    hide Goes, StepOf, NodeAt, Reads, Tokens, NodeOf, NodeEvents, Sound, EndedAt, Stands, ChildAt, PairStands, KeyEnd,
         ValueAt, PairEnd, ValueIndicator, KeyIndicator;
    PairPlaces(tokens, h, n, ChildPlace(form));
    PairHeads(tokens, h, n, ChildPlace(form));
    PairReads(tokens, h, n, ChildPlace(form));
    PairShapedHere(tokens, h, n, ChildPlace(form));
    var d := Machine(Config(ValueState(form, n.written), states, marks, KeyEnd(h, n), false), ds);
    if n.written.Full? {
      assert ValueIndicator(n.written) == [ValueToken] by { IndicatorsInner(n.written); }
      ValueHere(tokens, d.cfg, form, ds, n.value);
      PairEndsAt(h, n);
      ChildGoes(tokens, d, ValueAt(h, n), n.value, EntryPlace(ChildPlace(form)), NextState(form), states, marks, ds);
    } else {
      NoValueThere(tokens, d.cfg, form, n.written, ds);
      NothingThere(n.value, ds);
      GoesOne(tokens, d, FILLER, Machine(Config(NextState(form), states, marks, PairEnd(h, n), false), ds));
    }
  }

  lemma PairEndsAt(h: nat, n: Syntax)
    requires n.Pair?
    ensures PairEnd(h, n) == ValueAt(h, n) + |Tokens(n.value)| && KeyEnd(h, n) == KeyAt(h, n) + |Tokens(n.key)|
    ensures KeyAt(h, n) == h + |KeyIndicator(n.written)|
  {}

  lemma PairShapedHere(tokens: seq<Token>, h: nat, n: Syntax, place: Place)
    requires n.Pair? && PairStands(tokens, h, n, place)
    ensures n.written.Loose? ==> place.FlowPair? && !n.key.Nothing?
    ensures n.written.Full? || n.value.Nothing?
  {}

  /** One key and its value. */
  lemma {:induction false} EntryGoes(tokens: seq<Token>, c: Config, h: nat, n: Syntax, form: Form, marks: nat,
                                     ds: seq<TagDirective>, first: bool)
    requires InCollection(c, form, first, h, marks) && ItemStands(tokens, h, n, form, first)
    requires n.Pair? && form.Mapping()
    ensures var q := h + |Separator(form, first)| + |Tokens(n)|;
            Goes(tokens, Machine(c, ds), Sound(n, ChildPlace(form), ds),
                 NodeEvents(NodeOf(n.key, ds)) + NodeEvents(NodeOf(n.value, ds)),
                 Machine(Config(NextState(form), c.states, InnerMarks(form, marks), q, false), ds))
    decreases n, 4
  {
    hide Goes, StepOf, NodeAt, Reads, Tokens, NodeOf, NodeEvents, Sound, EndedAt, Stands, ChildAt, PairStands, KeyEnd,
         ValueAt, PairEnd, KeyAt, KeyIndicator, ValueIndicator, InCollection, ItemStands, Separator, KeyExpected, Heads,
         Shaped, MayFollow, ValueState, NextState;
    Returns(c, form, first, h, marks);
    var p, place := h + |Separator(form, first)|, ChildPlace(form);
    EntryStands(tokens, h, n, form, first);
    PairPlaces(tokens, p, n, place);
    PairHeads(tokens, p, n, place);
    PairReads(tokens, p, n, place);
    PairShapedHere(tokens, p, n, place);
    PairSound(n, place, ds);
    PairEndsAt(p, n);
    KeyHere(tokens, c, h, form, marks, ds, first, n.key, n.written);
    var d := Machine(Config(ValueState(form, n.written), c.states, marks + 1, KeyEnd(p, n), false), ds);
    ChildGoes(tokens, Machine(c, ds), KeyAt(p, n), n.key, EntryPlace(place), ValueState(form, n.written), c.states,
              marks + 1, ds);
    ValueGoes(tokens, p, n, form, c.states, marks + 1, ds);
    GoesOn(tokens, Machine(c, ds), Sound(n.key, EntryPlace(place), ds), NodeEvents(NodeOf(n.key, ds)), d,
           Sound(n.value, EntryPlace(place), ds), NodeEvents(NodeOf(n.value, ds)),
           Machine(Config(NextState(form), c.states, marks + 1, PairEnd(p, n), false), ds));
  }

  // ---------------------------------------------------------------------------------------------
  // Single pairs

  /** Behind the KEY of a single pair. */
  function PairAt(state: State, c: Config, marks: nat, h: nat, ds: seq<TagDirective>): Machine {
    Machine(Config(state, c.states, marks + 1, h, false), ds)
  }

  lemma PairStarts(tokens: seq<Token>, form: Form, c: Config, h: nat, marks: nat, ds: seq<TagDirective>, first: bool)
    requires form.FlowSequence? && InCollection(c, form, first, h, marks) && Reads(tokens, h, Separator(form, first))
    requires Reads(tokens, h + |Separator(form, first)|, [KeyToken])
    ensures StepOf(tokens, Machine(c, ds))
         == Next(PAIR_START,
                 PairAt(FlowSequenceEntryMappingKeyState, c, marks, h + |Separator(form, first)| + 1, ds))
  {
    hide NodeAt, CloseStep, Reads;
    if !first { ReadsOne(tokens, h, FlowEntryToken); }
    ReadsOne(tokens, h + |Separator(form, first)|, KeyToken);
  }

  lemma PairKeyHere(tokens: seq<Token>, c: Config, h: nat, marks: nat, ds: seq<TagDirective>, n: Syntax)
    requires c.states != [] && h < |tokens| && StartsNode(tokens[h]) && n.Visible()
    ensures StepOf(tokens, PairAt(FlowSequenceEntryMappingKeyState, c, marks, h, ds))
         == ChildAt(tokens, h, n, FlowEntry, FlowSequenceEntryMappingValueState, c.states, marks + 1, ds)
  {
    hide NodeAt;
  }

  /** What shows the key of a single pair to be empty. */
  predicate ShowsNoKey(t: Token) {
    t.ValueToken? || t.FlowEntryToken? || t.FlowSequenceEndToken?
  }

  /** An empty key takes the token with it that shows this. */
  lemma EmptyKeyHere(tokens: seq<Token>, c: Config, h: nat, marks: nat, ds: seq<TagDirective>)
    requires c.states != [] && h < |tokens| && ShowsNoKey(tokens[h])
    ensures StepOf(tokens, PairAt(FlowSequenceEntryMappingKeyState, c, marks, h, ds))
         == Next(FILLER, PairAt(FlowSequenceEntryMappingValueState, c, marks, h + 1, ds))
  {
    hide NodeAt;
  }

  lemma PairValueHere(tokens: seq<Token>, c: Config, h: nat, marks: nat, ds: seq<TagDirective>, n: Syntax)
    requires c.states != [] && h + 1 < |tokens| && tokens[h].ValueToken? && !n.Pair?
    requires if n.Nothing? then MayFollow(FlowItem, tokens[h + 1]) else StartsNode(tokens[h + 1])
    ensures StepOf(tokens, PairAt(FlowSequenceEntryMappingValueState, c, marks, h, ds))
         == ChildAt(tokens, h + 1, n, FlowEntry, FlowSequenceEntryMappingEndState, c.states, marks + 1, ds)
  {
    hide NodeAt;
  }

  /** Without a VALUE the value is empty. */
  lemma NoValueHere(tokens: seq<Token>, c: Config, h: nat, marks: nat, ds: seq<TagDirective>)
    requires c.states != [] && h < |tokens| && !tokens[h].ValueToken? && !EndedAt(tokens, h)
    ensures StepOf(tokens, PairAt(FlowSequenceEntryMappingValueState, c, marks, h, ds))
         == Next(FILLER, PairAt(FlowSequenceEntryMappingEndState, c, marks, h, ds))
  {
    hide NodeAt;
  }

  lemma PairEndHere(tokens: seq<Token>, c: Config, h: nat, marks: nat, ds: seq<TagDirective>)
    requires c.states != [] && h < |tokens| && !EndedAt(tokens, h)
    ensures StepOf(tokens, PairAt(FlowSequenceEntryMappingEndState, c, marks, h, ds))
         == Next(MappingEnd, PairAt(FlowSequenceEntryState(false), c, marks, h, ds))
  {}

  lemma NoCommaHere(tokens: seq<Token>, c: Config, h: nat, marks: nat, ds: seq<TagDirective>)
    requires c.states != [] && h < |tokens| && !tokens[h].FlowEntryToken? && !tokens[h].FlowSequenceEndToken?
    ensures StepOf(tokens, PairAt(FlowSequenceEntryState(false), c, marks, h, ds)) == Stuck(ParserError)
  {
    hide NodeAt;
  }

  /** Whatever list of tokens there is, the token that shows the key of a single pair to be empty is
      lost.  If a VALUE follows it, that is taken for the indicator of the value.  Otherwise the pair
      ends there with an empty value, and the next token has to be a comma or the end of the
      sequence. */
  lemma {:induction false} EmptyKeyRun(tokens: seq<Token>, c: Config, h: nat, marks: nat, ds: seq<TagDirective>)
    requires c.states != [] && h + 1 < |tokens| && ShowsNoKey(tokens[h])
    ensures var m, d := PairAt(FlowSequenceEntryMappingKeyState, c, marks, h, ds),
                        PairAt(FlowSequenceEntryState(false), c, marks, h + 1, ds);
            if tokens[h + 1].ValueToken? then
              Emits(tokens, m, [FILLER], PairAt(FlowSequenceEntryMappingValueState, c, marks, h + 1, ds))
            else
              && Emits(tokens, m, [FILLER, FILLER, MappingEnd], d)
              && (!tokens[h + 1].FlowEntryToken? && !tokens[h + 1].FlowSequenceEndToken? ==>
                    StepOf(tokens, d) == Stuck(ParserError))
  {
    hide StepOf, Emits, PairAt;
    var m1 := PairAt(FlowSequenceEntryMappingKeyState, c, marks, h, ds);
    var m2 := PairAt(FlowSequenceEntryMappingValueState, c, marks, h + 1, ds);
    var m3 := PairAt(FlowSequenceEntryMappingEndState, c, marks, h + 1, ds);
    var m4 := PairAt(FlowSequenceEntryState(false), c, marks, h + 1, ds);
    EmptyKeyHere(tokens, c, h, marks, ds);
    EmitsOne(tokens, m1, FILLER, m2);
    if !tokens[h + 1].ValueToken? {
      NoValueHere(tokens, c, h + 1, marks, ds);
      PairEndHere(tokens, c, h + 1, marks, ds);
      if !tokens[h + 1].FlowEntryToken? && !tokens[h + 1].FlowSequenceEndToken? {
        NoCommaHere(tokens, c, h + 1, marks, ds);
      }
      EmitsOne(tokens, m2, FILLER, m3);
      EmitsOne(tokens, m3, MappingEnd, m4);
      EmitsOn(tokens, m1, [FILLER], m2, [FILLER], m3);
      EmitsOn(tokens, m1, [FILLER] + [FILLER], m3, [MappingEnd], m4);
      assert [FILLER] + [FILLER] + [MappingEnd] == [FILLER, FILLER, MappingEnd];
    }
  }

  /** A single pair stands in a flow sequence, behind its KEY. */
  predicate SingleStands(tokens: seq<Token>, h: nat, n: Syntax) {
    && n.Pair? && PairStands(tokens, h, n, FlowItem)
    && (n == ORPHAN && tokens[PairEnd(h, n)].FlowEntryToken? ==>
          PairEnd(h, n) + 1 < |tokens| && StartsItem(tokens[PairEnd(h, n) + 1]))
  }

  /** The end of a pair with an empty key: fine behind a VALUE with no value, and otherwise lost. */
  lemma {:induction false} EmptyKeyGoes(tokens: seq<Token>, c: Config, h: nat, n: Syntax, marks: nat,
                                        ds: seq<TagDirective>)
    requires n.Pair? && SingleStands(tokens, h, n) && n.key.Nothing? && c.states != []
    ensures Goes(tokens, PairAt(FlowSequenceEntryMappingKeyState, c, marks, KeyAt(h, n), ds),
                 n.written.Full? && n.value.Nothing?,
                 NodeEvents(NodeOf(n.key, ds)) + NodeEvents(NodeOf(n.value, ds)) + [MappingEnd],
                 PairAt(FlowSequenceEntryState(false), c, marks, PairEnd(h, n), ds))
  {
    hide StepOf, Emits, Tokens, NodeOf, NodeEvents, PairStands, Fails, Loses;
    PairPlaces(tokens, h, n, FlowItem);
    PairHeads(tokens, h, n, FlowItem);
    PairReads(tokens, h, n, FlowItem);
    NothingThere(n.key, ds);
    NothingThere(n.value, ds);
    var k := KeyAt(h, n);
    var m := PairAt(FlowSequenceEntryMappingKeyState, c, marks, k, ds);
    if n.written.Full? {
      EmptyKeyRun(tokens, c, k, marks, ds);
      if n.value.Nothing? {
        assert [FILLER] + [FILLER] + [MappingEnd] == [FILLER, FILLER, MappingEnd];
      } else {
        FailsHere(tokens, PairAt(FlowSequenceEntryState(false), c, marks, k + 1, ds));
        FailsLater(tokens, m, [FILLER, FILLER, MappingEnd], PairAt(FlowSequenceEntryState(false), c, marks, k + 1, ds));
      }
    } else if tokens[k].FlowEntryToken? {
      PairShapedHere(tokens, h, n, FlowItem);
      assert n == ORPHAN;
      EmptyKeyRun(tokens, c, k, marks, ds);
      FailsHere(tokens, PairAt(FlowSequenceEntryState(false), c, marks, k + 1, ds));
      FailsLater(tokens, m, [FILLER, FILLER, MappingEnd], PairAt(FlowSequenceEntryState(false), c, marks, k + 1, ds));
    } else {
      EndLost(tokens, c, k, marks, ds);
      FailsHere(tokens, m);
    }
  }

  lemma EndLost(tokens: seq<Token>, c: Config, h: nat, marks: nat, ds: seq<TagDirective>)
    requires h < |tokens| && tokens[h].FlowSequenceEndToken?
    ensures Loses(tokens, PairAt(FlowSequenceEntryMappingKeyState, c, marks, h, ds).cfg)
  {}

  lemma {:induction false} PairKeyGoes(tokens: seq<Token>, c: Config, h: nat, n: Syntax, marks: nat,
                                       ds: seq<TagDirective>)
    requires Stands(tokens, h, n, FlowEntry) && h < |tokens| && StartsNode(tokens[h]) && n.Visible() && c.states != []
    ensures Goes(tokens, PairAt(FlowSequenceEntryMappingKeyState, c, marks, h, ds), Sound(n, FlowEntry, ds),
                 NodeEvents(NodeOf(n, ds)), PairAt(FlowSequenceEntryMappingValueState, c, marks, h + |Tokens(n)|, ds))
    decreases n, 4
  {
    hide StepOf, Goes, ChildAt, Tokens, NodeOf, NodeEvents, Sound, Stands, StartsNode;
    PairKeyHere(tokens, c, h, marks, ds, n);
    ChildGoes(tokens, PairAt(FlowSequenceEntryMappingKeyState, c, marks, h, ds), h, n, FlowEntry,
              FlowSequenceEntryMappingValueState, c.states, marks + 1, ds);
  }

  /** The value of a single pair whose key is not empty. */
  lemma {:induction false} PairValueGoes(tokens: seq<Token>, c: Config, h: nat, n: Syntax, marks: nat,
                                         ds: seq<TagDirective>)
    requires n.Pair? && PairStands(tokens, h, n, FlowItem) && c.states != []
    ensures Goes(tokens, PairAt(FlowSequenceEntryMappingValueState, c, marks, KeyEnd(h, n), ds),
                 Sound(n.value, FlowEntry, ds), NodeEvents(NodeOf(n.value, ds)),
                 PairAt(FlowSequenceEntryMappingEndState, c, marks, PairEnd(h, n), ds))
    decreases n, 3
  {
    hide StepOf, Goes, ChildAt, Tokens, NodeOf, NodeEvents, Sound, Stands, PairStands, KeyEnd, ValueAt, PairEnd,
         EndedAt;
    PairPlaces(tokens, h, n, FlowItem);
    PairHeads(tokens, h, n, FlowItem);
    PairReads(tokens, h, n, FlowItem);
    PairEndsAt(h, n);
    var m := PairAt(FlowSequenceEntryMappingValueState, c, marks, KeyEnd(h, n), ds);
    if n.written.Full? {
      PairValueHere(tokens, c, KeyEnd(h, n), marks, ds, n.value);
      ChildGoes(tokens, m, ValueAt(h, n), n.value, FlowEntry, FlowSequenceEntryMappingEndState, c.states, marks + 1,
                ds);
    } else {
      NoValueHere(tokens, c, KeyEnd(h, n), marks, ds);
      NothingThere(n.value, ds);
      GoesOne(tokens, m, FILLER, PairAt(FlowSequenceEntryMappingEndState, c, marks, PairEnd(h, n), ds));
    }
  }

  lemma {:induction false} FullKeyGoes(tokens: seq<Token>, c: Config, h: nat, n: Syntax, marks: nat,
                                       ds: seq<TagDirective>)
    requires n.Pair? && PairStands(tokens, h, n, FlowItem) && !n.key.Nothing? && c.states != []
    ensures Goes(tokens, PairAt(FlowSequenceEntryMappingKeyState, c, marks, KeyAt(h, n), ds),
                 Sound(n.key, FlowEntry, ds) && Sound(n.value, FlowEntry, ds),
                 NodeEvents(NodeOf(n.key, ds)) + NodeEvents(NodeOf(n.value, ds)) + [MappingEnd],
                 PairAt(FlowSequenceEntryState(false), c, marks, PairEnd(h, n), ds))
    decreases n, 4
  {
    hide StepOf, Goes, Tokens, EndedAt, NodeOf, NodeEvents, Sound, PairStands, Stands, PairAt, MayFollow, KeyEnd,
         ValueAt, PairEnd, KeyAt;
    PairPlaces(tokens, h, n, FlowItem);
    PairHeads(tokens, h, n, FlowItem);
    PairReads(tokens, h, n, FlowItem);
    PairEndsAt(h, n);
    PairEndHere(tokens, c, PairEnd(h, n), marks, ds);
    var m1 := PairAt(FlowSequenceEntryMappingKeyState, c, marks, KeyAt(h, n), ds);
    var m2 := PairAt(FlowSequenceEntryMappingValueState, c, marks, KeyEnd(h, n), ds);
    var m3 := PairAt(FlowSequenceEntryMappingEndState, c, marks, PairEnd(h, n), ds);
    var m4 := PairAt(FlowSequenceEntryState(false), c, marks, PairEnd(h, n), ds);
    PairKeyGoes(tokens, c, KeyAt(h, n), n.key, marks, ds);
    PairValueGoes(tokens, c, h, n, marks, ds);
    GoesOne(tokens, m3, MappingEnd, m4);
    var (k, v) := (NodeEvents(NodeOf(n.key, ds)), NodeEvents(NodeOf(n.value, ds)));
    GoesOn(tokens, m1, Sound(n.key, FlowEntry, ds), k, m2, Sound(n.value, FlowEntry, ds), v, m3);
    GoesOn(tokens, m1, Sound(n.key, FlowEntry, ds) && Sound(n.value, FlowEntry, ds), k + v, m3, true, [MappingEnd], m4);
  }

  lemma CommaFollowed(tokens: seq<Token>, form: Form, h: nat, n: Syntax, first: bool)
    requires form.FlowSequence? && ItemStands(tokens, h, n, form, first)
    ensures var q := h + |Separator(form, first)| + |Tokens(n)|;
            && q < |tokens|
            && (n == ORPHAN && tokens[q].FlowEntryToken? ==> q + 1 < |tokens| && StartsItem(tokens[q + 1]))
  {
    hide Reads, Tokens, Shaped;
  }

  lemma KeyWritten(h: nat, n: Syntax)
    requires n.Pair? && !n.written.Loose?
    ensures KeyAt(h, n) == h + 1 && KeyIndicator(n.written) == [KeyToken]
  {}

  lemma SingleParts(tokens: seq<Token>, form: Form, h: nat, n: Syntax, first: bool)
    requires form.FlowSequence? && n.Pair? && ItemStands(tokens, h, n, form, first)
    ensures var p := h + |Separator(form, first)|;
            && SingleStands(tokens, p, n) && PairStands(tokens, p, n, FlowItem)
            && PairEnd(p, n) == p + |Tokens(n)| && KeyAt(p, n) == p + 1
            && Reads(tokens, h, Separator(form, first)) && Reads(tokens, p, [KeyToken])
  {
    hide Reads, Tokens, Separator, EndedAt, PairEnd, KeyAt, Shaped, PairStands, ItemStands, KeyIndicator, StartsItem;
    EntryStands(tokens, h, n, form, first);
    CommaFollowed(tokens, form, h, n, first);
    var p := h + |Separator(form, first)|;
    PairReads(tokens, p, n, FlowItem);
    PairShapedHere(tokens, p, n, FlowItem);
    KeyWritten(p, n);
  }

  lemma {:induction false} PairGoes(tokens: seq<Token>, form: Form, c: Config, h: nat, n: Syntax, marks: nat,
                                    ds: seq<TagDirective>, first: bool)
    requires form.FlowSequence? && InCollection(c, form, first, h, marks)
    requires n.Pair? && ItemStands(tokens, h, n, form, first)
    ensures Goes(tokens, Machine(c, ds), Sound(n, FlowItem, ds), NodeEvents(NodeOf(n, ds)),
                 PairAt(FlowSequenceEntryState(false), c, marks,
                        h + |Separator(form, first)| + |Tokens(n)|, ds))
    decreases n, 5
  {
    hide MayFollow, EndedAt, StepOf, Goes, Reads, Tokens, NodeOf, NodeEvents, Sound, InCollection, PairAt, PairStands,
         Separator, Shaped, ItemStands, SingleStands, KeyAt, PairEnd;
    var p := h + |Separator(form, first)|;
    Returns(c, form, first, h, marks);
    SingleParts(tokens, form, h, n, first);
    PairSound(n, FlowItem, ds);
    NothingThere(n.key, ds);
    NothingThere(n.value, ds);
    PairStarts(tokens, form, c, h, marks, ds, first);
    SinglePairMeans(n, ds);
    var m1 := PairAt(FlowSequenceEntryMappingKeyState, c, marks, p + 1, ds);
    var m4 := PairAt(FlowSequenceEntryState(false), c, marks, p + |Tokens(n)|, ds);
    GoesOne(tokens, Machine(c, ds), PAIR_START, m1);
    var (k, v) := (NodeEvents(NodeOf(n.key, ds)), NodeEvents(NodeOf(n.value, ds)));
    if n.key.Nothing? {
      EmptyKeyGoes(tokens, c, p, n, marks, ds);
    } else {
      FullKeyGoes(tokens, c, p, n, marks, ds);
    }
    GoesOn(tokens, Machine(c, ds), true, [PAIR_START], m1, Sound(n, FlowItem, ds), k + v + [MappingEnd], m4);
    assert [PAIR_START] + (k + v + [MappingEnd]) == [PAIR_START] + k + v + [MappingEnd];
  }

  lemma OrphanTokens(form: Form, first: bool)
    requires form == FlowSequence(true)
    ensures ItemTokens([ORPHAN], form, first) + EndingTokens(form)
         == Separator(form, first) + ([KeyToken] + ([FlowEntryToken] + [FlowSequenceEndToken]))
    ensures |ItemTokens([ORPHAN], form, first)| == |Separator(form, first)| + 1 && |EndingTokens(form)| == 2
  {
    ItemsCons([ORPHAN], form, first);
    PairTokens(ORPHAN);
    assert Tokens(Nothing) == [] && [ORPHAN][1..] == [];
    hide Tokens, Separator;
  }

  lemma OrphanSpelled(form: Form, ds: seq<TagDirective>)
    requires form == FlowSequence(true)
    ensures Spelled([ORPHAN], form, ds) + [ClosingOf(form)]
         == [PAIR_START] + [FILLER, FILLER, MappingEnd] + [ClosingOf(form)]
  {
    NodesOne(NodeOf(ORPHAN, ds));
    SinglePairMeans(ORPHAN, ds);
    NothingThere(Nothing, ds);
    assert NodesOf([ORPHAN], false, ds) == [NodeOf(ORPHAN, ds)];
    hide NodesEvents, NodeEvents, NodeOf, NodesOf;
  }

  /** A KEY alone takes the comma behind it for its own, which does no harm at the end of a sequence. */
  lemma {:induction false} SparedGoes(tokens: seq<Token>, form: Form, c: Config, h: nat, marks: nat,
                                      ds: seq<TagDirective>, first: bool)
    requires form == FlowSequence(true) && InCollection(c, form, first, h, marks)
    requires Reads(tokens, h, ItemTokens([ORPHAN], form, first) + EndingTokens(form))
    ensures c.states != []
    ensures Goes(tokens, Machine(c, ds), true, Spelled([ORPHAN], form, ds) + [ClosingOf(form)],
                 Landed(c.states, marks, h + |ItemTokens([ORPHAN], form, first)| + |EndingTokens(form)|, ds))
  {
    hide Goes, Emits, StepOf, Reads, Separator, ItemTokens, EndingTokens, Spelled, InCollection;
    Returns(c, form, first, h, marks);
    OrphanTokens(form, first);
    OrphanSpelled(form, ds);
    var p, end := h + |Separator(form, first)|, FlowSequence(false);
    ReadsBoth(tokens, h, Separator(form, first), [KeyToken] + ([FlowEntryToken] + [FlowSequenceEndToken]));
    ReadsBoth(tokens, p, [KeyToken], [FlowEntryToken] + [FlowSequenceEndToken]);
    ReadsBoth(tokens, p + 1, [FlowEntryToken], [FlowSequenceEndToken]);
    ReadsOne(tokens, p + 1, FlowEntryToken);
    ReadsOne(tokens, p + 2, FlowSequenceEndToken);
    var m := PairAt(FlowSequenceEntryMappingKeyState, c, marks, p + 1, ds);
    var d := PairAt(FlowSequenceEntryState(false), c, marks, p + 2, ds);
    var f := Landed(c.states, marks, p + 3, ds);
    PairStarts(tokens, form, c, h, marks, ds, first);
    GoesOne(tokens, Machine(c, ds), PAIR_START, m);
    EmptyKeyRun(tokens, c, p + 1, marks, ds);
    Emitted(tokens, m, [FILLER, FILLER, MappingEnd], d);
    SequenceEndsHere(tokens, c, p + 2, marks, ds);
    GoesOne(tokens, d, ClosingOf(form), f);
    GoesOn(tokens, Machine(c, ds), true, [PAIR_START], m, true, [FILLER, FILLER, MappingEnd], d);
    GoesOn(tokens, Machine(c, ds), true, [PAIR_START] + [FILLER, FILLER, MappingEnd], d, true, [ClosingOf(form)], f);
  }

  lemma Emitted(tokens: seq<Token>, m: Machine, es: seq<Event>, d: Machine)
    requires Emits(tokens, m, es, d)
    ensures Goes(tokens, m, true, es, d)
  {
    hide Emits;
  }

  lemma SequenceEndsHere(tokens: seq<Token>, c: Config, h: nat, marks: nat, ds: seq<TagDirective>)
    requires c.states != [] && h < |tokens| && tokens[h].FlowSequenceEndToken?
    ensures StepOf(tokens, PairAt(FlowSequenceEntryState(false), c, marks, h, ds))
         == Next(SequenceEnd, Landed(c.states, marks, h + 1, ds))
  {
    hide NodeAt;
  }

  // ---------------------------------------------------------------------------------------------
  // Documents

  lemma {:induction false} DocsCons(docs: seq<Document>)
    requires docs != []
    ensures DocsEvents(docs) == DocEvents(docs[0]) + DocsEvents(docs[1..])
    decreases |docs|
  {
    hide DocEvents;
    var k := |docs| - 1;
    if k == 0 {
      assert docs[..0] == [] && docs[1..] == [];
    } else {
      DocsCons(docs[..k]);
      var middle := docs[1..k];
      assert docs[..k][1..] == middle && docs[1..][..k - 1] == middle && docs[1..][k - 1] == docs[k];
      assert DocsEvents(docs) == DocsEvents(docs[..k]) + DocEvents(docs[k]);
      assert DocsEvents(docs[1..]) == DocsEvents(middle) + DocEvents(docs[k]);
      RegroupedEvents(DocEvents(docs[0]), DocsEvents(middle), DocEvents(docs[k]));
    }
  }

  /** Between documents, before the first one or behind another. */
  function BetweenAt(h: nat, first: bool): Machine {
    Machine(Config(DocumentStartState(first), [], 0, h, false), [])
  }

  /** Inside a document, outside its root. */
  function PageAt(state: State, states: seq<State>, h: nat, ds: seq<TagDirective>): Machine {
    Machine(Config(state, states, 0, h, false), ds)
  }

  /** Tag directives are read back, or refused if a handle is declared twice. */
  lemma {:induction false} TagsBack(tokens: seq<Token>, h: nat, version: Option<Version>, done: seq<TagDirective>,
                                    tags: seq<TagDirective>)
    requires Reads(tokens, h, DirectiveTokens(tags)) && DistinctHandles(done)
    ensures DirectivesAt(tokens, h, version, done, done)
         == if DistinctHandles(done + tags) then
              DirectivesAt(tokens, h + |DirectiveTokens(tags)|, version, done + tags, done + tags)
            else BadDirectives(ParserError)
    decreases |tags|
  {
    hide WithDefaults, Reads;
    if tags == [] {
      assert done + tags == done;
    } else {
      var t := TagDirectiveToken(tags[0].handle, tags[0].prefix);
      ReadsBoth(tokens, h, [t], DirectiveTokens(tags[1..]));
      ReadsOne(tokens, h, t);
      assert done + tags == (done + [tags[0]]) + tags[1..];
      NextHandle(done, tags);
      if !HasHandle(done, tags[0].handle) {
        hide DistinctHandles, HasHandle;
        TagsBack(tokens, h + 1, version, done + [tags[0]], tags[1..]);
      }
    }
  }

  lemma NextHandle(done: seq<TagDirective>, tags: seq<TagDirective>)
    requires tags != [] && DistinctHandles(done)
    ensures if HasHandle(done, tags[0].handle) then !DistinctHandles(done + tags) else DistinctHandles(done + [tags[0]])
  {
    if HasHandle(done, tags[0].handle) {
      var i :| 0 <= i < |done| && done[i].handle == tags[0].handle;
      assert (done + tags)[i] == done[i] && (done + tags)[|done|] == tags[0];
    }
  }

  lemma DistinctPart(early: seq<TagDirective>, late: seq<TagDirective>)
    requires DistinctHandles(early + late)
    ensures DistinctHandles(early)
  {
    assert forall i | 0 <= i < |early| :: (early + late)[i] == early[i];
  }

  /** The version is read back, or refused if it is not supported. */
  lemma VersionBack(tokens: seq<Token>, h: nat, version: Option<Version>, done: seq<TagDirective>)
    requires Reads(tokens, h, VersionTokens(version))
    ensures DirectivesAt(tokens, h, None, done, done)
         == if version.Some? && version.value != Version(1, 1) then BadDirectives(ParserError)
            else DirectivesAt(tokens, h + |VersionTokens(version)|, version, done, done)
  {
    hide HasHandle, WithDefaults;
    if version.Some? { ReadsOne(tokens, h, VersionTokens(version)[0]); }
  }

  /** Directives are read back exactly if they are fine. */
  lemma DirectivesBack(tokens: seq<Token>, h: nat, p: Page)
    requires p.marked && Reads(tokens, h, StartTokens(p))
    ensures DirectivesAt(tokens, h, None, [], [])
         == if Declared(p) then Directives(p.version, p.Tags(), WithDefaults(p.Tags()), h + |StartTokens(p)| - 1)
            else BadDirectives(ParserError)
    ensures var k := h + |StartTokens(p)| - 1; h <= k < |tokens| && tokens[k] == DocumentStartToken
    ensures StartsDocument(tokens[h])
  {
    hide WithDefaults, Reads, DistinctHandles, DirectiveTokens, DirectivesAt, VersionTokens;
    var es, vs, ls := DirectiveTokens(p.early), VersionTokens(p.version), DirectiveTokens(p.late);
    var k := h + |es| + |vs|;
    ReadsBoth(tokens, h, es, vs + (ls + [DocumentStartToken]));
    ReadsBoth(tokens, h + |es|, vs, ls + [DocumentStartToken]);
    ReadsBoth(tokens, k, ls, [DocumentStartToken]);
    ReadsOne(tokens, k + |ls|, DocumentStartToken);
    FirstOfPage(p);
    ReadsFirst(tokens, h, StartTokens(p));
    assert DistinctHandles([]) && [] + p.early == p.early by { NoHandles(p.early); }
    TagsBack(tokens, h, None, [], p.early);
    if DistinctHandles(p.early) {
      VersionBack(tokens, h + |es|, p.version, p.early);
      TagsBack(tokens, k, p.version, p.early, p.late);
      NoDirective(tokens, k + |ls|, p.version, p.Tags());
    } else if DistinctHandles(p.early + p.late) {
      DistinctPart(p.early, p.late);
    }
  }

  lemma NoHandles(tags: seq<TagDirective>)
    ensures DistinctHandles([]) && [] + tags == tags
  {}

  lemma NoDirective(tokens: seq<Token>, h: nat, version: Option<Version>, tags: seq<TagDirective>)
    requires h < |tokens| && tokens[h] == DocumentStartToken
    ensures DirectivesAt(tokens, h, version, tags, tags) == Directives(version, tags, WithDefaults(tags), h)
  {
    hide WithDefaults, HasHandle;
  }

  /** A document with its mark starts, or is refused for its directives. */
  lemma MarkedStart(tokens: seq<Token>, h: nat, p: Page, first: bool)
    requires p.marked && Reads(tokens, h, StartTokens(p))
    ensures StepOf(tokens, BetweenAt(h, first))
         == if Declared(p) then
              Next(DocumentOf(p).start,
                   PageAt(DocumentContentState, [DocumentEndState], h + |StartTokens(p)|, WithDefaults(p.Tags())))
            else Stuck(ParserError)
    ensures !EndedAt(tokens, h + |StartTokens(p)|)
  {
    hide WithDefaults, Declared, DirectivesAt, StartTokens, StepOf, Reads, NodeOf;
    DirectivesBack(tokens, h, p);
    BetweenStep(tokens, h, first);
    assert [] + [DocumentEndState] == [DocumentEndState];
    assert BehindDocumentEnds(tokens, h) == h;
  }

  lemma BetweenStep(tokens: seq<Token>, h: nat, first: bool)
    ensures StepOf(tokens, BetweenAt(h, first)) == DocumentStartStep(tokens, BetweenAt(h, first).cfg, [], first)
  {
    hide DocumentStartStep;
  }

  /** The first document starts without its mark. */
  lemma UnmarkedStart(tokens: seq<Token>, h: nat, p: Page)
    requires PageShaped(p, true) && !p.marked && h < |tokens| && StartsNode(tokens[h]) && !EndedAt(tokens, h)
    ensures StepOf(tokens, BetweenAt(h, true))
         == Next(DocumentOf(p).start, PageAt(BlockNodeState, [DocumentEndState], h, WithDefaults([])))
    ensures StartTokens(p) == []
  {
    hide WithDefaults, Shaped;
    assert [] + [DocumentEndState] == [DocumentEndState];
    assert DirectivesAt(tokens, h, None, [], []) == Directives(None, [], WithDefaults([]), h);
  }

  lemma RootHere(tokens: seq<Token>, h: nat, n: Syntax, state: State, ds: seq<TagDirective>)
    requires h < |tokens| && !n.Pair?
    requires state.DocumentContentState? || (state.BlockNodeState? && !n.Nothing?)
    requires if n.Nothing? then MayFollow(Root, tokens[h]) else StartsNode(tokens[h])
    ensures StepOf(tokens, PageAt(state, [DocumentEndState], h, ds))
         == ChildAt(tokens, h, n, Root, DocumentEndState, [], 0, ds)
  {
    hide NodeAt, StepOf, EndedAt;
    RootStep(tokens, h, state, ds);
    RootStates();
    if n.Nothing? {
      hide StartsNode;
    } else {
      assert !StartsDocument(tokens[h]) && !tokens[h].DocumentEndToken? && !tokens[h].StreamEndToken?;
      hide MayFollow, StartsNode, StartsDocument;
      assert StepOf(tokens, PageAt(state, [DocumentEndState], h, ds))
          == NodeAt(tokens, h, [DocumentEndState], 0, ds, true, false);
    }
  }

  lemma RootStates()
    ensures var none: seq<State> := [];
            none + [DocumentEndState] == [DocumentEndState] && [DocumentEndState][..0] == none
  {}

  lemma RootStep(tokens: seq<Token>, h: nat, state: State, ds: seq<TagDirective>)
    ensures var m := PageAt(state, [DocumentEndState], h, ds);
            && (state.DocumentContentState? ==> StepOf(tokens, m) == DocumentContentStep(tokens, m.cfg, ds))
            && (state.BlockNodeState? ==> StepOf(tokens, m) == NodeAt(tokens, h, m.cfg.states, 0, ds, true, false))
  {
    hide NodeAt, DocumentContentStep;
  }

  lemma PageEnds(tokens: seq<Token>, h: nat, p: Page, ds: seq<TagDirective>)
    requires h < |tokens| && !EndedAt(tokens, h) && (p.ends > 0 <==> tokens[h].DocumentEndToken?)
    ensures StepOf(tokens, PageAt(DocumentEndState, [], h, ds))
         == Next(DocumentOf(p).end, BetweenAt(h + if p.ends > 0 then 1 else 0, false))
  {}

  /** The parts of a document are in their places. */
  predicate PageStands(tokens: seq<Token>, h: nat, p: Page, first: bool) {
    && PageShaped(p, first) && !EndedAt(tokens, h)
    && Reads(tokens, h, StartTokens(p)) && Reads(tokens, h + |StartTokens(p)|, Tokens(p.root))
    && Reads(tokens, h + |StartTokens(p)| + |Tokens(p.root)|, EndTokens(p.ends))
    && var q := h + |PageTokens(p)|; q < |tokens| && (StartsDocument(tokens[q]) || tokens[q].StreamEndToken?)
  }

  lemma RootShaped(p: Page, first: bool)
    requires PageShaped(p, first)
    ensures Shaped(p.root, Root) && !p.root.Pair?
  {}

  lemma RootStands(tokens: seq<Token>, h: nat, p: Page, first: bool)
    requires PageStands(tokens, h, p, first) && !EndedAt(tokens, h + |StartTokens(p)|)
    ensures var k := h + |StartTokens(p)|;
            && Stands(tokens, k, p.root, Root) && k < |tokens| && !p.root.Pair?
            && (if p.root.Nothing? then MayFollow(Root, tokens[k]) else StartsNode(tokens[k]))
    ensures var r := h + |StartTokens(p)| + |Tokens(p.root)|;
            r < |tokens| && !EndedAt(tokens, r) && (p.ends > 0 <==> tokens[r].DocumentEndToken?)
            && h + |PageTokens(p)| == r + |EndTokens(p.ends)|
  {
    hide Reads, Tokens, StartTokens, PageShaped, Shaped;
    var k := h + |StartTokens(p)|;
    RootShaped(p, first);
    assert |PageTokens(p)| == |StartTokens(p)| + (|Tokens(p.root)| + |EndTokens(p.ends)|);
    if p.ends > 0 { ReadsFirst(tokens, k + |Tokens(p.root)|, EndTokens(p.ends)); }
    NothingThere(p.root, []);
    if !p.root.Nothing? { NodeAhead(tokens, k, p.root, Root); }
    NodeInner(tokens, k, p.root);
  }

  /** Behind the first of the document ends. */
  function EndAt(h: nat, p: Page): nat {
    h + |StartTokens(p)| + |Tokens(p.root)| + if p.ends > 0 then 1 else 0
  }

  /** The root of a document and its end. */
  lemma {:induction false} RootGoes(tokens: seq<Token>, h: nat, p: Page, first: bool, state: State)
    requires PageStands(tokens, h, p, first) && !EndedAt(tokens, h + |StartTokens(p)|)
    requires state.DocumentContentState? || (state.BlockNodeState? && !p.root.Nothing?)
    ensures Goes(tokens, PageAt(state, [DocumentEndState], h + |StartTokens(p)|, WithDefaults(p.Tags())),
                 Sound(p.root, Root, WithDefaults(p.Tags())),
                 NodeEvents(DocumentOf(p).root) + [DocumentOf(p).end], BetweenAt(EndAt(h, p), false))
  {
    hide Goes, StepOf, Tokens, NodeOf, NodeEvents, Sound, EndedAt, Stands, PageStands, StartTokens, ChildAt, MayFollow,
         StartsNode, EndTokens, PageTokens, WithDefaults;
    RootStands(tokens, h, p, first);
    var k, ds := h + |StartTokens(p)|, WithDefaults(p.Tags());
    var r := k + |Tokens(p.root)|;
    var m, d := PageAt(state, [DocumentEndState], k, ds), PageAt(DocumentEndState, [], r, ds);
    RootHere(tokens, k, p.root, state, ds);
    ChildGoes(tokens, m, k, p.root, Root, DocumentEndState, [], 0, ds);
    PageEnds(tokens, r, p, ds);
    var f := BetweenAt(EndAt(h, p), false);
    GoesOne(tokens, d, DocumentOf(p).end, f);
    GoesOn(tokens, m, Sound(p.root, Root, ds), NodeEvents(NodeOf(p.root, ds)), d, true, [DocumentOf(p).end], f);
  }

  lemma {:induction false} PageGoes(tokens: seq<Token>, h: nat, p: Page, first: bool)
    requires PageStands(tokens, h, p, first)
    ensures Goes(tokens, BetweenAt(h, first), PageSound(p), DocEvents(DocumentOf(p)), BetweenAt(EndAt(h, p), false))
  {
    hide Goes, StepOf, Tokens, NodeOf, NodeEvents, Declared, Sound, EndedAt, PageStands, StartTokens, PageTokens,
         WithDefaults, DocumentOf, DocEvents, EndAt;
    var ds, k := WithDefaults(p.Tags()), h + |StartTokens(p)|;
    var state := if p.marked then DocumentContentState else BlockNodeState;
    PageStarts(tokens, h, p, first);
    if Declared(p) {
      var m, f := PageAt(state, [DocumentEndState], k, ds), BetweenAt(EndAt(h, p), false);
      GoesOne(tokens, BetweenAt(h, first), DocumentOf(p).start, m);
      RootGoes(tokens, h, p, first, state);
      GoesOn(tokens, BetweenAt(h, first), true, [DocumentOf(p).start], m, Sound(p.root, Root, ds),
             NodeEvents(DocumentOf(p).root) + [DocumentOf(p).end], f);
      PageEvents(p);
    } else {
      NeverGoes(tokens, BetweenAt(h, first), DocEvents(DocumentOf(p)), BetweenAt(EndAt(h, p), false));
    }
  }

  lemma NeverGoes(tokens: seq<Token>, m: Machine, es: seq<Event>, d: Machine)
    requires StepOf(tokens, m) == Stuck(ParserError)
    ensures Goes(tokens, m, false, es, d)
  {
    hide StepOf, Emits, Fails;
    FailsHere(tokens, m);
  }

  lemma PageEvents(p: Page)
    ensures [DocumentOf(p).start] + (NodeEvents(DocumentOf(p).root) + [DocumentOf(p).end]) == DocEvents(DocumentOf(p))
  {
    hide NodeEvents, NodeOf;
  }

  lemma PageStarts(tokens: seq<Token>, h: nat, p: Page, first: bool)
    requires PageStands(tokens, h, p, first)
    ensures StepOf(tokens, BetweenAt(h, first))
         == if Declared(p) then
              Next(DocumentOf(p).start,
                   PageAt(if p.marked then DocumentContentState else BlockNodeState, [DocumentEndState],
                          h + |StartTokens(p)|, WithDefaults(p.Tags())))
            else Stuck(ParserError)
    ensures !EndedAt(tokens, h + |StartTokens(p)|) && (p.marked || !p.root.Nothing?)
  {
    hide StepOf, Tokens, WithDefaults, Reads, NodeOf;
    RootShaped(p, first);
    if p.marked {
      hide Declared;
      MarkedStart(tokens, h, p, first);
    } else {
      assert StartTokens(p) == [] && Declared(p);
      NodeAhead(tokens, h, p.root, Root);
      UnmarkedStart(tokens, h, p);
    }
  }

  lemma {:induction false} BehindMoreEnds(tokens: seq<Token>, h: nat, ends: nat)
    requires Reads(tokens, h, EndTokens(ends))
    ensures BehindDocumentEnds(tokens, h) == BehindDocumentEnds(tokens, h + |EndTokens(ends)|)
    decreases ends
  {
    hide Reads;
    if ends == 0 {
    } else {
      ReadsBoth(tokens, h, [DocumentEndToken], EndTokens(ends - 1));
      ReadsOne(tokens, h, DocumentEndToken);
      BehindMoreEnds(tokens, h + 1, ends - 1);
    }
  }

  /** Further document ends make no difference. */
  lemma MoreEnds(tokens: seq<Token>, h: nat, ends: nat, sound: bool, es: seq<Event>, d: Machine)
    requires Reads(tokens, h, EndTokens(ends)) && es != []
    requires Goes(tokens, BetweenAt(h + |EndTokens(ends)|, false), sound, es, d)
    ensures Goes(tokens, BetweenAt(h, false), sound, es, d)
  {
    hide Reads, StepOf, BehindDocumentEnds;
    var k := h + |EndTokens(ends)|;
    var m, m' := BetweenAt(h, false), BetweenAt(k, false);
    BetweenStep(tokens, h, false);
    BetweenStep(tokens, k, false);
    BehindMoreEnds(tokens, h, ends);
    assert StepOf(tokens, m) == StepOf(tokens, m');
    if !sound { SameStepFails(tokens, m, m'); }
  }

  lemma SameStepFails(tokens: seq<Token>, m: Machine, m': Machine)
    requires StepOf(tokens, m) == StepOf(tokens, m') && Fails(tokens, m') && !Loses(tokens, m'.cfg)
    ensures Fails(tokens, m)
  {
    hide StepOf, Loses;
    var es, d :| Emits(tokens, m', es, d) && (StepOf(tokens, d) == Stuck(ParserError) || Loses(tokens, d.cfg));
    if es == [] {
      FailsHere(tokens, m);
    } else {
      assert Emits(tokens, m, es, d);
    }
  }

  lemma PagesTail(pages: seq<Page>, first: bool)
    requires pages != [] && PagesShaped(pages, first)
    ensures PageShaped(pages[0], first) && PagesShaped(pages[1..], false)
  {
    hide PageShaped;
    assert PageShaped(pages[0], first && 0 == 0);
    assert forall i | 0 <= i < |pages| - 1 :: pages[1..][i] == pages[i + 1];
  }

  lemma LaterMarked(p: Page)
    requires PageShaped(p, false)
    ensures p.marked
  {}

  lemma FirstOfPage(p: Page)
    requires p.marked
    ensures StartTokens(p) != [] && StartsDocument(StartTokens(p)[0])
  {}

  /** What stands behind a document. */
  lemma PageFollowed(tokens: seq<Token>, q: nat, pages: seq<Page>)
    requires PagesShaped(pages, false) && Reads(tokens, q, PagesTokens(pages))
    ensures q < |tokens| && (StartsDocument(tokens[q]) || tokens[q].StreamEndToken?)
  {
    hide Tokens, Reads, PageShaped, StartTokens;
    if pages == [] {
      ReadsOne(tokens, q, StreamEndToken);
    } else {
      PagesTail(pages, false);
      LaterMarked(pages[0]);
      FirstOfPage(pages[0]);
      ReadsFirst(tokens, q, PagesTokens(pages));
    }
  }

  lemma PageParts(tokens: seq<Token>, h: nat, pages: seq<Page>, first: bool)
    requires pages != [] && PagesShaped(pages, first) && Reads(tokens, h, PagesTokens(pages)) && !EndedAt(tokens, h)
    ensures PageStands(tokens, h, pages[0], first)
    ensures PagesShaped(pages[1..], false) && Reads(tokens, h + |PageTokens(pages[0])|, PagesTokens(pages[1..]))
    ensures !EndedAt(tokens, h + |PageTokens(pages[0])|)
  {
    hide Reads, Tokens, PageShaped, StartTokens, EndTokens, PagesShaped, EndedAt, Inner;
    var p := pages[0];
    PagesTail(pages, first);
    ReadsBoth(tokens, h, PageTokens(p), PagesTokens(pages[1..]));
    hide PagesTokens;
    ReadsBoth(tokens, h, StartTokens(p), Tokens(p.root) + EndTokens(p.ends));
    ReadsBoth(tokens, h + |StartTokens(p)|, Tokens(p.root), EndTokens(p.ends));
    PageFollowed(tokens, h + |PageTokens(p)|, pages[1..]);
    PageInner(p);
    StillInner(tokens, h, PageTokens(p));
  }

  /** Where the stream has ended. */
  function Behind(h: nat): Machine {
    Machine(Config(EndState, [], 0, h, true), [])
  }

  lemma StreamEndHere(tokens: seq<Token>, h: nat, first: bool)
    requires h < |tokens| && tokens[h] == StreamEndToken
    ensures StepOf(tokens, BetweenAt(h, first)) == Next(StreamEnd, Behind(h + 1))
  {
    assert BehindDocumentEnds(tokens, h) == h;
  }

  lemma {:induction false} PagesGo(tokens: seq<Token>, h: nat, pages: seq<Page>, first: bool)
    requires PagesShaped(pages, first) && Reads(tokens, h, PagesTokens(pages)) && !EndedAt(tokens, h)
    ensures Goes(tokens, BetweenAt(h, first), PagesSound(pages), DocsEvents(DocumentsOf(pages)) + [StreamEnd],
                 Behind(h + |PagesTokens(pages)|))
    decreases |pages|
  {
    hide Goes, StepOf, Reads, PagesShaped, PageTokens, DocEvents, EndedAt, PageSound, PageStands, DocumentOf, EndAt,
         EndTokens;
    if pages == [] {
      ReadsOne(tokens, h, StreamEndToken);
      StreamEndHere(tokens, h, first);
      GoesOne(tokens, BetweenAt(h, first), StreamEnd, Behind(h + 1));
      assert [] + [StreamEnd] == [StreamEnd];
    } else {
      var p, rest := pages[0], pages[1..];
      var k, e := h + |PageTokens(p)|, EndAt(h, p);
      var es := DocsEvents(DocumentsOf(rest)) + [StreamEnd];
      PageParts(tokens, h, pages, first);
      PageGoes(tokens, h, p, first);
      PagesGo(tokens, k, rest, false);
      EndsLeft(tokens, h, p, first);
      if p.ends > 0 { MoreEnds(tokens, e, p.ends - 1, PagesSound(rest), es, Behind(h + |PagesTokens(pages)|)); }
      GoesOn(tokens, BetweenAt(h, first), PageSound(p), DocEvents(DocumentOf(p)), BetweenAt(e, false),
             PagesSound(rest), es, Behind(h + |PagesTokens(pages)|));
      PagesCons(pages);
      hide DocsEvents, PagesSound, DocumentsOf;
      RegroupedEvents(DocEvents(DocumentOf(p)), DocsEvents(DocumentsOf(rest)), [StreamEnd]);
    }
  }

  lemma EndsLeft(tokens: seq<Token>, h: nat, p: Page, first: bool)
    requires PageStands(tokens, h, p, first)
    ensures p.ends == 0 ==> EndAt(h, p) == h + |PageTokens(p)|
    ensures p.ends > 0 ==>
              && Reads(tokens, EndAt(h, p), EndTokens(p.ends - 1))
              && EndAt(h, p) + |EndTokens(p.ends - 1)| == h + |PageTokens(p)|
  {
    hide Reads, Tokens, StartTokens, PageShaped, EndedAt;
    if p.ends > 0 {
      ReadsBoth(tokens, h + |StartTokens(p)| + |Tokens(p.root)|, [DocumentEndToken], EndTokens(p.ends - 1));
    }
  }

  lemma PagesCons(pages: seq<Page>)
    requires pages != []
    ensures DocsEvents(DocumentsOf(pages)) == DocEvents(DocumentOf(pages[0])) + DocsEvents(DocumentsOf(pages[1..]))
    ensures PagesSound(pages) <==> PageSound(pages[0]) && PagesSound(pages[1..])
  {
    hide DocEvents, DocsEvents, DocumentOf, PageSound;
    DocsCons(DocumentsOf(pages));
    assert DocumentsOf(pages)[1..] == DocumentsOf(pages[1..]);
    assert forall i | 0 < i < |pages| :: pages[i] == pages[1..][i - 1];
  }

  /** From the tokens of documents the machine returns exactly their events, or else fails. */
  lemma {:induction false} PrintedGoes(pages: seq<Page>)
    requires PagesShaped(pages, true)
    ensures Goes(Printed(pages), START, PagesSound(pages), StreamEvents(DocumentsOf(pages)), Behind(|Printed(pages)|))
  {
    hide Goes, StepOf, PagesShaped, PagesTokens, DocsEvents, PagesSound, DocumentsOf;
    var tokens, docs := Printed(pages), DocumentsOf(pages);
    assert tokens[1..1 + |PagesTokens(pages)|] == PagesTokens(pages);
    PagesGo(tokens, 1, pages, true);
    StreamStartHere(tokens);
    GoesOne(tokens, START, StreamStart, BetweenAt(1, true));
    GoesOn(tokens, START, true, [StreamStart], BetweenAt(1, true),
           PagesSound(pages), DocsEvents(docs) + [StreamEnd], Behind(|tokens|));
    RegroupedEvents([StreamStart], DocsEvents(docs), [StreamEnd]);
  }

  lemma StreamStartHere(tokens: seq<Token>)
    requires tokens != [] && tokens[0] == StreamStartToken
    ensures StepOf(tokens, START) == Next(StreamStart, BetweenAt(1, true))
  {}

  lemma Stops(tokens: seq<Token>, m: Machine)
    ensures m.cfg.state.EndState? ==> StepOf(tokens, m) == Stuck(NoError)
  {}

  /** The rest of a run, from a point on it. */
  lemma {:induction false} RestOfRun(tokens: seq<Token>, m: Machine, es: seq<Event>, d: Machine, fs: seq<Event>,
                                     f: Machine)
    requires Emits(tokens, m, es, d) && Emits(tokens, m, fs, f) && fs <= es
    ensures Emits(tokens, f, es[|fs|..], d)
    decreases |fs|
  {
    hide StepOf;
    if fs == [] {
      assert es[0..] == es;
    } else {
      RestOfRun(tokens, StepOf(tokens, m).machine, es[1..], d, fs[1..], f);
      assert es[1..][|fs| - 1..] == es[|fs|..];
    }
  }

  /** A machine that fails never gets to the end of written documents. */
  lemma FailingRun(pages: seq<Page>, es: seq<Event>, d: Machine)
    requires Fails(Printed(pages), START) && Emits(Printed(pages), START, es, d) && StepOf(Printed(pages), d).Stuck?
    ensures StepOf(Printed(pages), d) == Stuck(ParserError) && !d.cfg.state.EndState?
  {
    hide Emits, StepOf, Printed, Loses, Net;
    var tokens := Printed(pages);
    Stops(tokens, d);
    var fs, f :| Emits(tokens, START, fs, f) && (StepOf(tokens, f) == Stuck(ParserError) || Loses(tokens, f.cfg));
    if StepOf(tokens, f) == Stuck(ParserError) {
      OneRun(tokens, START, es, d, fs, f);
    } else {
      PrintedWhole(pages);
      StartOfRun(tokens, START, fs, f, es, d);
      RestOfRun(tokens, START, es, d, fs, f);
      LostNeverEnds(tokens, fs, f, es[|fs|..], d);
      NeverStarves(tokens, es, d);
    }
  }

  /** The whole stream is read exactly if every document is sound, and otherwise refused with a
      syntax error. */
  lemma ReadsExactly(pages: seq<Page>, es: seq<Event>, d: Machine)
    requires PagesShaped(pages, true) && Emits(Printed(pages), START, es, d) && StepOf(Printed(pages), d).Stuck?
    ensures PagesSound(pages) ==> d.cfg.state.EndState? && es == StreamEvents(DocumentsOf(pages))
    ensures !PagesSound(pages) ==> StepOf(Printed(pages), d) == Stuck(ParserError) && !d.cfg.state.EndState?
  {
    hide Emits, StepOf, PagesShaped, StreamEvents, PagesSound, Printed, Fails;
    var tokens, end := Printed(pages), Behind(|Printed(pages)|);
    PrintedGoes(pages);
    Stops(tokens, end);
    if PagesSound(pages) {
      OneRun(tokens, START, es, d, StreamEvents(DocumentsOf(pages)), end);
    } else {
      FailingRun(pages, es, d);
    }
  }

  /** Parsing what was written gives back the events exactly if all directives are fine, every tag
      resolves and every single pair with an empty key has its VALUE and no value, or is a KEY alone
      before a comma that ends the sequence; otherwise it is a syntax error. */
  method ParsePrinted(pages: seq<Page>) returns (outcome: Outcome, events: seq<Event>)
    requires PagesShaped(pages, true)
    ensures PagesSound(pages) ==> outcome.Finished? && events == StreamEvents(DocumentsOf(pages))
    ensures !PagesSound(pages) ==> outcome == Failed(ParserError)
  {
    hide Emits, StepOf, PagesShaped, StreamEvents, PagesSound, Printed;
    outcome, events := ParseAll(Printed(pages));
    ghost var tokens := Printed(pages);
    ghost var d :| Emits(tokens, START, events, d) && d.cfg.state.EndState? == outcome.Finished?
                   && (outcome.Failed? ==> StepOf(tokens, d) == Stuck(outcome.error));
    Stops(tokens, d);
    ReadsExactly(pages, events, d);
  }

  lemma {:induction false} ShapedIsWellFormed(n: Syntax, place: Place, ds: seq<TagDirective>)
    requires Shaped(n, place)
    ensures WellFormed(NodeOf(n, ds))
    decreases n, 1
  {
    if n.Group? {
      ShapedAreWellFormed(n.children, n.form, ds);
    } else if n.Pair? {
      ShapedIsWellFormed(n.key, EntryPlace(place), ds);
      ShapedIsWellFormed(n.value, EntryPlace(place), ds);
    }
  }

  lemma {:induction false} PartsAreWellFormed(n: Syntax, form: Form, ds: seq<TagDirective>)
    requires Shaped(n, ChildPlace(form))
    ensures form.Mapping() ==> |Parts(n, true, ds)| == 2
    ensures forall c | c in Parts(n, form.Mapping(), ds) :: WellFormed(c)
    decreases n, 2
  {
    var place := ChildPlace(form);
    if form.Mapping() {
      ShapedIsWellFormed(n.key, EntryPlace(place), ds);
      ShapedIsWellFormed(n.value, EntryPlace(place), ds);
    } else {
      ShapedIsWellFormed(n, place, ds);
    }
  }

  lemma {:induction false} ShapedAreWellFormed(ns: seq<Syntax>, form: Form, ds: seq<TagDirective>)
    requires forall i | 0 <= i < |ns| :: Shaped(ns[i], ChildPlace(form))
    ensures form.Mapping() ==> |NodesOf(ns, true, ds)| % 2 == 0
    ensures forall c | c in NodesOf(ns, form.Mapping(), ds) :: WellFormed(c)
    decreases ns, 0
  {
    if ns == [] {
    } else {
      PartsAreWellFormed(ns[0], form, ds);
      hide Shaped, WellFormed, NodeOf;
      ShapedAreWellFormed(ns[1..], form, ds);
    }
  }

  lemma {:induction false} PagesAreWellFormed(pages: seq<Page>, first: bool)
    requires PagesShaped(pages, first)
    ensures WellFormedDocs(DocumentsOf(pages))
  {
    if pages == [] {
    } else {
      PagesTail(pages, first);
      ShapedIsWellFormed(pages[0].root, Root, WithDefaults(pages[0].Tags()));
      hide Shaped, WellFormed;
      PagesAreWellFormed(pages[1..], false);
    }
  }

  /** An alias at the end of a prefix is resolved if all aliases are. */
  lemma {:induction false} ResolvedWithin(es: seq<Event>, name: string, all: seq<Event>)
    requires es + [Alias(name)] <= all && Resolved(all)
    ensures name in Anchors(es)
    decreases |all|
  {
    var k := |all| - 1;
    if k == |es| {
      assert all[..k] == es && all[k] == (es + [Alias(name)])[k];
    } else {
      assert es + [Alias(name)] <= all[..k];
      ResolvedWithin(es, name, all[..k]);
    }
  }

  /** Composing what was written gives back the documents exactly if they are sound and each alias has
      its anchor before it; if only the latter fails, that is the problem named. */
  method ComposePrinted(pages: seq<Page>) returns (docs: seq<Document>, problem: Option<Problem>)
    requires PagesShaped(pages, true)
    ensures problem.None? <==> PagesSound(pages) && Resolved(StreamEvents(DocumentsOf(pages)))
    ensures problem.None? ==> docs == DocumentsOf(pages)
    ensures problem.Some? && PagesSound(pages) ==> problem.value.UnknownAnchor?
  {
    hide Emits, StepOf, PagesShaped, StreamEvents, PagesSound, Printed, Resolved, Anchors, FeedFrom, WellFormedDocs;
    ghost var tokens, meant := Printed(pages), DocumentsOf(pages);
    var targets;
    docs, problem, targets := ComposeAll(Printed(pages));
    if problem.None? {
      ghost var d :| Emits(tokens, START, StreamEvents(docs), d) && d.cfg.state.EndState?;
      Stops(tokens, d);
      ReadsExactly(pages, StreamEvents(docs), d);
      PagesAreWellFormed(pages, true);
      CompleteLanguage(StreamEvents(meant), meant);
      CompleteLanguage(StreamEvents(docs), docs);
    } else if problem == Some(ParseFailed) {
      ghost var es, d :| Emits(tokens, START, es, d) && !d.cfg.state.EndState? && StepOf(tokens, d).Stuck?;
      ReadsExactly(pages, es, d);
    } else if PagesSound(pages) && Resolved(StreamEvents(meant)) {
      ghost var name := problem.value.name;
      ghost var es, d :| Emits(tokens, START, es + [Alias(name)], d) && name !in Anchors(es);
      PrintedGoes(pages);
      Stops(tokens, Behind(|tokens|));
      StartOfRun(tokens, START, es + [Alias(name)], d, StreamEvents(meant), Behind(|tokens|));
      ResolvedWithin(es, name, StreamEvents(meant));
      assert false;
    }
  }

  // ---------------------------------------------------------------------------------------------
  // Examples

  function InSequence(items: seq<Syntax>, comma: bool): Page {
    Page([], None, [], true, Group(FlowSequence(comma), Props("", Untagged, false), items), 0)
  }

  function Letter(text: string): Syntax {
    Word(Props("", Untagged, false), text, Plain)
  }

  /** Every run over the document ends with a syntax error. */
  ghost predicate Refused(p: Page) {
    forall es, d | Emits(Printed([p]), START, es, d) && StepOf(Printed([p]), d).Stuck? ::
      StepOf(Printed([p]), d) == Stuck(ParserError)
  }

  lemma RefusedExactly(p: Page)
    requires PageShaped(p, true)
    ensures !PageSound(p) ==> Refused(p)
    ensures PageSound(p) ==>
              Emits(Printed([p]), START, StreamEvents(DocumentsOf([p])), Behind(|Printed([p])|)) && !Refused(p)
  {
    hide Emits, StepOf, StreamEvents, Printed, PageShaped, PageSound, DocumentsOf;
    var end := Behind(|Printed([p])|);
    assert [p][0] == p;
    forall es, d | Emits(Printed([p]), START, es, d) && StepOf(Printed([p]), d).Stuck?
      ensures !PageSound(p) ==> StepOf(Printed([p]), d) == Stuck(ParserError)
    {
      ReadsExactly([p], es, d);
    }
    PrintedGoes([p]);
    Stops(Printed([p]), end);
  }

  lemma SequenceReads(items: seq<Syntax>, comma: bool)
    requires items != [] && AllShaped(items, FlowItem)
    ensures Refused(InSequence(items, comma)) <==> !AllSound(items, FlowSequence(comma), WithDefaults([]))
  {
    hide Refused, Shaped, AllSound;
    var p := InSequence(items, comma);
    assert Shaped(p.root, Root) by { SequenceShaped(items, comma); }
    assert p.Tags() == [];
    assert PageSound(p) <==> AllSound(items, FlowSequence(comma), WithDefaults([]));
    RefusedExactly(p);
  }

  lemma SequenceShaped(items: seq<Syntax>, comma: bool)
    requires items != [] && AllShaped(items, FlowItem)
    ensures Shaped(InSequence(items, comma).root, Root)
  {}

  /** The documents `[? : x]`, `[?, x]` and `[?]` are refused; `[? : ]` and `[?,]` are read. */
  lemma Examples()
    ensures Refused(InSequence([Pair(Nothing, Letter("x"), Full)], false))
    ensures Refused(InSequence([ORPHAN, Letter("x")], false)) && Refused(InSequence([ORPHAN], false))
    ensures !Refused(InSequence([Pair(Nothing, Nothing, Full)], false)) && !Refused(InSequence([ORPHAN], true))
  {
    hide Refused;
    var pair, fine, ds := Pair(Nothing, Letter("x"), Full), Pair(Nothing, Nothing, Full), WithDefaults([]);
    assert Shaped(pair, FlowItem) && !Sound(pair, FlowItem, ds);
    assert Shaped(fine, FlowItem) && Sound(fine, FlowItem, ds);
    assert Shaped(ORPHAN, FlowItem) && !Sound(ORPHAN, FlowItem, ds) && Shaped(Letter("x"), FlowItem);
    hide Sound, Shaped;
    assert [pair][0] == pair && [ORPHAN][0] == ORPHAN && [ORPHAN, Letter("x")][0] == ORPHAN;
    SequenceReads([pair], false);
    SequenceReads([ORPHAN, Letter("x")], false);
    SequenceReads([ORPHAN], false);
    SequenceReads([fine], false);
    SequenceReads([ORPHAN], true);
  }
}
