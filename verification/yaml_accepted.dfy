/**
 What the parser accepts.

 Every list of tokens that the parser reads to the end of the stream, without losing a token on its way,
 is the list of tokens of some documents as they are written; so what cannot be written is refused.
 */
module YamlAccepted {
  import opened Options
  import opened YamlEvents
  import opened YamlProductions
  import opened YamlBrackets
  import opened YamlSyntax
  import opened YamlParser
  import opened YamlTokenPrinter

  // ---------------------------------------------------------------------------------------------
  // Runs without loss

  /** The token that shows the key of a single pair to be empty is lost here, and it is missing: the end of the
      sequence, a comma that does not stand before that end, or a VALUE before another. */
  predicate Strays(tokens: seq<Token>, c: Config) {
    && c.state.FlowSequenceEntryMappingKeyState? && c.head < |tokens|
    && var more := c.head + 1 < |tokens|;
       || tokens[c.head].FlowSequenceEndToken?
       || (tokens[c.head].FlowEntryToken? && !(more && tokens[c.head + 1].FlowSequenceEndToken?))
       || (tokens[c.head].ValueToken? && more && tokens[c.head + 1].ValueToken?)
  }

  /** On the way of the run that returns `es` a token is missing. */
  predicate Misses(tokens: seq<Token>, m: Machine, es: seq<Event>)
    decreases |es|
  {
    || Strays(tokens, m.cfg)
    || (es != [] && StepOf(tokens, m).Next? && Misses(tokens, StepOf(tokens, m).machine, es[1..]))
  }

  /** A run to the end of the stream that misses nothing. */
  predicate Through(tokens: seq<Token>, m: Machine, es: seq<Event>, d: Machine) {
    Emits(tokens, m, es, d) && !Misses(tokens, m, es) && d.cfg.state.EndState?
  }

  lemma ThroughStep(tokens: seq<Token>, m: Machine, es: seq<Event>, d: Machine)
    requires Through(tokens, m, es, d) && !m.cfg.state.EndState?
    ensures es != [] && StepOf(tokens, m).Next? && !Strays(tokens, m.cfg)
    ensures Through(tokens, StepOf(tokens, m).machine, es[1..], d)
  {
    hide StepOf, Strays;
  }

  /** An anchor has a name, and a tag a handle or a suffix. */
  predicate Named(tokens: seq<Token>) {
    forall i | 0 <= i < |tokens| ::
      && (tokens[i].AnchorToken? ==> tokens[i].value != "")
      && (tokens[i].TagToken? ==> tokens[i].handle != "" || tokens[i].suffix != "")
  }

  // ---------------------------------------------------------------------------------------------
  // Joining what has been read

  lemma ReadsJoin(tokens: seq<Token>, h: nat, a: seq<Token>, b: seq<Token>)
    requires Reads(tokens, h, a) && Reads(tokens, h + |a|, b)
    ensures Reads(tokens, h, a + b)
  {
    var k := h + |a|;
    assert tokens[h..k + |b|] == tokens[h..k] + tokens[k..k + |b|];
  }

  lemma ReadsToken(tokens: seq<Token>, h: nat, t: Token)
    requires h < |tokens| && tokens[h] == t
    ensures Reads(tokens, h, [t])
  {}

  lemma ReadsNothing(tokens: seq<Token>, h: nat)
    requires h <= |tokens|
    ensures Reads(tokens, h, [])
  {}

  // ---------------------------------------------------------------------------------------------
  // Nodes without children, and where the others start

  function PropsAt(tokens: seq<Token>, h: nat): Props
    requires h < |tokens|
  {
    if tokens[h].AnchorToken? then
      if h + 1 < |tokens| && tokens[h + 1].TagToken? then
        Props(tokens[h].value, Tagged(tokens[h + 1].handle, tokens[h + 1].suffix), false)
      else Props(tokens[h].value, Untagged, false)
    else if tokens[h].TagToken? then
      if h + 1 < |tokens| && tokens[h + 1].AnchorToken? then
        Props(tokens[h + 1].value, Tagged(tokens[h].handle, tokens[h].suffix), true)
      else Props("", Tagged(tokens[h].handle, tokens[h].suffix), true)
    else Props("", Untagged, false)
  }

  lemma PropsRead(tokens: seq<Token>, h: nat, ds: seq<TagDirective>)
    requires Named(tokens) && h < |tokens| && PropertiesAt(tokens, h, ds).Properties? && !EndedAt(tokens, h)
    ensures var (p, q) := (PropsAt(tokens, h), PropertiesAt(tokens, h, ds));
            && Reads(tokens, h, PropertyTokens(p)) && q.head == h + |PropertyTokens(p)| < |tokens|
            && TagShaped(p.tag) && (q.anchor != "" || q.tag != "" ==> p.anchor != "" || p.tag.Tagged?)
            && !EndedAt(tokens, q.head)
  {
    hide TagOf;
    var ts := PropertyTokens(PropsAt(tokens, h));
    if |ts| == 0 {
    } else if |ts| == 1 {
      ReadsToken(tokens, h, ts[0]);
      assert ts == [ts[0]];
    } else {
      ReadsToken(tokens, h, ts[0]);
      ReadsToken(tokens, h + 1, ts[1]);
      ReadsJoin(tokens, h, [ts[0]], [ts[1]]);
      assert ts == [ts[0]] + [ts[1]];
    }
  }

  /** The form of the collection that the token starts. */
  function FormAt(t: Token): Option<Form> {
    match t
    case BlockEntryToken => Some(IndentlessSequence)
    case BlockSequenceStartToken => Some(BlockSequence)
    case BlockMappingStartToken => Some(BlockMapping)
    case FlowSequenceStartToken => Some(FlowSequence(false))
    case FlowMappingStartToken => Some(FlowMapping(false))
    case _ => None
  }

  predicate MayOpen(form: Form, place: Place) {
    (place.Block() || form.Flow()) && (form.IndentlessSequence? ==> place.BlockEntry?)
  }

  lemma ContentBack(tokens: seq<Token>, p: Properties, place: Place, states: seq<State>, marks: nat,
                    ds: seq<TagDirective>)
    requires p.Properties? && p.head < |tokens| && states != [] && !EndedAt(tokens, p.head)
    requires ContentAt(tokens, p, states, marks, ds, place.Block(), place.BlockEntry?).Next?
    ensures var (t, s) := (tokens[p.head], ContentAt(tokens, p, states, marks, ds, place.Block(), place.BlockEntry?));
            if t.ScalarToken? then s.machine == Landed(states, marks, p.head + 1, ds)
            else if FormAt(t).Some? && MayOpen(FormAt(t).value, place) then
              s.machine == Machine(Config(FirstState(FormAt(t).value), states, marks, p.head, false), ds)
            else (p.anchor != "" || p.tag != "") && s.machine == Landed(states, marks, p.head, ds)
  {}

  // ---------------------------------------------------------------------------------------------
  // What a step of a collection has read

  function WithComma(form: Form, comma: bool): Form {
    match form
    case FlowSequence(_) => FlowSequence(comma)
    case FlowMapping(_) => FlowMapping(comma)
    case _ => form
  }

  /** The collection ends at `h`. */
  predicate EndRead(tokens: seq<Token>, h: nat, form: Form, comma: bool, states: seq<State>, marks: nat,
                    ds: seq<TagDirective>, s: Step)
    requires states != []
  {
    var end := EndingTokens(WithComma(form, comma));
    (comma ==> form.Flow()) && Reads(tokens, h, end) && s.Next? && s.machine == Landed(states, marks, h + |end|, ds)
  }

  /** A child is read at `q`, or nothing, and the machine goes on in state `next`. */
  predicate ChildRead(tokens: seq<Token>, q: nat, place: Place, next: State, states: seq<State>, marks: nat,
                      ds: seq<TagDirective>, s: Step) {
    && s.Next?
    && (|| (s == ChildAt(tokens, q, Nothing, place, next, states, marks, ds) && !place.FlowItem?)
        || s == ReadAt(tokens, q, place, states + [next], marks, ds))
  }

  lemma BlockItemBack(tokens: seq<Token>, c: Config, h: nat, marks: nat, ds: seq<TagDirective>, first: bool)
    requires InCollection(c, BlockSequence, first, h, marks) && StepOf(tokens, Machine(c, ds)).Next?
    ensures var s := StepOf(tokens, Machine(c, ds));
            || EndRead(tokens, h, BlockSequence, false, c.states, marks, ds, s)
            || (&& Reads(tokens, h, [BlockEntryToken])
                && ChildRead(tokens, h + 1, BlockItem, NextState(BlockSequence), c.states, marks + 1, ds, s))
  {
    hide NodeAt;
    if h < |tokens| { ReadsToken(tokens, h, tokens[h]); }
  }

  lemma IndentlessItemBack(tokens: seq<Token>, c: Config, h: nat, marks: nat, ds: seq<TagDirective>, first: bool)
    requires InCollection(c, IndentlessSequence, first, h, marks) && StepOf(tokens, Machine(c, ds)).Next?
    requires !EndedAt(tokens, h)
    ensures var s := StepOf(tokens, Machine(c, ds));
            || (&& EndRead(tokens, h, IndentlessSequence, false, c.states, marks, ds, s)
                && !Reads(tokens, h, [BlockEntryToken]))
            || (&& Reads(tokens, h, [BlockEntryToken])
                && ChildRead(tokens, h + 1, BlockItem, NextState(IndentlessSequence), c.states, marks, ds, s))
  {
    hide NodeAt;
    if h < |tokens| { ReadsToken(tokens, h, tokens[h]); }
  }

  lemma ItemsStep(tokens: seq<Token>, c: Config, h: nat, marks: nat, ds: seq<TagDirective>, first: bool)
    requires InCollection(c, FlowSequence(false), first, h, marks)
    ensures StepOf(tokens, Machine(c, ds)) == FlowItemsStep(tokens, c, marks + 1, h, ds, first)
  {
    hide FlowItemsStep;
  }

  lemma BehindCommaBack(tokens: seq<Token>, c: Config, q: nat, marks: nat, ds: seq<TagDirective>)
    requires c.states != [] && FlowItemStep(tokens, c, marks + 1, q, ds).Next?
    ensures var s := FlowItemStep(tokens, c, marks + 1, q, ds);
            && q < |tokens|
            && (|| (tokens[q] == FlowSequenceEndToken && s.machine == Landed(c.states, marks, q + 1, ds))
                || (&& tokens[q] == KeyToken
                    && s.machine == PairAt(FlowSequenceEntryMappingKeyState, c, marks, q + 1, ds))
                || ChildRead(tokens, q, FlowItem, FlowSequenceEntryState(false), c.states, marks + 1, ds, s))
  {
    hide NodeAt;
  }

  lemma FlowEnds()
    ensures EndingTokens(FlowSequence(false)) == [FlowSequenceEndToken]
    ensures EndingTokens(FlowSequence(true)) == [FlowEntryToken] + [FlowSequenceEndToken]
    ensures EndingTokens(FlowMapping(false)) == [FlowMappingEndToken]
    ensures EndingTokens(FlowMapping(true)) == [FlowEntryToken] + [FlowMappingEndToken]
  {}

  lemma FlowItemBack(tokens: seq<Token>, c: Config, h: nat, marks: nat, ds: seq<TagDirective>, first: bool)
    requires InCollection(c, FlowSequence(false), first, h, marks) && StepOf(tokens, Machine(c, ds)).Next?
    ensures var (s, sep) := (StepOf(tokens, Machine(c, ds)), Separator(FlowSequence(false), first));
            || EndRead(tokens, h, FlowSequence(false), false, c.states, marks, ds, s)
            || (!first && EndRead(tokens, h, FlowSequence(false), true, c.states, marks, ds, s))
            || (&& Reads(tokens, h, sep)
                && (|| ChildRead(tokens, h + |sep|, FlowItem, FlowSequenceEntryState(false), c.states, marks + 1, ds, s)
                    || (&& Reads(tokens, h + |sep|, [KeyToken])
                        && s.machine == PairAt(FlowSequenceEntryMappingKeyState, c, marks, h + |sep| + 1, ds))))
  {
    hide StepOf, FlowItemStep, ChildRead, Reads;
    FlowEnds();
    ItemsStep(tokens, c, h, marks, ds, first);
    ReadsToken(tokens, h, tokens[h]);
    ReadsNothing(tokens, h);
    if tokens[h] != FlowSequenceEndToken {
      var q := if first then h else h + 1;
      BehindCommaBack(tokens, c, q, marks, ds);
      ReadsToken(tokens, q, tokens[q]);
      if !first { ReadsJoin(tokens, h, [tokens[h]], [tokens[q]]); }
    }
  }

  lemma BlockKeyBack(tokens: seq<Token>, c: Config, h: nat, marks: nat, ds: seq<TagDirective>, first: bool)
    requires InCollection(c, BlockMapping, first, h, marks) && StepOf(tokens, Machine(c, ds)).Next?
    ensures var s := StepOf(tokens, Machine(c, ds));
            || EndRead(tokens, h, BlockMapping, false, c.states, marks, ds, s)
            || (&& Reads(tokens, h, [KeyToken])
                && ChildRead(tokens, h + 1, BlockEntry, ValueState(BlockMapping, Full), c.states, marks + 1, ds, s))
  {
    hide NodeAt;
    if h < |tokens| { ReadsToken(tokens, h, tokens[h]); }
  }

  lemma BehindKeyCommaBack(tokens: seq<Token>, c: Config, q: nat, marks: nat, ds: seq<TagDirective>)
    requires c.states != [] && FlowKeyStep(tokens, c, marks + 1, q, ds).Next?
    ensures var (s, form) := (FlowKeyStep(tokens, c, marks + 1, q, ds), FlowMapping(false));
            && q < |tokens|
            && (|| (tokens[q] == FlowMappingEndToken && s.machine == Landed(c.states, marks, q + 1, ds))
                || (&& tokens[q] == KeyToken
                    && ChildRead(tokens, q + 1, FlowEntry, ValueState(form, Full), c.states, marks + 1, ds, s))
                || s == ReadAt(tokens, q, FlowEntry, c.states + [ValueState(form, Loose)], marks + 1, ds))
  {
    hide NodeAt;
  }

  lemma FlowKeyBack(tokens: seq<Token>, c: Config, h: nat, marks: nat, ds: seq<TagDirective>, first: bool)
    requires InCollection(c, FlowMapping(false), first, h, marks) && StepOf(tokens, Machine(c, ds)).Next?
    ensures var (s, form) := (StepOf(tokens, Machine(c, ds)), FlowMapping(false));
            var q := h + |Separator(form, first)|;
            || EndRead(tokens, h, form, false, c.states, marks, ds, s)
            || (!first && EndRead(tokens, h, form, true, c.states, marks, ds, s))
            || (&& Reads(tokens, h, Separator(form, first))
                && (|| (&& Reads(tokens, q, [KeyToken])
                        && ChildRead(tokens, q + 1, FlowEntry, ValueState(form, Full), c.states, marks + 1, ds, s))
                    || s == ReadAt(tokens, q, FlowEntry, c.states + [ValueState(form, Loose)], marks + 1, ds)))
  {
    hide StepOf, FlowKeyStep, ChildRead, ReadAt, Reads;
    FlowEnds();
    KeysStep(tokens, FlowMapping(false), c, h, marks, ds, first);
    ReadsToken(tokens, h, tokens[h]);
    ReadsNothing(tokens, h);
    if tokens[h] != FlowMappingEndToken {
      var q := if first then h else h + 1;
      BehindKeyCommaBack(tokens, c, q, marks, ds);
      ReadsToken(tokens, q, tokens[q]);
      if !first { ReadsJoin(tokens, h, [tokens[h]], [tokens[q]]); }
    }
  }

  lemma ValueBack(tokens: seq<Token>, c: Config, form: Form, loose: bool, ds: seq<TagDirective>)
    requires form.Mapping() && c.state == ValueState(form, if loose then Loose else Full) && c.states != []
    requires (loose ==> form.FlowMapping?) && StepOf(tokens, Machine(c, ds)).Next?
    ensures var (s, place) := (StepOf(tokens, Machine(c, ds)), EntryPlace(ChildPlace(form)));
            || s == ChildAt(tokens, c.head, Nothing, place, NextState(form), c.states, c.marks, ds)
            || (&& !loose && Reads(tokens, c.head, [ValueToken])
                && ChildRead(tokens, c.head + 1, place, NextState(form), c.states, c.marks, ds, s))
  {
    hide NodeAt;
    if c.head < |tokens| { ReadsToken(tokens, c.head, tokens[c.head]); }
  }

  lemma PairKeyBack(tokens: seq<Token>, c: Config, h: nat, marks: nat, ds: seq<TagDirective>)
    requires c.states != [] && StepOf(tokens, PairAt(FlowSequenceEntryMappingKeyState, c, marks, h, ds)).Next?
    ensures var s := StepOf(tokens, PairAt(FlowSequenceEntryMappingKeyState, c, marks, h, ds));
            && h < |tokens|
            && if ShowsNoKey(tokens[h]) then
                 s == Next(FILLER, PairAt(FlowSequenceEntryMappingValueState, c, marks, h + 1, ds))
               else s == ReadAt(tokens, h, FlowEntry, c.states + [FlowSequenceEntryMappingValueState], marks + 1, ds)
  {
    hide NodeAt;
  }

  lemma PairValueBack(tokens: seq<Token>, c: Config, h: nat, marks: nat, ds: seq<TagDirective>)
    requires c.states != [] && StepOf(tokens, PairAt(FlowSequenceEntryMappingValueState, c, marks, h, ds)).Next?
    ensures var (s, next) := (StepOf(tokens, PairAt(FlowSequenceEntryMappingValueState, c, marks, h, ds)),
                              FlowSequenceEntryMappingEndState);
            && h < |tokens|
            && if tokens[h].ValueToken? then
                 && Reads(tokens, h, [ValueToken])
                 && ChildRead(tokens, h + 1, FlowEntry, next, c.states, marks + 1, ds, s)
               else s == ChildAt(tokens, h, Nothing, FlowEntry, next, c.states, marks + 1, ds)
  {
    hide NodeAt;
    if h < |tokens| { ReadsToken(tokens, h, tokens[h]); }
  }

  lemma PairEndBack(tokens: seq<Token>, c: Config, h: nat, marks: nat, ds: seq<TagDirective>)
    requires c.states != [] && StepOf(tokens, PairAt(FlowSequenceEntryMappingEndState, c, marks, h, ds)).Next?
    requires !EndedAt(tokens, h)
    ensures StepOf(tokens, PairAt(FlowSequenceEntryMappingEndState, c, marks, h, ds)).machine
         == PairAt(FlowSequenceEntryState(false), c, marks, h, ds)
  {}

  // ---------------------------------------------------------------------------------------------
  // From the run back to what is written

  /** What is written at `h` has been read after `k` events, and the run goes on in state `next`. */
  predicate Landing(tokens: seq<Token>, h: nat, n: Syntax, place: Place, next: State, states: seq<State>, marks: nat,
                    ds: seq<TagDirective>, es: seq<Event>, k: nat, d: Machine) {
    var e := h + |Tokens(n)|;
    && Shaped(n, place) && Reads(tokens, h, Tokens(n)) && !EndedAt(tokens, e)
    && k <= |es| && Through(tokens, Machine(Config(next, states, marks, e, false), ds), es[k..], d)
  }

  lemma NothingLands(tokens: seq<Token>, h: nat, place: Place, next: State, states: seq<State>, marks: nat,
                     ds: seq<TagDirective>, s: Step, es: seq<Event>, d: Machine)
    requires s == ChildAt(tokens, h, Nothing, place, next, states, marks, ds) && !place.ForPairs() && !place.FlowItem?
    requires h <= |tokens| && !EndedAt(tokens, h) && Through(tokens, s.machine, es, d)
    ensures Landing(tokens, h, Nothing, place, next, states, marks, ds, es, 0, d)
  {
    hide Through;
    assert es[0..] == es;
  }

  lemma ReferenceLands(tokens: seq<Token>, h: nat, place: Place, states: seq<State>, marks: nat, ds: seq<TagDirective>,
                       es: seq<Event>, d: Machine)
    requires states != [] && !place.ForPairs() && h < |tokens| && tokens[h].AliasToken?
    requires Through(tokens, ReadAt(tokens, h, place, states, marks, ds).machine, es, d)
    ensures Landing(tokens, h, Reference(tokens[h].value), place, states[|states| - 1], states[..|states| - 1], marks,
                    ds, es, 0, d)
  {
    hide Through;
    assert es[0..] == es;
    ReadsToken(tokens, h, tokens[h]);
  }

  lemma WordLands(tokens: seq<Token>, h: nat, q: nat, props: Props, place: Place, states: seq<State>, marks: nat,
                  ds: seq<TagDirective>, es: seq<Event>, d: Machine)
    requires states != [] && !place.ForPairs() && TagShaped(props.tag) && Reads(tokens, h, PropertyTokens(props))
    requires q == h + |PropertyTokens(props)| < |tokens| && tokens[q].ScalarToken?
    requires Through(tokens, Landed(states, marks, q + 1, ds), es, d)
    ensures Landing(tokens, h, Word(props, tokens[q].value, tokens[q].style), place, states[|states| - 1],
                    states[..|states| - 1], marks, ds, es, 0, d)
  {
    hide Through, PropertyTokens, Reads;
    assert es[0..] == es;
    ReadsToken(tokens, q, tokens[q]);
    ReadsJoin(tokens, h, PropertyTokens(props), [tokens[q]]);
  }

  lemma BareLands(tokens: seq<Token>, h: nat, q: nat, props: Props, place: Place, states: seq<State>, marks: nat,
                  ds: seq<TagDirective>, es: seq<Event>, d: Machine)
    requires states != [] && !place.ForPairs() && TagShaped(props.tag) && Reads(tokens, h, PropertyTokens(props))
    requires (props.anchor != "" || props.tag.Tagged?) && q == h + |PropertyTokens(props)| && !EndedAt(tokens, q)
    requires Through(tokens, Landed(states, marks, q, ds), es, d)
    ensures Landing(tokens, h, Bare(props), place, states[|states| - 1], states[..|states| - 1], marks, ds, es, 0, d)
  {
    hide Through, PropertyTokens, Reads;
    assert es[0..] == es;
  }

  /** Children, and the end of their collection. */
  predicate ItemsLand(tokens: seq<Token>, h: nat, ns: seq<Syntax>, form: Form, first: bool, states: seq<State>,
                      marks: nat, ds: seq<TagDirective>, es: seq<Event>, k: nat, d: Machine)
    requires states != []
  {
    var ts := ItemTokens(ns, form, first) + EndingTokens(form);
    && AllShaped(ns, ChildPlace(form)) && Reads(tokens, h, ts) && !EndedAt(tokens, h + |ts|)
    && k <= |es| && Through(tokens, Landed(states, marks, h + |ts|, ds), es[k..], d)
    && (form.Comma() && first ==> ns != [])
    && (form.IndentlessSequence? && Reads(tokens, h, [BlockEntryToken]) ==> ns != [])
  }

  lemma GroupLands(tokens: seq<Token>, h: nat, q: nat, props: Props, form: Form, ns: seq<Syntax>, place: Place,
                   states: seq<State>, marks: nat, ds: seq<TagDirective>, es: seq<Event>, k: nat, d: Machine)
    requires states != [] && !place.ForPairs() && TagShaped(props.tag) && Reads(tokens, h, PropertyTokens(props))
    requires MayOpen(form, place) && q == h + |PropertyTokens(props)| < |tokens| && tokens[q] == Opener(form)
    requires ItemsLand(tokens, q + |OpeningTokens(form)|, ns, form, true, states, marks, ds, es, k, d)
    ensures Landing(tokens, h, Group(form, props, ns), place, states[|states| - 1], states[..|states| - 1], marks, ds,
                    es, k, d)
  {
    hide Through, PropertyTokens, Reads, Tokens, ItemTokens, EndingTokens, EndedAt, Shaped, OpeningTokens, Opener;
    var ps, open, body := PropertyTokens(props), OpeningTokens(form), ItemTokens(ns, form, true) + EndingTokens(form);
    OpeningRead(tokens, q, form);
    GroupIsShaped(tokens, q, props, form, ns, place);
    GroupTokens(Group(form, props, ns));
    ReadsJoin(tokens, h, ps, open);
    ReadsJoin(tokens, h, ps + open, body);
  }

  lemma OpeningRead(tokens: seq<Token>, q: nat, form: Form)
    requires q < |tokens| && tokens[q] == Opener(form)
    ensures Reads(tokens, q, OpeningTokens(form)) && (form.IndentlessSequence? ==> OpeningTokens(form) == [])
  {
    ReadsToken(tokens, q, tokens[q]);
  }

  lemma GroupIsShaped(tokens: seq<Token>, q: nat, props: Props, form: Form, ns: seq<Syntax>, place: Place)
    requires !place.ForPairs() && TagShaped(props.tag) && MayOpen(form, place) && AllShaped(ns, ChildPlace(form))
    requires q < |tokens| && tokens[q] == Opener(form) && (form.Comma() ==> ns != [])
    requires form.IndentlessSequence? && Reads(tokens, q, [BlockEntryToken]) ==> ns != []
    ensures Shaped(Group(form, props, ns), place)
  {
    ReadsToken(tokens, q, tokens[q]);
  }

  /** What one step of a collection turns out to have started. */
  datatype Found = EndFound(comma: bool) | ItemFound(n: Syntax) | OrphanFound

  /** The end of the collection, an item that is read after `k` events, or a KEY alone before the comma that ends the
      sequence, with both of them. */
  predicate FoundLands(tokens: seq<Token>, c: Config, h: nat, form: Form, first: bool, marks: nat,
                       ds: seq<TagDirective>, s: Step, es: seq<Event>, f: Found, k: nat, d: Machine)
    requires c.states != []
  {
    var sep := Separator(form, first);
    match f
    case EndFound(comma) =>
      && EndRead(tokens, h, form, comma, c.states, marks, ds, s) && k == 0 && (comma ==> !first)
      && (form.IndentlessSequence? ==> !Reads(tokens, h, [BlockEntryToken]))
    case ItemFound(n) =>
      && Reads(tokens, h, sep)
      && Landing(tokens, h + |sep|, n, ChildPlace(form), NextState(form), c.states, InnerMarks(form, marks), ds, es,
                 k, d)
    case OrphanFound =>
      && form.FlowSequence? && Reads(tokens, h, sep + [KeyToken, FlowEntryToken, FlowSequenceEndToken])
      && k <= |es| && Through(tokens, Landed(c.states, marks, h + |sep| + 3, ds), es[k..], d)
  }

  lemma {:induction false} NodeBack(tokens: seq<Token>, h: nat, place: Place, states: seq<State>, marks: nat,
                                    ds: seq<TagDirective>, es: seq<Event>, d: Machine) returns (n: Syntax, k: nat)
    requires Named(tokens) && !place.ForPairs() && states != [] && !EndedAt(tokens, h)
    requires ReadAt(tokens, h, place, states, marks, ds).Next?
    requires Through(tokens, ReadAt(tokens, h, place, states, marks, ds).machine, es, d)
    ensures Landing(tokens, h, n, place, states[|states| - 1], states[..|states| - 1], marks, ds, es, k, d)
    ensures n.Visible()
    decreases |es|, 2
  {
    hide Through, Landing, PropertiesAt, ContentAt, Named, EndedAt, Reads, PropertyTokens;
    if tokens[h].AliasToken? {
      ReferenceLands(tokens, h, place, states, marks, ds, es, d);
      return Reference(tokens[h].value), 0;
    }
    var props, p := PropsAt(tokens, h), PropertiesAt(tokens, h, ds);
    PropsRead(tokens, h, ds);
    ContentBack(tokens, p, place, states, marks, ds);
    var t := tokens[p.head];
    if t.ScalarToken? {
      WordLands(tokens, h, p.head, props, place, states, marks, ds, es, d);
      return Word(props, t.value, t.style), 0;
    } else if FormAt(t).Some? && MayOpen(FormAt(t).value, place) {
      n, k := GroupBack(tokens, h, p.head, props, FormAt(t).value, place, states, marks, ds, es, d);
    } else {
      BareLands(tokens, h, p.head, props, place, states, marks, ds, es, d);
      return Bare(props), 0;
    }
  }

  lemma {:induction false} GroupBack(tokens: seq<Token>, h: nat, q: nat, props: Props, form: Form, place: Place,
                                     states: seq<State>, marks: nat, ds: seq<TagDirective>, es: seq<Event>, d: Machine)
    returns (n: Syntax, k: nat)
    requires Named(tokens) && !place.ForPairs() && states != [] && TagShaped(props.tag)
    requires Reads(tokens, h, PropertyTokens(props)) && q == h + |PropertyTokens(props)| < |tokens|
    requires FormAt(tokens[q]) == Some(form) && MayOpen(form, place) && !EndedAt(tokens, q)
    requires Through(tokens, Machine(Config(FirstState(form), states, marks, q, false), ds), es, d)
    ensures Landing(tokens, h, n, place, states[|states| - 1], states[..|states| - 1], marks, ds, es, k, d)
    ensures n.Visible()
    decreases |es|, 1
  {
    hide Through, Landing, Named, ItemsLand, Reads, PropertyTokens, InCollection;
    var c, a := Config(FirstState(form), states, marks, q, false), q + |OpeningTokens(form)|;
    Entered(c, form, marks);
    assert !EndedAt(tokens, a);
    var ns, comma;
    ns, comma, k := ItemsBack(tokens, c, a, form, marks, ds, true, es, d);
    GroupLands(tokens, h, q, props, WithComma(form, comma), ns, place, states, marks, ds, es, k, d);
    n := Group(WithComma(form, comma), props, ns);
  }

  lemma {:induction false} ChildBack(tokens: seq<Token>, q: nat, place: Place, next: State, states: seq<State>,
                                     marks: nat, ds: seq<TagDirective>, s: Step, es: seq<Event>, d: Machine)
    returns (n: Syntax, k: nat)
    requires Named(tokens) && !place.ForPairs() && q <= |tokens| && !EndedAt(tokens, q)
    requires ChildRead(tokens, q, place, next, states, marks, ds, s) && Through(tokens, s.machine, es, d)
    ensures Landing(tokens, q, n, place, next, states, marks, ds, es, k, d)
    decreases |es|, 3
  {
    hide Through, Landing, Named, EndedAt, ReadAt;
    if s == ReadAt(tokens, q, place, states + [next], marks, ds) {
      n, k := NodeBack(tokens, q, place, states + [next], marks, ds, es, d);
      assert (states + [next])[..|states|] == states;
    } else {
      NothingLands(tokens, q, place, next, states, marks, ds, s, es, d);
      n, k := Nothing, 0;
    }
  }

  /** A state of a collection is not the end. */
  lemma CollectionGoesOn(c: Config, form: Form, first: bool, h: nat, marks: nat)
    requires InCollection(c, form, first, h, marks)
    ensures !c.state.EndState? && c.states != []
  {}

  lemma {:induction false} ItemsBack(tokens: seq<Token>, c: Config, h: nat, form: Form, marks: nat,
                                     ds: seq<TagDirective>, first: bool, es: seq<Event>, d: Machine)
    returns (ns: seq<Syntax>, comma: bool, k: nat)
    requires Named(tokens) && InCollection(c, form, first, h, marks) && !EndedAt(tokens, h) && !form.Comma()
    requires Through(tokens, Machine(c, ds), es, d)
    ensures c.states != [] && ItemsLand(tokens, h, ns, WithComma(form, comma), first, c.states, marks, ds, es, k, d)
    decreases |es|, 0
  {
    hide Through, StepOf, Named, InCollection, Landing, ItemsLand, FoundLands;
    CollectionGoesOn(c, form, first, h, marks);
    ThroughStep(tokens, Machine(c, ds), es, d);
    var s, f := StepOf(tokens, Machine(c, ds)), OrphanFound;
    f, k := FoundBack(tokens, c, h, form, marks, ds, first, es[1..], d);
    match f
    case EndFound(_) =>
      EndLands(tokens, c, h, form, first, marks, ds, s, es, f.comma, k, d);
      comma, ns, k := f.comma, [], 1;
    case OrphanFound =>
      comma, ns, k := true, [ORPHAN], 1 + k;
      OrphanLands(tokens, c, h, form, first, marks, ds, s, es, k, d);
    case ItemFound(n) =>
      var e := h + |Separator(form, first)| + |Tokens(n)|;
      var c' := Config(NextState(form), c.states, InnerMarks(form, marks), e, false);
      var more, k';
      ItemLanded(tokens, c, h, form, first, marks, ds, s, es, n, k, d);
      more, comma, k' := ItemsBack(tokens, c', e, form, marks, ds, false, es[1 + k..], d);
      ItemsJoin(tokens, c, h, form, first, marks, ds, s, es, n, k, more, comma, k', d);
      ns, k := [n] + more, 1 + k + k';
  }

  lemma EndLands(tokens: seq<Token>, c: Config, h: nat, form: Form, first: bool, marks: nat, ds: seq<TagDirective>,
                 s: Step, es: seq<Event>, comma: bool, k: nat, d: Machine)
    requires c.states != [] && es != [] && !EndedAt(tokens, h) && s.Next? && Through(tokens, s.machine, es[1..], d)
    requires FoundLands(tokens, c, h, form, first, marks, ds, s, es[1..], EndFound(comma), k, d)
    ensures ItemsLand(tokens, h, [], WithComma(form, comma), first, c.states, marks, ds, es, 1, d)
  {
    hide Through, Reads, EndedAt, EndingTokens, ItemTokens;
    var form' := WithComma(form, comma);
    NoItemsRead(form', first);
    EndInner(tokens, h, form');
    assert EndRead(tokens, h, form, comma, c.states, marks, ds, s);
  }

  lemma NoItemsRead(form: Form, first: bool)
    ensures ItemTokens([], form, first) + EndingTokens(form) == EndingTokens(form)
  {}

  lemma EndInner(tokens: seq<Token>, h: nat, form: Form)
    requires Reads(tokens, h, EndingTokens(form)) && !EndedAt(tokens, h)
    ensures !EndedAt(tokens, h + |EndingTokens(form)|)
  {
    var end := EndingTokens(form);
    if end != [] { assert tokens[h..h + |end|][|end| - 1] == tokens[h + |end| - 1]; }
  }

  lemma OrphanLands(tokens: seq<Token>, c: Config, h: nat, form: Form, first: bool, marks: nat, ds: seq<TagDirective>,
                    s: Step, es: seq<Event>, k: nat, d: Machine)
    requires c.states != [] && es != [] && k > 0
    requires FoundLands(tokens, c, h, form, first, marks, ds, s, es[1..], OrphanFound, k - 1, d)
    ensures ItemsLand(tokens, h, [ORPHAN], WithComma(form, true), first, c.states, marks, ds, es, k, d)
  {
    hide Through, Tokens, ItemTokens;
    var sep, last := Separator(form, first), [KeyToken, FlowEntryToken, FlowSequenceEndToken];
    var ts := ItemTokens([ORPHAN], FlowSequence(true), first) + EndingTokens(FlowSequence(true));
    OrphanWritten(form, first);
    assert ts == sep + last && |ts| == |sep| + 3;
    LastOf(tokens, h, sep, last);
    assert AllShaped([ORPHAN], FlowItem);
    assert es[1..][k - 1..] == es[k..];
  }

  lemma OrphanWritten(form: Form, first: bool)
    requires form.FlowSequence?
    ensures ItemTokens([ORPHAN], FlowSequence(true), first) + EndingTokens(FlowSequence(true))
         == Separator(form, first) + [KeyToken, FlowEntryToken, FlowSequenceEndToken]
  {
    OrphanTokens(FlowSequence(true), first);
    hide Tokens, ItemTokens;
  }

  lemma LastOf(tokens: seq<Token>, h: nat, a: seq<Token>, b: seq<Token>)
    requires Reads(tokens, h, a + b) && b != [] && !b[|b| - 1].StreamEndToken?
    ensures !EndedAt(tokens, h + |a + b|)
  {
    var k := |a + b| - 1;
    assert tokens[h..h + k + 1][k] == tokens[h + k] && (a + b)[k] == b[|b| - 1];
  }

  lemma ItemLanded(tokens: seq<Token>, c: Config, h: nat, form: Form, first: bool, marks: nat, ds: seq<TagDirective>,
                   s: Step, es: seq<Event>, n: Syntax, k: nat, d: Machine)
    requires c.states != [] && es != []
    requires FoundLands(tokens, c, h, form, first, marks, ds, s, es[1..], ItemFound(n), k, d)
    ensures var e := h + |Separator(form, first)| + |Tokens(n)|;
            var c' := Config(NextState(form), c.states, InnerMarks(form, marks), e, false);
            && InCollection(c', form, false, e, marks) && !EndedAt(tokens, e)
            && 1 + k <= |es| && Through(tokens, Machine(c', ds), es[1 + k..], d)
            && Reads(tokens, h, Separator(form, first)) && Shaped(n, ChildPlace(form))
            && Reads(tokens, h + |Separator(form, first)|, Tokens(n))
  {
    hide Through, Tokens, Reads, EndedAt, Shaped;
    assert es[1..][k..] == es[1 + k..];
  }

  lemma ItemsJoin(tokens: seq<Token>, c: Config, h: nat, form: Form, first: bool, marks: nat, ds: seq<TagDirective>,
                  s: Step, es: seq<Event>, n: Syntax, k: nat, ns: seq<Syntax>, comma: bool, k': nat, d: Machine)
    requires c.states != [] && es != []
    requires FoundLands(tokens, c, h, form, first, marks, ds, s, es[1..], ItemFound(n), k, d) && 1 + k <= |es|
    requires var e := h + |Separator(form, first)| + |Tokens(n)|;
             ItemsLand(tokens, e, ns, WithComma(form, comma), false, c.states, marks, ds, es[1 + k..], k', d)
    ensures ItemsLand(tokens, h, [n] + ns, WithComma(form, comma), first, c.states, marks, ds, es, 1 + k + k', d)
  {
    hide FoundLands, Through, Tokens, ItemTokens, Reads, EndedAt, Shaped, EndingTokens, Separator, Landed;
    ItemLanded(tokens, c, h, form, first, marks, ds, s, es, n, k, d);
    var form' := WithComma(form, comma);
    SameForm(form, comma, first);
    ItemsRead(tokens, h, n, ns, form', first);
    assert es[1 + k..][k'..] == es[1 + k + k'..];
  }

  lemma SameForm(form: Form, comma: bool, first: bool)
    ensures var form' := WithComma(form, comma);
            Separator(form', first) == Separator(form, first) && ChildPlace(form') == ChildPlace(form)
  {}

  lemma ItemsRead(tokens: seq<Token>, h: nat, n: Syntax, ns: seq<Syntax>, form: Form, first: bool)
    requires var e := h + |Separator(form, first)| + |Tokens(n)|;
             && Reads(tokens, h, Separator(form, first)) && Reads(tokens, h + |Separator(form, first)|, Tokens(n))
             && Reads(tokens, e, ItemTokens(ns, form, false) + EndingTokens(form))
    ensures Reads(tokens, h, ItemTokens([n] + ns, form, first) + EndingTokens(form))
    ensures |ItemTokens([n] + ns, form, first)|
         == |Separator(form, first)| + |Tokens(n)| + |ItemTokens(ns, form, false)|
  {
    hide Tokens, ItemTokens, Reads, EndingTokens, Separator;
    ItemsCons([n] + ns, form, first);
    assert ([n] + ns)[1..] == ns && ([n] + ns)[0] == n;
    ReadsThree(tokens, h, Separator(form, first), Tokens(n), ItemTokens(ns, form, false), EndingTokens(form));
  }

  lemma ReadsThree(tokens: seq<Token>, h: nat, a: seq<Token>, b: seq<Token>, c: seq<Token>, d: seq<Token>)
    requires Reads(tokens, h, a) && Reads(tokens, h + |a|, b) && Reads(tokens, h + |a| + |b|, c + d)
    ensures Reads(tokens, h, a + (b + c) + d)
  {
    hide Reads;
    ReadsJoin(tokens, h, a, b);
    ReadsJoin(tokens, h, a + b, c + d);
    assert a + b + (c + d) == a + (b + c) + d;
  }

  lemma {:induction false} FoundBack(tokens: seq<Token>, c: Config, h: nat, form: Form, marks: nat,
                                     ds: seq<TagDirective>, first: bool, es: seq<Event>, d: Machine)
    returns (f: Found, k: nat)
    requires Named(tokens) && InCollection(c, form, first, h, marks) && !EndedAt(tokens, h) && !form.Comma()
    requires StepOf(tokens, Machine(c, ds)).Next? && Through(tokens, StepOf(tokens, Machine(c, ds)).machine, es, d)
    ensures c.states != []
    ensures FoundLands(tokens, c, h, form, first, marks, ds, StepOf(tokens, Machine(c, ds)), es, f, k, d)
    decreases |es|, 6
  {
    hide Through, StepOf, Named, InCollection, Landing, FoundLands, ChildRead, EndRead, Reads;
    CollectionGoesOn(c, form, first, h, marks);
    match form
    case BlockSequence => f, k := BlockItemFound(tokens, c, h, marks, ds, first, es, d);
    case IndentlessSequence => f, k := IndentlessItemFound(tokens, c, h, marks, ds, first, es, d);
    case BlockMapping => f, k := BlockKeyFound(tokens, c, h, marks, ds, first, es, d);
    case FlowSequence(_) => f, k := FlowItemFound(tokens, c, h, marks, ds, first, es, d);
    case FlowMapping(_) => f, k := FlowKeyFound(tokens, c, h, marks, ds, first, es, d);
  }

  lemma {:induction false} BlockItemFound(tokens: seq<Token>, c: Config, h: nat, marks: nat, ds: seq<TagDirective>,
                                          first: bool, es: seq<Event>, d: Machine) returns (f: Found, k: nat)
    requires Named(tokens) && InCollection(c, BlockSequence, first, h, marks)
    requires StepOf(tokens, Machine(c, ds)).Next? && Through(tokens, StepOf(tokens, Machine(c, ds)).machine, es, d)
    ensures c.states != []
    ensures FoundLands(tokens, c, h, BlockSequence, first, marks, ds, StepOf(tokens, Machine(c, ds)), es, f, k, d)
    decreases |es|, 5
  {
    hide Through, StepOf, Named, InCollection, Landing, ChildRead, EndRead, Reads;
    CollectionGoesOn(c, BlockSequence, first, h, marks);
    BlockItemBack(tokens, c, h, marks, ds, first);
    var s := StepOf(tokens, Machine(c, ds));
    if EndRead(tokens, h, BlockSequence, false, c.states, marks, ds, s) { return EndFound(false), 0; }
    ReadsOne(tokens, h, BlockEntryToken);
    var n;
    n, k := ChildBack(tokens, h + 1, BlockItem, NextState(BlockSequence), c.states, marks + 1, ds, s, es, d);
    f := ItemFound(n);
  }

  lemma {:induction false} IndentlessItemFound(tokens: seq<Token>, c: Config, h: nat, marks: nat,
                                               ds: seq<TagDirective>, first: bool, es: seq<Event>, d: Machine)
    returns (f: Found, k: nat)
    requires Named(tokens) && InCollection(c, IndentlessSequence, first, h, marks) && !EndedAt(tokens, h)
    requires StepOf(tokens, Machine(c, ds)).Next? && Through(tokens, StepOf(tokens, Machine(c, ds)).machine, es, d)
    ensures c.states != []
    ensures FoundLands(tokens, c, h, IndentlessSequence, first, marks, ds, StepOf(tokens, Machine(c, ds)), es, f, k, d)
    decreases |es|, 5
  {
    hide Through, StepOf, Named, InCollection, Landing, ChildRead, EndRead, Reads;
    CollectionGoesOn(c, IndentlessSequence, first, h, marks);
    IndentlessItemBack(tokens, c, h, marks, ds, first);
    var s := StepOf(tokens, Machine(c, ds));
    if EndRead(tokens, h, IndentlessSequence, false, c.states, marks, ds, s) && !Reads(tokens, h, [BlockEntryToken]) {
      return EndFound(false), 0;
    }
    ReadsOne(tokens, h, BlockEntryToken);
    var n;
    n, k := ChildBack(tokens, h + 1, BlockItem, NextState(IndentlessSequence), c.states, marks, ds, s, es, d);
    f := ItemFound(n);
  }

  lemma {:induction false} BlockKeyFound(tokens: seq<Token>, c: Config, h: nat, marks: nat, ds: seq<TagDirective>,
                                         first: bool, es: seq<Event>, d: Machine) returns (f: Found, k: nat)
    requires Named(tokens) && InCollection(c, BlockMapping, first, h, marks) && !EndedAt(tokens, h)
    requires StepOf(tokens, Machine(c, ds)).Next? && Through(tokens, StepOf(tokens, Machine(c, ds)).machine, es, d)
    ensures c.states != []
    ensures FoundLands(tokens, c, h, BlockMapping, first, marks, ds, StepOf(tokens, Machine(c, ds)), es, f, k, d)
    decreases |es|, 5
  {
    hide Through, StepOf, Named, InCollection, Landing, ChildRead, EndRead, Reads;
    CollectionGoesOn(c, BlockMapping, first, h, marks);
    BlockKeyBack(tokens, c, h, marks, ds, first);
    var s := StepOf(tokens, Machine(c, ds));
    if EndRead(tokens, h, BlockMapping, false, c.states, marks, ds, s) { return EndFound(false), 0; }
    ReadsOne(tokens, h, KeyToken);
    ReadsNothing(tokens, h);
    var n;
    n, k := PairBack(tokens, h, BlockMapping, false, c.states, marks + 1, ds, s, es, d);
    f := ItemFound(n);
  }

  lemma {:induction false} FlowKeyFound(tokens: seq<Token>, c: Config, h: nat, marks: nat, ds: seq<TagDirective>,
                                        first: bool, es: seq<Event>, d: Machine) returns (f: Found, k: nat)
    requires Named(tokens) && InCollection(c, FlowMapping(false), first, h, marks) && !EndedAt(tokens, h)
    requires StepOf(tokens, Machine(c, ds)).Next? && Through(tokens, StepOf(tokens, Machine(c, ds)).machine, es, d)
    ensures c.states != []
    ensures FoundLands(tokens, c, h, FlowMapping(false), first, marks, ds, StepOf(tokens, Machine(c, ds)), es, f, k, d)
    decreases |es|, 5
  {
    hide Through, StepOf, Named, InCollection, Landing, ChildRead, EndRead, Reads, ReadAt;
    var form := FlowMapping(false);
    CollectionGoesOn(c, form, first, h, marks);
    FlowKeyBack(tokens, c, h, marks, ds, first);
    var s, q := StepOf(tokens, Machine(c, ds)), h + |Separator(form, first)|;
    if EndRead(tokens, h, form, false, c.states, marks, ds, s) { return EndFound(false), 0; }
    if !first && EndRead(tokens, h, form, true, c.states, marks, ds, s) { return EndFound(true), 0; }
    SeparatorInner(tokens, h, form, first);
    var n;
    if Reads(tokens, q, [KeyToken])
       && ChildRead(tokens, q + 1, FlowEntry, ValueState(form, Full), c.states, marks + 1, ds, s) {
      n, k := PairBack(tokens, q, form, false, c.states, marks + 1, ds, s, es, d);
    } else {
      n, k := PairBack(tokens, q, form, true, c.states, marks + 1, ds, s, es, d);
    }
    f := ItemFound(n);
  }

  lemma SeparatorInner(tokens: seq<Token>, h: nat, form: Form, first: bool)
    requires form.Flow() && Reads(tokens, h, Separator(form, first)) && !EndedAt(tokens, h)
    ensures !EndedAt(tokens, h + |Separator(form, first)|)
  {
    if !first { ReadsOne(tokens, h, FlowEntryToken); }
  }

  /** A pair of a mapping. */
  lemma {:induction false} PairBack(tokens: seq<Token>, q: nat, form: Form, loose: bool, states: seq<State>, marks: nat,
                                    ds: seq<TagDirective>, s: Step, es: seq<Event>, d: Machine)
    returns (n: Syntax, k: nat)
    requires Named(tokens) && form.Mapping() && states != [] && !EndedAt(tokens, q) && s.Next?
    requires if loose then
               form.FlowMapping? && s == ReadAt(tokens, q, FlowEntry, states + [ValueState(form, Loose)], marks, ds)
             else
               && Reads(tokens, q, [KeyToken])
               && ChildRead(tokens, q + 1, EntryPlace(ChildPlace(form)), ValueState(form, Full), states, marks, ds, s)
    requires Through(tokens, s.machine, es, d)
    ensures Landing(tokens, q, n, ChildPlace(form), NextState(form), states, marks, ds, es, k, d)
    decreases |es|, 4
  {
    hide Through, StepOf, Named, Landing, ChildRead, Reads, ReadAt, EndedAt;
    var place, written := EntryPlace(ChildPlace(form)), if loose then Loose else Full;
    var a, next := q + |KeyIndicator(written)|, ValueState(form, written);
    var key;
    if loose {
      ReadHere(tokens, q, FlowEntry, states + [next], marks, ds);
      ReadsNothing(tokens, q);
      key, k := NodeBack(tokens, q, FlowEntry, states + [next], marks, ds, es, d);
      assert (states + [next])[..|states|] == states;
    } else {
      ReadsOne(tokens, q, KeyToken);
      assert !EndedAt(tokens, q + 1) by { KeyInner(tokens, q); }
      key, k := ChildBack(tokens, q + 1, place, next, states, marks, ds, s, es, d);
    }
    n, k := PairRest(tokens, q, form, loose, states, marks, ds, key, es, k, d);
  }

  lemma ReadHere(tokens: seq<Token>, h: nat, place: Place, states: seq<State>, marks: nat, ds: seq<TagDirective>)
    requires states != [] && ReadAt(tokens, h, place, states, marks, ds).Next?
    ensures h < |tokens|
  {}

  lemma KeyInner(tokens: seq<Token>, q: nat)
    requires q < |tokens| && !tokens[q].StreamEndToken?
    ensures !EndedAt(tokens, q + 1)
  {}

  /** Behind the key. */
  lemma {:induction false} PairRest(tokens: seq<Token>, q: nat, form: Form, loose: bool, states: seq<State>, marks: nat,
                                    ds: seq<TagDirective>, key: Syntax, es: seq<Event>, k0: nat, d: Machine)
    returns (n: Syntax, k: nat)
    requires Named(tokens) && form.Mapping() && states != [] && (loose ==> form.FlowMapping? && !key.Nothing?)
    requires var written := if loose then Loose else Full;
             && Reads(tokens, q, KeyIndicator(written))
             && Landing(tokens, q + |KeyIndicator(written)|, key, EntryPlace(ChildPlace(form)),
                        ValueState(form, written), states, marks, ds, es, k0, d)
    ensures Landing(tokens, q, n, ChildPlace(form), NextState(form), states, marks, ds, es, k, d)
    decreases |es|, 3
  {
    hide Through, StepOf, Named, ChildRead, Reads, ReadAt, EndedAt, Tokens, Shaped;
    var place, written := EntryPlace(ChildPlace(form)), if loose then Loose else Full;
    var e := q + |KeyIndicator(written)| + |Tokens(key)|;
    var c, rest := Config(ValueState(form, written), states, marks, e, false), es[k0..];
    ThroughStep(tokens, Machine(c, ds), rest, d);
    ValueBack(tokens, c, form, loose, ds);
    var s := StepOf(tokens, Machine(c, ds));
    ReadsInside(tokens, q + |KeyIndicator(written)|, Tokens(key));
    hide Landing;
    if s == ChildAt(tokens, e, Nothing, place, NextState(form), states, marks, ds) {
      NothingLands(tokens, e, place, NextState(form), states, marks, ds, s, rest[1..], d);
      n, k := Pair(key, Nothing, if loose then Loose else KeyOnly), k0 + 1;
      ReadsNothing(tokens, e);
      PairLands(tokens, q, n, ChildPlace(form), c.state, NextState(form), states, marks, ds, es, k0, 0, d);
    } else {
      ReadsOne(tokens, e, ValueToken);
      assert !EndedAt(tokens, e + 1) by { KeyInner(tokens, e); }
      var value;
      value, k := ChildBack(tokens, e + 1, place, NextState(form), states, marks, ds, s, rest[1..], d);
      n := Pair(key, value, Full);
      PairLands(tokens, q, n, ChildPlace(form), c.state, NextState(form), states, marks, ds, es, k0, k, d);
      k := k0 + 1 + k;
    }
  }

  /** A pair lands where its value does. */
  lemma PairLands(tokens: seq<Token>, q: nat, n: Syntax, place: Place, after: State, next: State, states: seq<State>,
                  marks: nat, ds: seq<TagDirective>, es: seq<Event>, k0: nat, k1: nat, d: Machine)
    requires n.Pair? && (place.FlowItem? || place.ForPairs())
    requires (n.written.Full? || n.value.Nothing?) && (n.written.Loose? ==> place.FlowPair? && !n.key.Nothing?)
    requires Reads(tokens, q, KeyIndicator(n.written)) && k0 < |es|
    requires Landing(tokens, KeyAt(q, n), n.key, EntryPlace(place), after, states, marks, ds, es, k0, d)
    requires Reads(tokens, KeyEnd(q, n), ValueIndicator(n.written))
    requires Landing(tokens, ValueAt(q, n), n.value, EntryPlace(place), next, states, marks, ds, es[k0..][1..], k1, d)
    ensures Landing(tokens, q, n, place, next, states, marks, ds, es, k0 + 1 + k1, d)
  {
    hide Through, Reads, EndedAt, KeyIndicator, ValueIndicator;
    assert Shaped(n, place);
    PairTokens(n);
    hide Tokens, Shaped;
    var i, key, v, value := KeyIndicator(n.written), Tokens(n.key), ValueIndicator(n.written), Tokens(n.value);
    ReadsJoin(tokens, ValueAt(q, n) - |v|, v, value);
    ReadsJoin(tokens, KeyAt(q, n), key, v + value);
    ReadsJoin(tokens, q, i, key + (v + value));
    assert es[k0..][1..][k1..] == es[k0 + 1 + k1..];
  }

  lemma {:induction false} FlowItemFound(tokens: seq<Token>, c: Config, h: nat, marks: nat, ds: seq<TagDirective>,
                                         first: bool, es: seq<Event>, d: Machine) returns (f: Found, k: nat)
    requires Named(tokens) && InCollection(c, FlowSequence(false), first, h, marks) && !EndedAt(tokens, h)
    requires StepOf(tokens, Machine(c, ds)).Next? && Through(tokens, StepOf(tokens, Machine(c, ds)).machine, es, d)
    ensures c.states != []
    ensures FoundLands(tokens, c, h, FlowSequence(false), first, marks, ds, StepOf(tokens, Machine(c, ds)), es, f, k, d)
    decreases |es|, 5
  {
    hide Through, StepOf, Named, InCollection, Landing, ChildRead, EndRead, Reads, EndedAt;
    var form := FlowSequence(false);
    CollectionGoesOn(c, form, first, h, marks);
    FlowItemBack(tokens, c, h, marks, ds, first);
    var s, q := StepOf(tokens, Machine(c, ds)), h + |Separator(form, first)|;
    if EndRead(tokens, h, form, false, c.states, marks, ds, s) { return EndFound(false), 0; }
    if !first && EndRead(tokens, h, form, true, c.states, marks, ds, s) { return EndFound(true), 0; }
    SeparatorInner(tokens, h, form, first);
    ReadsInside(tokens, h, Separator(form, first));
    if ChildRead(tokens, q, FlowItem, FlowSequenceEntryState(false), c.states, marks + 1, ds, s) {
      var n;
      n, k := ChildBack(tokens, q, FlowItem, FlowSequenceEntryState(false), c.states, marks + 1, ds, s, es, d);
      f := ItemFound(n);
    } else {
      f, k := SingleBack(tokens, c, h, marks, ds, first, s, es, d);
    }
  }

  lemma ReadsInside(tokens: seq<Token>, h: nat, ts: seq<Token>)
    requires Reads(tokens, h, ts)
    ensures h + |ts| <= |tokens|
  {}

  /** A single pair without a value, from behind its key. */
  lemma EmptyRest(tokens: seq<Token>, c: Config, g: nat, marks: nat, ds: seq<TagDirective>, es: seq<Event>, d: Machine)
    requires c.states != [] && (g < |tokens| ==> !tokens[g].ValueToken?) && !EndedAt(tokens, g)
    requires Through(tokens, PairAt(FlowSequenceEntryMappingValueState, c, marks, g, ds), es, d)
    ensures |es| >= 2 && g < |tokens|
    ensures Through(tokens, PairAt(FlowSequenceEntryState(false), c, marks, g, ds), es[2..], d)
  {
    hide Through, StepOf;
    ThroughStep(tokens, PairAt(FlowSequenceEntryMappingValueState, c, marks, g, ds), es, d);
    PairValueBack(tokens, c, g, marks, ds);
    ThroughStep(tokens, PairAt(FlowSequenceEntryMappingEndState, c, marks, g, ds), es[1..], d);
    PairEndBack(tokens, c, g, marks, ds);
    assert es[1..][1..] == es[2..];
  }

  /** A single pair, with the step that its KEY was. */
  lemma {:induction false} SingleBack(tokens: seq<Token>, c: Config, h: nat, marks: nat, ds: seq<TagDirective>,
                                      first: bool, s: Step, es: seq<Event>, d: Machine) returns (f: Found, k: nat)
    requires Named(tokens) && c.states != [] && Reads(tokens, h, Separator(FlowSequence(false), first))
    requires var q := h + |Separator(FlowSequence(false), first)|;
             && Reads(tokens, q, [KeyToken])
             && Through(tokens, PairAt(FlowSequenceEntryMappingKeyState, c, marks, q + 1, ds), es, d)
    ensures FoundLands(tokens, c, h, FlowSequence(false), first, marks, ds, s, es, f, k, d)
    decreases |es|, 4
  {
    hide Through, StepOf, Named, Landing, Reads, EndedAt, ReadAt;
    var q := h + |Separator(FlowSequence(false), first)|;
    var m := PairAt(FlowSequenceEntryMappingKeyState, c, marks, q + 1, ds);
    ThroughStep(tokens, m, es, d);
    PairKeyBack(tokens, c, q + 1, marks, ds);
    var t := tokens[q + 1];
    if t.ValueToken? {
      EmptyPair(tokens, c, q, marks, ds, es, d);
      f, k := ItemFound(Pair(Nothing, Nothing, Full)), 3;
    } else if t.FlowEntryToken? {
      OrphanBack(tokens, c, q, marks, ds, es, d);
      ReadsJoin(tokens, h, Separator(FlowSequence(false), first), [KeyToken, FlowEntryToken, FlowSequenceEndToken]);
      f, k := OrphanFound, 4;
    } else {
      var n;
      n, k := KeyedBack(tokens, c, q, marks, ds, es, d);
      f := ItemFound(n);
    }
  }

  lemma EmptyPair(tokens: seq<Token>, c: Config, q: nat, marks: nat, ds: seq<TagDirective>, es: seq<Event>, d: Machine)
    requires c.states != [] && Reads(tokens, q, [KeyToken]) && q + 1 < |tokens| && tokens[q + 1].ValueToken?
    requires Through(tokens, PairAt(FlowSequenceEntryMappingKeyState, c, marks, q + 1, ds), es, d)
    ensures Landing(tokens, q, Pair(Nothing, Nothing, Full), FlowItem, FlowSequenceEntryState(false), c.states,
                    marks + 1, ds, es, 3, d)
  {
    hide Through, StepOf, Reads;
    ThroughStep(tokens, PairAt(FlowSequenceEntryMappingKeyState, c, marks, q + 1, ds), es, d);
    PairKeyBack(tokens, c, q + 1, marks, ds);
    EmptyRest(tokens, c, q + 2, marks, ds, es[1..], d);
    assert es[1..][2..] == es[3..];
    ReadsToken(tokens, q + 1, ValueToken);
    ReadsJoin(tokens, q, [KeyToken], [ValueToken]);
    var n := Pair(Nothing, Nothing, Full);
    PairTokens(n);
    assert Tokens(n) == [KeyToken] + [ValueToken];
  }

  lemma OrphanBack(tokens: seq<Token>, c: Config, q: nat, marks: nat, ds: seq<TagDirective>, es: seq<Event>, d: Machine)
    requires c.states != [] && Reads(tokens, q, [KeyToken]) && q + 1 < |tokens| && tokens[q + 1].FlowEntryToken?
    requires Through(tokens, PairAt(FlowSequenceEntryMappingKeyState, c, marks, q + 1, ds), es, d)
    ensures Reads(tokens, q, [KeyToken, FlowEntryToken, FlowSequenceEndToken])
    ensures |es| >= 4 && Through(tokens, Landed(c.states, marks, q + 3, ds), es[4..], d)
  {
    hide Through, StepOf, Reads;
    ThroughStep(tokens, PairAt(FlowSequenceEntryMappingKeyState, c, marks, q + 1, ds), es, d);
    PairKeyBack(tokens, c, q + 1, marks, ds);
    EmptyRest(tokens, c, q + 2, marks, ds, es[1..], d);
    assert es[1..][2..] == es[3..];
    ThroughStep(tokens, PairAt(FlowSequenceEntryState(false), c, marks, q + 2, ds), es[3..], d);
    SequenceEndsHere(tokens, c, q + 2, marks, ds);
    assert es[3..][1..] == es[4..];
    ReadsToken(tokens, q + 1, FlowEntryToken);
    ReadsToken(tokens, q + 2, FlowSequenceEndToken);
    ReadsJoin(tokens, q, [KeyToken], [FlowEntryToken]);
    ReadsJoin(tokens, q, [KeyToken] + [FlowEntryToken], [FlowSequenceEndToken]);
    assert [KeyToken] + [FlowEntryToken] + [FlowSequenceEndToken] == [KeyToken, FlowEntryToken, FlowSequenceEndToken];
  }

  /** A single pair with a key. */
  lemma {:induction false} KeyedBack(tokens: seq<Token>, c: Config, q: nat, marks: nat, ds: seq<TagDirective>,
                                     es: seq<Event>, d: Machine) returns (n: Syntax, k: nat)
    requires Named(tokens) && c.states != [] && Reads(tokens, q, [KeyToken])
    requires q + 1 < |tokens| && !tokens[q + 1].ValueToken? && !tokens[q + 1].FlowEntryToken?
    requires Through(tokens, PairAt(FlowSequenceEntryMappingKeyState, c, marks, q + 1, ds), es, d)
    ensures Landing(tokens, q, n, FlowItem, FlowSequenceEntryState(false), c.states, marks + 1, ds, es, k, d)
    decreases |es|, 3
  {
    hide Through, StepOf, Named, Landing, Reads, EndedAt, ReadAt, ChildRead;
    var next, states := FlowSequenceEntryMappingValueState, c.states + [FlowSequenceEntryMappingValueState];
    ThroughStep(tokens, PairAt(FlowSequenceEntryMappingKeyState, c, marks, q + 1, ds), es, d);
    PairKeyBack(tokens, c, q + 1, marks, ds);
    ReadsOne(tokens, q, KeyToken);
    KeyInner(tokens, q);
    var key, k0 := NodeBack(tokens, q + 1, FlowEntry, states, marks + 1, ds, es[1..], d);
    assert states[..|c.states|] == c.states;
    n, k := SingleRest(tokens, c, q, marks, ds, key, es[1..], k0, d);
    LandsLater(tokens, q, n, FlowItem, FlowSequenceEntryState(false), c.states, marks + 1, ds, es, k, d);
    k := 1 + k;
  }

  lemma LandsLater(tokens: seq<Token>, h: nat, n: Syntax, place: Place, next: State, states: seq<State>, marks: nat,
                   ds: seq<TagDirective>, es: seq<Event>, k: nat, d: Machine)
    requires es != [] && Landing(tokens, h, n, place, next, states, marks, ds, es[1..], k, d)
    ensures Landing(tokens, h, n, place, next, states, marks, ds, es, 1 + k, d)
  {
    hide Through, Tokens, Shaped, Reads, EndedAt;
    assert es[1..][k..] == es[1 + k..];
  }

  lemma {:induction false} SingleRest(tokens: seq<Token>, c: Config, q: nat, marks: nat, ds: seq<TagDirective>,
                                      key: Syntax, es: seq<Event>, k0: nat, d: Machine) returns (n: Syntax, k: nat)
    requires Named(tokens) && c.states != [] && Reads(tokens, q, [KeyToken])
    requires Landing(tokens, q + 1, key, FlowEntry, FlowSequenceEntryMappingValueState, c.states, marks + 1, ds, es,
                     k0, d)
    ensures Landing(tokens, q, n, FlowItem, FlowSequenceEntryState(false), c.states, marks + 1, ds, es, k, d)
    decreases |es|, 2
  {
    hide Through, StepOf, Named, Reads, EndedAt, ReadAt, ChildRead, Tokens, Shaped;
    var after, next := FlowSequenceEntryMappingValueState, FlowSequenceEntryMappingEndState;
    var e, rest := q + 1 + |Tokens(key)|, es[k0..];
    ThroughStep(tokens, PairAt(after, c, marks, e, ds), rest, d);
    PairValueBack(tokens, c, e, marks, ds);
    var s := StepOf(tokens, PairAt(after, c, marks, e, ds));
    hide Landing;
    if tokens[e].ValueToken? {
      assert !EndedAt(tokens, e + 1) by { KeyInner(tokens, e); }
      var value;
      value, k := ChildBack(tokens, e + 1, FlowEntry, next, c.states, marks + 1, ds, s, rest[1..], d);
      n := Pair(key, value, Full);
    } else {
      NothingLands(tokens, e, FlowEntry, next, c.states, marks + 1, ds, s, rest[1..], d);
      ReadsNothing(tokens, e);
      n, k := Pair(key, Nothing, KeyOnly), 0;
    }
    PairLands(tokens, q, n, FlowItem, after, next, c.states, marks + 1, ds, es, k0, k, d);
    PairCloses(tokens, c, q, marks, ds, n, es, k0 + 1 + k, d);
    k := k0 + 2 + k;
  }

  lemma PairCloses(tokens: seq<Token>, c: Config, q: nat, marks: nat, ds: seq<TagDirective>, n: Syntax, es: seq<Event>,
                   k: nat, d: Machine)
    requires c.states != []
    requires Landing(tokens, q, n, FlowItem, FlowSequenceEntryMappingEndState, c.states, marks + 1, ds, es, k, d)
    ensures Landing(tokens, q, n, FlowItem, FlowSequenceEntryState(false), c.states, marks + 1, ds, es, k + 1, d)
  {
    hide Through, StepOf, Reads, Tokens, Shaped;
    var e := q + |Tokens(n)|;
    ThroughStep(tokens, PairAt(FlowSequenceEntryMappingEndState, c, marks, e, ds), es[k..], d);
    PairEndBack(tokens, c, e, marks, ds);
    assert es[k..][1..] == es[k + 1..];
  }

  // ---------------------------------------------------------------------------------------------
  // Documents

  /** Directives as they have been read: those behind the version, if there is one, are the late ones. */
  lemma {:induction false} DirectivesRead(tokens: seq<Token>, h: nat, version: Option<Version>,
                                          tags: seq<TagDirective>, known: seq<TagDirective>)
    returns (early: seq<TagDirective>, v: Option<Version>, late: seq<TagDirective>)
    requires DirectivesAt(tokens, h, version, tags, known).Directives? && !EndedAt(tokens, h)
    ensures var ts := DirectiveTokens(early) + (VersionTokens(v) + DirectiveTokens(late));
            && Reads(tokens, h, ts) && DirectivesAt(tokens, h, version, tags, known).head == h + |ts| < |tokens|
            && !EndedAt(tokens, h + |ts|)
    ensures (v.None? ==> late == []) && (version.Some? ==> v.None?)
    decreases |tokens| - h
  {
    hide DirectivesAt, DirectiveTokens, VersionTokens, Reads, EndedAt;
    DirectivesNext(tokens, h, version, tags, known);
    var t := tokens[h];
    ReadsToken(tokens, h, t);
    if t.VersionDirectiveToken? {
      v := Some(Version(t.major, t.minor));
      var none;
      late, none, early := DirectivesRead(tokens, h + 1, v, tags, known);
      VersionFirst(tokens, h, t, late);
      early := [];
    } else if t.TagDirectiveToken? {
      var d := TagDirective(t.handle, t.prefix);
      early, v, late := DirectivesRead(tokens, h + 1, version, tags + [d], known + [d]);
      TagFirst(tokens, h, d, early, VersionTokens(v) + DirectiveTokens(late));
      early := [d] + early;
    } else {
      early, v, late := [], None, [];
      NoTokens();
      ReadsNothing(tokens, h);
    }
  }

  lemma NoTokens()
    ensures DirectiveTokens([]) + (VersionTokens(None) + DirectiveTokens([])) == []
  {}

  lemma DirectivesNext(tokens: seq<Token>, h: nat, version: Option<Version>, tags: seq<TagDirective>,
                       known: seq<TagDirective>)
    requires DirectivesAt(tokens, h, version, tags, known).Directives?
    ensures h < |tokens|
    ensures var (t, g) := (tokens[h], DirectivesAt(tokens, h, version, tags, known));
            if t.VersionDirectiveToken? then
              && version.None? && !EndedAt(tokens, h + 1)
              && g == DirectivesAt(tokens, h + 1, Some(Version(t.major, t.minor)), tags, known)
            else if t.TagDirectiveToken? then
              var d := TagDirective(t.handle, t.prefix);
              !EndedAt(tokens, h + 1) && g == DirectivesAt(tokens, h + 1, version, tags + [d], known + [d])
            else g.head == h
  {
    hide WithDefaults, HasHandle;
  }

  lemma VersionFirst(tokens: seq<Token>, h: nat, t: Token, late: seq<TagDirective>)
    requires t.VersionDirectiveToken? && Reads(tokens, h, [t])
    requires Reads(tokens, h + 1, DirectiveTokens(late) + (VersionTokens(None) + DirectiveTokens([])))
    ensures var ts := DirectiveTokens([]) + (VersionTokens(Some(Version(t.major, t.minor))) + DirectiveTokens(late));
            && Reads(tokens, h, ts)
            && |ts| == 1 + |DirectiveTokens(late) + (VersionTokens(None) + DirectiveTokens([]))|
  {
    hide Reads;
    var ls := DirectiveTokens(late);
    assert ls + (VersionTokens(None) + DirectiveTokens([])) == ls;
    ReadsJoin(tokens, h, [t], ls);
    assert DirectiveTokens([]) + ([t] + ls) == [t] + ls;
  }

  lemma TagFirst(tokens: seq<Token>, h: nat, d: TagDirective, early: seq<TagDirective>, more: seq<Token>)
    requires Reads(tokens, h, [TagDirectiveToken(d.handle, d.prefix)])
    requires Reads(tokens, h + 1, DirectiveTokens(early) + more)
    ensures Reads(tokens, h, DirectiveTokens([d] + early) + more)
    ensures |DirectiveTokens([d] + early)| == 1 + |DirectiveTokens(early)|
  {
    hide Reads;
    var t, es := TagDirectiveToken(d.handle, d.prefix), DirectiveTokens(early);
    assert ([d] + early)[1..] == early && DirectiveTokens([d] + early) == [t] + es;
    ReadsJoin(tokens, h, [t], es + more);
    assert [t] + (es + more) == [t] + es + more;
  }

  /** The document ends that are skipped. */
  lemma {:induction false} EndsSkipped(tokens: seq<Token>, h: nat) returns (ends: nat)
    requires h <= |tokens| && !EndedAt(tokens, h)
    ensures Reads(tokens, h, EndTokens(ends)) && |EndTokens(ends)| == ends
    ensures BehindDocumentEnds(tokens, h) == h + ends && !EndedAt(tokens, h + ends)
    decreases |tokens| - h
  {
    if h < |tokens| && tokens[h].DocumentEndToken? {
      ends := EndsSkipped(tokens, h + 1);
      ReadsToken(tokens, h, DocumentEndToken);
      ReadsJoin(tokens, h, [DocumentEndToken], EndTokens(ends));
      ends := ends + 1;
    } else {
      ends := 0;
    }
  }

  /** What stands between documents: the end of the stream, or the start of a document, with or without its mark. */
  lemma StartBack(tokens: seq<Token>, h: nat, first: bool)
    requires StepOf(tokens, BetweenAt(h, first)).Next? && !EndedAt(tokens, h)
    ensures var (s, k) := (StepOf(tokens, BetweenAt(h, first)), if first then h else BehindDocumentEnds(tokens, h));
            && k < |tokens|
            && if tokens[k].StreamEndToken? then s.machine == Behind(k + 1)
               else if first && !StartsDocument(tokens[k]) then
                 s.machine == PageAt(BlockNodeState, [DocumentEndState], k, WithDefaults([]))
               else
                 var g := DirectivesAt(tokens, k, None, [], []);
                 && g.Directives? && g.head < |tokens| && tokens[g.head] == DocumentStartToken
                 && s.machine == PageAt(DocumentContentState, [DocumentEndState], g.head + 1, g.known)
  {
    hide WithDefaults, HasHandle, StepOf, BehindDocumentEnds;
    BetweenStep(tokens, h, first);
    RootStates();
    var k := if first then h else BehindDocumentEnds(tokens, h);
    if first && k < |tokens| && !StartsDocument(tokens[k]) {
      assert DirectivesAt(tokens, k, None, [], []) == Directives(None, [], WithDefaults([]), k);
    }
    hide DirectivesAt;
  }

  lemma RootRead(tokens: seq<Token>, h: nat, state: State, ds: seq<TagDirective>)
    requires state.DocumentContentState? || state.BlockNodeState?
    requires StepOf(tokens, PageAt(state, [DocumentEndState], h, ds)).Next?
    ensures var s := StepOf(tokens, PageAt(state, [DocumentEndState], h, ds));
            && h < |tokens| && ChildRead(tokens, h, Root, DocumentEndState, [], 0, ds, s)
            && (state.BlockNodeState? ==> s == ReadAt(tokens, h, Root, [DocumentEndState], 0, ds))
  {
    hide NodeAt, StepOf;
    RootStep(tokens, h, state, ds);
    RootStates();
    if state.BlockNodeState? { NodeHere(tokens, h, ds); }
  }

  lemma NodeHere(tokens: seq<Token>, h: nat, ds: seq<TagDirective>)
    requires NodeAt(tokens, h, [DocumentEndState], 0, ds, true, false).Next?
    ensures h < |tokens|
  {}

  lemma EndBack(tokens: seq<Token>, h: nat, ds: seq<TagDirective>)
    requires StepOf(tokens, PageAt(DocumentEndState, [], h, ds)).Next? && !EndedAt(tokens, h)
    ensures h < |tokens|
    ensures StepOf(tokens, PageAt(DocumentEndState, [], h, ds)).machine
         == BetweenAt(if tokens[h].DocumentEndToken? then h + 1 else h, false)
  {}

  /** The root of a document and its end. */
  lemma RootBack(tokens: seq<Token>, h: nat, state: State, ds: seq<TagDirective>, es: seq<Event>, d: Machine)
    returns (root: Syntax, ends: nat, k: nat)
    requires Named(tokens) && !EndedAt(tokens, h) && (state.DocumentContentState? || state.BlockNodeState?)
    requires Through(tokens, PageAt(state, [DocumentEndState], h, ds), es, d)
    ensures Shaped(root, Root) && (state.BlockNodeState? ==> !root.Nothing?) && Reads(tokens, h, Tokens(root))
    ensures var e := h + |Tokens(root)|;
            && Reads(tokens, e, EndTokens(ends)) && ends <= 1 && e + ends <= |tokens| && !EndedAt(tokens, e + ends)
            && 0 < k <= |es| && Through(tokens, BetweenAt(e + ends, false), es[k..], d)
  {
    hide Through, StepOf, Named, ChildRead, ReadAt, Shaped, Tokens, Reads;
    ThroughStep(tokens, PageAt(state, [DocumentEndState], h, ds), es, d);
    RootRead(tokens, h, state, ds);
    RootStates();
    var s := StepOf(tokens, PageAt(state, [DocumentEndState], h, ds));
    if state.BlockNodeState? {
      root, k := NodeBack(tokens, h, Root, [DocumentEndState], 0, ds, es[1..], d);
    } else {
      root, k := ChildBack(tokens, h, Root, DocumentEndState, [], 0, ds, s, es[1..], d);
    }
    var e, rest := h + |Tokens(root)|, es[1..][k..];
    ThroughStep(tokens, PageAt(DocumentEndState, [], e, ds), rest, d);
    EndBack(tokens, e, ds);
    assert rest[1..] == es[k + 2..];
    k := k + 2;
    if tokens[e].DocumentEndToken? {
      ends := 1;
      ReadsToken(tokens, e, DocumentEndToken);
      assert EndTokens(1) == [DocumentEndToken] + EndTokens(0) == [DocumentEndToken];
    } else {
      ends := 0;
      ReadsNothing(tokens, e);
    }
  }

  lemma NothingBehind(tokens: seq<Token>, m: Machine, es: seq<Event>, d: Machine)
    requires Through(tokens, m, es, d) && m.cfg.state.EndState?
    ensures d == m
  {
    Stops(tokens, m);
    hide StepOf;
  }

  /** Documents, with what is left of the ends of the one before. */
  predicate PagesRead(tokens: seq<Token>, h: nat, ends: nat, pages: seq<Page>, first: bool, d: Machine) {
    && PagesShaped(pages, first) && (first ==> ends == 0)
    && Reads(tokens, h, EndTokens(ends) + PagesTokens(pages))
    && d.cfg.head == h + |EndTokens(ends) + PagesTokens(pages)|
  }

  lemma {:induction false} PagesBack(tokens: seq<Token>, h: nat, first: bool, es: seq<Event>, d: Machine)
    returns (ends: nat, pages: seq<Page>)
    requires Named(tokens) && h <= |tokens| && !EndedAt(tokens, h) && Through(tokens, BetweenAt(h, first), es, d)
    ensures PagesRead(tokens, h, ends, pages, first, d)
    decreases |es|
  {
    hide Through, StepOf, Named, Reads, Shaped, Tokens, EndTokens, PagesRead, WithDefaults, BehindDocumentEnds,
         DirectivesAt, DirectiveTokens, VersionTokens;
    ThroughStep(tokens, BetweenAt(h, first), es, d);
    StartBack(tokens, h, first);
    ends := 0;
    if first { NoEnds(tokens, h); } else { ends := EndsSkipped(tokens, h); }
    var k := h + ends;
    var p, e, j;
    if tokens[k].StreamEndToken? {
      NothingBehind(tokens, Behind(k + 1), es[1..], d);
      LastRead(tokens, h, ends, first, d);
      return ends, [];
    } else if first && !StartsDocument(tokens[k]) {
      p, e, j := UnmarkedBack(tokens, k, es[1..], d);
    } else {
      p, e, j := MarkedBack(tokens, k, es[1..], d);
    }
    assert es[1..][j..] == es[1 + j..];
    assert PageRead(tokens, k, p, first, e);
    var more, rest := PagesBack(tokens, e, false, es[1 + j..], d);
    PagesJoin(tokens, h, ends, p, e, more, rest, first, d);
    pages := [p.(ends := p.ends + more)] + rest;
  }

  lemma NoEnds(tokens: seq<Token>, h: nat)
    requires h <= |tokens|
    ensures Reads(tokens, h, EndTokens(0)) && |EndTokens(0)| == 0
  {}

  lemma LastRead(tokens: seq<Token>, h: nat, ends: nat, first: bool, d: Machine)
    requires Reads(tokens, h, EndTokens(ends)) && |EndTokens(ends)| == ends && (first ==> ends == 0)
    requires h + ends < |tokens| && tokens[h + ends].StreamEndToken? && d.cfg.head == h + ends + 1
    ensures PagesRead(tokens, h, ends, [], first, d)
  {
    hide Reads, EndTokens;
    ReadsToken(tokens, h + ends, StreamEndToken);
    ReadsJoin(tokens, h, EndTokens(ends), [StreamEndToken]);
  }

  /** One document from `h` to `e`, apart from further ends. */
  predicate PageRead(tokens: seq<Token>, h: nat, p: Page, first: bool, e: nat) {
    && PageShaped(p, first) && Reads(tokens, h, PageTokens(p)) && e == h + |PageTokens(p)| <= |tokens|
    && !EndedAt(tokens, e)
  }

  lemma PageJoin(tokens: seq<Token>, h: nat, p: Page, first: bool)
    requires PageShaped(p, first) && Reads(tokens, h, StartTokens(p))
    requires Reads(tokens, h + |StartTokens(p)|, Tokens(p.root))
    requires var e := h + |StartTokens(p)| + |Tokens(p.root)|;
             && Reads(tokens, e, EndTokens(p.ends)) && |EndTokens(p.ends)| == p.ends
             && e + p.ends <= |tokens| && !EndedAt(tokens, e + p.ends)
    ensures PageRead(tokens, h, p, first, h + |StartTokens(p)| + |Tokens(p.root)| + p.ends)
  {
    hide Reads, Tokens, EndTokens, StartTokens, PageShaped;
    ReadsJoin(tokens, h + |StartTokens(p)|, Tokens(p.root), EndTokens(p.ends));
    ReadsJoin(tokens, h, StartTokens(p), Tokens(p.root) + EndTokens(p.ends));
  }

  lemma UnmarkedBack(tokens: seq<Token>, h: nat, es: seq<Event>, d: Machine) returns (p: Page, e: nat, k: nat)
    requires Named(tokens) && h < |tokens| && !EndedAt(tokens, h)
    requires Through(tokens, PageAt(BlockNodeState, [DocumentEndState], h, WithDefaults([])), es, d)
    ensures PageRead(tokens, h, p, true, e) && k <= |es| && Through(tokens, BetweenAt(e, false), es[k..], d)
  {
    hide Through, Named, Reads, Shaped, Tokens, PageRead, WithDefaults;
    var root, ends;
    root, ends, k := RootBack(tokens, h, BlockNodeState, WithDefaults([]), es, d);
    p := Page([], None, [], false, root, ends);
    assert StartTokens(p) == [];
    ReadsNothing(tokens, h);
    EndsInner(ends);
    PageJoin(tokens, h, p, true);
    e := h + |Tokens(root)| + ends;
  }

  lemma MarkedBack(tokens: seq<Token>, h: nat, es: seq<Event>, d: Machine) returns (p: Page, e: nat, k: nat)
    requires Named(tokens) && h < |tokens| && !EndedAt(tokens, h)
    requires DirectivesAt(tokens, h, None, [], []).Directives?
    requires var g := DirectivesAt(tokens, h, None, [], []);
             && g.head < |tokens| && tokens[g.head] == DocumentStartToken
             && Through(tokens, PageAt(DocumentContentState, [DocumentEndState], g.head + 1, g.known), es, d)
    ensures forall first :: PageRead(tokens, h, p, first, e)
    ensures k <= |es| && Through(tokens, BetweenAt(e, false), es[k..], d)
  {
    hide Through, Named, Reads, Shaped, Tokens, PageRead, DirectivesAt, DirectiveTokens, VersionTokens;
    var g := DirectivesAt(tokens, h, None, [], []);
    var early, v, late := DirectivesRead(tokens, h, None, [], []);
    var root, ends;
    KeyInner(tokens, g.head);
    root, ends, k := RootBack(tokens, g.head + 1, DocumentContentState, g.known, es, d);
    p := Page(early, v, late, true, root, ends);
    var a, b, c := DirectiveTokens(early), VersionTokens(v), DirectiveTokens(late);
    ReadsToken(tokens, g.head, DocumentStartToken);
    ReadsJoin(tokens, h, a + (b + c), [DocumentStartToken]);
    assert a + (b + c) + [DocumentStartToken] == StartTokens(p);
    EndsInner(ends);
    e := h + |StartTokens(p)| + |Tokens(root)| + ends;
    forall first ensures PageRead(tokens, h, p, first, e) {
      PageJoin(tokens, h, p, first);
    }
  }

  lemma {:induction false} EndsSum(a: nat, b: nat)
    ensures EndTokens(a + b) == EndTokens(a) + EndTokens(b)
  {
    if a > 0 { EndsSum(a - 1, b); }
  }

  lemma PagesJoin(tokens: seq<Token>, h: nat, ends: nat, p: Page, e: nat, more: nat, rest: seq<Page>, first: bool,
                  d: Machine)
    requires Reads(tokens, h, EndTokens(ends)) && |EndTokens(ends)| == ends && (first ==> ends == 0)
    requires PageRead(tokens, h + ends, p, first, e) && PagesRead(tokens, e, more, rest, false, d)
    ensures PagesRead(tokens, h, ends, [p.(ends := p.ends + more)] + rest, first, d)
  {
    hide Reads, PagesTokens, PageTokens, EndTokens, PagesShaped, EndedAt, Shaped;
    PagesShapedCons(p.(ends := p.ends + more), rest, first);
    PagesAppended(p, more, rest);
    var ts := EndTokens(more) + PagesTokens(rest);
    ReadsJoin(tokens, h + ends, PageTokens(p), ts);
    ReadsJoin(tokens, h, EndTokens(ends), PageTokens(p) + ts);
  }

  lemma PagesAppended(p: Page, more: nat, rest: seq<Page>)
    ensures PagesTokens([p.(ends := p.ends + more)] + rest) == PageTokens(p) + (EndTokens(more) + PagesTokens(rest))
  {
    var q := p.(ends := p.ends + more);
    var pages := [q] + rest;
    assert pages[1..] == rest && pages[0] == q;
    assert PagesTokens(pages) == PageTokens(q) + PagesTokens(rest);
    EndsSum(p.ends, more);
    assert StartTokens(q) == StartTokens(p);
    hide PagesTokens, EndTokens, StartTokens, Tokens;
    Appended(StartTokens(p), Tokens(p.root), EndTokens(p.ends), EndTokens(more), PagesTokens(rest));
  }

  lemma Appended(s: seq<Token>, r: seq<Token>, a: seq<Token>, b: seq<Token>, t: seq<Token>)
    ensures s + (r + (a + b)) + t == s + (r + a) + (b + t)
  {
  }

  lemma PagesShapedCons(p: Page, rest: seq<Page>, first: bool)
    requires PageShaped(p, first) && PagesShaped(rest, false)
    ensures PagesShaped([p] + rest, first)
  {
    hide PageShaped;
    var pages := [p] + rest;
    forall i | 0 <= i < |pages| ensures PageShaped(pages[i], first && i == 0) {
      if i > 0 { assert pages[i] == rest[i - 1]; }
    }
  }

  // ---------------------------------------------------------------------------------------------
  // The language of the parser

  lemma StreamBack(tokens: seq<Token>)
    requires StepOf(tokens, START).Next?
    ensures tokens != [] && tokens[0] == StreamStartToken && StepOf(tokens, START).machine == BetweenAt(1, true)
  {}

  /** Whatever the parser reads to the end of the stream without missing a token is written as documents. */
  lemma AcceptedIsWritten(tokens: seq<Token>, es: seq<Event>, d: Machine) returns (pages: seq<Page>)
    requires Named(tokens) && Through(tokens, START, es, d)
    ensures PagesShaped(pages, true) && d.cfg.head <= |tokens| && tokens[..d.cfg.head] == Printed(pages)
  {
    hide Through, StepOf, Named, PagesShaped, PagesTokens;
    ThroughStep(tokens, START, es, d);
    StreamBack(tokens);
    var ends;
    ends, pages := PagesBack(tokens, 1, true, es[1..], d);
    assert EndTokens(0) + PagesTokens(pages) == PagesTokens(pages);
    assert tokens[..d.cfg.head] == [tokens[0]] + tokens[1..d.cfg.head];
  }

  lemma WholeWritten(tokens: seq<Token>, n: nat, pages: seq<Page>)
    requires Whole(tokens) && n <= |tokens| && tokens[..n] == Printed(pages)
    ensures tokens == Printed(pages)
  {
    hide Net, Printed;
    PrintedWhole(pages);
    assert tokens[..n][n - 1] == tokens[n - 1];
    assert n == |tokens|;
    assert tokens[..n] == tokens;
  }

  ghost predicate Writes(tokens: seq<Token>, pages: seq<Page>) {
    PagesShaped(pages, true) && PagesSound(pages) && tokens == Printed(pages)
  }

  /** A run that misses no token gets to the end of the stream exactly if the tokens are those of documents as they
      are written, with sound directives, tags and single pairs. */
  lemma AcceptedExactly(tokens: seq<Token>, es: seq<Event>, d: Machine)
    requires Named(tokens) && Whole(tokens) && Emits(tokens, START, es, d) && StepOf(tokens, d).Stuck?
    requires !Misses(tokens, START, es)
    ensures d.cfg.state.EndState? <==> exists pages :: Writes(tokens, pages)
  {
    hide Emits, StepOf, Named, PagesShaped, PagesSound, Printed, Misses;
    if d.cfg.state.EndState? {
      var pages := AcceptedIsWritten(tokens, es, d);
      WholeWritten(tokens, d.cfg.head, pages);
      ReadsExactly(pages, es, d);
      assert Writes(tokens, pages);
    }
    forall pages | Writes(tokens, pages) ensures d.cfg.state.EndState? {
      ReadsExactly(pages, es, d);
    }
  }

  /** Parsing a whole list of tokens succeeds exactly if they are written as sound documents, unless a token is missed
      behind the KEY of a single pair. */
  method ParseWhole(tokens: seq<Token>) returns (outcome: Outcome, events: seq<Event>)
    requires Named(tokens) && Whole(tokens)
    ensures (exists pages :: Writes(tokens, pages)) ==> outcome.Finished?
    ensures outcome.Finished? && !Misses(tokens, START, events) ==> exists pages :: Writes(tokens, pages)
    ensures forall pages | Writes(tokens, pages) :: events == StreamEvents(DocumentsOf(pages))
  {
    hide Emits, StepOf, Named, Whole, PagesShaped, PagesSound, Printed, Misses, StreamEvents;
    outcome, events := ParseAll(tokens);
    ghost var d :| Emits(tokens, START, events, d) && d.cfg.state.EndState? == outcome.Finished?
                   && (outcome.Failed? ==> StepOf(tokens, d) == Stuck(outcome.error));
    Stops(tokens, d);
    if !Misses(tokens, START, events) { AcceptedExactly(tokens, events, d); }
    forall pages | Writes(tokens, pages)
      ensures outcome.Finished? && events == StreamEvents(DocumentsOf(pages))
    {
      ReadsExactly(pages, events, d);
    }
  }
}
