/**
 Documents as they are written, in tokens.

 Nodes are written in block or flow style, with their properties in either order; of some nodes only
 the properties or nothing at all is written.  A sequence in a block mapping may do without
 indentation, a single pair may be an item of a flow sequence, a pair may do without its VALUE, and a
 key of a flow mapping without any indicator; in flow style a comma may stand behind the last item.
 Tags may be abbreviated with the handles of the document's directives.
 */
module YamlSyntax {
  import opened Options
  import opened YamlEvents
  import opened YamlProductions
  import opened YamlBrackets

  // ---------------------------------------------------------------------------------------------
  // What is written

  datatype Tag = Untagged | Tagged(handle: string, suffix: string)

  datatype Props = Props(anchor: string, tag: Tag, tagFirst: bool)

  /** In flow style a comma may stand behind the last item. */
  datatype Form =
    | BlockSequence
    | IndentlessSequence
    | BlockMapping
    | FlowSequence(comma: bool)
    | FlowMapping(comma: bool)
  {
    predicate Flow() { FlowSequence? || FlowMapping? }
    predicate Mapping() { BlockMapping? || FlowMapping? }
    predicate Comma() { Flow() && comma }
  }

  /** Which indicators of a pair are written: both, that of its key only, or none. */
  datatype Written = Full | KeyOnly | Loose

  datatype Syntax =
    | Nothing
    | Reference(name: string)
    | Word(props: Props, text: string, style: ScalarStyle)
    | Bare(props: Props)
    | Group(form: Form, props: Props, children: seq<Syntax>)
    | Pair(key: Syntax, value: Syntax, written: Written)
  {
    /** Something that is written and stands for one node. */
    predicate Visible() { !Nothing? && !Pair? }
  }

  /** Where something is written: as the root of a document, as an item of a sequence, as a pair of a
      mapping, or as a key or value of a pair. */
  datatype Place = Root | BlockItem | BlockEntry | BlockPair | FlowItem | FlowEntry | FlowPair
  {
    predicate Block() { Root? || BlockItem? || BlockEntry? }
    predicate ForPairs() { BlockPair? || FlowPair? }
  }

  function ChildPlace(form: Form): Place {
    match form
    case BlockSequence => BlockItem
    case IndentlessSequence => BlockItem
    case BlockMapping => BlockPair
    case FlowSequence(_) => FlowItem
    case FlowMapping(_) => FlowPair
  }

  /** Where the key and the value of a pair are written. */
  function EntryPlace(place: Place): Place {
    if place.BlockPair? then BlockEntry else FlowEntry
  }

  predicate TagShaped(t: Tag) {
    t.Tagged? ==> t.handle != "" || t.suffix != ""
  }

  /** Block collections are not written inside flow collections, an indentless sequence only inside a
      block mapping; a mapping consists of pairs, and a pair may be an item of a flow sequence, where
      nothing is no item.  Without its VALUE a pair has no value, and without its KEY it has a key. */
  predicate Shaped(n: Syntax, place: Place) {
    match n
    case Nothing => !place.FlowItem? && !place.ForPairs()
    case Reference(_) => !place.ForPairs()
    case Word(props, _, _) => !place.ForPairs() && TagShaped(props.tag)
    case Bare(props) => !place.ForPairs() && TagShaped(props.tag) && (props.anchor != "" || props.tag.Tagged?)
    case Group(form, props, children) =>
      && !place.ForPairs() && TagShaped(props.tag) && (place.Block() || form.Flow())
      && (form.IndentlessSequence? ==> place.BlockEntry?)
      && (form.IndentlessSequence? || form.Comma() ==> children != [])
      && forall i | 0 <= i < |children| :: Shaped(children[i], ChildPlace(form))
    case Pair(key, value, written) =>
      && (place.FlowItem? || place.ForPairs())
      && Shaped(key, EntryPlace(place)) && Shaped(value, EntryPlace(place))
      && (written.Full? || value.Nothing?) && (written.Loose? ==> place.FlowPair? && !key.Nothing?)
  }

  predicate AllShaped(ns: seq<Syntax>, place: Place) {
    forall i | 0 <= i < |ns| :: Shaped(ns[i], place)
  }

  // ---------------------------------------------------------------------------------------------
  // What it means

  function TagName(ds: seq<TagDirective>, t: Tag): Option<string> {
    match t
    case Untagged => Some("")
    case Tagged(handle, suffix) => TagOf(ds, handle, suffix)
  }

  /** The handle of the tag, if any, has been declared. */
  predicate Resolves(ds: seq<TagDirective>, props: Props) {
    TagName(ds, props.tag).Some?
  }

  function NameOf(ds: seq<TagDirective>, props: Props): string {
    if Resolves(ds, props) then TagName(ds, props.tag).value else ""
  }

  /** A single pair of which only the KEY is written. */
  const ORPHAN := Pair(Nothing, Nothing, KeyOnly)

  /** Every tag resolves, and a single pair with an empty key has its VALUE and no value, unless it is
      a KEY alone with a comma behind it that ends the sequence. */
  predicate Sound(n: Syntax, place: Place, ds: seq<TagDirective>) {
    match n
    case Nothing => true
    case Reference(_) => true
    case Word(props, _, _) => Resolves(ds, props)
    case Bare(props) => Resolves(ds, props)
    case Group(form, props, children) => Resolves(ds, props) && AllSound(children, form, ds)
    case Pair(key, value, written) =>
      && (place.FlowItem? && key.Nothing? ==> written.Full? && value.Nothing?)
      && Sound(key, EntryPlace(place), ds) && Sound(value, EntryPlace(place), ds)
  }

  predicate AllSound(ns: seq<Syntax>, form: Form, ds: seq<TagDirective>) {
    forall i | 0 <= i < |ns| :: Sound(ns[i], ChildPlace(form), ds) || (i == |ns| - 1 && Spared(ns[i], form))
  }

  /** Here the comma that is lost is one that need not be there. */
  predicate Spared(n: Syntax, form: Form) {
    n == ORPHAN && form == FlowSequence(true)
  }

  function StartOf(form: Form, anchor: string, tag: string): Event {
    if form.Mapping() then MappingStart(anchor, tag, tag == "", form.Flow())
    else SequenceStart(anchor, tag, tag == "", form.Flow())
  }

  /** A plain word without a tag, and any with the tag "!", is resolved by its text; other words without
      a tag are strings. */
  function WordEvent(anchor: string, tag: string, text: string, style: ScalarStyle): Event {
    if tag == "!" then Scalar(anchor, tag, text, true, false, style)
    else if tag != "" then Scalar(anchor, tag, text, false, false, style)
    else Scalar(anchor, tag, text, style.Plain?, !style.Plain?, style)
  }

  const PAIR_START := MappingStart("", "", true, true)

  function NodeOf(n: Syntax, ds: seq<TagDirective>): Node
    decreases n, 2
  {
    match n
    case Nothing => Leaf(FILLER)
    case Reference(name) => Leaf(Alias(name))
    case Word(props, text, style) => Leaf(WordEvent(props.anchor, NameOf(ds, props), text, style))
    case Bare(props) => Leaf(Scalar(props.anchor, NameOf(ds, props), "", NameOf(ds, props) == "", false, Plain))
    case Group(form, props, children) =>
      Collection(StartOf(form, props.anchor, NameOf(ds, props)), NodesOf(children, form.Mapping(), ds))
    case Pair(key, value, _) => Collection(PAIR_START, [NodeOf(key, ds), NodeOf(value, ds)])
  }

  /** The nodes that a child contributes: of a pair of a mapping, its key and its value. */
  function Parts(n: Syntax, mapping: bool, ds: seq<TagDirective>): seq<Node>
    decreases n, 3
  {
    if mapping && n.Pair? then [NodeOf(n.key, ds), NodeOf(n.value, ds)] else [NodeOf(n, ds)]
  }

  function NodesOf(ns: seq<Syntax>, mapping: bool, ds: seq<TagDirective>): seq<Node>
    decreases ns, 0
  {
    if ns == [] then [] else Parts(ns[0], mapping, ds) + NodesOf(ns[1..], mapping, ds)
  }

  lemma {:induction false} NodesConcat(a: seq<Node>, b: seq<Node>)
    ensures NodesEvents(a + b) == NodesEvents(a) + NodesEvents(b)
    decreases |b|
  {
    hide NodeEvents;
    if b == [] {
      assert a + b == a;
    } else {
      var k := |b| - 1;
      NodesConcat(a, b[..k]);
      assert (a + b)[..|a| + k] == a + b[..k];
      hide NodesEvents;
      assert NodesEvents(a) + NodesEvents(b[..k]) + NodeEvents(b[k])
          == NodesEvents(a) + (NodesEvents(b[..k]) + NodeEvents(b[k]));
    }
  }

  lemma NodesOne(n: Node)
    ensures NodesEvents([n]) == NodeEvents(n)
  {
    assert [n][..0] == [];
  }

  function ItemEvents(n: Syntax, form: Form, ds: seq<TagDirective>): seq<Event> {
    NodesEvents(Parts(n, form.Mapping(), ds))
  }

  function Spelled(ns: seq<Syntax>, form: Form, ds: seq<TagDirective>): seq<Event> {
    NodesEvents(NodesOf(ns, form.Mapping(), ds))
  }

  lemma SpelledCons(ns: seq<Syntax>, form: Form, ds: seq<TagDirective>)
    requires ns != []
    ensures Spelled(ns, form, ds) == ItemEvents(ns[0], form, ds) + Spelled(ns[1..], form, ds)
  {
    hide NodesEvents;
    NodesConcat(Parts(ns[0], form.Mapping(), ds), NodesOf(ns[1..], form.Mapping(), ds));
  }

  lemma SoundCons(ns: seq<Syntax>, form: Form, ds: seq<TagDirective>)
    requires ns != []
    ensures |ns| == 1 && Spared(ns[0], form) ==> AllSound(ns, form, ds)
    ensures !(|ns| == 1 && Spared(ns[0], form)) ==>
              (AllSound(ns, form, ds) <==> Sound(ns[0], ChildPlace(form), ds) && AllSound(ns[1..], form, ds))
  {
    hide Sound;
    assert forall i | 0 < i < |ns| :: ns[i] == ns[1..][i - 1];
  }

  /** The events of one child that is not a pair of a mapping, and of one that is. */
  lemma ItemMeans(n: Syntax, form: Form, ds: seq<TagDirective>)
    ensures !form.Mapping() ==> ItemEvents(n, form, ds) == NodeEvents(NodeOf(n, ds))
    ensures form.Mapping() && n.Pair? ==>
              ItemEvents(n, form, ds) == NodeEvents(NodeOf(n.key, ds)) + NodeEvents(NodeOf(n.value, ds))
  {
    if form.Mapping() && n.Pair? {
      PairMeans(NodeOf(n.key, ds), NodeOf(n.value, ds));
    } else {
      NodesOne(NodeOf(n, ds));
    }
  }

  lemma PairMeans(k: Node, v: Node)
    ensures NodesEvents([k, v]) == NodeEvents(k) + NodeEvents(v)
  {
    assert [k, v] == [k] + [v];
    NodesConcat([k], [v]);
    NodesOne(k);
    NodesOne(v);
  }

  lemma SinglePairMeans(n: Syntax, ds: seq<TagDirective>)
    requires n.Pair?
    ensures NodeEvents(NodeOf(n, ds))
         == [PAIR_START] + NodeEvents(NodeOf(n.key, ds)) + NodeEvents(NodeOf(n.value, ds)) + [MappingEnd]
  {
    PairMeans(NodeOf(n.key, ds), NodeOf(n.value, ds));
  }

  // ---------------------------------------------------------------------------------------------
  // Its tokens

  function AnchorTokens(anchor: string): seq<Token> {
    if anchor == "" then [] else [AnchorToken(anchor)]
  }

  function TagTokens(t: Tag): seq<Token> {
    if t.Untagged? then [] else [TagToken(t.handle, t.suffix)]
  }

  function PropertyTokens(p: Props): seq<Token> {
    if p.tagFirst then TagTokens(p.tag) + AnchorTokens(p.anchor) else AnchorTokens(p.anchor) + TagTokens(p.tag)
  }

  function OpeningTokens(form: Form): seq<Token> {
    match form
    case BlockSequence => [BlockSequenceStartToken]
    case IndentlessSequence => []
    case BlockMapping => [BlockMappingStartToken]
    case FlowSequence(_) => [FlowSequenceStartToken]
    case FlowMapping(_) => [FlowMappingStartToken]
  }

  function EndingTokens(form: Form): seq<Token> {
    match form
    case BlockSequence => [BlockEndToken]
    case IndentlessSequence => []
    case BlockMapping => [BlockEndToken]
    case FlowSequence(comma) => CommaTokens(comma) + [FlowSequenceEndToken]
    case FlowMapping(comma) => CommaTokens(comma) + [FlowMappingEndToken]
  }

  function CommaTokens(comma: bool): seq<Token> {
    if comma then [FlowEntryToken] else []
  }

  function KeyIndicator(written: Written): seq<Token> {
    if written.Loose? then [] else [KeyToken]
  }

  function ValueIndicator(written: Written): seq<Token> {
    if written.Full? then [ValueToken] else []
  }

  function Tokens(n: Syntax): seq<Token>
    decreases n, 1
  {
    match n
    case Nothing => []
    case Reference(name) => [AliasToken(name)]
    case Word(props, text, style) => PropertyTokens(props) + [ScalarToken(text, style)]
    case Bare(props) => PropertyTokens(props)
    case Group(form, props, children) =>
      PropertyTokens(props) + OpeningTokens(form) + (ItemTokens(children, form, true) + EndingTokens(form))
    case Pair(key, value, written) =>
      KeyIndicator(written) + (Tokens(key) + (ValueIndicator(written) + Tokens(value)))
  }

  function Separator(form: Form, first: bool): seq<Token> {
    if form.BlockMapping? then [] else if !form.Flow() then [BlockEntryToken]
    else if first then [] else [FlowEntryToken]
  }

  /** The items of a sequence or the pairs of a mapping; in flow style a comma separates them. */
  function ItemTokens(ns: seq<Syntax>, form: Form, first: bool): seq<Token>
    decreases ns, 0
  {
    if ns == [] then [] else Separator(form, first) + (Tokens(ns[0]) + ItemTokens(ns[1..], form, false))
  }

  lemma ItemsCons(ns: seq<Syntax>, form: Form, first: bool)
    requires ns != []
    ensures ItemTokens(ns, form, first)
         == Separator(form, first) + (Tokens(ns[0]) + ItemTokens(ns[1..], form, false))
  {}

  lemma GroupTokens(n: Syntax)
    requires n.Group?
    ensures Tokens(n)
         == PropertyTokens(n.props) + OpeningTokens(n.form)
            + (ItemTokens(n.children, n.form, true) + EndingTokens(n.form))
  {}

  lemma PairTokens(n: Syntax)
    requires n.Pair?
    ensures Tokens(n) == KeyIndicator(n.written) + (Tokens(n.key) + (ValueIndicator(n.written) + Tokens(n.value)))
  {}

  lemma NothingThere(n: Syntax, ds: seq<TagDirective>)
    ensures n.Nothing? ==> Tokens(n) == [] && NodeEvents(NodeOf(n, ds)) == [FILLER]
    ensures n.Nothing? ==> forall place :: Sound(n, place, ds)
  {}

  // ---------------------------------------------------------------------------------------------
  // What starts and what follows

  /** The tokens that a node may start with. */
  predicate StartsNode(t: Token) {
    || t.AliasToken? || t.AnchorToken? || t.TagToken? || t.ScalarToken? || t.FlowSequenceStartToken?
    || t.FlowMappingStartToken? || t.BlockSequenceStartToken? || t.BlockMappingStartToken?
  }

  /** An indentless sequence starts with its first item. */
  predicate Heads(place: Place, t: Token) {
    StartsNode(t) || (place.BlockEntry? && t.BlockEntryToken?)
  }

  /** The tokens that may stand behind a node. */
  predicate MayFollow(place: Place, t: Token) {
    match place
    case Root => StartsDocument(t) || t.DocumentEndToken? || t.StreamEndToken?
    case BlockItem => t.BlockEntryToken? || EndsBlockNode(t)
    case BlockEntry => EndsBlockNode(t)
    case FlowEntry => t.ValueToken? || t.FlowEntryToken? || t.FlowSequenceEndToken? || t.FlowMappingEndToken?
    case FlowItem => t.FlowEntryToken? || t.FlowSequenceEndToken?
    case BlockPair => t.KeyToken? || t.BlockEndToken?
    case FlowPair => t.FlowEntryToken? || t.FlowMappingEndToken?
  }

  /** What stands behind a child. */
  predicate BehindItem(form: Form, t: Token) {
    match form
    case BlockSequence => t.BlockEntryToken? || t.BlockEndToken?
    case IndentlessSequence => t.BlockEntryToken? || EndsBlockNode(t)
    case BlockMapping => MayFollow(BlockPair, t)
    case FlowSequence(_) => MayFollow(FlowItem, t)
    case FlowMapping(_) => MayFollow(FlowPair, t)
  }

  /** What an item of a flow sequence starts with. */
  predicate StartsItem(t: Token) {
    StartsNode(t) || t.KeyToken?
  }

  lemma FirstOfProperties(p: Props)
    requires p.anchor != "" || p.tag.Tagged?
    ensures PropertyTokens(p) != [] && (PropertyTokens(p)[0].AnchorToken? || PropertyTokens(p)[0].TagToken?)
  {}

  lemma FirstToken(n: Syntax, place: Place)
    requires Shaped(n, place) && n.Visible()
    ensures Tokens(n) != [] && Heads(place, Tokens(n)[0])
  {
    if n.Reference? { return; }
    var ps := PropertyTokens(n.props);
    if n.props.anchor != "" || n.props.tag.Tagged? {
      FirstOfProperties(n.props);
    } else {
      assert ps == [];
    }
    if n.Group? {
      GroupTokens(n);
      if n.form.IndentlessSequence? { ItemsCons(n.children, n.form, true); }
      hide Tokens, ItemTokens;
    }
  }

  /** The tokens from `h` on start with `ts`. */
  predicate Reads(tokens: seq<Token>, h: nat, ts: seq<Token>) {
    h + |ts| <= |tokens| && tokens[h..h + |ts|] == ts
  }

  lemma ReadsBoth(tokens: seq<Token>, h: nat, a: seq<Token>, b: seq<Token>)
    requires Reads(tokens, h, a + b)
    ensures Reads(tokens, h, a) && Reads(tokens, h + |a|, b)
  {
    var ts := tokens[h..h + |a + b|];
    assert ts[..|a|] == a && ts[|a|..] == b;
    assert tokens[h..h + |a|] == ts[..|a|] && tokens[h + |a|..h + |a| + |b|] == ts[|a|..];
  }

  lemma ReadsOne(tokens: seq<Token>, h: nat, t: Token)
    requires Reads(tokens, h, [t])
    ensures h < |tokens| && tokens[h] == t
  {
    assert tokens[h..h + 1][0] == tokens[h];
  }

  lemma ReadsFirst(tokens: seq<Token>, h: nat, ts: seq<Token>)
    requires Reads(tokens, h, ts) && ts != []
    ensures h < |tokens| && tokens[h] == ts[0]
  {
    assert tokens[h..h + |ts|][0] == tokens[h];
  }

  lemma ReadsSecond(tokens: seq<Token>, h: nat, ts: seq<Token>)
    requires Reads(tokens, h, ts) && |ts| > 1
    ensures h + 1 < |tokens| && tokens[h + 1] == ts[1]
  {
    assert tokens[h..h + |ts|][1] == tokens[h + 1];
  }

  lemma NodeAhead(tokens: seq<Token>, h: nat, n: Syntax, place: Place)
    requires Shaped(n, place) && n.Visible() && Reads(tokens, h, Tokens(n))
    ensures h < |tokens| && Heads(place, tokens[h])
  {
    hide Tokens;
    FirstToken(n, place);
    ReadsFirst(tokens, h, Tokens(n));
  }

  /** Written properties are read back, if the handle of the tag has been declared. */
  lemma PropertiesBack(tokens: seq<Token>, h: nat, p: Props, ds: seq<TagDirective>)
    requires Reads(tokens, h, PropertyTokens(p))
    requires var k := h + |PropertyTokens(p)|; k < |tokens| && !tokens[k].AnchorToken? && !tokens[k].TagToken?
    ensures h < |tokens| && (p.anchor != "" || p.tag.Tagged? ==> !tokens[h].AliasToken?)
    ensures PropertiesAt(tokens, h, ds)
         == if Resolves(ds, p) then Properties(p.anchor, NameOf(ds, p), h + |PropertyTokens(p)|)
            else Unreadable(ParserError)
  {
    hide TagOf;
    var ts := PropertyTokens(p);
    if |ts| > 0 { assert tokens[h..h + |ts|][0] == tokens[h] == ts[0]; }
    if |ts| > 1 { assert tokens[h..h + |ts|][1] == tokens[h + 1] == ts[1]; }
  }

  // ---------------------------------------------------------------------------------------------
  // The end of the stream and brackets

  /** No node is written with the end of the stream, and its brackets match. */
  predicate Inner(ts: seq<Token>) {
    (forall i | 0 <= i < |ts| :: !ts[i].StreamEndToken?) && Net(ts, |ts|) == 0
  }

  lemma {:induction false} NetWithin(a: seq<Token>, b: seq<Token>, h: nat)
    requires h <= |a|
    ensures Net(a + b, h) == Net(a, h)
  {
    if h == 0 {
    } else {
      NetWithin(a, b, h - 1);
    }
  }

  lemma {:induction false} NetConcat(a: seq<Token>, b: seq<Token>)
    ensures Net(a + b, |a + b|) == Net(a, |a|) + Net(b, |b|)
    decreases |b|
  {
    if b == [] {
      assert a + b == a;
    } else {
      var k := |b| - 1;
      assert a + b == (a + b[..k]) + [b[k]] && b == b[..k] + [b[k]];
      NetConcat(a, b[..k]);
      NetWithin(a + b[..k], [b[k]], |a| + k);
      NetWithin(b[..k], [b[k]], k);
    }
  }

  lemma InnerBoth(a: seq<Token>, b: seq<Token>)
    requires Inner(a) && Inner(b)
    ensures Inner(a + b)
  {
    hide Net;
    NetConcat(a, b);
  }

  lemma InnerPlain(ts: seq<Token>)
    requires |ts| <= 2 && forall i | 0 <= i < |ts| :: !ts[i].StreamEndToken? && Bracket(ts[i]) == 0
    ensures Inner(ts)
  {
    assert Net(ts, 0) == 0 && (|ts| >= 1 ==> Net(ts, 1) == 0);
  }

  /** What encloses a body and matches. */
  lemma InnerGroup(form: Form, body: seq<Token>)
    requires Inner(body)
    ensures Inner(OpeningTokens(form) + (body + EndingTokens(form)))
  {
    hide Net;
    NetConcat(body, EndingTokens(form));
    NetConcat(OpeningTokens(form), body + EndingTokens(form));
    EndsMatch(form);
  }

  lemma EndsMatch(form: Form)
    ensures Net(OpeningTokens(form), |OpeningTokens(form)|) + Net(EndingTokens(form), |EndingTokens(form)|) == 0
  {
    assert Net([], 0) == 0;
    if form.FlowSequence? {
      assert Net([FlowSequenceStartToken], 1) == 1 && Net([FlowSequenceEndToken], 1) == -1;
      if form.comma {
        assert EndingTokens(form) == [FlowEntryToken, FlowSequenceEndToken];
        assert Net([FlowEntryToken, FlowSequenceEndToken], 1) == 0;
      }
    } else if !form.IndentlessSequence? {
      assert Net(OpeningTokens(form), 1) == 0 && Net(EndingTokens(form), 1) == 0;
    }
  }

  lemma {:induction false} TokensInner(n: Syntax)
    ensures Inner(Tokens(n))
    decreases n, 1
  {
    hide Inner;
    match n
    case Nothing => InnerPlain([]);
    case Reference(name) => InnerPlain([AliasToken(name)]);
    case Word(props, text, style) =>
      InnerPlain(PropertyTokens(props));
      InnerPlain([ScalarToken(text, style)]);
      InnerBoth(PropertyTokens(props), [ScalarToken(text, style)]);
    case Bare(props) => InnerPlain(PropertyTokens(props));
    case Group(form, props, children) =>
      InnerPlain(PropertyTokens(props));
      ItemsInner(children, form, true);
      var ps, body, end := PropertyTokens(props), ItemTokens(children, form, true), EndingTokens(form);
      InnerGroup(form, body);
      InnerBoth(ps, OpeningTokens(form) + (body + end));
      assert ps + (OpeningTokens(form) + (body + end)) == ps + OpeningTokens(form) + (body + end);
    case Pair(key, value, written) =>
      TokensInner(key);
      TokensInner(value);
      InnerPlain(KeyIndicator(written));
      InnerPlain(ValueIndicator(written));
      InnerBoth(ValueIndicator(written), Tokens(value));
      InnerBoth(Tokens(key), ValueIndicator(written) + Tokens(value));
      InnerBoth(KeyIndicator(written), Tokens(key) + (ValueIndicator(written) + Tokens(value)));
  }

  lemma {:induction false} ItemsInner(ns: seq<Syntax>, form: Form, first: bool)
    ensures Inner(ItemTokens(ns, form, first))
    decreases ns, 0
  {
    hide Inner;
    if ns == [] {
      InnerPlain([]);
    } else {
      TokensInner(ns[0]);
      ItemsInner(ns[1..], form, false);
      InnerPlain(Separator(form, first));
      InnerBoth(Tokens(ns[0]), ItemTokens(ns[1..], form, false));
      InnerBoth(Separator(form, first), Tokens(ns[0]) + ItemTokens(ns[1..], form, false));
    }
  }

  lemma StillInner(tokens: seq<Token>, h: nat, ts: seq<Token>)
    requires Reads(tokens, h, ts) && Inner(ts) && !EndedAt(tokens, h)
    ensures !EndedAt(tokens, h + |ts|)
  {
    if ts != [] { assert tokens[h..h + |ts|][|ts| - 1] == tokens[h + |ts| - 1]; }
  }

  lemma NodeInner(tokens: seq<Token>, h: nat, n: Syntax)
    requires Reads(tokens, h, Tokens(n)) && !EndedAt(tokens, h)
    ensures !EndedAt(tokens, h + |Tokens(n)|)
  {
    hide Tokens, Inner, EndedAt;
    TokensInner(n);
    StillInner(tokens, h, Tokens(n));
  }

  // ---------------------------------------------------------------------------------------------
  // Documents

  /** A document: tag directives before and behind its version, its root, whether its mark is written,
      and how many document ends stand behind it. */
  datatype Page = Page(early: seq<TagDirective>, version: Option<Version>, late: seq<TagDirective>, marked: bool,
                       root: Syntax, ends: nat)
  {
    function Tags(): seq<TagDirective> { early + late }
  }

  /** Only the first document may do without its mark, if it has no directives and is not empty. */
  predicate PageShaped(p: Page, first: bool) {
    && Shaped(p.root, Root)
    && (!p.marked ==> first && p.version.None? && p.Tags() == [] && !p.root.Nothing?)
  }

  /** The version is the supported one, and no handle is declared twice. */
  predicate Declared(p: Page) {
    (p.version.Some? ==> p.version.value == Version(1, 1)) && DistinctHandles(p.Tags())
  }

  predicate PagesShaped(pages: seq<Page>, first: bool) {
    forall i | 0 <= i < |pages| :: PageShaped(pages[i], first && i == 0)
  }

  predicate PageSound(p: Page) {
    Declared(p) && Sound(p.root, Root, WithDefaults(p.Tags()))
  }

  predicate PagesSound(pages: seq<Page>) {
    forall i | 0 <= i < |pages| :: PageSound(pages[i])
  }

  function DocumentOf(p: Page): Document {
    Document(DocumentStart(p.version, p.Tags(), false), NodeOf(p.root, WithDefaults(p.Tags())),
             DocumentEnd(p.ends == 0))
  }

  function DocumentsOf(pages: seq<Page>): seq<Document> {
    if pages == [] then [] else [DocumentOf(pages[0])] + DocumentsOf(pages[1..])
  }

  function DirectiveTokens(tags: seq<TagDirective>): seq<Token> {
    if tags == [] then []
    else [TagDirectiveToken(tags[0].handle, tags[0].prefix)] + DirectiveTokens(tags[1..])
  }

  function VersionTokens(version: Option<Version>): seq<Token> {
    if version.None? then [] else [VersionDirectiveToken(version.value.major, version.value.minor)]
  }

  function StartTokens(p: Page): seq<Token> {
    DirectiveTokens(p.early) + (VersionTokens(p.version) + (DirectiveTokens(p.late) + MarkTokens(p.marked)))
  }

  function MarkTokens(marked: bool): seq<Token> {
    if marked then [DocumentStartToken] else []
  }

  function EndTokens(ends: nat): seq<Token> {
    if ends == 0 then [] else [DocumentEndToken] + EndTokens(ends - 1)
  }

  function PageTokens(p: Page): seq<Token> {
    StartTokens(p) + (Tokens(p.root) + EndTokens(p.ends))
  }

  function PagesTokens(pages: seq<Page>): seq<Token> {
    if pages == [] then [StreamEndToken] else PageTokens(pages[0]) + PagesTokens(pages[1..])
  }

  function Printed(pages: seq<Page>): seq<Token> {
    [StreamStartToken] + PagesTokens(pages)
  }

  lemma {:induction false} DirectivesInner(tags: seq<TagDirective>)
    ensures Inner(DirectiveTokens(tags))
  {
    hide Inner;
    if tags == [] {
      InnerPlain([]);
    } else {
      var t := TagDirectiveToken(tags[0].handle, tags[0].prefix);
      DirectivesInner(tags[1..]);
      InnerPlain([t]);
      InnerBoth([t], DirectiveTokens(tags[1..]));
    }
  }

  lemma {:induction false} EndsInner(ends: nat)
    ensures Inner(EndTokens(ends)) && |EndTokens(ends)| == ends
  {
    hide Inner;
    if ends == 0 {
      InnerPlain([]);
    } else {
      EndsInner(ends - 1);
      InnerPlain([DocumentEndToken]);
      InnerBoth([DocumentEndToken], EndTokens(ends - 1));
    }
  }

  lemma PageInner(p: Page)
    ensures Inner(PageTokens(p))
  {
    hide Inner, Tokens, EndTokens, DirectiveTokens;
    var mark, late := MarkTokens(p.marked), DirectiveTokens(p.late);
    TokensInner(p.root);
    DirectivesInner(p.early);
    DirectivesInner(p.late);
    InnerPlain(VersionTokens(p.version));
    InnerPlain(mark);
    EndsInner(p.ends);
    InnerBoth(late, mark);
    InnerBoth(VersionTokens(p.version), late + mark);
    InnerBoth(DirectiveTokens(p.early), VersionTokens(p.version) + (late + mark));
    InnerBoth(Tokens(p.root), EndTokens(p.ends));
    InnerBoth(StartTokens(p), Tokens(p.root) + EndTokens(p.ends));
  }

  /** Before the end of the stream there are the tokens of the documents. */
  function Body(pages: seq<Page>): seq<Token> {
    if pages == [] then [] else PageTokens(pages[0]) + Body(pages[1..])
  }

  lemma {:induction false} BodyInner(pages: seq<Page>)
    ensures Inner(Body(pages)) && PagesTokens(pages) == Body(pages) + [StreamEndToken]
  {
    hide Inner, PageTokens;
    if pages == [] {
      InnerPlain([]);
    } else {
      BodyInner(pages[1..]);
      PageInner(pages[0]);
      InnerBoth(PageTokens(pages[0]), Body(pages[1..]));
    }
  }

  /** The tokens of documents end with their one STREAM-END, and their brackets match. */
  lemma PrintedWhole(pages: seq<Page>)
    ensures Whole(Printed(pages)) && Net(Printed(pages), |Printed(pages)|) == 0
  {
    assert Net([StreamEndToken], 1) == 0;
    hide Net, Body, PagesTokens;
    var body := [StreamStartToken] + Body(pages);
    BodyInner(pages);
    InnerPlain([StreamStartToken]);
    InnerBoth([StreamStartToken], Body(pages));
    assert Printed(pages) == body + [StreamEndToken];
    NetConcat(body, [StreamEndToken]);
  }
}
