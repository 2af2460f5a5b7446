/**
 The composer, which pulls events from the parser and builds document trees.

 It relies on the parser never leaving the event language: its case for an event it does not know
 and its checks for an expected event can then not fail, and the trees it returns spell out exactly
 the events it has consumed.
 */
module YamlComposer {
  import opened Options
  import opened YamlEvents
  import opened YamlProductions
  import opened YamlParser

  datatype Problem =
    | ParseFailed
    | PastEnd
    | Unexpected
    | UnknownEvent
    | UnknownAnchor(name: string)
  {
    /** The failures a caller can meet; the others would be faults of the composer itself. */
    predicate Expected() { ParseFailed? || UnknownAnchor? }
  }

  datatype Tree = DocumentTree(doc: Document) | NodeTree(node: Node)

  datatype Composed = Built(tree: Tree) | NoMore | Failure(problem: Problem)

  /** The event introduces the anchor. */
  predicate Anchored(e: Event, name: string) {
    (e.Scalar? || e.SequenceStart? || e.MappingStart?) && e.anchor == name && name != ""
  }

  /** The node that an event starts, for its anchor.  Nodes are told apart by their first events. */
  function AnchorOf(e: Event, node: nat): map<string, nat> {
    if (e.Scalar? || e.SequenceStart? || e.MappingStart?) && e.anchor != "" then map[e.anchor := node] else map[]
  }

  /** The anchors introduced since the start of the current document. */
  function Anchors(es: seq<Event>): map<string, nat> {
    if es == [] || es[|es| - 1].DocumentStart? then map[]
    else Anchors(es[..|es| - 1]) + AnchorOf(es[|es| - 1], |es| - 1)
  }

  /** Every alias names an anchor introduced earlier in its own document. */
  predicate Resolved(es: seq<Event>) {
    if es == [] then true
    else
      var k := |es| - 1;
      Resolved(es[..k]) && (es[k].Alias? ==> es[k].anchor in Anchors(es[..k]))
  }

  /** The nodes that the aliases denote. */
  function Targets(es: seq<Event>): map<nat, nat> {
    if es == [] then map[]
    else
      var k := |es| - 1;
      if es[k].Alias? && es[k].anchor in Anchors(es[..k]) then Targets(es[..k])[k := Anchors(es[..k])[es[k].anchor]]
      else Targets(es[..k])
  }

  /** Node `j` is the latest before event `i` in its document that has the anchor. */
  predicate LatestBefore(es: seq<Event>, j: nat, i: nat, name: string) {
    && j < i <= |es| && Anchored(es[j], name)
    && forall k | j < k < i :: !Anchored(es[k], name) && !es[k].DocumentStart?
  }

  lemma {:induction false} AnchorsAreLatest(es: seq<Event>, name: string)
    requires name in Anchors(es)
    ensures LatestBefore(es, Anchors(es)[name], |es|, name)
  {
    var k := |es| - 1;
    if !Anchored(es[k], name) {
      AnchorsAreLatest(es[..k], name);
      var j := Anchors(es)[name];
      assert j == Anchors(es[..k])[name];
      assert forall i | j <= i < k :: es[..k][i] == es[i];
    }
  }

  /** Where all aliases resolve, each denotes the latest node with its anchor before it. */
  lemma {:induction false} AliasDenotes(es: seq<Event>, i: nat)
    requires Resolved(es) && i < |es| && es[i].Alias?
    ensures i in Targets(es) && LatestBefore(es, Targets(es)[i], i, es[i].anchor)
  {
    var k := |es| - 1;
    if i == k {
      hide Anchors;
      AnchorsAreLatest(es[..k], es[k].anchor);
      var j := Anchors(es[..k])[es[k].anchor];
      assert forall m | j <= m < k :: es[..k][m] == es[m];
    } else {
      hide Anchors;
      AliasDenotes(es[..k], i);
      var j := Targets(es[..k])[i];
      assert forall m | 0 <= m < k :: es[..k][m] == es[m];
    }
  }

  datatype Kind =
    StreamStartKind | StreamEndKind | DocumentStartKind | DocumentEndKind | AliasKind | ScalarKind
    | SequenceStartKind | SequenceEndKind | MappingStartKind | MappingEndKind

  function KindOf(e: Event): Kind {
    match e
    case StreamStart => StreamStartKind
    case StreamEnd => StreamEndKind
    case DocumentStart(_, _, _) => DocumentStartKind
    case DocumentEnd(_) => DocumentEndKind
    case Alias(_) => AliasKind
    case Scalar(_, _, _, _, _, _) => ScalarKind
    case SequenceStart(_, _, _, _) => SequenceStartKind
    case SequenceEnd => SequenceEndKind
    case MappingStart(_, _, _, _) => MappingStartKind
    case MappingEnd => MappingEndKind
  }

  /** Where the composer stands after the events `es`. */
  predicate At(es: seq<Event>, p: Partial) {
    FeedAll(es) == Some(p) && Resolved(es)
  }

  lemma AtNext(es: seq<Event>, p: Partial, e: Event)
    requires At(es, p) && Feed(p, e).Some? && (e.Alias? ==> e.anchor in Anchors(es))
    ensures At(es + [e], Feed(p, e).value)
  {
    hide Feed, Anchors;
    assert (es + [e])[..|es|] == es;
  }

  lemma AnchorsNext(es: seq<Event>, e: Event)
    ensures Anchors(es + [e]) == if e.DocumentStart? then map[] else Anchors(es) + AnchorOf(e, |es|)
  {
    hide AnchorOf;
    assert (es + [e])[..|es|] == es;
  }

  lemma TargetsNext(es: seq<Event>, e: Event)
    ensures Targets(es + [e])
         == if e.Alias? && e.anchor in Anchors(es) then Targets(es)[|es| := Anchors(es)[e.anchor]] else Targets(es)
  {
    hide Anchors;
    assert (es + [e])[..|es|] == es;
  }

  lemma NextAccepted(es: seq<Event>, p: Partial, e: Event)
    requires FeedAll(es) == Some(p) && FeedAll(es + [e]).Some?
    ensures Feed(p, e).Some?
  {
    assert (es + [e])[..|es|] == es;
  }

  /** Where only the start of a node can follow. */
  predicate NoClosing(p: Partial)
    requires p.Inside?
  {
    p.frames == []
    || var top := p.frames[|p.frames| - 1]; top.start.MappingStart? && |top.children| % 2 == 1
  }

  /** What the automaton accepts where a node or a document may start. */
  lemma OpenNext(p: Partial, e: Event)
    requires Feed(p, e).Some?
    ensures p.Inside? && p.root.None? && NoClosing(p) ==> e.StartsNode()
    ensures p.Inside? && p.root.None? ==> e.StartsNode() || e.SequenceEnd? || e.MappingEnd?
    ensures p.Inside? && p.root.None? && p.frames != [] && p.frames[|p.frames| - 1].start.SequenceStart? ==>
              e.StartsNode() || e.SequenceEnd?
    ensures p.Inside? && p.root.None? && p.frames != [] && p.frames[|p.frames| - 1].start.MappingStart? ==>
              e.StartsNode() || e.MappingEnd?
    ensures p.Between? ==> e.DocumentStart? || e.StreamEnd?
  {}

  lemma CloseLast(p: Partial, start: Event, children: seq<Node>, e: Event)
    requires p.Inside? && p.root.None? && start.Opens() && e == Closing(start)
    requires start.MappingStart? ==> |children| % 2 == 0
    requires forall c | c in children :: WellFormed(c)
    ensures Feed(p.(frames := p.frames + [Frame(start, children)]), e) == Some(Attach(p, Collection(start, children)))
    ensures WellFormed(Collection(start, children))
  {
    assert (p.frames + [Frame(start, children)])[..|p.frames|] == p.frames;
  }

  /** A stream ends between documents. */
  lemma EndsBetween(p: Partial)
    requires Feed(p, StreamEnd).Some?
    ensures p.Between?
  {}

  class Composer {
    const parser: Parser
    var event: Option<Event>
    var started: bool
    var anchors: map<string, nat>
    var targets: map<nat, nat>
    var count: nat
    ghost var consumed: seq<Event>

    ghost predicate Valid()
      reads this, parser
    {
      && parser.Valid()
      && parser.error == NoError
      && parser.trace == consumed + (if event.Some? then [event.value] else [])
      && (parser.state.EndState? <==> FeedAll(parser.trace).value.Complete?)
      && count == |consumed| <= 3 * |parser.tokens|
    }

    /** The aliases so far denote their nodes. */
    ghost predicate Linked()
      reads this
    {
      targets == Targets(consumed)
    }

    /** And the anchors of the document so far stand for theirs. */
    ghost predicate Named()
      reads this
    {
      Linked() && anchors == Anchors(consumed)
    }

    constructor (tokens: seq<Token>)
      ensures Valid() && fresh(parser) && parser.tokens == tokens
      ensures consumed == [] && event == None && !started && Linked()
    {
      var p := new Parser(tokens);
      parser := p;
      event, started, anchors, targets, count, consumed := None, false, map[], map[], 0, [];
    }

    ghost function Budget(): int
      reads this, parser
    {
      3 * |parser.tokens| - |consumed|
    }

    /** Looks at the next event without consuming it. */
    method Peek(ghost p: Partial) returns (ok: bool)
      requires Valid() && At(consumed, p) && !p.Complete?
      modifies parser, this`event
      ensures consumed == old(consumed) && parser.Valid()
      ensures ok ==> Valid() && event.Some? && Feed(p, event.value).Some?
      ensures old(event.Some?) ==> ok && event == old(event)
      ensures !ok ==> parser.error != NoError
      ensures ok ==> |consumed| < 3 * |parser.tokens|
    {
      hide FeedFrom, Feed, Resolved;
      if event.None? {
        assert consumed + [] == consumed;
        var e;
        ok, e := parser.Parse();
        if !ok { return false; }
        event := e;
      }
      NextAccepted(consumed, p, event.value);
      return true;
    }

    /** Consumes the next event, which must be of the given kind. */
    method Expect(kind: Kind, ghost p: Partial) returns (problem: Option<Problem>)
      requires Valid() && At(consumed, p) && !p.Complete?
      requires event.Some? && event.value.Alias? ==> event.value.anchor in Anchors(consumed)
      requires event.None? ==> kind != AliasKind
      modifies parser, this`event, this`consumed, this`count
      ensures parser.Valid()
      ensures problem.None? ==>
                && Valid() && event == None
                && |consumed| == old(|consumed|) + 1 && |consumed| <= 3 * |parser.tokens|
                && var e := consumed[old(|consumed|)];
                   && consumed == old(consumed) + [e] && KindOf(e) == kind && old(event.Some? ==> event.value == e)
                   && Feed(p, e).Some? && At(consumed, Feed(p, e).value)
                   && Anchors(consumed)
                      == (if e.DocumentStart? then map[] else Anchors(old(consumed)) + AnchorOf(e, old(|consumed|)))
                   && Targets(consumed)
                      == if e.Alias? && e.anchor in Anchors(old(consumed)) then
                           Targets(old(consumed))[old(|consumed|) := Anchors(old(consumed))[e.anchor]]
                         else Targets(old(consumed))
      ensures problem.Some? ==> problem.value.ParseFailed? || problem.value.PastEnd? || problem.value.Unexpected?
      ensures problem == Some(ParseFailed) ==> parser.error != NoError
      ensures problem == Some(PastEnd) ==> p.Between?
      ensures problem == Some(Unexpected) ==> event.Some? && Feed(p, event.value).Some? && KindOf(event.value) != kind
      ensures old(event.Some? && !event.value.StreamEnd? && KindOf(event.value) == kind) ==> problem.None?
    {
      hide Parser.Valid, FeedFrom, Feed, Resolved, Anchors, Targets;
      var ok := Peek(p);
      if !ok { return Some(ParseFailed); }
      if event.value.StreamEnd? {
        EndsBetween(p);
        return Some(PastEnd);
      }
      if KindOf(event.value) != kind { return Some(Unexpected); }
      AtNext(consumed, p, event.value);
      AnchorsNext(consumed, event.value);
      TargetsNext(consumed, event.value);
      consumed := consumed + [event.value];
      count := count + 1;
      event := None;
      return None;
    }

    /** A node is due and the next event, when it has been looked at, starts one. */
    ghost predicate NodeNext(p: Partial)
      reads this
    {
      && p.Inside? && p.root.None?
      && (if event.Some? then event.value.StartsNode() else NoClosing(p))
    }

    /** The outcome of composing one node at `p`. */
    twostate predicate NodeComposed(p: Partial, r: Composed)
      requires p.Inside?
      reads this, parser
    {
      && parser.Valid()
      && !r.NoMore?
      && (r.Failure? ==> FailedProperly(r.problem))
      && (r.Built? ==>
            && Valid() && event.None? && started && Named()
            && old(|consumed|) < |consumed|
            && r.tree.NodeTree? && WellFormed(r.tree.node)
            && At(consumed, Attach(p, r.tree.node)))
    }

    ghost predicate FailedProperly(problem: Problem)
      reads this, parser
    {
      && problem.Expected()
      && (problem.ParseFailed? ==> parser.error != NoError)
      && (problem.UnknownAnchor? ==>
            Valid() && event == Some(Alias(problem.name)) && problem.name !in Anchors(consumed))
    }

    method ComposeScalar(ghost p: Partial) returns (r: Composed)
      requires Valid() && At(consumed, p) && NodeNext(p) && started && Named()
      requires event.Some? && event.value.Scalar?
      modifies parser, this`event, this`consumed, this`count, this`anchors
      ensures NodeComposed(p, r)
    {
      hide Parser.Valid, FeedFrom, Resolved, Anchors, Targets, Attach;
      var e := event.value;
      var n := Leaf(e);
      if e.anchor != "" { anchors := anchors[e.anchor := count]; }
      var problem := Expect(ScalarKind, p);
      assert problem.None?;
      return Built(NodeTree(n));
    }

    method ComposeAlias(ghost p: Partial) returns (r: Composed)
      requires Valid() && At(consumed, p) && NodeNext(p) && started && Named()
      requires event.Some? && event.value.Alias?
      modifies parser, this`event, this`consumed, this`count, this`targets
      ensures NodeComposed(p, r)
    {
      hide Parser.Valid, FeedFrom, Resolved, Anchors, Targets, Attach;
      var e := event.value;
      if e.anchor !in anchors { return Failure(UnknownAnchor(e.anchor)); }
      var node, target := count, anchors[e.anchor];
      var problem := Expect(AliasKind, p);
      assert problem.None?;
      targets := targets[node := target];
      return Built(NodeTree(Leaf(e)));
    }

    /** Consumes the start of a collection, and looks at what follows. */
    method OpenNode(ghost p: Partial, kind: Kind) returns (ok: bool)
      requires Valid() && At(consumed, p) && NodeNext(p) && started && Named()
      requires event.Some? && event.value.Opens() && kind == KindOf(event.value)
      modifies parser, this`event, this`consumed, this`count, this`anchors
      ensures parser.Valid() && (!ok ==> parser.error != NoError)
      ensures ok ==>
                && Valid() && old(|consumed|) < |consumed| && Named() && event.Some?
                && var q := p.(frames := p.frames + [Frame(old(event.value), [])]);
                   At(consumed, q) && Feed(q, event.value).Some?
    {
      hide Parser.Valid, FeedFrom, Resolved, Anchors, Targets, WellFormed, Attach;
      var start := event.value;
      if start.anchor != "" { anchors := anchors[start.anchor := count]; }
      var problem := Expect(kind, p);
      assert problem.None?;
      ok := Peek(p.(frames := p.frames + [Frame(start, [])]));
    }

    /** Consumes the end of a collection. */
    method CloseNode(ghost p: Partial, start: Event, children: seq<Node>, kind: Kind) returns (r: Composed)
      requires p.Inside? && p.root.None? && start.Opens()
      requires Valid() && At(consumed, p.(frames := p.frames + [Frame(start, children)]))
      requires started && Named()
      requires event == Some(Closing(start)) && kind == KindOf(Closing(start))
      requires start.MappingStart? ==> |children| % 2 == 0
      requires forall c | c in children :: WellFormed(c)
      modifies parser, this`event, this`consumed, this`count
      ensures NodeComposed(p, r)
    {
      hide Parser.Valid, FeedFrom, Resolved, Anchors, Targets, WellFormed, Attach;
      CloseLast(p, start, children, Closing(start));
      var problem := Expect(kind, p.(frames := p.frames + [Frame(start, children)]));
      assert problem.None?;
      return Built(NodeTree(Collection(start, children)));
    }

    method ComposeSequence(ghost p: Partial) returns (r: Composed)
      requires Valid() && At(consumed, p) && NodeNext(p) && started && Named()
      requires event.Some? && event.value.SequenceStart?
      modifies parser, this
      ensures NodeComposed(p, r)
      decreases Budget(), 1
    {
      hide Parser.Valid, FeedFrom, Resolved, Anchors, Targets, WellFormed, Attach;
      var start := event.value;
      var ok := OpenNode(p, SequenceStartKind);
      if !ok { return Failure(ParseFailed); }
      var children := [];
      ghost var q := p.(frames := p.frames + [Frame(start, children)]);
      while !event.value.SequenceEnd?
        invariant Valid() && old(|consumed|) < |consumed| && started && Named()
        invariant q == p.(frames := p.frames + [Frame(start, children)]) && At(consumed, q)
        invariant event.Some? && Feed(q, event.value).Some?
        invariant forall c | c in children :: WellFormed(c)
        decreases Budget()
      {
        OpenNext(q, event.value);
        var child := Parse(q);
        if child.Failure? { return child; }
        AttachLast(q, p.frames, Frame(start, children), child.tree.node);
        children := children + [child.tree.node];
        q := p.(frames := p.frames + [Frame(start, children)]);
        ok := Peek(q);
        if !ok { return Failure(ParseFailed); }
      }
      r := CloseNode(p, start, children, SequenceEndKind);
    }

    method ComposePair(ghost p: Partial, ghost start: Event, ghost children: seq<Node>)
      returns (key: Composed, value: Composed)
      requires p.Inside? && p.root.None? && start.MappingStart? && |children| % 2 == 0
      requires Valid() && started && Named()
      requires At(consumed, p.(frames := p.frames + [Frame(start, children)]))
      requires event.Some? && event.value.StartsNode()
      modifies parser, this
      ensures parser.Valid()
      ensures key.Failure? || value.Failure? ==>
                value.Failure? && FailedProperly(value.problem)
      ensures !value.Failure? ==>
                && Valid() && event.None? && started && Named()
                && old(|consumed|) < |consumed|
                && key.Built? && key.tree.NodeTree? && WellFormed(key.tree.node)
                && value.Built? && value.tree.NodeTree? && WellFormed(value.tree.node)
                && At(consumed, p.(frames := p.frames + [Frame(start, children + [key.tree.node, value.tree.node])]))
      decreases Budget(), 3
    {
      hide Parser.Valid, FeedFrom, Resolved, Anchors, Targets, WellFormed, Attach;
      ghost var q := p.(frames := p.frames + [Frame(start, children)]);
      key := Parse(q);
      if key.Failure? { return key, key; }
      ghost var withKey := children + [key.tree.node];
      AttachLast(q, p.frames, Frame(start, children), key.tree.node);
      ghost var h := p.(frames := p.frames + [Frame(start, withKey)]);
      value := Parse(h);
      if value.Failure? { return; }
      AttachLast(h, p.frames, Frame(start, withKey), value.tree.node);
      assert withKey + [value.tree.node] == children + [key.tree.node, value.tree.node];
    }

    method ComposeMapping(ghost p: Partial) returns (r: Composed)
      requires Valid() && At(consumed, p) && NodeNext(p) && started && Named()
      requires event.Some? && event.value.MappingStart?
      modifies parser, this
      ensures NodeComposed(p, r)
      decreases Budget(), 1
    {
      hide Parser.Valid, FeedFrom, Resolved, Anchors, Targets, WellFormed, Attach;
      var start := event.value;
      var ok := OpenNode(p, MappingStartKind);
      if !ok { return Failure(ParseFailed); }
      var children := [];
      ghost var q := p.(frames := p.frames + [Frame(start, children)]);
      while !event.value.MappingEnd?
        invariant Valid() && old(|consumed|) < |consumed| && started && Named()
        invariant q == p.(frames := p.frames + [Frame(start, children)]) && At(consumed, q)
        invariant event.Some? && Feed(q, event.value).Some?
        invariant |children| % 2 == 0 && forall c | c in children :: WellFormed(c)
        decreases Budget()
      {
        OpenNext(q, event.value);
        var key, value := ComposePair(p, start, children);
        if value.Failure? { return value; }
        children := children + [key.tree.node, value.tree.node];
        q := p.(frames := p.frames + [Frame(start, children)]);
        ok := Peek(q);
        if !ok { return Failure(ParseFailed); }
      }
      r := CloseNode(p, start, children, MappingEndKind);
    }

    /** The outcome of composing one document after those of `docs`. */
    twostate predicate DocumentComposed(docs: seq<Document>, r: Composed)
      reads this, parser
    {
      && parser.Valid()
      && (r.Failure? ==> FailedProperly(r.problem))
      && (!r.Failure? ==> Valid() && started && Linked())
      && (r.NoMore? ==> event == Some(StreamEnd) && At(consumed, Between(docs)))
      && (r.Built? ==>
            && event.None? && old(|consumed|) < |consumed| && r.tree.DocumentTree?
            && At(consumed, Between(docs + [r.tree.doc])))
    }

    method ComposeDocument(ghost p: Partial) returns (r: Composed)
      requires Valid() && At(consumed, p) && p.Between? && started && Linked()
      requires event.Some? && event.value.DocumentStart?
      modifies parser, this
      ensures DocumentComposed(p.docs, r)
      decreases Budget(), 1
    {
      hide Parser.Valid, FeedFrom, Resolved, Anchors, Targets, WellFormed;
      var start := event.value;
      anchors := map[];
      var problem := Expect(DocumentStartKind, p);
      assert problem.None?;
      ghost var q := Inside(p.docs, start, [], None);
      var root := Parse(q);
      if root.Failure? { return root; }
      q := Attach(q, root.tree.node);
      var ok := Peek(q);
      if !ok { return Failure(ParseFailed); }
      var end := event.value;
      problem := Expect(DocumentEndKind, q);
      assert problem.None?;
      return Built(DocumentTree(Document(start, root.tree.node, end)));
    }

    /** Composes whatever comes next: a node inside a document, a document between documents. */
    method Parse(ghost p: Partial) returns (r: Composed)
      requires Valid() && At(consumed, p) && (p.Unstarted? <==> !started) && (!started ==> event.None?)
      requires Linked() && (p.Inside? ==> NodeNext(p) && Named())
      requires !p.Complete?
      modifies parser, this
      ensures p.Inside? ==> NodeComposed(p, r)
      ensures !p.Inside? ==> DocumentComposed(if p.Between? then p.docs else [], r)
      decreases Budget(), 2
    {
      hide Parser.Valid, FeedFrom, Resolved, Anchors, Targets, WellFormed, Attach;
      ghost var q := p;
      if !started {
        var problem := Expect(StreamStartKind, p);
        if problem.Some? { return Failure(problem.value); }
        started := true;
        q := Between([]);
      }
      var ok := Peek(q);
      if !ok { return Failure(ParseFailed); }
      OpenNext(q, event.value);
      match event.value
      case Scalar(_, _, _, _, _, _) => r := ComposeScalar(q);
      case Alias(_) => r := ComposeAlias(q);
      case MappingStart(_, _, _, _) => r := ComposeMapping(q);
      case SequenceStart(_, _, _, _) => r := ComposeSequence(q);
      case DocumentStart(_, _, _) => r := ComposeDocument(q);
      case StreamEnd => r := NoMore;
      case _ => r := Failure(UnknownEvent);
    }
  }

  /** Composes every document.  Without a failure the documents spell out a whole stream whose
      aliases all resolve and whose content is that of the tokens consumed, and each alias denotes the
      latest node with its anchor; the only failures are those of the parser and an alias whose anchor
      its document has not introduced. */
  method ComposeAll(tokens: seq<Token>) returns (docs: seq<Document>, problem: Option<Problem>, targets: map<nat, nat>)
    ensures problem.None? ==>
              forall i | 0 <= i < |StreamEvents(docs)| && StreamEvents(docs)[i].Alias? ::
                i in targets && LatestBefore(StreamEvents(docs), targets[i], i, StreamEvents(docs)[i].anchor)
    ensures problem.None? ==>
              && WellFormedDocs(docs) && Resolved(StreamEvents(docs))
              && exists n | 0 <= n <= |tokens| :: EventsContent(StreamEvents(docs)) == TokensContent(tokens, n)
    ensures problem.Some? ==> problem.value.Expected()
    ensures problem.None? ==> forall i | 0 <= i < |StreamEvents(docs)| :: FlagsFit(StreamEvents(docs)[i])
    ensures problem.None? ==> exists m :: Emits(tokens, START, StreamEvents(docs), m) && m.cfg.state.EndState?
    ensures problem == Some(ParseFailed) ==>
              exists es, m :: Emits(tokens, START, es, m) && !m.cfg.state.EndState? && StepOf(tokens, m).Stuck?
    ensures problem.Some? && problem.value.UnknownAnchor? ==>
              exists es, m :: Emits(tokens, START, es + [Alias(problem.value.name)], m)
                              && problem.value.name !in Anchors(es)
  {
    hide Parser.Valid, FeedFrom, Resolved, Anchors, Targets, StreamEvents, Emits, StepOf, LatestBefore,
         FlagsFit;
    var composer := new Composer(tokens);
    docs := [];
    AtStart();
    ghost var p := Unstarted;
    var r := composer.Parse(p);
    while r.Built?
      invariant fresh(composer) && fresh(composer.parser) && composer.parser.tokens == tokens
      invariant composer.parser.Valid() && (r.Failure? ==> composer.FailedProperly(r.problem))
      invariant !r.Failure? ==> composer.Valid() && composer.started && composer.Linked()
      invariant r.NoMore? ==> composer.event == Some(StreamEnd) && At(composer.consumed, Between(docs))
      invariant r.Built? ==>
                  && composer.event.None? && r.tree.DocumentTree?
                  && At(composer.consumed, Between(docs + [r.tree.doc]))
      decreases if r.Built? then composer.Budget() + 1 else 0
    {
      docs := docs + [r.tree.doc];
      r := composer.Parse(Between(docs));
    }
    if r.Failure? {
      ParserRun(composer.parser);
      if r.problem.UnknownAnchor? {
        ghost var es, m := composer.consumed, Machine(composer.parser.Now(), composer.parser.directives);
        assert Emits(tokens, START, es + [Alias(r.problem.name)], m);
      }
      return docs, Some(r.problem), composer.targets;
    }
    ParserRun(composer.parser);
    AtNext(composer.consumed, Between(docs), StreamEnd);
    TargetsNext(composer.consumed, StreamEnd);
    CompleteLanguage(composer.parser.trace, docs);
    ParsedContent(composer.parser);
    RunFlags(tokens, START, StreamEvents(docs), Machine(composer.parser.Now(), composer.parser.directives));
    forall i | 0 <= i < |StreamEvents(docs)| && StreamEvents(docs)[i].Alias?
      ensures i in composer.targets
      ensures LatestBefore(StreamEvents(docs), composer.targets[i], i, StreamEvents(docs)[i].anchor)
    {
      AliasDenotes(StreamEvents(docs), i);
    }
    return docs, None, composer.targets;
  }

  lemma AtStart()
    ensures At([], Unstarted)
  {}

  lemma ParsedContent(parser: Parser)
    requires parser.Valid() && parser.error == NoError
    ensures parser.head <= |parser.tokens|
    ensures EventsContent(parser.trace) == TokensContent(parser.tokens, parser.head)
  {
    hide EventsContent, TokensContent;
  }

  /** The parser's events are those of the machine on values. */
  lemma ParserRun(parser: Parser)
    requires parser.Valid()
    ensures parser.error == NoError ==>
              Emits(parser.tokens, START, parser.trace, Machine(parser.Now(), parser.directives))
    ensures parser.error != NoError ==>
              && Emits(parser.tokens, START, parser.trace, parser.last) && !parser.last.cfg.state.EndState?
              && StepOf(parser.tokens, parser.last).Stuck?
  {
    hide Emits, StepOf;
  }
}
