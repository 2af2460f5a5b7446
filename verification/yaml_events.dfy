/**
 The event language spoken by the YAML parser, the composer and the emitter.

 A stream is `STREAM-START (DOCUMENT-START node DOCUMENT-END)* STREAM-END`, and a node is an
 alias, a scalar, a bracketed list of nodes, or a bracketed list of key/value pairs.  The module
 states the language twice: as the events of a list of document trees (`StreamEvents`), and as a
 stack automaton that reads one event at a time (`Feed`).  `PrefixLanguage` and `CompleteLanguage`
 show that the two describe the same language.
 */
module YamlEvents {
  import opened Options

  datatype ScalarStyle = AnyStyle | Plain | SingleQuoted | DoubleQuoted | Literal | Folded

  datatype Version = Version(major: int, minor: int)

  datatype TagDirective = TagDirective(handle: string, prefix: string)

  predicate DistinctHandles(ds: seq<TagDirective>) {
    forall i, j | 0 <= i < j < |ds| :: ds[i].handle != ds[j].handle
  }

  predicate HasHandle(ds: seq<TagDirective>, handle: string) {
    exists i | 0 <= i < |ds| :: ds[i].handle == handle
  }

  /** An absent anchor, tag or value is the empty string. */
  datatype Event =
    | StreamStart
    | StreamEnd
    | DocumentStart(version: Option<Version>, directives: seq<TagDirective>, docImplicit: bool)
    | DocumentEnd(endImplicit: bool)
    | Alias(anchor: string)
    | Scalar(anchor: string, tag: string, value: string,
             implicit: bool, quotedImplicit: bool, style: ScalarStyle)
    | SequenceStart(anchor: string, tag: string, implicit: bool, flow: bool)
    | SequenceEnd
    | MappingStart(anchor: string, tag: string, implicit: bool, flow: bool)
    | MappingEnd
  {
    predicate Opens() { SequenceStart? || MappingStart? }
    predicate IsLeaf() { Alias? || Scalar? }
    predicate StartsNode() { Opens() || IsLeaf() }
  }

  /** The scalar that stands for a node that is not written. */
  const FILLER: Event := Scalar("", "", "", true, false, Plain)

  /** A mapping keeps its keys and values alternating in one list of children. */
  datatype Node =
    | Leaf(event: Event)
    | Collection(start: Event, children: seq<Node>)

  datatype Document = Document(start: Event, root: Node, end: Event)

  ghost predicate WellFormed(n: Node) {
    match n
    case Leaf(e) => e.IsLeaf()
    case Collection(s, cs) =>
      && s.Opens()
      && (s.MappingStart? ==> |cs| % 2 == 0)
      && (forall c | c in cs :: WellFormed(c))
  }

  ghost predicate WellFormedDocs(docs: seq<Document>) {
    forall d | d in docs :: d.start.DocumentStart? && WellFormed(d.root) && d.end.DocumentEnd?
  }

  function Closing(start: Event): Event {
    if start.SequenceStart? then SequenceEnd else MappingEnd
  }

  function NodeEvents(n: Node): seq<Event>
    decreases n, 0
  {
    match n
    case Leaf(e) => [e]
    case Collection(s, cs) => [s] + NodesEvents(cs) + [Closing(s)]
  }

  function NodesEvents(ns: seq<Node>): seq<Event>
    decreases ns, 1
  {
    if ns == [] then [] else NodesEvents(ns[..|ns| - 1]) + NodeEvents(ns[|ns| - 1])
  }

  function DocEvents(d: Document): seq<Event> {
    [d.start] + NodeEvents(d.root) + [d.end]
  }

  function DocsEvents(docs: seq<Document>): seq<Event> {
    if docs == [] then [] else DocsEvents(docs[..|docs| - 1]) + DocEvents(docs[|docs| - 1])
  }

  function StreamEvents(docs: seq<Document>): seq<Event> {
    [StreamStart] + DocsEvents(docs) + [StreamEnd]
  }

  // ---------------------------------------------------------------------------------------------
  // The automaton

  /** A collection that has been opened and not yet closed. */
  datatype Frame = Frame(start: Event, children: seq<Node>)

  /** What has been read so far of a stream. */
  datatype Partial =
    | Unstarted
    | Between(docs: seq<Document>)
    | Inside(docs: seq<Document>, start: Event, frames: seq<Frame>, root: Option<Node>)
    | Complete(docs: seq<Document>)

  /** Adds a finished node to the innermost open collection, or makes it the document's root. */
  function Attach(p: Partial, n: Node): Partial
    requires p.Inside?
  {
    if p.frames == [] then p.(root := Some(n))
    else
      var top := p.frames[|p.frames| - 1];
      p.(frames := p.frames[..|p.frames| - 1] + [Frame(top.start, top.children + [n])])
  }

  function Feed(p: Partial, e: Event): Option<Partial> {
    match p
    case Unstarted => if e.StreamStart? then Some(Between([])) else None
    case Between(docs) =>
      if e.DocumentStart? then Some(Inside(docs, e, [], None))
      else if e.StreamEnd? then Some(Complete(docs))
      else None
    case Complete(_) => None
    case Inside(docs, start, frames, root) =>
      if root.Some? then
        if e.DocumentEnd? then Some(Between(docs + [Document(start, root.value, e)])) else None
      else if e.IsLeaf() then Some(Attach(p, Leaf(e)))
      else if e.Opens() then Some(p.(frames := frames + [Frame(e, [])]))
      else if CanClose(frames, e) then
        var top := frames[|frames| - 1];
        Some(Attach(p.(frames := frames[..|frames| - 1]), Collection(top.start, top.children)))
      else None
  }

  predicate CanClose(frames: seq<Frame>, e: Event) {
    && frames != []
    && var top := frames[|frames| - 1];
       || (e.SequenceEnd? && top.start.SequenceStart?)
       || (e.MappingEnd? && top.start.MappingStart? && |top.children| % 2 == 0)
  }

  function FeedFrom(p: Partial, es: seq<Event>): Option<Partial> {
    if es == [] then Some(p)
    else
      match FeedFrom(p, es[..|es| - 1])
      case None => None
      case Some(q) => Feed(q, es[|es| - 1])
  }

  function FeedAll(es: seq<Event>): Option<Partial> {
    FeedFrom(Unstarted, es)
  }

  // ---------------------------------------------------------------------------------------------
  // Every accepted sequence is what the automaton has recorded

  function FramesEvents(frames: seq<Frame>): seq<Event> {
    if frames == [] then []
    else
      var top := frames[|frames| - 1];
      FramesEvents(frames[..|frames| - 1]) + [top.start] + NodesEvents(top.children)
  }

  function PartialEvents(p: Partial): seq<Event> {
    match p
    case Unstarted => []
    case Between(docs) => [StreamStart] + DocsEvents(docs)
    case Inside(docs, start, frames, root) =>
      [StreamStart] + DocsEvents(docs) + [start] + FramesEvents(frames)
      + (if root.Some? then NodeEvents(root.value) else [])
    case Complete(docs) => StreamEvents(docs)
  }

  ghost predicate ValidFrame(f: Frame) {
    f.start.Opens() && forall c | c in f.children :: WellFormed(c)
  }

  ghost predicate ValidPartial(p: Partial) {
    match p
    case Unstarted => true
    case Between(docs) => WellFormedDocs(docs)
    case Complete(docs) => WellFormedDocs(docs)
    case Inside(docs, start, frames, root) =>
      && WellFormedDocs(docs) && start.DocumentStart?
      && (forall f | f in frames :: ValidFrame(f))
      && (root.Some? ==> frames == [] && WellFormed(root.value))
  }

  function Opening(p: Partial): seq<Event>
    requires p.Inside?
  {
    [StreamStart] + DocsEvents(p.docs) + [p.start]
  }

  lemma {:induction false} FramesSnoc(frames: seq<Frame>, f: Frame)
    ensures FramesEvents(frames + [f]) == FramesEvents(frames) + [f.start] + NodesEvents(f.children)
  {
    assert (frames + [f])[..|frames|] == frames;
  }

  lemma {:induction false} NodesSnoc(ns: seq<Node>, n: Node)
    ensures NodesEvents(ns + [n]) == NodesEvents(ns) + NodeEvents(n)
  {
    assert (ns + [n])[..|ns|] == ns;
  }

  lemma {:induction false} AttachValid(p: Partial, n: Node)
    requires p.Inside? && p.root.None? && ValidPartial(p) && WellFormed(n)
    ensures ValidPartial(Attach(p, n))
  {
    var q := Attach(p, n);
    forall f | f in q.frames ensures ValidFrame(f) {
      if f !in p.frames {
        assert ValidFrame(p.frames[|p.frames| - 1]);
      }
    }
  }

  lemma {:induction false} AttachEvents(p: Partial, n: Node)
    requires p.Inside? && p.root.None?
    ensures PartialEvents(Attach(p, n)) == PartialEvents(p) + NodeEvents(n)
  {
    hide NodeEvents, DocsEvents, NodesEvents;
    if p.frames == [] {
      assert FramesEvents(p.frames) == [];
    } else {
      hide FramesEvents;
      AttachFrames(p, n);
      var above, frames, ns := Opening(p), FramesEvents(p.frames), NodeEvents(n);
      assert above + (frames + ns) == above + frames + ns;
    }
  }

  lemma AttachFrames(p: Partial, n: Node)
    requires p.Inside? && p.frames != []
    ensures Attach(p, n).Inside? && Opening(Attach(p, n)) == Opening(p) && Attach(p, n).root == p.root
    ensures FramesEvents(Attach(p, n).frames) == FramesEvents(p.frames) + NodeEvents(n)
  {
    hide NodeEvents, DocsEvents, FramesEvents, NodesEvents;
    var k := |p.frames| - 1;
    var top := p.frames[k];
    var below := p.frames[..k];
    FramesSnoc(below, Frame(top.start, top.children + [n]));
    NodesSnoc(top.children, n);
    assert below + [top] == p.frames;
    FramesSnoc(below, top);
  }

  lemma {:induction false} FeedValid(p: Partial, e: Event)
    requires ValidPartial(p) && Feed(p, e).Some?
    ensures ValidPartial(Feed(p, e).value)
  {
    if p.Inside? && p.root.None? {
      if e.IsLeaf() {
        AttachValid(p, Leaf(e));
      } else if e.Opens() {
      } else {
        var k := |p.frames| - 1;
        var top := p.frames[k];
        assert ValidFrame(top);
        AttachValid(p.(frames := p.frames[..k]), Collection(top.start, top.children));
      }
    }
  }

  lemma Regroup(o: seq<Event>, f: seq<Event>, s: seq<Event>, ns: seq<Event>, e: seq<Event>)
    ensures o + f + (s + ns + e) == o + (f + s + ns) + e
  {}

  lemma {:induction false} TopFrame(p: Partial)
    requires p.Inside? && p.root.None? && p.frames != []
    ensures var k := |p.frames| - 1;
            && PartialEvents(p.(frames := p.frames[..k])) == Opening(p) + FramesEvents(p.frames[..k])
            && PartialEvents(p) == Opening(p) + (FramesEvents(p.frames[..k]) + [p.frames[k].start]
                                                 + NodesEvents(p.frames[k].children))
  {
    hide NodesEvents, NodeEvents, DocsEvents;
  }

  lemma {:induction false} CloseEvents(p: Partial, e: Event)
    requires p.Inside? && p.root.None? && CanClose(p.frames, e)
    ensures PartialEvents(Feed(p, e).value) == PartialEvents(p) + [e]
  {
    var k := |p.frames| - 1;
    var top := p.frames[k];
    var below := p.frames[..k];
    var q := p.(frames := below);
    var n := Collection(top.start, top.children);
    assert NodeEvents(n) == [top.start] + NodesEvents(top.children) + [e];
    assert Feed(p, e) == Some(Attach(q, n));
    CloseRegroups(p, q, n, e);
  }

  lemma {:induction false} CloseRegroups(p: Partial, q: Partial, n: Node, e: Event)
    requires p.Inside? && p.root.None? && p.frames != []
    requires var k := |p.frames| - 1;
             && q == p.(frames := p.frames[..k])
             && NodeEvents(n) == [p.frames[k].start] + NodesEvents(p.frames[k].children) + [e]
    ensures PartialEvents(Attach(q, n)) == PartialEvents(p) + [e]
  {
    hide *;
    var k := |p.frames| - 1;
    TopFrame(p);
    AttachEvents(q, n);
    Regroup(Opening(p), FramesEvents(p.frames[..k]), [p.frames[k].start],
            NodesEvents(p.frames[k].children), [e]);
  }

  lemma RegroupDocument(o: seq<Event>, ds: seq<Event>, s: seq<Event>, ns: seq<Event>, e: seq<Event>)
    ensures o + (ds + (s + ns + e)) == o + ds + s + [] + ns + e
  {}

  lemma {:induction false} EndDocument(p: Partial, e: Event)
    requires p.Inside? && p.root.Some? && p.frames == [] && e.DocumentEnd?
    ensures PartialEvents(Feed(p, e).value) == PartialEvents(p) + [e]
  {
    var d := Document(p.start, p.root.value, e);
    assert (p.docs + [d])[..|p.docs|] == p.docs;
    assert DocsEvents(p.docs + [d]) == DocsEvents(p.docs) + DocEvents(d);
    RegroupDocument([StreamStart], DocsEvents(p.docs), [p.start], NodeEvents(d.root), [e]);
  }

  lemma {:induction false} FeedEvents(p: Partial, e: Event)
    requires ValidPartial(p) && Feed(p, e).Some?
    ensures PartialEvents(Feed(p, e).value) == PartialEvents(p) + [e]
  {
    if p.Inside? && p.root.None? {
      hide PartialEvents, ValidPartial, NodeEvents, NodesEvents, FramesEvents, DocsEvents;
      if e.IsLeaf() {
        hide Attach;
        AttachEvents(p, Leaf(e));
        LeafEvents(e);
      } else if e.Opens() {
        OpenEvents(p, e);
      } else {
        CloseEvents(p, e);
      }
    } else if p.Inside? {
      hide PartialEvents, NodeEvents, NodesEvents, FramesEvents, DocsEvents;
      EndDocument(p, e);
    } else {
      hide ValidPartial, NodeEvents, NodesEvents;
    }
  }

  lemma {:induction false} LeafEvents(e: Event)
    ensures NodeEvents(Leaf(e)) == [e]
  {}

  lemma {:induction false} OpenEvents(p: Partial, e: Event)
    requires p.Inside? && p.root.None?
    ensures PartialEvents(p.(frames := p.frames + [Frame(e, [])])) == PartialEvents(p) + [e]
  {
    hide NodeEvents, DocsEvents;
    FramesSnoc(p.frames, Frame(e, []));
    hide FramesEvents;
  }

  lemma {:induction false} FeedFromEvents(p: Partial, es: seq<Event>)
    requires ValidPartial(p) && FeedFrom(p, es).Some?
    ensures ValidPartial(FeedFrom(p, es).value)
    ensures PartialEvents(FeedFrom(p, es).value) == PartialEvents(p) + es
  {
    if es == [] {
    } else {
      var k := |es| - 1;
      FeedFromEvents(p, es[..k]);
      FeedValid(FeedFrom(p, es[..k]).value, es[k]);
      FeedEvents(FeedFrom(p, es[..k]).value, es[k]);
      assert es == es[..k] + [es[k]];
    }
  }

  // ---------------------------------------------------------------------------------------------
  // Every sequence of the language is accepted

  function Then(p: Option<Partial>, es: seq<Event>): Option<Partial> {
    if p.None? then None else FeedFrom(p.value, es)
  }

  lemma {:induction false} FeedConcat(p: Partial, a: seq<Event>, b: seq<Event>)
    ensures FeedFrom(p, a + b) == Then(FeedFrom(p, a), b)
  {
    hide Feed;
    if b == [] {
      assert a + b == a;
    } else {
      var k := |b| - 1;
      FeedConcat(p, a, b[..k]);
      assert (a + b)[..|a + b| - 1] == a + b[..k];
    }
  }

  lemma {:induction false} FeedTwice(p: Partial, a: seq<Event>, q: Partial, b: seq<Event>, r: Partial)
    requires FeedFrom(p, a) == Some(q) && FeedFrom(q, b) == Some(r)
    ensures FeedFrom(p, a + b) == Some(r)
  {
    hide FeedFrom;
    FeedConcat(p, a, b);
  }

  lemma {:induction false} FeedOne(p: Partial, e: Event)
    ensures FeedFrom(p, [e]) == Feed(p, e)
  {
    assert [e][..0] == [];
  }

  lemma {:induction false} AttachLast(p: Partial, below: seq<Frame>, f: Frame, n: Node)
    requires p.Inside? && p.frames == below + [f]
    ensures Attach(p, n) == p.(frames := below + [Frame(f.start, f.children + [n])])
  {
    assert p.frames[..|below|] == below;
  }

  lemma {:induction false} FeedNode(p: Partial, n: Node)
    requires p.Inside? && p.root.None? && WellFormed(n)
    ensures FeedFrom(p, NodeEvents(n)) == Some(Attach(p, n))
    decreases n, 0
  {
    match n
    case Leaf(e) =>
      FeedOne(p, e);
    case Collection(s, cs) =>
      FeedCollection(p, s, cs);
  }

  lemma {:induction false} FeedCollection(p: Partial, s: Event, cs: seq<Node>)
    requires p.Inside? && p.root.None? && WellFormed(Collection(s, cs))
    ensures FeedFrom(p, [s] + NodesEvents(cs) + [Closing(s)]) == Some(Attach(p, Collection(s, cs)))
    decreases cs, 2
  {
    hide FeedFrom, NodesEvents, Attach;
    var q := p.(frames := p.frames + [Frame(s, [])]);
    var r := p.(frames := p.frames + [Frame(s, cs)]);
    FeedOne(p, s);
    FeedNodes(q, p.frames, s, cs);
    FeedTwice(p, [s], q, NodesEvents(cs), r);
    assert r.frames[..|p.frames|] == p.frames;
    FeedOne(r, Closing(s));
    FeedTwice(p, [s] + NodesEvents(cs), r, [Closing(s)], Attach(p, Collection(s, cs)));
  }

  lemma {:induction false} FeedNodes(p: Partial, below: seq<Frame>, s: Event, ns: seq<Node>)
    requires p.Inside? && p.root.None? && p.frames == below + [Frame(s, [])]
    requires forall n | n in ns :: WellFormed(n)
    ensures FeedFrom(p, NodesEvents(ns)) == Some(p.(frames := below + [Frame(s, ns)]))
    decreases ns, 1
  {
    hide FeedFrom, Attach, NodeEvents;
    if ns == [] {
      FeedNothing(p);
    } else {
      var m := |ns| - 1;
      FeedNodes(p, below, s, ns[..m]);
      var q := p.(frames := below + [Frame(s, ns[..m])]);
      FeedNode(q, ns[m]);
      AttachLast(q, below, Frame(s, ns[..m]), ns[m]);
      assert ns == ns[..m] + [ns[m]];
      FeedTwice(p, NodesEvents(ns[..m]), q, NodeEvents(ns[m]), Attach(q, ns[m]));
    }
  }

  lemma FeedNothing(p: Partial)
    ensures FeedFrom(p, []) == Some(p)
  {}

  lemma {:induction false} FeedDoc(docs: seq<Document>, d: Document)
    requires d.start.DocumentStart? && WellFormed(d.root) && d.end.DocumentEnd?
    ensures FeedFrom(Between(docs), DocEvents(d)) == Some(Between(docs + [d]))
  {
    hide FeedFrom, NodeEvents;
    var b := Between(docs);
    var i := Inside(docs, d.start, [], None);
    FeedOne(b, d.start);
    FeedNode(i, d.root);
    var j := Inside(docs, d.start, [], Some(d.root));
    FeedTwice(b, [d.start], i, NodeEvents(d.root), j);
    FeedOne(j, d.end);
    FeedTwice(b, [d.start] + NodeEvents(d.root), j, [d.end], Between(docs + [d]));
  }

  lemma StreamStarts()
    ensures Feed(Unstarted, StreamStart) == Some(Between([]))
  {}

  lemma {:induction false} FeedDocs(docs: seq<Document>)
    requires WellFormedDocs(docs)
    ensures FeedAll([StreamStart] + DocsEvents(docs)) == Some(Between(docs))
  {
    hide FeedFrom, DocEvents, WellFormed, Feed;
    if docs == [] {
      assert [StreamStart] + DocsEvents(docs) == [StreamStart];
      StreamStarts();
      FeedOne(Unstarted, StreamStart);
    } else {
      var k := |docs| - 1;
      assert DocsEvents(docs) == DocsEvents(docs[..k]) + DocEvents(docs[k]);
      hide DocsEvents;
      FeedDocs(docs[..k]);
      FeedDoc(docs[..k], docs[k]);
      assert docs == docs[..k] + [docs[k]];
      var before := [StreamStart] + DocsEvents(docs[..k]);
      FeedTwice(Unstarted, before, Between(docs[..k]), DocEvents(docs[k]), Between(docs));
      assert [StreamStart] + DocsEvents(docs) == before + DocEvents(docs[k]);
    }
  }

  /** The automaton completes on exactly the event sequences of well-formed document lists,
      and then has rebuilt those documents. */
  lemma {:induction false} CompleteLanguage(es: seq<Event>, docs: seq<Document>)
    ensures FeedAll(es) == Some(Complete(docs)) <==> WellFormedDocs(docs) && es == StreamEvents(docs)
  {
    hide FeedFrom, DocsEvents;
    if FeedAll(es) == Some(Complete(docs)) {
      FeedFromEvents(Unstarted, es);
    }
    if WellFormedDocs(docs) && es == StreamEvents(docs) {
      FeedDocs(docs);
      FeedOne(Between(docs), StreamEnd);
      FeedTwice(Unstarted, [StreamStart] + DocsEvents(docs), Between(docs), [StreamEnd], Complete(docs));
    }
  }

  /** The event that brings an open document one step closer to its end. */
  function NextClosing(p: Partial): Event
    requires p.Inside?
  {
    if p.root.Some? then DocumentEnd(true)
    else if p.frames == [] then FILLER
    else
      var top := p.frames[|p.frames| - 1];
      if top.start.MappingStart? && |top.children| % 2 == 1 then FILLER else Closing(top.start)
  }

  function ToClose(p: Partial): nat
    requires p.Inside?
  {
    if p.root.Some? then 0
    else
      2 * |p.frames| + 1
      + if p.frames == [] then 0 else |p.frames[|p.frames| - 1].children| % 2
  }

  lemma ClosingStep(p: Partial)
    requires p.Inside? && ValidPartial(p)
    ensures Feed(p, NextClosing(p)).Some?
    ensures var q := Feed(p, NextClosing(p)).value; q.Inside? ==> ToClose(q) < ToClose(p)
  {
    if p.frames != [] {
      assert ValidFrame(p.frames[|p.frames| - 1]);
    }
  }

  lemma {:induction false} Extensible(p: Partial) returns (docs: seq<Document>)
    requires ValidPartial(p)
    ensures WellFormedDocs(docs) && PartialEvents(p) <= StreamEvents(docs)
    decreases p.Inside?, if p.Inside? then ToClose(p) else 0
  {
    match p
    case Unstarted =>
      docs := [];
    case Between(ds) =>
      docs := ds;
    case Complete(ds) =>
      docs := ds;
    case Inside(ds, start, frames, root) =>
      var e := NextClosing(p);
      ClosingStep(p);
      FeedValid(p, e);
      FeedEvents(p, e);
      docs := Extensible(Feed(p, e).value);
  }

  /** The automaton accepts exactly the prefixes of the language. */
  lemma {:induction false} PrefixLanguage(es: seq<Event>)
    ensures FeedAll(es).Some? <==> exists docs :: WellFormedDocs(docs) && es <= StreamEvents(docs)
  {
    hide FeedFrom, DocsEvents;
    if FeedAll(es).Some? {
      FeedFromEvents(Unstarted, es);
      var docs := Extensible(FeedAll(es).value);
      assert es <= StreamEvents(docs);
    }
    if docs :| WellFormedDocs(docs) && es <= StreamEvents(docs) {
      var all := StreamEvents(docs);
      CompleteLanguage(all, docs);
      assert all == es + all[|es|..];
      FeedConcat(Unstarted, es, all[|es|..]);
    }
  }
}
