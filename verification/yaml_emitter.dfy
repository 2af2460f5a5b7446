/**
 The emitter's state machine: a second pushdown machine over the event language, fed through a
 short lookahead queue.

 What it writes is left to the writers; here its stacks are tied to the same automaton that governs
 the parser, which makes the two languages equal.  Whether a block sequence inside a mapping is
 indented depends on the output position and is left open.
 */
module YamlEmitter {
  import opened Options
  import opened YamlEvents

  /** The dispatcher's states.  Two states that run the same production differ in its flag. */
  datatype State =
    | StreamStartState
    | DocumentStartState(firstDocument: bool)
    | DocumentContentState
    | DocumentEndState
    | FlowSequenceItemState(first: bool)
    | FlowMappingKeyState(first: bool)
    | FlowMappingValueState(simple: bool)
    | BlockSequenceItemState(first: bool)
    | BlockMappingKeyState(first: bool)
    | BlockMappingValueState(simple: bool)
    | EndState
  {
    predicate ForSequence() { FlowSequenceItemState? || BlockSequenceItemState? }
    predicate ForKey() { FlowMappingKeyState? || BlockMappingKeyState? }
    predicate ForValue() { FlowMappingValueState? || BlockMappingValueState? }
    predicate InCollection() { ForSequence() || ForKey() || ForValue() }
    predicate First() { (ForSequence() || ForKey()) && first }
    predicate InFlow() { FlowSequenceItemState? || FlowMappingKeyState? || FlowMappingValueState? }
  }

  // ---------------------------------------------------------------------------------------------
  // Which events carry valid attributes

  predicate IsAlpha(c: char) {
    '0' <= c <= '9' || 'A' <= c <= 'Z' || 'a' <= c <= 'z' || c == '_' || c == '-'
  }

  predicate AllAlpha(s: string) {
    forall i | 0 <= i < |s| :: IsAlpha(s[i])
  }

  predicate ValidAnchor(a: string) {
    a != "" && AllAlpha(a)
  }

  predicate ValidDirective(d: TagDirective) {
    && d.handle != "" && d.handle[0] == '!' && d.handle[|d.handle| - 1] == '!'
    && (forall i | 1 <= i < |d.handle| - 1 :: IsAlpha(d.handle[i]))
    && d.prefix != ""
  }

  predicate ValidDirectives(ds: seq<TagDirective>) {
    (forall d | d in ds :: ValidDirective(d)) && DistinctHandles(ds)
  }

  lemma NoDirectives()
    ensures ValidDirectives([])
  {}

  /** Directives are valid as long as each one is and has a handle that is still free. */
  lemma DirectiveFits(tags: seq<TagDirective>, i: nat)
    requires i < |tags|
    ensures tags[..i + 1] == tags[..i] + [tags[i]]
    ensures ValidDirectives(tags) ==> ValidDirective(tags[i]) && !HasHandle(tags[..i], tags[i].handle)
    ensures ValidDirectives(tags[..i]) && ValidDirective(tags[i]) && !HasHandle(tags[..i], tags[i].handle) ==>
              ValidDirectives(tags[..i + 1])
  {
    hide ValidDirective;
    assert tags[i] in tags;
  }

  /** The events the emitter has no quarrel with in themselves. */
  predicate Acceptable(e: Event) {
    match e
    case DocumentStart(version, directives, _) =>
      (version.Some? ==> version.value == Version(1, 1)) && ValidDirectives(directives)
    case Alias(anchor) => ValidAnchor(anchor)
    case Scalar(anchor, tag, _, implicit, quotedImplicit, _) =>
      (anchor != "" ==> ValidAnchor(anchor)) && (tag != "" || implicit || quotedImplicit)
    case SequenceStart(anchor, _, _, _) => anchor != "" ==> ValidAnchor(anchor)
    case MappingStart(anchor, _, _, _) => anchor != "" ==> ValidAnchor(anchor)
    case StreamStart => true
    case StreamEnd => true
    case DocumentEnd(_) => true
    case SequenceEnd => true
    case MappingEnd => true
  }

  // ---------------------------------------------------------------------------------------------
  // How the state stack mirrors the open collections

  predicate Shape(s: State, frames: seq<Frame>, extra: nat) {
    && frames != []
    && var top := frames[|frames| - 1];
       && (s.ForSequence() ==> top.start.SequenceStart?)
       && (!s.ForSequence() ==>
             top.start.MappingStart? && ((|top.children| + extra) % 2 == 1 <==> s.ForValue()))
  }

  /** `states` holds where to go once a node has been attached below `frames`. */
  predicate Awaits(states: seq<State>, frames: seq<Frame>)
    decreases |states|
  {
    && states != []
    && var k := |states| - 1;
       if states[k].DocumentEndState? then k == 0 && frames == []
       else
         && states[k].InCollection() && !states[k].First() && Shape(states[k], frames, 1)
         && Awaits(states[..k], frames[..|frames| - 1])
  }

  predicate Positioned(s: State, states: seq<State>, p: Partial) {
    if s.InCollection() then
      && p.Inside? && p.root.None? && Shape(s, p.frames, 0)
      && Awaits(states, p.frames[..|p.frames| - 1])
    else if s.StreamStartState? then p.Unstarted? && states == []
    else if s.DocumentStartState? then p.Between? && states == []
    else if s.EndState? then p.Complete? && states == []
    else p.Inside? && p.frames == [] && states == [] && (s.DocumentEndState? <==> p.root.Some?)
  }

  /** The collections in progress: those that have pushed an indentation. */
  function InProgress(s: State, states: seq<State>): seq<State> {
    if s.InCollection() && !s.First() then states + [s] else states
  }

  function Collections(states: seq<State>): nat {
    if states == [] then 0
    else
      Collections(states[..|states| - 1]) + if states[|states| - 1].InCollection() then 1 else 0
  }

  function Flows(states: seq<State>): nat {
    if states == [] then 0
    else Flows(states[..|states| - 1]) + if states[|states| - 1].InFlow() then 1 else 0
  }

  /** Inside a flow collection every collection is a flow collection. */
  predicate FlowInside(states: seq<State>) {
    forall i, j | 0 <= i < j < |states| :: states[i].InFlow() ==> states[j].InFlow()
  }

  /** Indentation starts at -1 and is non-negative inside any collection. */
  predicate Indented(indents: seq<int>, indent: int) {
    if indents == [] then indent == -1
    else indents[0] == -1 && indent >= 0 && forall i | 0 < i < |indents| :: indents[i] >= 0
  }

  // ---------------------------------------------------------------------------------------------
  // The transition table

  datatype Config = Config(state: State, states: seq<State>)

  /** Where a production goes once the node it asks for is complete. */
  predicate After(s: State, next: State) {
    if s.FlowSequenceItemState? then next == FlowSequenceItemState(false)
    else if s.BlockSequenceItemState? then next == BlockSequenceItemState(false)
    else if s.FlowMappingKeyState? then next.FlowMappingValueState?
    else if s.BlockMappingKeyState? then next.BlockMappingValueState?
    else if s.FlowMappingValueState? then next == FlowMappingKeyState(false)
    else if s.BlockMappingValueState? then next == BlockMappingKeyState(false)
    else s.DocumentContentState? && next == DocumentEndState
  }

  predicate Opened(e: Event, s: State) {
    || (e.SequenceStart? && s.ForSequence() && s.First())
    || (e.MappingStart? && s.ForKey() && s.First())
  }

  predicate Stays(c: Config, e: Event, d: Config) {
    e.IsLeaf() && After(c.state, d.state) && d.states == c.states
  }

  predicate Enters(c: Config, e: Event, d: Config) {
    && d.states != [] && After(c.state, d.states[|d.states| - 1])
    && d.states[..|d.states| - 1] == c.states
    && Opened(e, d.state)
  }

  predicate Ends(s: State, e: Event) {
    (s.ForSequence() && e.SequenceEnd?) || (s.ForKey() && e.MappingEnd?)
  }

  predicate Leaves(c: Config, e: Event, d: Config) {
    && Ends(c.state, e) && c.states != []
    && d.state == c.states[|c.states| - 1] && d.states == c.states[..|c.states| - 1]
  }

  predicate MovesDocument(c: Config, e: Event, d: Config) {
    && d.states == c.states
    && (|| (c.state.StreamStartState? && e.StreamStart? && d.state == DocumentStartState(true))
        || (c.state.DocumentStartState? && e.DocumentStart? && d.state.DocumentContentState?)
        || (c.state.DocumentStartState? && e.StreamEnd? && d.state.EndState?)
        || (c.state.DocumentEndState? && e.DocumentEnd? && d.state == DocumentStartState(false)))
  }

  predicate Transition(c: Config, e: Event, d: Config) {
    Stays(c, e, d) || Enters(c, e, d) || Leaves(c, e, d) || MovesDocument(c, e, d)
  }

  /** What a state refuses. */
  predicate Refuses(s: State, e: Event) {
    if s.StreamStartState? then !e.StreamStart?
    else if s.DocumentStartState? then !e.DocumentStart? && !e.StreamEnd?
    else if s.DocumentEndState? then !e.DocumentEnd?
    else if s.EndState? then true
    else !e.StartsNode() && !Ends(s, e)
  }

  lemma {:induction false} AttachResumes(states: seq<State>, p: Partial, n: Node)
    requires p.Inside? && p.root.None? && Awaits(states, p.frames)
    ensures Positioned(states[|states| - 1], states[..|states| - 1], Attach(p, n))
  {
    var k := |states| - 1;
    if !states[k].DocumentEndState? {
      var q := Attach(p, n);
      assert q.frames[..|q.frames| - 1] == p.frames[..|p.frames| - 1];
    }
  }

  lemma {:induction false} PushAwaits(s: State, states: seq<State>, p: Partial, next: State)
    requires Positioned(s, states, p) && After(s, next)
    ensures p.Inside? && p.root.None? && Awaits(states + [next], p.frames)
  {
    hide Awaits;
    if s.InCollection() {
      ShapeAfter(s, next, p.frames);
      AwaitsOn(states, next, p.frames);
    } else {
      AwaitsEnd();
      assert [] + [DocumentEndState] == [DocumentEndState];
    }
  }

  lemma ShapeAfter(s: State, next: State, frames: seq<Frame>)
    requires s.InCollection() && Shape(s, frames, 0) && After(s, next)
    ensures next.InCollection() && !next.First() && Shape(next, frames, 1)
  {}

  lemma {:induction false} AwaitsOn(states: seq<State>, next: State, frames: seq<Frame>)
    requires next.InCollection() && !next.First() && Shape(next, frames, 1)
    requires Awaits(states, frames[..|frames| - 1])
    ensures Awaits(states + [next], frames)
  {
    hide Shape;
    assert (states + [next])[..|states|] == states;
  }

  lemma {:induction false} AwaitsEnd()
    ensures Awaits([DocumentEndState], [])
  {}

  lemma {:induction false} OpenCollection(states: seq<State>, p: Partial, e: Event, s: State)
    requires p.Inside? && p.root.None? && Awaits(states, p.frames) && Opened(e, s)
    ensures Feed(p, e).Some? && Positioned(s, states, Feed(p, e).value)
  {
    assert (p.frames + [Frame(e, [])])[..|p.frames|] == p.frames;
  }

  lemma {:induction false} LeavesKeeps(c: Config, p: Partial, e: Event, d: Config)
    requires Positioned(c.state, c.states, p) && Leaves(c, e, d)
    ensures Feed(p, e).Some? && Positioned(d.state, d.states, Feed(p, e).value)
  {
    hide Attach;
    var k := |p.frames| - 1;
    var top := p.frames[k];
    assert Awaits(c.states, p.frames[..k]);
    CloseTop(p, e);
    AttachResumes(c.states, p.(frames := p.frames[..k]), Collection(top.start, top.children));
  }

  lemma {:induction false} CloseTop(p: Partial, e: Event)
    requires p.Inside? && p.root.None? && CanClose(p.frames, e)
    ensures var k := |p.frames| - 1;
            Feed(p, e) == Some(Attach(p.(frames := p.frames[..k]),
                                      Collection(p.frames[k].start, p.frames[k].children)))
  {}

  lemma {:induction false} TransitionKeeps(c: Config, p: Partial, e: Event, d: Config)
    requires Positioned(c.state, c.states, p) && Transition(c, e, d)
    ensures Feed(p, e).Some? && Positioned(d.state, d.states, Feed(p, e).value)
    ensures !d.state.StreamStartState?
  {
    hide Positioned, Feed, Stays, Enters, Leaves, MovesDocument;
    if Stays(c, e, d) {
      StaysKeeps(c, p, e, d);
    } else if Enters(c, e, d) {
      EntersKeeps(c, p, e, d);
    } else if Leaves(c, e, d) {
      LeavesKeeps(c, p, e, d);
    } else {
      DocumentKeeps(c, p, e, d);
    }
    StartsOnce(p, e, d);
  }

  lemma {:induction false} StartsDocument(c: Config, e: Event, d: Config)
    requires Transition(c, e, d) && (c.states != [] ==> Resumable(c.states[|c.states| - 1]))
    ensures e.DocumentStart? ==> c.state.DocumentStartState?
    ensures e.DocumentEnd? ==> c.state.DocumentEndState?
    ensures c.state.DocumentEndState? ==> e.DocumentEnd?
    ensures !d.state.StreamStartState?
    ensures d.state.DocumentStartState? ==> c.state.StreamStartState? || c.state.DocumentEndState?
  {}

  lemma {:induction false} StartsOnce(p: Partial, e: Event, d: Config)
    requires Feed(p, e).Some? && Positioned(d.state, d.states, Feed(p, e).value)
    ensures !d.state.StreamStartState?
  {
    hide Awaits, Shape;
  }

  lemma {:induction false} DocumentKeeps(c: Config, p: Partial, e: Event, d: Config)
    requires Positioned(c.state, c.states, p) && MovesDocument(c, e, d)
    ensures Feed(p, e).Some? && Positioned(d.state, d.states, Feed(p, e).value)
  {
    hide Awaits, Shape;
  }

  lemma {:induction false} StaysKeeps(c: Config, p: Partial, e: Event, d: Config)
    requires Positioned(c.state, c.states, p) && Stays(c, e, d)
    ensures Feed(p, e).Some? && Positioned(d.state, d.states, Feed(p, e).value)
  {
    hide Positioned, Awaits;
    PushAwaits(c.state, c.states, p, d.state);
    AttachResumes(c.states + [d.state], p, Leaf(e));
    assert (c.states + [d.state])[..|c.states|] == c.states;
  }

  lemma {:induction false} EntersKeeps(c: Config, p: Partial, e: Event, d: Config)
    requires Positioned(c.state, c.states, p) && Enters(c, e, d)
    ensures Feed(p, e).Some? && Positioned(d.state, d.states, Feed(p, e).value)
  {
    hide Positioned, Awaits, Feed;
    var next := d.states[|d.states| - 1];
    PushAwaits(c.state, c.states, p, next);
    assert d.states == c.states + [next];
    OpenCollection(d.states, p, e, d.state);
  }

  /** What a state refuses, the automaton refuses too. */
  lemma {:induction false} RefusesKeeps(c: Config, p: Partial, e: Event)
    requires Positioned(c.state, c.states, p) && Refuses(c.state, e)
    ensures Feed(p, e).None?
  {
    hide Awaits;
  }

  // ---------------------------------------------------------------------------------------------
  // Counting open collections

  predicate Balanced(c: Config, indents: seq<int>, indent: int, flowLevel: int) {
    && |indents| == Collections(InProgress(c.state, c.states))
    && flowLevel == Flows(InProgress(c.state, c.states))
    && FlowInside(c.states + [c.state])
    && Indented(indents, indent)
  }

  lemma {:induction false} CountPush(states: seq<State>, s: State)
    ensures Collections(states + [s]) == Collections(states) + if s.InCollection() then 1 else 0
    ensures Flows(states + [s]) == Flows(states) + if s.InFlow() then 1 else 0
  {
    assert (states + [s])[..|states|] == states;
  }

  lemma {:induction false} NoFlow(states: seq<State>)
    requires Flows(states) == 0
    ensures forall i | 0 <= i < |states| :: !states[i].InFlow()
  {
    if states == [] {
    } else {
      var k := |states| - 1;
      NoFlow(states[..k]);
      forall i | 0 <= i < |states| ensures !states[i].InFlow() {
        if i < k { assert !states[..k][i].InFlow(); }
      }
    }
  }

  /** A collection may be opened in block style only outside flow collections. */
  lemma {:induction false} FlowInsidePush(states: seq<State>, s: State)
    requires FlowInside(states) && (Flows(states) > 0 ==> s.InFlow())
    ensures FlowInside(states + [s])
  {
    if Flows(states) == 0 { NoFlow(states); }
  }

  /** The collections and flow levels in progress once a production has started. */
  lemma {:induction false} StartedCounts(c: Config, next: State)
    requires After(c.state, next) && c.state.InCollection()
    ensures Collections(c.states + [next]) == Collections(c.states) + 1
    ensures Flows(c.states + [next]) == Flows(c.states) + if c.state.InFlow() then 1 else 0
    ensures Collections(InProgress(c.state, c.states)) == Collections(c.states) + if c.state.First() then 0 else 1
    ensures Flows(InProgress(c.state, c.states))
         == Flows(c.states) + if c.state.InFlow() && !c.state.First() then 1 else 0
  {
    hide Collections, Flows;
    CountPush(c.states, next);
    CountPush(c.states, c.state);
  }

  lemma {:induction false} FlowInsideNext(c: Config, next: State)
    requires FlowInside(c.states + [c.state]) && After(c.state, next)
    ensures FlowInside(c.states + [next])
  {
    var a := c.states + [c.state];
    var b := c.states + [next];
    forall i, j | 0 <= i < j < |b| && b[i].InFlow() ensures b[j].InFlow() {
      assert a[i] == b[i];
      assert a[|c.states|] == c.state && b[|c.states|] == next;
      assert j < |c.states| ==> a[j] == b[j];
    }
  }

  lemma {:induction false} FlowInsidePop(c: Config)
    requires FlowInside(c.states + [c.state])
    ensures FlowInside(c.states)
  {
    forall i, j | 0 <= i < j < |c.states| && c.states[i].InFlow() ensures c.states[j].InFlow() {
      assert (c.states + [c.state])[i] == c.states[i];
      assert (c.states + [c.state])[j] == c.states[j];
    }
  }

  lemma {:induction false} RootCounts(s: State)
    ensures Collections([]) == Flows([]) == 0
    ensures Collections([DocumentEndState]) == Flows([DocumentEndState]) == 0
    ensures FlowInside([DocumentEndState] + [s]) && FlowInside([] + [s])
  {
    CountPush([], DocumentEndState);
    assert [] + [DocumentEndState] == [DocumentEndState];
  }

  // ---------------------------------------------------------------------------------------------
  // Lookahead

  function Accumulate(e: Event): nat {
    if e.DocumentStart? then 1 else if e.SequenceStart? then 2 else if e.MappingStart? then 3 else 0
  }

  function LevelStep(e: Event): int {
    if e.StreamStart? || e.DocumentStart? || e.Opens() then 1
    else if e.StreamEnd? || e.DocumentEnd? || e.SequenceEnd? || e.MappingEnd? then -1
    else 0
  }

  function Level(es: seq<Event>): int {
    if es == [] then 0 else Level(es[..|es| - 1]) + LevelStep(es[|es| - 1])
  }

  predicate Settles(es: seq<Event>) {
    exists i | 1 <= i <= |es| :: Level(es[..i]) == 0
  }

  /** Whether the queue must grow before its first event is processed. */
  predicate NeedMore(queue: seq<Event>) {
    queue == [] || (|queue| <= Accumulate(queue[0]) && !Settles(queue))
  }

  function Depth(p: Partial): int {
    if p.Unstarted? || p.Complete? then 0 else if p.Between? then 1 else 2 + |p.frames|
  }

  lemma {:induction false} LevelIsDepth(es: seq<Event>)
    requires FeedAll(es).Some?
    ensures Level(es) == Depth(FeedAll(es).value)
  {
    hide Feed, LevelStep;
    if es == [] {
      assert FeedAll(es) == Some(Unstarted);
    } else {
      var k := |es| - 1;
      LevelIsDepth(es[..k]);
      RootAlone(es[..k]);
      DepthStep(FeedAll(es[..k]).value, es[k]);
    }
  }

  predicate Rooted(p: Partial) { p.Inside? && p.root.Some? ==> p.frames == [] }

  /** A root is complete only behind every collection. */
  lemma RootAlone(es: seq<Event>)
    requires FeedAll(es).Some?
    ensures Rooted(FeedAll(es).value)
  {}

  lemma DepthStep(p: Partial, e: Event)
    requires Rooted(p) && Feed(p, e).Some?
    ensures Depth(Feed(p, e).value) == Depth(p) + LevelStep(e)
  {
    if p.Inside? && p.root.None? && !e.IsLeaf() && !e.Opens() {
      var k := |p.frames| - 1;
      AttachKeepsDepth(p.(frames := p.frames[..k]), Collection(p.frames[k].start, p.frames[k].children));
    } else if p.Inside? && e.IsLeaf() {
      AttachKeepsDepth(p, Leaf(e));
    }
  }

  lemma AttachKeepsDepth(p: Partial, n: Node)
    requires p.Inside?
    ensures Attach(p, n).Inside? && |Attach(p, n).frames| == |p.frames|
  {}

  lemma {:induction false} LevelConcat(a: seq<Event>, b: seq<Event>)
    ensures Level(a + b) == Level(a) + Level(b)
  {
    if b == [] {
      assert a + b == a;
    } else {
      var k := |b| - 1;
      LevelConcat(a, b[..k]);
      assert (a + b)[..|a| + k] == a + b[..k];
    }
  }

  lemma LevelOfOne(es: seq<Event>)
    requires es != []
    ensures |es| == 1 ==> Level(es) == LevelStep(es[0])
  {
    if |es| == 1 { assert es[..0] == []; }
  }

  /** A level that starts at one and ends at or below zero passes zero on its way. */
  lemma {:induction false} PassesZero(es: seq<Event>)
    requires es != [] && LevelStep(es[0]) == 1 && Level(es) <= 0
    ensures Settles(es)
  {
    if Level(es) == 0 {
      assert es[..|es|] == es;
    } else {
      var k := |es| - 1;
      LevelOfOne(es);
      PassesZero(es[..k]);
      var i :| 1 <= i <= k && Level(es[..k][..i]) == 0;
      assert es[..k][..i] == es[..i];
    }
  }

  /** At the end of a whole stream nothing is left waiting in the queue. */
  lemma {:induction false} NothingLeft(es: seq<Event>, docs: seq<Document>, k: nat)
    requires WellFormedDocs(docs) && es == StreamEvents(docs)
    requires k <= |es| && NeedMore(es[k..])
    ensures k == |es|
  {
    hide FeedFrom, Level, WellFormedDocs, StreamEvents;
    if k < |es| {
      var queue := es[k..];
      CompleteLanguage(es, docs);
      LevelIsDepth(es);
      assert es == es[..k] + queue;
      FeedConcat(Unstarted, es[..k], queue);
      LevelIsDepth(es[..k]);
      LevelConcat(es[..k], queue);
      if !Settles(queue) {
        PassesZero(queue);
      }
    }
  }

  // ---------------------------------------------------------------------------------------------
  // Layout: which collections are written in flow style, and which keys are simple

  /** The collection that starts at event `i` is empty, as far as the events go. */
  predicate EmptyAt(es: seq<Event>, i: nat) {
    && i + 1 < |es|
    && ((es[i].SequenceStart? && es[i + 1].SequenceEnd?) || (es[i].MappingStart? && es[i + 1].MappingEnd?))
  }

  /** The collections that are open behind `n` events, from the outermost one, and whether they are in
      flow style: those inside one that is, all of them in canonical form, and else those that ask for
      it or are empty. */
  function OpenStyles(es: seq<Event>, canonical: bool, n: nat): seq<bool>
    requires n <= |es|
  {
    if n == 0 then []
    else
      var open, e := OpenStyles(es, canonical, n - 1), es[n - 1];
      if e.Opens() then open + [true in open || canonical || e.flow || EmptyAt(es, n - 1)]
      else if (e.SequenceEnd? || e.MappingEnd?) && open != [] then open[..|open| - 1]
      else open
  }

  /** The tag directives in force behind these events: those of the document, and the two defaults
      unless their handles are taken. */
  function InForce(es: seq<Event>): seq<TagDirective> {
    if es == [] then []
    else
      var e := es[|es| - 1];
      if e.DocumentStart? then
        var ds := if HasHandle(e.directives, "!") then e.directives else e.directives + [TagDirective("!", "!")];
        if HasHandle(ds, "!!") then ds else ds + [TagDirective("!!", "tag:yaml.org,2002:")]
      else if e.DocumentEnd? then []
      else InForce(es[..|es| - 1])
  }

  predicate TagWritten(e: Event, canonical: bool) {
    || (e.Scalar? && e.tag != "" && (canonical || (!e.implicit && !e.quotedImplicit)))
    || (e.Opens() && e.tag != "" && (canonical || !e.implicit))
  }

  /** A tag is split by the first directive whose prefix it starts with, if there is one. */
  predicate Splits(ds: seq<TagDirective>, tag: string, handle: string, suffix: string) {
    || (exists i | 0 <= i < |ds| :: SplitsBy(ds, i, tag, handle, suffix))
    || (handle == "" && suffix == tag && forall j | 0 <= j < |ds| :: !(ds[j].prefix <= tag))
  }

  predicate SplitsBy(ds: seq<TagDirective>, i: nat, tag: string, handle: string, suffix: string)
    requires i < |ds|
  {
    && ds[i].prefix <= tag && handle == ds[i].handle && suffix == tag[|ds[i].prefix|..]
    && forall j | 0 <= j < i :: !(ds[j].prefix <= tag)
  }

  predicate TagParts(e: Event, ds: seq<TagDirective>, canonical: bool, handle: string, suffix: string) {
    if TagWritten(e, canonical) then Splits(ds, e.tag, handle, suffix) else handle == suffix == ""
  }

  predicate HasBreak(value: string) {
    exists i | 0 <= i < |value| :: IsBreak(value[i])
  }

  /** A key is short: an alias, a scalar of one line or an empty collection, with an anchor, a tag and
      a value of no more than 128 characters in all. */
  ghost predicate ShortKey(e: Event, empty: bool, ds: seq<TagDirective>, canonical: bool) {
    if e.Alias? then |e.anchor| <= 128
    else if e.Scalar? then
      && !HasBreak(e.value)
      && exists handle, suffix :: TagParts(e, ds, canonical, handle, suffix)
                                  && |e.anchor| + |handle| + |suffix| + |e.value| <= 128
    else
      && e.Opens() && empty
      && exists handle, suffix :: TagParts(e, ds, canonical, handle, suffix)
                                  && |e.anchor| + |handle| + |suffix| <= 128
  }

  /** The key that ends with event `k` is simple: it is short, and in flow style the form is not
      canonical. */
  ghost predicate SimpleKey(es: seq<Event>, canonical: bool, flow: bool, k: nat)
    requires k < |es|
  {
    && (flow ==> !canonical)
    && (if es[k].IsLeaf() then ShortKey(es[k], false, InForce(es[..k]), canonical)
        else k > 0 && es[k - 1].Opens() && ShortKey(es[k - 1], true, InForce(es[..k - 1]), canonical))
  }

  lemma SplitsOnce(ds: seq<TagDirective>, tag: string, h: string, s: string, h': string, s': string)
    requires Splits(ds, tag, h, s) && Splits(ds, tag, h', s')
    ensures h == h' && s == s'
  {
    if i :| 0 <= i < |ds| && SplitsBy(ds, i, tag, h, s) {
      if j :| 0 <= j < |ds| && SplitsBy(ds, j, tag, h', s') {
        assert i == j;
      }
    }
  }

  lemma PartsOnce(e: Event, ds: seq<TagDirective>, canonical: bool, h: string, s: string, h': string, s': string)
    requires TagParts(e, ds, canonical, h, s) && TagParts(e, ds, canonical, h', s')
    ensures h == h' && s == s'
  {
    hide Splits;
    if TagWritten(e, canonical) { SplitsOnce(ds, e.tag, h, s, h', s'); }
  }

  /** The parts that the analysis has found decide. */
  lemma ShortExactly(e: Event, empty: bool, ds: seq<TagDirective>, canonical: bool, handle: string, suffix: string)
    requires TagParts(e, ds, canonical, handle, suffix)
    ensures e.Scalar? ==>
              (ShortKey(e, empty, ds, canonical) <==>
                 !HasBreak(e.value) && |e.anchor| + |handle| + |suffix| + |e.value| <= 128)
    ensures e.Opens() ==>
              (ShortKey(e, empty, ds, canonical) <==> empty && |e.anchor| + |handle| + |suffix| <= 128)
  {
    hide TagParts, HasBreak;
    forall h, s | TagParts(e, ds, canonical, h, s)
      ensures h == handle && s == suffix
    {
      PartsOnce(e, ds, canonical, h, s, handle, suffix);
    }
  }

  /** The styles of the collections that the machine is in. */
  function StylesOf(states: seq<State>): seq<bool> {
    if states == [] then []
    else
      var s := states[|states| - 1];
      StylesOf(states[..|states| - 1]) + if s.InCollection() then [s.InFlow()] else []
  }

  lemma StylesPush(states: seq<State>, s: State)
    ensures StylesOf(states + [s]) == StylesOf(states) + if s.InCollection() then [s.InFlow()] else []
  {
    assert (states + [s])[..|states|] == states;
  }

  lemma {:induction false} FlowsMean(states: seq<State>)
    ensures Flows(states) > 0 <==> true in StylesOf(states)
  {
    if states == [] {
    } else {
      FlowsMean(states[..|states| - 1]);
    }
  }

  /** What the machine must do with event `k`: open a collection in its style, and take a key for what
      it is. */
  predicate Styled(es: seq<Event>, k: nat, canonical: bool, d: Config, flowLevel: int)
    requires k < |es|
  {
    es[k].Opens() ==>
      (d.state.InFlow() <==> flowLevel > 0 || canonical || es[k].flow || EmptyAt(es, k))
  }

  ghost predicate Keyed(es: seq<Event>, k: nat, canonical: bool, ds: seq<TagDirective>, c: Config, d: Config)
    requires k < |es|
  {
    c.state.ForKey() && es[k].StartsNode() ==>
      && (es[k].Opens() ==> d.states != [])
      && var v := if es[k].IsLeaf() then d.state else d.states[|d.states| - 1];
         && v.ForValue() && v.InFlow() == c.state.InFlow()
         && (v.simple <==> (c.state.InFlow() ==> !canonical) && ShortKey(es[k], EmptyAt(es, k), ds, canonical))
  }

  /** The machine stands right behind the start of a collection exactly if that was the last event. */
  predicate Entered(es: seq<Event>, k: nat, c: Config)
    requires k <= |es|
  {
    if c.state.First() then k > 0 && Opened(es[k - 1], c.state) else k == 0 || !es[k - 1].Opens()
  }

  /** Only the value of a key that is being written can be the value of a simple one. */
  ghost predicate KeysKnown(es: seq<Event>, k: nat, canonical: bool, c: Config)
    requires k <= |es|
  {
    && (forall i | 0 <= i < |c.states| - 1 :: c.states[i].ForValue() ==> !c.states[i].simple)
    && (c.states != [] ==>
          var v := c.states[|c.states| - 1];
          v.ForValue() ==>
            (v.simple <==>
               && k > 0 && c.state.First() && EmptyAt(es, k - 1) && (v.InFlow() ==> !canonical)
               && ShortKey(es[k - 1], true, InForce(es[..k - 1]), canonical)))
  }

  /** So far every collection was opened in its style and every key was taken for what it is; `trail`
      lists the states behind each event. */
  ghost predicate TrailFits(es: seq<Event>, canonical: bool, trail: seq<State>)
    requires |trail| <= |es|
  {
    forall i | 0 <= i < |trail| ::
      && (es[i].Opens() ==>
            var open := OpenStyles(es, canonical, i + 1); open != [] && trail[i].InFlow() == open[|open| - 1])
      && (trail[i].ForValue() ==> (trail[i].simple <==> SimpleKey(es, canonical, trail[i].InFlow(), i)))
  }

  ghost predicate LaidOut(es: seq<Event>, k: nat, canonical: bool, c: Config, trail: seq<State>) {
    && Looked(es, k) && |trail| == k
    && StylesOf(c.states + [c.state]) == OpenStyles(es, canonical, k)
    && Entered(es, k, c) && KeysKnown(es, k, canonical, c) && TrailFits(es, canonical, trail)
  }

  // More events to come change nothing.

  predicate Looked(es: seq<Event>, n: nat) {
    n <= |es| && (n > 0 && es[n - 1].Opens() ==> n < |es|)
  }

  lemma {:induction false} StylesStay(es: seq<Event>, fs: seq<Event>, canonical: bool, n: nat)
    requires es <= fs && Looked(es, n)
    ensures OpenStyles(fs, canonical, n) == OpenStyles(es, canonical, n)
    decreases n
  {
    if n == 0 {
    } else {
      StylesStay(es, fs, canonical, n - 1);
      EmptyStays(es, fs, n - 1);
    }
  }

  lemma EmptyStays(es: seq<Event>, fs: seq<Event>, i: nat)
    requires es <= fs && i < |es| && (es[i].Opens() ==> i + 1 < |es|)
    ensures EmptyAt(fs, i) == EmptyAt(es, i)
  {}

  lemma SimpleStays(es: seq<Event>, fs: seq<Event>, canonical: bool, flow: bool, k: nat)
    requires es <= fs && k < |es|
    ensures SimpleKey(fs, canonical, flow, k) == SimpleKey(es, canonical, flow, k)
  {
    hide ShortKey, InForce;
    assert fs[..k] == es[..k] && (k > 0 ==> fs[..k - 1] == es[..k - 1]);
  }

  lemma TrailStays(es: seq<Event>, fs: seq<Event>, canonical: bool, trail: seq<State>)
    requires es <= fs && Looked(es, |trail|) && TrailFits(es, canonical, trail)
    ensures TrailFits(fs, canonical, trail)
  {
    hide OpenStyles, SimpleKey;
    forall i | 0 <= i < |trail|
      ensures es[i].Opens() ==> OpenStyles(fs, canonical, i + 1) == OpenStyles(es, canonical, i + 1)
      ensures SimpleKey(fs, canonical, trail[i].InFlow(), i) == SimpleKey(es, canonical, trail[i].InFlow(), i)
    {
      if es[i].Opens() { StylesStay(es, fs, canonical, i + 1); }
      SimpleStays(es, fs, canonical, trail[i].InFlow(), i);
    }
  }

  lemma LaidOutLonger(es: seq<Event>, fs: seq<Event>, k: nat, canonical: bool, c: Config, trail: seq<State>)
    requires es <= fs && LaidOut(es, k, canonical, c, trail)
    ensures LaidOut(fs, k, canonical, c, trail)
  {
    hide OpenStyles, StylesOf, SimpleKey, ShortKey, InForce, EmptyAt, TrailFits;
    StylesStay(es, fs, canonical, k);
    TrailStays(es, fs, canonical, trail);
    if k > 0 {
      EmptyStays(es, fs, k - 1);
      assert fs[..k - 1] == es[..k - 1];
    }
  }

  // Each transition keeps the layout.

  lemma AfterStyles(c: Config, next: State)
    requires After(c.state, next)
    ensures StylesOf(c.states + [next]) == StylesOf(c.states + [c.state])
  {
    hide StylesOf;
    StylesPush(c.states, next);
    StylesPush(c.states, c.state);
  }

  lemma {:induction false} StylesStep(es: seq<Event>, k: nat, canonical: bool, c: Config, d: Config, flowLevel: int)
    requires k < |es| && StylesOf(c.states + [c.state]) == OpenStyles(es, canonical, k)
    requires Transition(c, es[k], d) && Styled(es, k, canonical, d, flowLevel)
    requires es[k].Opens() ==> flowLevel == Flows(d.states)
    ensures StylesOf(d.states + [d.state]) == OpenStyles(es, canonical, k + 1)
  {
    hide StylesOf, Flows, EmptyAt, MovesDocument, Stays, Enters, Leaves;
    if Stays(c, es[k], d) {
      StaysShape(c, es[k], d);
      AfterStyles(c, d.state);
    } else if Enters(c, es[k], d) {
      EntersShape(c, es[k], d);
      var next := d.states[|d.states| - 1];
      AfterStyles(c, next);
      StylesPush(d.states, d.state);
      FlowsMean(d.states);
    } else if Leaves(c, es[k], d) {
      LeavesShape(c, es[k], d);
      StylesPush(c.states, c.state);
      var open := OpenStyles(es, canonical, k);
      assert open[..|open| - 1] == StylesOf(c.states);
    } else {
      MovesShape(c, es[k], d);
      StylesPush(c.states, c.state);
      StylesPush(d.states, d.state);
    }
  }

  lemma StaysShape(c: Config, e: Event, d: Config)
    requires Stays(c, e, d)
    ensures e.IsLeaf() && d.states == c.states && After(c.state, d.state) && !d.state.First()
    ensures c.state.ForKey() <==> d.state.ForValue()
  {}

  lemma EntersShape(c: Config, e: Event, d: Config)
    requires Enters(c, e, d)
    ensures e.Opens() && d.states != [] && After(c.state, d.states[|d.states| - 1]) && d.state.First()
    ensures d.states == c.states + [d.states[|d.states| - 1]] && d.state.InCollection() && Opened(e, d.state)
    ensures c.state.ForKey() <==> d.states[|d.states| - 1].ForValue()
  {}

  lemma LeavesShape(c: Config, e: Event, d: Config)
    requires Leaves(c, e, d)
    ensures (e.SequenceEnd? || e.MappingEnd?) && c.state.InCollection() && d.states + [d.state] == c.states
    ensures !e.Opens() && !e.IsLeaf()
    ensures c.state.First() ==> (e.SequenceEnd? <==> c.state.ForSequence())
  {}

  lemma MovesShape(c: Config, e: Event, d: Config)
    requires MovesDocument(c, e, d)
    ensures d.states == c.states && !c.state.InCollection() && !d.state.InCollection() && !d.state.First()
    ensures !e.Opens() && !e.SequenceEnd? && !e.MappingEnd? && !e.IsLeaf()
  {}

  lemma NoFirstAgain(c: Config, e: Event, d: Config)
    requires Leaves(c, e, d) && Resumable(c.states[|c.states| - 1])
    ensures !d.state.First()
  {}

  lemma {:induction false} EnteredStep(es: seq<Event>, k: nat, c: Config, d: Config)
    requires k < |es| && Transition(c, es[k], d) && (c.states != [] ==> Resumable(c.states[|c.states| - 1]))
    ensures Entered(es, k + 1, d)
  {
    hide Stays, Enters, Leaves, MovesDocument;
    if Stays(c, es[k], d) { StaysShape(c, es[k], d); }
    else if Enters(c, es[k], d) { EntersShape(c, es[k], d); }
    else if Leaves(c, es[k], d) { LeavesShape(c, es[k], d); assert c.states != []; NoFirstAgain(c, es[k], d); }
    else { MovesShape(c, es[k], d); }
  }

  /** No simple key is being written where another node starts. */
  lemma NoneSimple(es: seq<Event>, k: nat, canonical: bool, c: Config)
    requires k < |es| && KeysKnown(es, k, canonical, c) && es[k].StartsNode()
    ensures forall i | 0 <= i < |c.states| :: c.states[i].ForValue() ==> !c.states[i].simple
  {
    hide ShortKey, InForce;
  }

  lemma {:induction false} KeysStep(es: seq<Event>, k: nat, canonical: bool, c: Config, d: Config)
    requires k < |es| && KeysKnown(es, k, canonical, c) && Transition(c, es[k], d)
    requires Keyed(es, k, canonical, InForce(es[..k]), c, d)
    requires c.states != [] ==> Resumable(c.states[|c.states| - 1])
    requires MovesDocument(c, es[k], d) ==> c.states == []
    ensures KeysKnown(es, k + 1, canonical, d)
  {
    hide Stays, Enters, Leaves, MovesDocument, ShortKey, InForce, EmptyAt, After;
    if Stays(c, es[k], d) {
      StaysShape(c, es[k], d);
      NoneSimple(es, k, canonical, c);
    } else if Enters(c, es[k], d) {
      EntersShape(c, es[k], d);
      NoneSimple(es, k, canonical, c);
      ShortEmpty(es[k], EmptyAt(es, k), InForce(es[..k]), canonical);
    } else if Leaves(c, es[k], d) {
      LeavesShape(c, es[k], d);
      LeavesAbove(c, es[k], d);
      NoFirstAgain(c, es[k], d);
    } else {
      MovesShape(c, es[k], d);
    }
  }

  lemma LeavesAbove(c: Config, e: Event, d: Config)
    requires Leaves(c, e, d)
    ensures c.states != [] && d.state == c.states[|c.states| - 1] && |d.states| == |c.states| - 1
    ensures forall i | 0 <= i < |d.states| :: d.states[i] == c.states[i]
  {}

  lemma ShortEmpty(e: Event, empty: bool, ds: seq<TagDirective>, canonical: bool)
    requires e.Opens()
    ensures ShortKey(e, empty, ds, canonical) <==> empty && ShortKey(e, true, ds, canonical)
  {}

  lemma {:induction false} TrailStep(es: seq<Event>, k: nat, canonical: bool, c: Config, d: Config, trail: seq<State>)
    requires k < |es| && LaidOut(es, k, canonical, c, trail) && Transition(c, es[k], d)
    requires Keyed(es, k, canonical, InForce(es[..k]), c, d)
    requires StylesOf(d.states + [d.state]) == OpenStyles(es, canonical, k + 1)
    requires MovesDocument(c, es[k], d) ==> !d.state.ForValue()
    ensures TrailFits(es, canonical, trail + [d.state])
  {
    hide Stays, Enters, Leaves, MovesDocument, ShortKey, InForce, StylesOf, OpenStyles, After;
    var longer := trail + [d.state];
    assert forall i | 0 <= i < k :: longer[i] == trail[i];
    assert longer[k] == d.state;
    if es[k].Opens() {
      assert Enters(c, es[k], d) by { OnlyEnters(c, es[k], d); }
      EntersShape(c, es[k], d);
      StylesPush(d.states, d.state);
    }
    if d.state.ForValue() {
      if Stays(c, es[k], d) {
        StaysShape(c, es[k], d);
        SimpleLeaf(es, k, canonical, d.state.InFlow());
      } else if Leaves(c, es[k], d) {
        LeavesShape(c, es[k], d);
        LeavesAbove(c, es[k], d);
        hide EmptyAt;
        SimpleCollection(es, k, canonical, c, d);
      } else if Enters(c, es[k], d) {
        EntersShape(c, es[k], d);
      }
    }
  }

  lemma OnlyEnters(c: Config, e: Event, d: Config)
    requires Transition(c, e, d) && e.Opens()
    ensures Enters(c, e, d)
  {}

  lemma SimpleLeaf(es: seq<Event>, k: nat, canonical: bool, flow: bool)
    requires k < |es| && es[k].IsLeaf()
    ensures SimpleKey(es, canonical, flow, k) <==>
              (flow ==> !canonical) && ShortKey(es[k], EmptyAt(es, k), InForce(es[..k]), canonical)
  {
    hide InForce, TagParts;
  }

  lemma SimpleCollection(es: seq<Event>, k: nat, canonical: bool, c: Config, d: Config)
    requires k < |es| && Leaves(c, es[k], d) && d.state.ForValue()
    requires Entered(es, k, c) && KeysKnown(es, k, canonical, c)
    ensures d.state.simple <==> SimpleKey(es, canonical, d.state.InFlow(), k)
  {
    hide ShortKey, InForce;
    LeavesShape(c, es[k], d);
    LeavesAbove(c, es[k], d);
    if c.state.First() { assert EmptyAt(es, k - 1); }
  }

  lemma {:induction false} LaidOutStep(es: seq<Event>, k: nat, canonical: bool, c: Config, d: Config, flowLevel: int,
                                       trail: seq<State>)
    requires k < |es| && LaidOut(es, k, canonical, c, trail) && Transition(c, es[k], d)
    requires Styled(es, k, canonical, d, flowLevel) && (es[k].Opens() ==> flowLevel == Flows(d.states))
    requires Keyed(es, k, canonical, InForce(es[..k]), c, d)
    requires c.states != [] ==> Resumable(c.states[|c.states| - 1])
    requires (!c.state.InCollection() ==> c.states == []) && (es[k].Opens() ==> k + 1 < |es|)
    ensures LaidOut(es, k + 1, canonical, d, trail + [d.state])
  {
    hide Transition, Styled, Keyed, Flows, OpenStyles, StylesOf, TrailFits, KeysKnown, Entered, InForce;
    StylesStep(es, k, canonical, c, d, flowLevel);
    EnteredStep(es, k, c, d);
    if MovesDocument(c, es[k], d) { MovesShape(c, es[k], d); }
    KeysStep(es, k, canonical, c, d);
    TrailStep(es, k, canonical, c, d, trail);
  }

  /** The next event is one the event language has no place for, or whose attributes are wrong. */
  predicate Rejected(es: seq<Event>, k: nat) {
    && k < |es| && FeedAll(es[..k]).Some?
    && (!Acceptable(es[k]) || Feed(FeedAll(es[..k]).value, es[k]).None?)
  }

  predicate AllAcceptable(es: seq<Event>) {
    forall i | 0 <= i < |es| :: Acceptable(es[i])
  }

  /** The states that a finished node can resume. */
  predicate Resumable(s: State) {
    s.DocumentEndState? || (s.InCollection() && !s.First())
  }

  predicate IsBreak(c: char) {
    c == '\r' || c == '\n' || c == '\U{0085}' || c == '\U{2028}' || c == '\U{2029}'
  }

  class Emitter {
    const canonical: bool
    var bestIndent: int
    var state: State
    var states: seq<State>
    var events: seq<Event>
    var head: nat
    var indents: seq<int>
    var indent: int
    var flowLevel: int
    var directives: seq<TagDirective>
    var tagHandle: string
    var tagSuffix: string
    var multiline: bool
    var mappingContext: bool
    var failed: bool
    ghost var trail: seq<State>

    ghost function Now(): Config
      reads this
    {
      Config(state, states)
    }

    ghost predicate Valid()
      reads this
    {
      && head <= |events| && bestIndent >= 0
      && FeedAll(events[..head]).Some?
      && Positioned(state, states, FeedAll(events[..head]).value)
      && (if state.StreamStartState? then indents == [] && flowLevel == 0
          else Balanced(Now(), indents, indent, flowLevel))
      && AllAcceptable(events[..head])
      && DirectivesReady() && directives == InForce(events[..head])
      && LaidOut(events, head, canonical, Now(), trail)
    }

    ghost predicate DirectivesReady()
      reads this
    {
      && (forall d | d in directives :: d.handle != "")
      && (state.StreamStartState? || state.DocumentStartState? ==> directives == [])
    }

    constructor (canonical: bool, bestIndent: nat)
      ensures Valid() && !failed && events == [] && head == 0 && this.canonical == canonical && trail == []
    {
      hide OpenStyles;
      this.canonical, this.bestIndent := canonical, bestIndent;
      state, states := StreamStartState, [];
      events, head := [], 0;
      indents, indent, flowLevel := [], 0, 0;
      directives, tagHandle, tagSuffix, multiline, mappingContext, failed := [], "", "", false, false, false;
      trail := [];
      new;
      StartLaidOut(canonical);
    }

    method Fail() returns (ok: bool)
      modifies this`failed
      ensures !ok && failed
    {
      failed := true;
      return false;
    }

    method IncreaseIndent(flow: bool, indentless: bool)
      requires Indented(indents, indent) && bestIndent >= 0
      modifies this`indents, this`indent
      ensures indents == old(indents) + [old(indent)] && Indented(indents, indent)
      ensures indent == if old(indent) < 0 then if flow then bestIndent else 0
                        else if indentless then old(indent) else old(indent) + bestIndent
    {
      indents := indents + [indent];
      if indent < 0 {
        indent := if flow then bestIndent else 0;
      } else if !indentless {
        indent := indent + bestIndent;
      }
    }

    method PopIndent()
      requires indents != [] && Indented(indents, indent)
      modifies this`indents, this`indent
      ensures indents == old(indents)[..|old(indents)| - 1] && indent == old(indents)[|old(indents)| - 1]
      ensures Indented(indents, indent)
    {
      indent := indents[|indents| - 1];
      indents := indents[..|indents| - 1];
    }

    method PopState()
      requires states != []
      modifies this`state, this`states
      ensures state == old(states)[|old(states)| - 1] && states == old(states)[..|old(states)| - 1]
    {
      state := states[|states| - 1];
      states := states[..|states| - 1];
    }

    /** The attributes that decide whether a scalar's flags are complete have been analysed. */
    ghost predicate Analyzed(e: Event)
      reads this
    {
      && (e.Scalar? && !e.implicit && !e.quotedImplicit ==> (tagHandle == "" && tagSuffix == "" <==> e.tag == ""))
      && TagParts(e, directives, canonical, tagHandle, tagSuffix) && (e.Scalar? ==> (multiline <==> HasBreak(e.value)))
    }

    /** The event to be processed is the first one of the queue. */
    ghost predicate Facing(e: Event)
      reads this
    {
      head < |events| && events[head] == e && Analyzed(e)
    }

    /** The lookahead and the lengths decide whether a key is simple. */
    lemma SimpleMeans(e: Event)
      requires Facing(e)
      ensures e.StartsNode() ==> (CheckSimpleKey() <==> ShortKey(e, EmptyAt(events, head), directives, canonical))
    {
      hide TagParts, HasBreak;
      ShortExactly(e, EmptyAt(events, head), directives, canonical, tagHandle, tagSuffix);
      if e.Alias? { ShortAlias(e, EmptyAt(events, head), directives, canonical); }
    }

    predicate CheckEmptySequence()
      reads this
    {
      && |events| - head >= 2 && head < |events|
      && events[head].SequenceStart? && events[head + 1].SequenceEnd?
    }

    predicate CheckEmptyMapping()
      reads this
    {
      && |events| - head >= 2 && head < |events|
      && events[head].MappingStart? && events[head + 1].MappingEnd?
    }

    predicate CheckSimpleKey()
      requires head < |events|
      reads this
    {
      var e := events[head];
      if e.Alias? then |e.anchor| <= 128
      else if e.Scalar? then
        !multiline && |e.anchor| + |tagHandle| + |tagSuffix| + |e.value| <= 128
      else if e.SequenceStart? then
        CheckEmptySequence() && |e.anchor| + |tagHandle| + |tagSuffix| <= 128
      else if e.MappingStart? then
        CheckEmptyMapping() && |e.anchor| + |tagHandle| + |tagSuffix| <= 128
      else false
    }

    method EmitScalar(event: Event) returns (ok: bool)
      requires event.Scalar? && states != [] && Indented(indents, indent) && bestIndent >= 0 && Analyzed(event)
      modifies this`state, this`states, this`indents, this`indent, this`failed
      ensures indents == old(indents) && indent == old(indent)
      ensures ok <==> event.tag != "" || event.implicit || event.quotedImplicit
      ensures !ok ==> failed && state == old(state)
      ensures ok ==> failed == old(failed)
      ensures ok ==> state == old(states)[|old(states)| - 1] && states == old(states)[..|old(states)| - 1]
    {
      hide TagParts, HasBreak;
      if tagHandle == "" && tagSuffix == "" && !event.implicit && !event.quotedImplicit {
        ok := Fail();
        return;
      }
      IncreaseIndent(true, false);
      PopIndent();
      PopState();
      return true;
    }

    method EmitSequenceStart(event: Event)
      requires event.SequenceStart? && head < |events| && events[head] == event
      modifies this`state
      ensures Opened(event, state) && Styled(events, head, canonical, Now(), flowLevel)
    {
      if flowLevel > 0 || canonical || event.flow || CheckEmptySequence() {
        state := FlowSequenceItemState(true);
      } else {
        state := BlockSequenceItemState(true);
      }
    }

    method EmitMappingStart(event: Event)
      requires event.MappingStart? && head < |events| && events[head] == event
      modifies this`state
      ensures Opened(event, state) && Styled(events, head, canonical, Now(), flowLevel)
    {
      if flowLevel > 0 || canonical || event.flow || CheckEmptyMapping() {
        state := FlowMappingKeyState(true);
      } else {
        state := BlockMappingKeyState(true);
      }
    }

    method EmitNode(event: Event, mapping: bool) returns (ok: bool)
      requires states != [] && Indented(indents, indent) && bestIndent >= 0 && Facing(event)
      modifies this`mappingContext, this`state, this`states, this`indents, this`indent, this`failed
      ensures indents == old(indents) && indent == old(indent) && mappingContext == mapping
      ensures !ok ==> failed && state == old(state) && (!event.StartsNode() || !Acceptable(event))
      ensures ok ==> failed == old(failed) && event.StartsNode()
      ensures ok && event.Scalar? ==> event.tag != "" || event.implicit || event.quotedImplicit
      ensures ok && event.IsLeaf() ==>
                state == old(states)[|old(states)| - 1] && states == old(states)[..|old(states)| - 1]
      ensures ok && event.Opens() ==>
                Opened(event, state) && states == old(states) && (flowLevel > 0 ==> state.InFlow())
      ensures ok ==> Styled(events, head, canonical, Now(), flowLevel)
    {
      hide TagParts, HasBreak, EmptyAt, ValidAnchor;
      mappingContext := mapping;
      if event.Alias? {
        PopState();
        return true;
      } else if event.Scalar? {
        ok := EmitScalar(event);
      } else if event.SequenceStart? {
        EmitSequenceStart(event);
        return true;
      } else if event.MappingStart? {
        EmitMappingStart(event);
        return true;
      } else {
        ok := Fail();
      }
    }

    /** The outcome of processing one event from configuration `c`. */
    twostate predicate Stepped(c: Config, event: Event, ok: bool)
      reads this
    {
      && (ok ==>
            && failed == old(failed)
            && Transition(c, event, Now())
            && Balanced(Now(), indents, indent, flowLevel)
            && head < |events| && Styled(events, head, canonical, Now(), flowLevel)
            && Keyed(events, head, canonical, old(directives), c, Now())
            && (event.Scalar? ==> event.tag != "" || event.implicit || event.quotedImplicit))
      && (!ok ==> failed && state == c.state && (Refuses(c.state, event) || !Acceptable(event)))
    }

    /** Processes a node for the production that started in `c`, which continues in `next`. */
    method EmitChild(ghost c: Config, next: State, event: Event) returns (ok: bool)
      requires After(c.state, next) && c.state.InCollection() && c.states == states && !Ends(c.state, event)
      requires Indented(indents, indent) && bestIndent >= 0 && Facing(event) && state == c.state
      requires c.state.ForKey() && event.StartsNode() ==>
                 (next.simple <==>
                    (c.state.InFlow() ==> !canonical) && ShortKey(event, EmptyAt(events, head), directives, canonical))
      requires |indents| == Collections(states) + 1
      requires flowLevel == Flows(states) + if c.state.InFlow() then 1 else 0
      requires FlowInside(states + [c.state])
      modifies this`mappingContext, this`state, this`states, this`indents, this`indent, this`failed
      ensures Stepped(c, event, ok) && indent == old(indent) && indents == old(indents)
      ensures mappingContext == (!next.BlockSequenceItemState? && !next.FlowSequenceItemState?)
    {
      hide Collections, Flows, FlowInside;
      StartedCounts(c, next);
      FlowInsideNext(c, next);
      states := states + [next];
      ghost var pushed := states;
      ok := EmitNode(event, !next.BlockSequenceItemState? && !next.FlowSequenceItemState?);
      if ok {
        if event.IsLeaf() {
          assert states == c.states && pushed == states + [state];
          assert Stays(c, event, Now());
        } else {
          FlowInsidePush(states, state);
          assert Enters(c, event, Now());
        }
      }
    }

    /** Ends the collection of the production that started in `c`. */
    method CloseCollection(ghost c: Config, event: Event) returns (ok: bool)
      requires Ends(c.state, event) && c.states == states && states != []
      requires Resumable(states[|states| - 1]) && head < |events| && events[head] == event
      requires Indented(indents, indent)
      requires |indents| == Collections(states) + 1 && flowLevel == Flows(states)
      requires FlowInside(states + [c.state])
      modifies this`state, this`states, this`indents, this`indent
      ensures ok && Stepped(c, event, ok)
    {
      hide Keyed, Styled;
      hide Collections, Flows, FlowInside;
      FlowInsidePop(c);
      PopIndent();
      PopState();
      assert c.states == states + [state];
      CountPush(states, state);
      assert Leaves(c, event, Now());
      Unkeyed(events, head, canonical, old(directives), c, Now(), flowLevel);
      return true;
    }

    method EmitFlowSequenceItem(event: Event, first: bool) returns (ok: bool)
      requires state == FlowSequenceItemState(first) && Balanced(Now(), indents, indent, flowLevel)
      requires states != [] && Resumable(states[|states| - 1]) && bestIndent >= 0 && Facing(event)
      modifies this`mappingContext, this`state, this`states, this`indents, this`indent, this`flowLevel, this`failed
      ensures Stepped(old(Now()), event, ok)
      ensures ok && !event.SequenceEnd? ==>
                if !first then indents == old(indents) && indent == old(indent)
                else
                  && indents == old(indents) + [old(indent)]
                  && indent == if old(indent) < 0 then bestIndent else old(indent) + bestIndent
    {
      hide Collections, Flows, FlowInside, Transition;
      ghost var c := Now();
      StartedCounts(c, FlowSequenceItemState(false));
      if first {
        IncreaseIndent(true, false);
        flowLevel := flowLevel + 1;
      }
      if event.SequenceEnd? {
        flowLevel := flowLevel - 1;
        ok := CloseCollection(c, event);
        return;
      }
      ok := EmitChild(c, FlowSequenceItemState(false), event);
    }

    method EmitFlowMappingKey(event: Event, first: bool) returns (ok: bool)
      requires state == FlowMappingKeyState(first) && Balanced(Now(), indents, indent, flowLevel)
      requires states != [] && Resumable(states[|states| - 1]) && bestIndent >= 0 && Facing(event)
      modifies this`mappingContext, this`state, this`states, this`indents, this`indent, this`flowLevel, this`failed
      ensures Stepped(old(Now()), event, ok)
      ensures ok && !event.MappingEnd? ==>
                if !first then indents == old(indents) && indent == old(indent)
                else
                  && indents == old(indents) + [old(indent)]
                  && indent == if old(indent) < 0 then bestIndent else old(indent) + bestIndent
    {
      hide Collections, Flows, FlowInside, Transition;
      ghost var c := Now();
      StartedCounts(c, FlowMappingValueState(false));
      if first {
        IncreaseIndent(true, false);
        flowLevel := flowLevel + 1;
      }
      if event.MappingEnd? {
        flowLevel := flowLevel - 1;
        ok := CloseCollection(c, event);
        return;
      }
      SimpleMeans(event);
      if !canonical && CheckSimpleKey() {
        ok := EmitChild(c, FlowMappingValueState(true), event);
        return;
      }
      ok := EmitChild(c, FlowMappingValueState(false), event);
    }

    method EmitFlowMappingValue(event: Event, simple: bool) returns (ok: bool)
      requires state == FlowMappingValueState(simple) && Balanced(Now(), indents, indent, flowLevel)
      requires bestIndent >= 0 && Facing(event)
      modifies this`mappingContext, this`state, this`states, this`indents, this`indent, this`failed
      ensures Stepped(old(Now()), event, ok)
    {
      hide Collections, Flows, FlowInside, Transition;
      StartedCounts(Now(), FlowMappingKeyState(false));
      ok := EmitChild(Now(), FlowMappingKeyState(false), event);
    }

    method EmitBlockSequenceItem(event: Event, first: bool) returns (ok: bool)
      requires state == BlockSequenceItemState(first) && Balanced(Now(), indents, indent, flowLevel)
      requires states != [] && Resumable(states[|states| - 1]) && bestIndent >= 0 && Facing(event)
      modifies this`mappingContext, this`state, this`states, this`indents, this`indent, this`failed
      ensures Stepped(old(Now()), event, ok)
      ensures ok && !event.SequenceEnd? ==>
                if !first then indents == old(indents) && indent == old(indent)
                else
                  && indents == old(indents) + [old(indent)]
                  && (|| indent == (if old(indent) < 0 then 0 else old(indent) + bestIndent)
                      || (old(mappingContext) && indent == old(indent)))
    {
      hide Collections, Flows, FlowInside, Transition;
      ghost var c := Now();
      StartedCounts(c, BlockSequenceItemState(false));
      if first {
        var indention: bool := *;
        IncreaseIndent(false, mappingContext && !indention);
      }
      if event.SequenceEnd? {
        ok := CloseCollection(c, event);
        return;
      }
      ok := EmitChild(c, BlockSequenceItemState(false), event);
    }

    method EmitBlockMappingKey(event: Event, first: bool) returns (ok: bool)
      requires state == BlockMappingKeyState(first) && Balanced(Now(), indents, indent, flowLevel)
      requires states != [] && Resumable(states[|states| - 1]) && bestIndent >= 0 && Facing(event)
      modifies this`mappingContext, this`state, this`states, this`indents, this`indent, this`failed
      ensures Stepped(old(Now()), event, ok)
      ensures ok && !event.MappingEnd? ==>
                if !first then indents == old(indents) && indent == old(indent)
                else
                  && indents == old(indents) + [old(indent)]
                  && indent == if old(indent) < 0 then 0 else old(indent) + bestIndent
    {
      hide Collections, Flows, FlowInside, Transition;
      ghost var c := Now();
      StartedCounts(c, BlockMappingValueState(false));
      if first {
        IncreaseIndent(false, false);
      }
      if event.MappingEnd? {
        ok := CloseCollection(c, event);
        return;
      }
      SimpleMeans(event);
      var simple := CheckSimpleKey();
      ok := EmitChild(c, BlockMappingValueState(simple), event);
    }

    method EmitBlockMappingValue(event: Event, simple: bool) returns (ok: bool)
      requires state == BlockMappingValueState(simple) && Balanced(Now(), indents, indent, flowLevel)
      requires bestIndent >= 0 && Facing(event)
      modifies this`mappingContext, this`state, this`states, this`indents, this`indent, this`failed
      ensures Stepped(old(Now()), event, ok)
    {
      hide Collections, Flows, FlowInside, Transition;
      StartedCounts(Now(), BlockMappingKeyState(false));
      ok := EmitChild(Now(), BlockMappingKeyState(false), event);
    }

    method EmitDocumentContent(event: Event) returns (ok: bool)
      requires state.DocumentContentState? && states == [] && Balanced(Now(), indents, indent, flowLevel)
      requires bestIndent >= 0 && Facing(event)
      modifies this`mappingContext, this`state, this`states, this`indents, this`indent, this`failed
      ensures Stepped(old(Now()), event, ok)
    {
      hide Collections, Flows, FlowInside;
      ghost var c := Now();
      states := [DocumentEndState];
      ok := EmitNode(event, false);
      RootCounts(state);
      if ok {
        if event.IsLeaf() {
          assert states == [];
          assert Stays(c, event, Now());
        } else {
          assert Enters(c, event, Now());
        }
      }
    }

    method EmitStreamStart(event: Event) returns (ok: bool)
      requires state.StreamStartState? && states == [] && indents == [] && flowLevel == 0
      requires head < |events| && events[head] == event
      modifies this`state, this`indent, this`bestIndent, this`failed
      ensures Stepped(old(Now()), event, ok)
      ensures bestIndent == if ok && !(2 <= old(bestIndent) <= 9) then 2 else old(bestIndent)
      ensures ok ==> indent == -1
    {
      hide Keyed, Styled;
      ghost var c := Now();
      if !event.StreamStart? {
        ok := Fail();
        return;
      }
      if bestIndent < 2 || bestIndent > 9 { bestIndent := 2; }
      indent := -1;
      state := DocumentStartState(true);
      Unkeyed(events, head, canonical, old(directives), c, Now(), flowLevel);
      return true;
    }

    method EmitDocumentEnd(event: Event) returns (ok: bool)
      requires state.DocumentEndState? && states == [] && Balanced(Now(), indents, indent, flowLevel)
      requires head < |events| && events[head] == event
      modifies this`state, this`directives, this`failed
      ensures Stepped(old(Now()), event, ok)
      ensures directives == if ok then [] else old(directives)
      ensures ok ==> indents == [] && indent == -1 && flowLevel == 0
    {
      hide Keyed, Styled;
      ghost var c := Now();
      if !event.DocumentEnd? {
        ok := Fail();
        return;
      }
      state := DocumentStartState(false);
      directives := [];
      Unkeyed(events, head, canonical, old(directives), c, Now(), flowLevel);
      return true;
    }

    method AnalyzeAnchor(anchor: string) returns (ok: bool)
      modifies this`failed
      ensures ok <==> ValidAnchor(anchor)
      ensures failed == (old(failed) || !ok)
    {
      if anchor == "" {
        ok := Fail();
        return;
      }
      var i := 0;
      while i < |anchor|
        invariant i <= |anchor| && forall j | 0 <= j < i :: IsAlpha(anchor[j])
      {
        if !IsAlpha(anchor[i]) {
          ok := Fail();
          return;
        }
        i := i + 1;
      }
      return true;
    }

    /** Splits a tag by the first directive whose prefix it starts with. */
    method AnalyzeTag(tag: string)
      requires tag != "" && tagHandle == "" && tagSuffix == ""
      requires forall d | d in directives :: d.handle != ""
      modifies this`tagHandle, this`tagSuffix
      ensures tagHandle != "" || tagSuffix != ""
      ensures Splits(directives, tag, tagHandle, tagSuffix)
    {
      var i := 0;
      while i < |directives|
        invariant i <= |directives| && tagHandle == "" && tagSuffix == ""
        invariant forall j | 0 <= j < i :: !(directives[j].prefix <= tag)
      {
        var d := directives[i];
        if d.prefix <= tag {
          tagHandle := d.handle;
          tagSuffix := tag[|d.prefix|..];
          assert d in directives && SplitsBy(directives, i, tag, tagHandle, tagSuffix);
          return;
        }
        i := i + 1;
      }
      tagSuffix := tag;
    }

    method AnalyzeScalar(value: string)
      modifies this`multiline
      ensures multiline <==> HasBreak(value)
    {
      multiline := false;
      var i := 0;
      while i < |value|
        invariant i <= |value|
        invariant multiline <==> exists j | 0 <= j < i :: IsBreak(value[j])
      {
        if IsBreak(value[i]) { multiline := true; }
        i := i + 1;
      }
    }

    method AnalyzeEvent(event: Event) returns (ok: bool)
      requires forall d | d in directives :: d.handle != ""
      modifies this`tagHandle, this`tagSuffix, this`multiline, this`failed
      ensures ok ==> Analyzed(event) && failed == old(failed)
      ensures !ok ==> failed && !Acceptable(event)
      ensures ok && !event.DocumentStart? && !event.Scalar? ==> Acceptable(event)
      ensures ok && event.Scalar? ==> (event.anchor != "" ==> ValidAnchor(event.anchor))
    {
      tagHandle, tagSuffix := "", "";
      ok := true;
      match event
      case Alias(anchor) =>
        ok := AnalyzeAnchor(anchor);
      case Scalar(anchor, tag, value, implicit, quotedImplicit, _) =>
        if anchor != "" {
          ok := AnalyzeAnchor(anchor);
          if !ok { return; }
        }
        if tag != "" && (canonical || (!implicit && !quotedImplicit)) {
          AnalyzeTag(tag);
        }
        AnalyzeScalar(value);
      case SequenceStart(anchor, tag, implicit, _) =>
        if anchor != "" {
          ok := AnalyzeAnchor(anchor);
          if !ok { return; }
        }
        if tag != "" && (canonical || !implicit) {
          AnalyzeTag(tag);
        }
      case MappingStart(anchor, tag, implicit, _) =>
        if anchor != "" {
          ok := AnalyzeAnchor(anchor);
          if !ok { return; }
        }
        if tag != "" && (canonical || !implicit) {
          AnalyzeTag(tag);
        }
      case _ =>
    }

    method AnalyzeTagDirective(d: TagDirective) returns (ok: bool)
      modifies this`failed
      ensures ok <==> ValidDirective(d)
      ensures failed == (old(failed) || !ok)
    {
      if d.handle == "" || d.handle[0] != '!' || d.handle[|d.handle| - 1] != '!' {
        ok := Fail();
        return;
      }
      var i := 1;
      while i < |d.handle| - 1
        invariant 1 <= i && forall j | 1 <= j < i && j < |d.handle| - 1 :: IsAlpha(d.handle[j])
      {
        if !IsAlpha(d.handle[i]) {
          ok := Fail();
          return;
        }
        i := i + 1;
      }
      if d.prefix == "" {
        ok := Fail();
        return;
      }
      return true;
    }

    method AppendTagDirective(value: TagDirective, allowDuplicates: bool) returns (ok: bool)
      modifies this`directives, this`failed
      ensures ok <==> allowDuplicates || !HasHandle(old(directives), value.handle)
      ensures failed == (old(failed) || !ok)
      ensures directives
           == if HasHandle(old(directives), value.handle) then old(directives) else old(directives) + [value]
    {
      var i := 0;
      while i < |directives|
        invariant i <= |directives|
        invariant forall j | 0 <= j < i :: directives[j].handle != value.handle
      {
        if directives[i].handle == value.handle {
          if allowDuplicates { return true; }
          ok := Fail();
          return;
        }
        i := i + 1;
      }
      directives := directives + [value];
      return true;
    }

    method AppendDirectives(tags: seq<TagDirective>) returns (ok: bool)
      requires directives == []
      modifies this`directives, this`failed
      ensures ok <==> ValidDirectives(tags)
      ensures failed == (old(failed) || !ok)
      ensures ok ==> directives == tags
    {
      hide HasHandle, ValidDirective, DistinctHandles;
      var i := 0;
      NoDirectives();
      assert tags[..0] == [];
      hide ValidDirectives;
      while i < |tags|
        invariant i <= |tags| && directives == tags[..i] && failed == old(failed)
        invariant ValidDirectives(tags[..i])
      {
        DirectiveFits(tags, i);
        ok := AnalyzeTagDirective(tags[i]);
        if !ok {
          return;
        }
        ok := AppendTagDirective(tags[i], false);
        if !ok {
          return;
        }
        i := i + 1;
      }
      assert tags[..i] == tags;
      return true;
    }

    method EmitDocumentStart(event: Event) returns (ok: bool)
      requires state.DocumentStartState? && states == [] && Balanced(Now(), indents, indent, flowLevel)
      requires directives == []
      requires head < |events| && events[head] == event
      modifies this`state, this`directives, this`failed
      ensures Stepped(old(Now()), event, ok)
      ensures ok && event.DocumentStart? ==> Acceptable(event)
      ensures ok ==> forall d | d in directives :: d.handle != ""
      ensures ok && state.DocumentStartState? ==> directives == []
      ensures ok ==> directives == if event.DocumentStart? then InForce([event]) else []
    {
      hide Keyed, Styled;
      ghost var c := Now();
      hide Collections, Flows, ValidDirective, DistinctHandles;
      if event.DocumentStart? {
        if event.version.Some? && event.version.value != Version(1, 1) {
          ok := Fail();
          return;
        }
        ok := AppendDirectives(event.directives);
        if !ok { return; }
        HandlesNonEmpty(directives);
        ok := AppendTagDirective(TagDirective("!", "!"), true);
        ok := AppendTagDirective(TagDirective("!!", "tag:yaml.org,2002:"), true);
        RootCounts(state);
        state := DocumentContentState;
        Unkeyed(events, head, canonical, old(directives), c, Now(), flowLevel);
        return true;
      }
      if event.StreamEnd? {
        RootCounts(state);
        state := EndState;
        Unkeyed(events, head, canonical, old(directives), c, Now(), flowLevel);
        return true;
      }
      ok := Fail();
    }

    /** The stack facts that the productions rely on. */
    ghost predicate Usable()
      reads this
    {
      && (state.InCollection() ==> states != [] && Resumable(states[|states| - 1]))
      && (!state.InCollection() ==> states == [])
    }

    method RunStateMachine(event: Event) returns (ok: bool)
      requires Usable() && bestIndent >= 0 && Facing(event) && DirectivesReady()
      requires if state.StreamStartState? then indents == [] && flowLevel == 0
               else Balanced(Now(), indents, indent, flowLevel)
      modifies this`mappingContext, this`state, this`states, this`indents, this`indent, this`flowLevel, this`bestIndent,
               this`directives, this`failed
      ensures Stepped(old(Now()), event, ok)
      ensures bestIndent >= 0
      ensures ok ==> DirectivesReady() && directives == NextForce(old(directives), event)
      ensures ok && event.DocumentStart? ==> Acceptable(event)
    {
      hide Balanced, Acceptable, Transition, Indented, FlowInside, InForce, Styled, Keyed;
      ghost var c := Now();
      match state {
        case StreamStartState => ok := EmitStreamStart(event);
        case DocumentStartState(_) => ok := EmitDocumentStart(event);
        case DocumentContentState => ok := EmitDocumentContent(event);
        case DocumentEndState => ok := EmitDocumentEnd(event);
        case FlowSequenceItemState(first) => ok := EmitFlowSequenceItem(event, first);
        case FlowMappingKeyState(first) => ok := EmitFlowMappingKey(event, first);
        case FlowMappingValueState(simple) => ok := EmitFlowMappingValue(event, simple);
        case BlockSequenceItemState(first) => ok := EmitBlockSequenceItem(event, first);
        case BlockMappingKeyState(first) => ok := EmitBlockMappingKey(event, first);
        case BlockMappingValueState(simple) => ok := EmitBlockMappingValue(event, simple);
        case EndState => ok := Fail();
      }
      if ok { StartsDocument(c, event, Now()); }
    }

    /** Counts levels over the queue until they balance or the queue runs out. */
    method NeedMoreEvents() returns (more: bool)
      requires head <= |events|
      ensures more <==> NeedMore(events[head..])
    {
      if head == |events| { return true; }
      ghost var queue := events[head..];
      var accumulate := Accumulate(events[head]);
      if accumulate == 0 { return false; }
      if |events| - head > accumulate { return false; }
      var level := 0;
      var i := head;
      while i < |events|
        invariant head <= i <= |events|
        invariant level == Level(queue[..i - head])
        invariant forall j | 1 <= j <= i - head :: Level(queue[..j]) != 0
      {
        level := level + LevelStep(events[i]);
        assert queue[..i - head + 1][..i - head] == queue[..i - head];
        if level == 0 {
          assert Level(queue[..i - head + 1]) == 0;
          return false;
        }
        i := i + 1;
      }
      return true;
    }

    lemma Ready()
      requires Valid()
      ensures Usable()
    {
      hide FeedFrom, Balanced;
      if state.InCollection() {
        var p := FeedAll(events[..head]).value;
        assert Awaits(states, p.frames[..|p.frames| - 1]);
      }
    }

    /** Analyses an event and runs the production of the state on it. */
    method Handle(event: Event) returns (ok: bool)
      requires Valid() && head < |events| && events[head] == event
      modifies this`tagHandle, this`tagSuffix, this`multiline, this`mappingContext, this`state, this`states,
               this`indents, this`indent, this`flowLevel, this`bestIndent, this`directives, this`failed
      ensures !ok ==> failed && state == old(state) && (Refuses(old(state), event) || !Acceptable(event))
      ensures ok ==>
                && failed == old(failed) && Acceptable(event) && bestIndent >= 0
                && Transition(old(Now()), event, Now()) && Balanced(Now(), indents, indent, flowLevel)
                && Styled(events, head, canonical, Now(), flowLevel)
                && Keyed(events, head, canonical, old(directives), old(Now()), Now())
                && DirectivesReady() && directives == NextForce(old(directives), event)
    {
      hide FeedFrom, Balanced, Acceptable, Feed, Transition, Refuses, Positioned, InForce, Styled, Keyed, LaidOut,
           TagParts, HasBreak;
      Ready();
      ok := AnalyzeEvent(event);
      if !ok { return; }
      ok := RunStateMachine(event);
      if ok { AcceptScalar(event); }
    }

    /** Processes the first event of the queue. */
    method Process() returns (ok: bool)
      requires Valid() && head < |events| && !NeedMore(events[head..])
      modifies this
      ensures events == old(events)
      ensures Looked(events, head) && |trail| == head && TrailFits(events, canonical, trail)
      ensures ok ==> Valid() && head == old(head) + 1 && failed == old(failed)
      ensures !ok ==> failed && head == old(head) && Rejected(events, head)
      ensures !ok ==> AllAcceptable(events[..head]) && (state.EndState? <==> FeedAll(events[..head]).value.Complete?)
    {
      hide FeedFrom, Balanced, Acceptable, Feed, Transition, Refuses, Positioned, NeedMore, InForce, Styled, Keyed,
           LaidOut, TrailFits, AllAcceptable, NextForce;
      TrailOf(events, head, canonical, Now(), trail);
      EndPosition(state, states, FeedAll(events[..head]).value);
      var event := events[head];
      ghost var c := Now();
      ghost var p := FeedAll(events[..head]).value;
      Ready();
      ok := Handle(event);
      if !ok {
        if Refuses(c.state, event) { RefusesKeeps(c, p, event); }
        return;
      }
      TransitionKeeps(c, p, event, Now());
      Onward(c);
      ForceSnoc(events, head);
      FeedSnoc(events, head);
      AcceptSnoc(events, head);
      trail := trail + [state];
      head := head + 1;
      TrailOf(events, head, canonical, Now(), trail);
    }

    /** The layout goes on with the event that has been processed from configuration `c`. */
    lemma Onward(c: Config)
      requires head < |events| && LaidOut(events, head, canonical, c, trail) && Transition(c, events[head], Now())
      requires !NeedMore(events[head..]) && Balanced(Now(), indents, indent, flowLevel)
      requires Styled(events, head, canonical, Now(), flowLevel)
      requires Keyed(events, head, canonical, InForce(events[..head]), c, Now())
      requires c.state.InCollection() ==> c.states != [] && Resumable(c.states[|c.states| - 1])
      requires !c.state.InCollection() ==> c.states == []
      ensures LaidOut(events, head + 1, canonical, Now(), trail + [state])
    {
      hide LaidOut, Transition, Keyed, InForce, NeedMore, Balanced;
      Peeked(events, head);
      if events[head].Opens() { OpensLevel(c, events[head], Now(), indents, indent, flowLevel); }
      LaidOutStep(events, head, canonical, c, Now(), flowLevel, trail);
    }

    method Emit(event: Event) returns (ok: bool)
      requires Valid() && !failed
      modifies this
      ensures events == old(events) + [event]
      ensures ok ==> Valid() && !failed && NeedMore(events[head..])
      ensures !ok ==> failed && Rejected(events, head) && AllAcceptable(events[..head])
      ensures !ok ==> (state.EndState? <==> FeedAll(events[..head]).value.Complete?)
      ensures Looked(events, head) && |trail| == head && TrailFits(events, canonical, trail)
    {
      hide FeedFrom, Balanced, Positioned, NeedMore, Acceptable, Feed, TrailFits, InForce;
      events := events + [event];
      assert events[..head] == old(events)[..head];
      LaidOutLonger(old(events), events, head, canonical, Now(), trail);
      var more := NeedMoreEvents();
      while !more
        invariant Valid() && !failed && events == old(events) + [event]
        invariant more <==> NeedMore(events[head..])
        decreases |events| - head
      {
        NeedMoreEmpty();
        assert events[head..] != [];
        ok := Process();
        if !ok { return; }
        more := NeedMoreEvents();
      }
      return true;
    }
  }

  lemma HandlesNonEmpty(ds: seq<TagDirective>)
    requires ValidDirectives(ds)
    ensures forall d | d in ds :: d.handle != ""
  {}

  lemma TrailOf(es: seq<Event>, k: nat, canonical: bool, c: Config, trail: seq<State>)
    requires LaidOut(es, k, canonical, c, trail)
    ensures Looked(es, k) && |trail| == k && TrailFits(es, canonical, trail)
  {}

  /** Where no node starts, nothing is asked of the layout. */
  lemma Unkeyed(es: seq<Event>, k: nat, canonical: bool, ds: seq<TagDirective>, c: Config, d: Config, flowLevel: int)
    requires k < |es| && !es[k].StartsNode()
    ensures Keyed(es, k, canonical, ds, c, d) && Styled(es, k, canonical, d, flowLevel)
  {}

  /** How long the emitter waits: for one event behind a document start, two behind a sequence start
      and three behind a mapping start, unless the collection or document ends before that. */
  lemma NeedMoreMeans(queue: seq<Event>)
    ensures NeedMore(queue) <==>
              || queue == []
              || (&& (forall i | 1 <= i <= |queue| :: Level(queue[..i]) != 0)
                  && (|| (queue[0].DocumentStart? && |queue| <= 1) || (queue[0].SequenceStart? && |queue| <= 2)
                      || (queue[0].MappingStart? && |queue| <= 3)))
  {
    hide Level;
  }

  lemma StartLaidOut(canonical: bool)
    ensures LaidOut([], 0, canonical, Config(StreamStartState, []), [])
  {
    assert [] + [StreamStartState] == [StreamStartState];
    StylesPush([], StreamStartState);
  }

  /** A collection is opened only with another event in sight. */
  lemma Peeked(es: seq<Event>, k: nat)
    requires k < |es| && !NeedMore(es[k..])
    ensures es[k].Opens() ==> k + 1 < |es|
  {
    var queue := es[k..];
    assert queue[0] == es[k];
    if |queue| == 1 {
      LevelOfOne(queue);
      assert queue[..1] == queue;
    }
  }

  lemma OpensLevel(c: Config, e: Event, d: Config, indents: seq<int>, indent: int, flowLevel: int)
    requires Transition(c, e, d) && e.Opens() && Balanced(d, indents, indent, flowLevel)
    ensures flowLevel == Flows(d.states)
  {
    OnlyEnters(c, e, d);
    EntersShape(c, e, d);
    hide Flows, Collections;
  }

  lemma ShortAlias(e: Event, empty: bool, ds: seq<TagDirective>, canonical: bool)
    requires e.Alias?
    ensures ShortKey(e, empty, ds, canonical) <==> |e.anchor| <= 128
  {}

  /** The directives in force behind one more event. */
  function NextForce(ds: seq<TagDirective>, e: Event): seq<TagDirective> {
    if e.DocumentStart? then InForce([e]) else if e.DocumentEnd? then [] else ds
  }

  lemma ForceSnoc(es: seq<Event>, k: nat)
    requires k < |es|
    ensures InForce(es[..k + 1]) == NextForce(InForce(es[..k]), es[k])
  {
    assert es[..k + 1][..k] == es[..k];
  }

  lemma NeedMoreEmpty()
    ensures NeedMore([])
  {}

  lemma EndPosition(s: State, states: seq<State>, p: Partial)
    requires Positioned(s, states, p)
    ensures s.EndState? <==> p.Complete?
  {}

  lemma FeedSnoc(es: seq<Event>, k: nat)
    requires k < |es| && FeedAll(es[..k]).Some?
    ensures FeedAll(es[..k + 1]) == Feed(FeedAll(es[..k]).value, es[k])
  {
    assert es[..k + 1][..k] == es[..k];
  }

  lemma AcceptSnoc(es: seq<Event>, k: nat)
    requires k < |es| && AllAcceptable(es[..k]) && Acceptable(es[k])
    ensures AllAcceptable(es[..k + 1])
  {
    hide Acceptable;
    var longer := es[..k + 1];
    forall i | 0 <= i < |longer| ensures Acceptable(longer[i]) {
      if i < k { assert es[..k][i] == longer[i]; }
    }
  }

  lemma AcceptScalar(e: Event)
    requires e.Scalar? ==> (e.anchor != "" ==> ValidAnchor(e.anchor)) && (e.tag != "" || e.implicit || e.quotedImplicit)
    ensures e.Scalar? ==> Acceptable(e)
  {}

  /** Feeds a whole list of events.  The emitter processes a prefix of the event language with valid
      attributes; it fails exactly at the first event that leaves that language or is not
      acceptable in itself; and it completes exactly on whole streams, with nothing left queued. */
  method EmitAll(es: seq<Event>, canonical: bool, bestIndent: nat)
    returns (ok: bool, processed: nat, ended: bool, ghost trail: seq<State>)
    ensures processed <= |es| && AllAcceptable(es[..processed])
    ensures exists docs :: WellFormedDocs(docs) && es[..processed] <= StreamEvents(docs)
    ensures ended <==> exists docs :: WellFormedDocs(docs) && es[..processed] == StreamEvents(docs)
    ensures !ok ==> Rejected(es, processed)
    ensures ok ==> NeedMore(es[processed..])
    ensures AllAcceptable(es) ==>
              (ok && ended && processed == |es| <==> exists docs :: WellFormedDocs(docs) && es == StreamEvents(docs))
    ensures |trail| == processed && TrailFits(es, canonical, trail)
  {
    hide TrailFits, FeedFrom, Balanced, NeedMore, Acceptable, Feed, StreamEvents, WellFormedDocs, Positioned;
    var emitter := new Emitter(canonical, bestIndent);
    NeedMoreEmpty();
    ok := true;
    var i := 0;
    while i < |es| && ok
      invariant i <= |es| && fresh(emitter)
      invariant emitter.events == es[..i] && emitter.head <= i && emitter.canonical == canonical
      invariant Looked(emitter.events, emitter.head) && |emitter.trail| == emitter.head
      invariant TrailFits(emitter.events, canonical, emitter.trail)
      invariant ok ==> emitter.Valid() && !emitter.failed && NeedMore(emitter.events[emitter.head..])
      invariant !ok ==> Rejected(emitter.events, emitter.head) && AllAcceptable(emitter.events[..emitter.head])
      invariant !ok ==> (emitter.state.EndState? <==> FeedAll(emitter.events[..emitter.head]).value.Complete?)
    {
      ok := emitter.Emit(es[i]);
      i := i + 1;
      assert es[..i] == es[..i - 1] + [es[i - 1]];
    }
    processed, trail := emitter.head, emitter.trail;
    TrailStays(emitter.events, es, canonical, trail);
    assert emitter.events[..processed] == es[..processed];
    if ok {
      assert es[..i] == es;
      EndPosition(emitter.state, emitter.states, FeedAll(es[..processed]).value);
    } else {
      assert emitter.events[processed] == es[processed];
    }
    ended := emitter.state.EndState?;
    Conclude(es, processed, ok);
  }

  /** What the point that was reached says about the language. */
  lemma {:induction false} Conclude(es: seq<Event>, k: nat, ok: bool)
    requires k <= |es| && FeedAll(es[..k]).Some?
    requires ok ==> NeedMore(es[k..])
    requires !ok ==> Rejected(es, k)
    ensures exists docs :: WellFormedDocs(docs) && es[..k] <= StreamEvents(docs)
    ensures FeedAll(es[..k]).value.Complete? <==> exists docs :: WellFormedDocs(docs) && es[..k] == StreamEvents(docs)
    ensures AllAcceptable(es) && (exists docs :: WellFormedDocs(docs) && es == StreamEvents(docs)) ==> ok && k == |es|
    ensures k == |es| ==> es[..k] == es
  {
    hide FeedFrom, NeedMore, Acceptable, Feed, StreamEvents, WellFormedDocs;
    PrefixLanguage(es[..k]);
    var p := FeedAll(es[..k]).value;
    if p.Complete? {
      CompleteLanguage(es[..k], p.docs);
    }
    forall docs | WellFormedDocs(docs) && es[..k] == StreamEvents(docs)
      ensures p.Complete?
    {
      CompleteLanguage(es[..k], docs);
    }
    if AllAcceptable(es) {
      if docs :| WellFormedDocs(docs) && es == StreamEvents(docs) {
        if ok {
          NothingLeft(es, docs, k);
        } else {
          NeverRejected(es, docs, k);
        }
      }
    }
  }

  lemma {:induction false} NeverRejected(es: seq<Event>, docs: seq<Document>, k: nat)
    requires WellFormedDocs(docs) && es == StreamEvents(docs) && AllAcceptable(es)
    ensures !Rejected(es, k)
  {
    hide Acceptable, Feed, StreamEvents, WellFormedDocs;
    if k < |es| && FeedAll(es[..k]).Some? {
      CompleteLanguage(es, docs);
      assert es == es[..k + 1] + es[k + 1..];
      FeedConcat(Unstarted, es[..k + 1], es[k + 1..]);
      FeedSnoc(es, k);
    }
  }
}
