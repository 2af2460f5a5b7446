/**
 The pushdown parser that turns scanner tokens into events.

 A `Parser` reads a finite list of tokens, after which the scanner is taken to have failed.  Each
 production does exactly what its function on values says, errors included.  The class invariant ties
 the machine's `state`, `states` and `marks` to the automaton of the event language.  A position mark
 is the index of a token.
 */
module YamlParser {
  import opened Options
  import opened YamlEvents
  import opened YamlProductions

  class Parser {
    const tokens: seq<Token>
    var head: nat
    var state: State
    var states: seq<State>
    var marks: seq<nat>
    var directives: seq<TagDirective>
    var error: Error
    var streamEndProduced: bool
    ghost var trace: seq<Event>
    ghost var last: Machine    // where an error has stopped the machine

    ghost function Now(): Config
      reads this
    {
      Config(state, states, |marks|, head, streamEndProduced)
    }

    ghost predicate Valid()
      reads this
    {
      && FeedAll(trace).Some?
      && |trace| <= 3 * |tokens|
      && (if error == NoError then
            && head <= |tokens| && DistinctHandles(directives)
            && InStep(tokens, Now(), FeedAll(trace).value)
            && streamEndProduced == EndedAt(tokens, head)
            && |trace| + Credit(state) <= 3 * head
            && TokensContent(tokens, head) == EventsContent(trace)
            && Emits(tokens, START, trace, Machine(Now(), directives))
          else
            && !FeedAll(trace).value.Complete?
            && Emits(tokens, START, trace, last) && !last.cfg.state.EndState? && StepOf(tokens, last) == Stuck(error))
    }

    constructor (tokens: seq<Token>)
      ensures Valid() && trace == [] && error == NoError && this.tokens == tokens
      ensures Now() == Config(StreamStartState, [], 0, 0, false) && directives == []
    {
      this.tokens := tokens;
      head := 0;
      state := StreamStartState;
      states, marks, directives := [], [], [];
      error := NoError;
      streamEndProduced := false;
      trace := [];
      last := START;
    }

    method Peek() returns (t: Option<Token>)
      modifies this`error
      ensures head < |tokens| ==> t == Some(tokens[head]) && error == old(error)
      ensures head >= |tokens| ==> t == None && error == ScannerError
    {
      if head < |tokens| {
        return Some(tokens[head]);
      }
      error := ScannerError;
      return None;
    }

    method Skip()
      requires head < |tokens|
      modifies this`head, this`streamEndProduced
      ensures head == old(head) + 1 && streamEndProduced == EndedAt(tokens, head)
    {
      streamEndProduced := tokens[head].StreamEndToken?;
      head := head + 1;
    }

    method Fail() returns (ok: bool, event: Event)
      modifies this`error
      ensures !ok && error == ParserError
    {
      error := ParserError;
      return false, StreamEnd;
    }

    method Pop()
      requires states != []
      modifies this`state, this`states
      ensures state == old(states)[|old(states)| - 1]
      ensures states == old(states)[..|old(states)| - 1]
    {
      state := states[|states| - 1];
      states := states[..|states| - 1];
    }

    method PushMark()
      requires head < |tokens|
      modifies this`marks, this`head, this`streamEndProduced
      ensures marks == old(marks) + [old(head)]
      ensures head == old(head) + 1 && streamEndProduced == EndedAt(tokens, head)
    {
      marks := marks + [head];
      Skip();
    }

    /** A mark is popped both when a collection ends and when it turns out malformed. */
    method PopMark()
      requires marks != []
      modifies this`marks
      ensures marks == old(marks)[..|old(marks)| - 1]
    {
      marks := marks[..|marks| - 1];
    }

    /** The production has done what the step says. */
    ghost predicate Did(ok: bool, event: Event, s: Step)
      reads this
    {
      if ok then error == NoError && s == Next(event, Machine(Now(), directives))
      else error != NoError && s == Stuck(error)
    }

    ghost predicate Stepping()
      reads this
    {
      error == NoError && Starts(tokens, Now())
    }

    method ParseStreamStart() returns (ok: bool, event: Event)
      requires Stepping() && state.StreamStartState?
      modifies this`head, this`state, this`error, this`streamEndProduced
      ensures Did(ok, event, StreamStartStep(tokens, old(Now()), directives))
    {
      hide Starts;
      var token := Peek();
      if token.None? { return false, StreamEnd; }
      if !token.value.StreamStartToken? {
        ok, event := Fail();
        return;
      }
      state := DocumentStartState(true);
      event := StreamStart;
      Skip();
      return true, event;
    }

    /** Appends a directive unless its handle is taken. */
    method AppendTagDirective(value: TagDirective, allowDuplicates: bool) returns (ok: bool)
      modifies this`directives, this`error
      ensures ok <==> allowDuplicates || !HasHandle(old(directives), value.handle)
      ensures ok ==> error == old(error)
      ensures !ok ==> error == ParserError
      ensures directives == WithDirective(old(directives), value)
    {
      var i := 0;
      while i < |directives|
        invariant i <= |directives|
        invariant forall j | 0 <= j < i :: directives[j].handle != value.handle
      {
        if directives[i].handle == value.handle {
          if allowDuplicates { return true; }
          error := ParserError;
          return false;
        }
        i := i + 1;
      }
      directives := directives + [value];
      return true;
    }

    /** Reads directives up to the first token that is none, and adds the default ones. */
    method ProcessDirectives() returns (ok: bool, version: Option<Version>, tags: seq<TagDirective>)
      requires error == NoError && streamEndProduced == EndedAt(tokens, head)
      modifies this`head, this`streamEndProduced, this`directives, this`error
      ensures streamEndProduced == EndedAt(tokens, head)
      ensures match DirectivesAt(tokens, old(head), None, [], old(directives))
              case Directives(v, ts, known, k) =>
                ok && version == v && tags == ts && directives == known && head == k && error == NoError
              case BadDirectives(e) => !ok && error == e != NoError
    {
      hide WithDefaults, HasHandle;
      version, tags := None, [];
      var token := Peek();
      if token.None? { return false, None, []; }
      ghost var all := DirectivesAt(tokens, head, None, [], directives);
      while token.value.VersionDirectiveToken? || token.value.TagDirectiveToken?
        invariant head < |tokens| && token == Some(tokens[head]) && error == NoError
        invariant streamEndProduced == EndedAt(tokens, head)
        invariant DirectivesAt(tokens, head, version, tags, directives) == all
        decreases |tokens| - head
      {
        if token.value.VersionDirectiveToken? {
          if version.Some? || token.value.major != 1 || token.value.minor != 1 {
            error := ParserError;
            return false, None, [];
          }
          version := Some(Version(token.value.major, token.value.minor));
        } else {
          var value := TagDirective(token.value.handle, token.value.prefix);
          var appended := AppendTagDirective(value, false);
          if !appended { return false, None, []; }
          tags := tags + [value];
        }
        Skip();
        token := Peek();
        if token.None? { return false, None, []; }
      }
      AppendDefaults();
      return true, version, tags;
    }

    method AppendDefaults()
      requires error == NoError
      modifies this`directives, this`error
      ensures directives == WithDefaults(old(directives)) && error == NoError
    {
      hide HasHandle, WithDirective;
      ghost var known := directives;
      var i := 0;
      while i < |DEFAULT_TAG_DIRECTIVES|
        modifies this`directives, this`error
        invariant i <= |DEFAULT_TAG_DIRECTIVES| && error == NoError
        invariant i == 0 ==> directives == known
        invariant i == 1 ==> directives == WithDirective(known, DEFAULT_TAG_DIRECTIVES[0])
        invariant i == 2 ==> directives == WithDefaults(known)
      {
        var ok := AppendTagDirective(DEFAULT_TAG_DIRECTIVES[i], true);
        i := i + 1;
      }
    }

    method SkipDocumentEnds() returns (token: Option<Token>)
      requires error == NoError && streamEndProduced == EndedAt(tokens, head)
      modifies this`head, this`error, this`streamEndProduced
      ensures head == BehindDocumentEnds(tokens, old(head)) && streamEndProduced == EndedAt(tokens, head)
      ensures if head < |tokens| then token == Some(tokens[head]) && error == NoError
              else token == None && error == ScannerError
    {
      token := Peek();
      while token.Some? && token.value.DocumentEndToken?
        invariant BehindDocumentEnds(tokens, head) == BehindDocumentEnds(tokens, old(head))
        invariant streamEndProduced == EndedAt(tokens, head)
        invariant if head < |tokens| then token == Some(tokens[head]) && error == NoError
                  else token == None && error == ScannerError
        decreases |tokens| - head
      {
        Skip();
        token := Peek();
      }
    }

    method ParseDocumentStart(implicit: bool) returns (ok: bool, event: Event)
      requires Stepping() && state == DocumentStartState(implicit)
      modifies this`head, this`state, this`states, this`error, this`streamEndProduced, this`directives
      ensures Did(ok, event, DocumentStartStep(tokens, old(Now()), old(directives), implicit))
    {
      assert streamEndProduced == EndedAt(tokens, head);
      hide Starts, DirectivesAt, BehindDocumentEnds;
      ghost var c, ds := Now(), directives;
      var token;
      if implicit {
        token := Peek();
      } else {
        token := SkipDocumentEnds();
      }
      if token.None? { return false, StreamEnd; }
      if implicit && !token.value.VersionDirectiveToken? && !token.value.TagDirectiveToken?
         && !token.value.DocumentStartToken? && !token.value.StreamEndToken? {
        var processed, _, _ := ProcessDirectives();
        if !processed { return false, StreamEnd; }
        states := states + [DocumentEndState];
        state := BlockNodeState;
        return true, DocumentStart(None, [], false);
      } else if !token.value.StreamEndToken? {
        ok, event := ParseExplicitDocumentStart(c);
        return;
      }
      state := EndState;
      Skip();
      return true, StreamEnd;
    }

    /** Directives, if any, and the indicator that a document starts. */
    method ParseExplicitDocumentStart(ghost c: Config) returns (ok: bool, event: Event)
      requires error == NoError && streamEndProduced == EndedAt(tokens, head) && c.states == states
      requires c.marks == |marks|
      modifies this`head, this`state, this`states, this`error, this`streamEndProduced, this`directives
      ensures Did(ok, event, ExplicitStartStep(tokens, c, old(head), old(directives)))
    {
      hide DirectivesAt;
      var processed, version, tags := ProcessDirectives();
      if !processed { return false, StreamEnd; }
      var token := Peek();
      if token.None? { return false, StreamEnd; }
      if !token.value.DocumentStartToken? {
        ok, event := Fail();
        return;
      }
      states := states + [DocumentEndState];
      state := DocumentContentState;
      event := DocumentStart(version, tags, false);
      Skip();
      return true, event;
    }

    method ParseDocumentContent() returns (ok: bool, event: Event)
      requires Stepping() && state.DocumentContentState?
      modifies this`head, this`state, this`states, this`error, this`streamEndProduced
      ensures old(states) != [] && Did(ok, event, DocumentContentStep(tokens, old(Now()), directives))
    {
      hide NodeAt;
      var token := Peek();
      if token.None? { return false, StreamEnd; }
      if token.value.VersionDirectiveToken? || token.value.TagDirectiveToken?
         || token.value.DocumentStartToken? || token.value.DocumentEndToken?
         || token.value.StreamEndToken? {
        Pop();
        ok, event := EmptyScalar();
        return;
      }
      ok, event := ParseNode(true, false);
    }

    method EmptyScalar() returns (ok: bool, event: Event)
      ensures ok && event == FILLER
    {
      return true, Scalar("", "", "", true, false, Plain);
    }

    method ParseDocumentEnd() returns (ok: bool, event: Event)
      requires Stepping() && state.DocumentEndState?
      modifies this`head, this`state, this`error, this`streamEndProduced, this`directives
      ensures Did(ok, event, DocumentEndStep(tokens, old(Now())))
      ensures !ok ==> directives == old(directives)
    {
      assert streamEndProduced == EndedAt(tokens, head);
      hide Starts;
      var token := Peek();
      if token.None? { return false, StreamEnd; }
      var implicit := true;
      if token.value.DocumentEndToken? {
        Skip();
        implicit := false;
      }
      directives := [];
      state := DocumentStartState(false);
      return true, DocumentEnd(implicit);
    }

    method ResolveTag(handle: string, suffix: string) returns (tag: string)
      ensures tag == if handle == "" then suffix
                     else if PrefixOf(directives, handle).None? then ""
                     else PrefixOf(directives, handle).value + suffix
    {
      if handle == "" { return suffix; }
      var i := 0;
      assert directives[0..] == directives;
      while i < |directives|
        invariant i <= |directives|
        invariant PrefixOf(directives[i..], handle) == PrefixOf(directives, handle)
      {
        assert directives[i..][0] == directives[i] && directives[i..][1..] == directives[i + 1..];
        if directives[i].handle == handle {
          return directives[i].prefix + suffix;
        }
        i := i + 1;
      }
      return "";
    }

    /** Reads an anchor and a tag, in either order. */
    method ParseProperties() returns (ok: bool, anchor: string, tag: string)
      requires head < |tokens| && error == NoError && streamEndProduced == EndedAt(tokens, head)
      modifies this`head, this`streamEndProduced, this`error
      ensures streamEndProduced == EndedAt(tokens, head)
      ensures match PropertiesAt(tokens, old(head), directives)
              case Properties(a, t, k) => ok && anchor == a && tag == t && head == k < |tokens| && error == NoError
              case Unreadable(e) => !ok && error == e != NoError
    {
      hide PrefixOf;
      anchor, tag := "", "";
      var tagToken, handle, suffix := false, "", "";
      var token := Peek();
      if token.value.AnchorToken? {
        anchor := token.value.value;
        Skip();
        token := Peek();
        if token.None? { return false, "", ""; }
        if token.value.TagToken? {
          tagToken, handle, suffix := true, token.value.handle, token.value.suffix;
          Skip();
          token := Peek();
          if token.None? { return false, "", ""; }
        }
      } else if token.value.TagToken? {
        tagToken, handle, suffix := true, token.value.handle, token.value.suffix;
        Skip();
        token := Peek();
        if token.None? { return false, "", ""; }
        if token.value.AnchorToken? {
          anchor := token.value.value;
          Skip();
          token := Peek();
          if token.None? { return false, "", ""; }
        }
      }
      if tagToken {
        tag := ResolveTag(handle, suffix);
        if handle != "" && tag == "" {
          error := ParserError;
          return false, "", "";
        }
      }
      return true, anchor, tag;
    }

    method ParseNode(block: bool, indentless: bool) returns (ok: bool, event: Event)
      requires error == NoError && streamEndProduced == EndedAt(tokens, head) && states != []
      modifies this`head, this`state, this`states, this`error, this`streamEndProduced
      ensures Did(ok, event, NodeAt(tokens, old(head), old(states), |marks|, directives, block, indentless))
    {
      hide PropertiesAt, ContentAt;
      var token := Peek();
      if token.None? { return false, StreamEnd; }
      if token.value.AliasToken? {
        Pop();
        event := Alias(token.value.value);
        Skip();
        return true, event;
      }
      var found, anchor, tag := ParseProperties();
      if !found { return false, StreamEnd; }
      ok, event := ParseContent(block, indentless, anchor, tag);
    }

    /** Reads what follows the properties; a node may consist of its properties alone. */
    method ParseContent(block: bool, indentless: bool, anchor: string, tag: string) returns (ok: bool, event: Event)
      requires head < |tokens| && error == NoError && streamEndProduced == EndedAt(tokens, head) && states != []
      modifies this`head, this`state, this`states, this`error, this`streamEndProduced
      ensures Did(ok, event,
                  ContentAt(tokens, Properties(anchor, tag, old(head)), old(states), |marks|, directives, block,
                                       indentless))
    {
      var token := Peek();
      var implicit := tag == "";
      if indentless && token.value.BlockEntryToken? {
        state := IndentlessSequenceEntryState;
        return true, SequenceStart(anchor, tag, implicit, false);
      }
      if token.value.ScalarToken? {
        var plainImplicit, quotedImplicit := false, false;
        if (tag == "" && token.value.style == Plain) || tag == "!" {
          plainImplicit := true;
        } else if tag == "" {
          quotedImplicit := true;
        }
        Pop();
        event := Scalar(anchor, tag, token.value.value, plainImplicit, quotedImplicit, token.value.style);
        Skip();
        return true, event;
      }
      if token.value.FlowSequenceStartToken? {
        state := FlowSequenceEntryState(true);
        return true, SequenceStart(anchor, tag, implicit, true);
      }
      if token.value.FlowMappingStartToken? {
        state := FlowMappingKeyState(true);
        return true, MappingStart(anchor, tag, implicit, true);
      }
      if block && token.value.BlockSequenceStartToken? {
        state := BlockSequenceEntryState(true);
        return true, SequenceStart(anchor, tag, implicit, false);
      }
      if block && token.value.BlockMappingStartToken? {
        state := BlockMappingKeyState(true);
        return true, MappingStart(anchor, tag, implicit, false);
      }
      if anchor != "" || tag != "" {
        Pop();
        return true, Scalar(anchor, tag, "", implicit, false, Plain);
      }
      ok, event := Fail();
    }

    /** What a production may rely on once it has consumed tokens: only the state is left to set. */
    ghost predicate Midway(c: Config)
      reads this
    {
      error == NoError && streamEndProduced == EndedAt(tokens, head) && states == c.states
    }

    /** Reads a node for the production that started in `c`, which continues in `next`. */
    method ParseChild(ghost c: Config, next: State, block: bool, indentless: bool) returns (ok: bool, event: Event)
      requires Midway(c)
      modifies this`head, this`state, this`states, this`error, this`streamEndProduced
      ensures Did(ok, event, ChildStep(tokens, c, |marks|, old(head), directives, next, block, indentless))
    {
      hide NodeAt;
      states := states + [next];
      ok, event := ParseNode(block, indentless);
    }

    /** Supplies an empty scalar for the production that started in `c`. */
    method EmptyChild(ghost c: Config, next: State) returns (ok: bool, event: Event)
      requires Midway(c)
      modifies this`state
      ensures ok && Did(ok, event, EmptyStep(tokens, c, |marks|, head, directives, next))
    {
      state := next;
      ok, event := EmptyScalar();
    }

    /** Ends the collection of the production that started in `c`, consuming the closing token. */
    method CloseCollection(ghost c: Config, end: Event) returns (ok: bool, event: Event)
      requires Midway(c) && head < |tokens| && states != [] && marks != []
      modifies this`head, this`state, this`states, this`marks, this`streamEndProduced
      ensures Did(ok, event, CloseStep(tokens, c, old(|marks|), old(head), directives, end))
    {
      Pop();
      PopMark();
      Skip();
      return true, end;
    }

    method ParseBlockSequenceEntry(first: bool) returns (ok: bool, event: Event)
      requires Stepping() && state == BlockSequenceEntryState(first)
      modifies this`head, this`state, this`states, this`marks, this`error, this`streamEndProduced
      ensures Poppable(old(Now())) && Did(ok, event, BlockSequenceEntryStep(tokens, old(Now()), directives))
    {
      hide ChildStep, EmptyStep, CloseStep, Resumable;
      ghost var c := Now();
      if first { PushMark(); }
      var token := Peek();
      if token.None? { return false, StreamEnd; }
      if token.value.BlockEntryToken? {
        Skip();
        token := Peek();
        if token.None? { return false, StreamEnd; }
        if !token.value.BlockEntryToken? && !token.value.BlockEndToken? {
          ok, event := ParseChild(c, BlockSequenceEntryState(false), true, false);
          return;
        }
        ok, event := EmptyChild(c, BlockSequenceEntryState(false));
        return;
      }
      if token.value.BlockEndToken? {
        ok, event := CloseCollection(c, SequenceEnd);
        return;
      }
      PopMark();
      ok, event := Fail();
    }

    method ParseIndentlessSequenceEntry() returns (ok: bool, event: Event)
      requires Stepping() && state.IndentlessSequenceEntryState?
      modifies this`head, this`state, this`states, this`error, this`streamEndProduced
      ensures Poppable(old(Now())) && Did(ok, event, IndentlessSequenceEntryStep(tokens, old(Now()), directives))
    {
      hide ChildStep, EmptyStep, Resumable;
      ghost var c := Now();
      var token := Peek();
      if token.None? { return false, StreamEnd; }
      if token.value.BlockEntryToken? {
        Skip();
        token := Peek();
        if token.None? { return false, StreamEnd; }
        if !token.value.BlockEntryToken? && !token.value.KeyToken? && !token.value.ValueToken?
           && !token.value.BlockEndToken? {
          ok, event := ParseChild(c, IndentlessSequenceEntryState, true, false);
          return;
        }
        ok, event := EmptyChild(c, IndentlessSequenceEntryState);
        return;
      }
      Pop();
      return true, SequenceEnd;
    }

    method ParseBlockMappingKey(first: bool) returns (ok: bool, event: Event)
      requires Stepping() && state == BlockMappingKeyState(first)
      modifies this`head, this`state, this`states, this`marks, this`error, this`streamEndProduced
      ensures Poppable(old(Now())) && Did(ok, event, BlockMappingKeyStep(tokens, old(Now()), directives))
    {
      hide ChildStep, EmptyStep, CloseStep, Resumable;
      ghost var c := Now();
      if first { PushMark(); }
      var token := Peek();
      if token.None? { return false, StreamEnd; }
      if token.value.KeyToken? {
        Skip();
        token := Peek();
        if token.None? { return false, StreamEnd; }
        if !token.value.KeyToken? && !token.value.ValueToken? && !token.value.BlockEndToken? {
          ok, event := ParseChild(c, BlockMappingValueState, true, true);
          return;
        }
        ok, event := EmptyChild(c, BlockMappingValueState);
        return;
      }
      if token.value.BlockEndToken? {
        ok, event := CloseCollection(c, MappingEnd);
        return;
      }
      PopMark();
      ok, event := Fail();
    }

    method ParseBlockMappingValue() returns (ok: bool, event: Event)
      requires Stepping() && state.BlockMappingValueState?
      modifies this`head, this`state, this`states, this`error, this`streamEndProduced
      ensures Did(ok, event, BlockMappingValueStep(tokens, old(Now()), directives))
    {
      hide ChildStep, EmptyStep, Resumable;
      ghost var c := Now();
      var token := Peek();
      if token.None? { return false, StreamEnd; }
      if token.value.ValueToken? {
        Skip();
        token := Peek();
        if token.None? { return false, StreamEnd; }
        if !token.value.KeyToken? && !token.value.ValueToken? && !token.value.BlockEndToken? {
          ok, event := ParseChild(c, BlockMappingKeyState(false), true, true);
          return;
        }
      }
      ok, event := EmptyChild(c, BlockMappingKeyState(false));
    }

    method ParseFlowSequenceEntry(first: bool) returns (ok: bool, event: Event)
      requires Stepping() && state == FlowSequenceEntryState(first)
      modifies this`head, this`state, this`states, this`marks, this`error, this`streamEndProduced
      ensures Poppable(old(Now())) && Did(ok, event, FlowSequenceEntryStep(tokens, old(Now()), directives, first))
    {
      hide FlowItemStep, CloseStep, Resumable;
      ghost var c := Now();
      if first { PushMark(); }
      var token := Peek();
      if token.None? { return false, StreamEnd; }
      if !token.value.FlowSequenceEndToken? {
        if !first {
          if !token.value.FlowEntryToken? {
            PopMark();
            ok, event := Fail();
            return;
          }
          Skip();
        }
        ok, event := ParseFlowItem(c);
        return;
      }
      ok, event := CloseCollection(c, SequenceEnd);
    }

    /** An entry of a flow sequence, behind the comma. */
    method ParseFlowItem(ghost c: Config) returns (ok: bool, event: Event)
      requires Midway(c) && states != [] && marks != []
      modifies this`head, this`state, this`states, this`marks, this`error, this`streamEndProduced
      ensures Did(ok, event, FlowItemStep(tokens, c, old(|marks|), old(head), directives))
    {
      hide ChildStep, CloseStep;
      var token := Peek();
      if token.None? { return false, StreamEnd; }
      if token.value.KeyToken? {
        state := FlowSequenceEntryMappingKeyState;
        event := MappingStart("", "", true, true);
        Skip();
        return true, event;
      }
      if !token.value.FlowSequenceEndToken? {
        ok, event := ParseChild(c, FlowSequenceEntryState(false), false, false);
        return;
      }
      ok, event := CloseCollection(c, SequenceEnd);
    }

    /** The token that shows the key to be empty is consumed here, whichever it is. */
    method ParseFlowSequenceEntryMappingKey() returns (ok: bool, event: Event)
      requires Stepping() && state.FlowSequenceEntryMappingKeyState?
      modifies this`head, this`state, this`states, this`error, this`streamEndProduced
      ensures Did(ok, event, PairKeyStep(tokens, old(Now()), directives))
    {
      hide ChildStep, EmptyStep, Resumable;
      ghost var c := Now();
      var token := Peek();
      if token.None? { return false, StreamEnd; }
      if !token.value.ValueToken? && !token.value.FlowEntryToken? && !token.value.FlowSequenceEndToken? {
        ok, event := ParseChild(c, FlowSequenceEntryMappingValueState, false, false);
        return;
      }
      Skip();
      ok, event := EmptyChild(c, FlowSequenceEntryMappingValueState);
    }

    method ParseFlowSequenceEntryMappingValue() returns (ok: bool, event: Event)
      requires Stepping() && state.FlowSequenceEntryMappingValueState?
      modifies this`head, this`state, this`states, this`error, this`streamEndProduced
      ensures Did(ok, event, PairValueStep(tokens, old(Now()), directives))
    {
      hide ChildStep, EmptyStep, Resumable;
      ghost var c := Now();
      var token := Peek();
      if token.None? { return false, StreamEnd; }
      if token.value.ValueToken? {
        Skip();
        token := Peek();
        if token.None? { return false, StreamEnd; }
        if !token.value.FlowEntryToken? && !token.value.FlowSequenceEndToken? {
          ok, event := ParseChild(c, FlowSequenceEntryMappingEndState, false, false);
          return;
        }
      }
      ok, event := EmptyChild(c, FlowSequenceEntryMappingEndState);
    }

    method ParseFlowSequenceEntryMappingEnd() returns (ok: bool, event: Event)
      requires Stepping() && state.FlowSequenceEntryMappingEndState?
      modifies this`state, this`error
      ensures Did(ok, event, PairEndStep(tokens, old(Now()), directives))
    {
      var token := Peek();
      if token.None? { return false, StreamEnd; }
      state := FlowSequenceEntryState(false);
      return true, MappingEnd;
    }

    method ParseFlowMappingKey(first: bool) returns (ok: bool, event: Event)
      requires Stepping() && state == FlowMappingKeyState(first)
      modifies this`head, this`state, this`states, this`marks, this`error, this`streamEndProduced
      ensures Poppable(old(Now())) && Did(ok, event, FlowMappingKeyStep(tokens, old(Now()), directives, first))
    {
      hide FlowKeyStep, CloseStep, Resumable;
      ghost var c := Now();
      if first { PushMark(); }
      var token := Peek();
      if token.None? { return false, StreamEnd; }
      if !token.value.FlowMappingEndToken? {
        if !first {
          if !token.value.FlowEntryToken? {
            PopMark();
            ok, event := Fail();
            return;
          }
          Skip();
        }
        ok, event := ParseFlowKey(c);
        return;
      }
      ok, event := CloseCollection(c, MappingEnd);
    }

    /** A key of a flow mapping, behind the comma. */
    method ParseFlowKey(ghost c: Config) returns (ok: bool, event: Event)
      requires Midway(c) && states != [] && marks != []
      modifies this`head, this`state, this`states, this`marks, this`error, this`streamEndProduced
      ensures Did(ok, event, FlowKeyStep(tokens, c, old(|marks|), old(head), directives))
    {
      hide ChildStep, EmptyStep, CloseStep;
      var token := Peek();
      if token.None? { return false, StreamEnd; }
      if token.value.KeyToken? {
        Skip();
        token := Peek();
        if token.None? { return false, StreamEnd; }
        if !token.value.ValueToken? && !token.value.FlowEntryToken? && !token.value.FlowMappingEndToken? {
          ok, event := ParseChild(c, FlowMappingValueState(false), false, false);
          return;
        }
        ok, event := EmptyChild(c, FlowMappingValueState(false));
        return;
      }
      if !token.value.FlowMappingEndToken? {
        ok, event := ParseChild(c, FlowMappingValueState(true), false, false);
        return;
      }
      ok, event := CloseCollection(c, MappingEnd);
    }

    method ParseFlowMappingValue(empty: bool) returns (ok: bool, event: Event)
      requires Stepping() && state == FlowMappingValueState(empty)
      modifies this`head, this`state, this`states, this`error, this`streamEndProduced
      ensures Did(ok, event, FlowMappingValueStep(tokens, old(Now()), directives, empty))
    {
      hide ChildStep, EmptyStep, Resumable;
      ghost var c := Now();
      var token := Peek();
      if token.None? { return false, StreamEnd; }
      if !empty && token.value.ValueToken? {
        Skip();
        token := Peek();
        if token.None? { return false, StreamEnd; }
        if !token.value.FlowEntryToken? && !token.value.FlowMappingEndToken? {
          ok, event := ParseChild(c, FlowMappingKeyState(false), false, false);
          return;
        }
      }
      ok, event := EmptyChild(c, FlowMappingKeyState(false));
    }

    method ParseRootNode() returns (ok: bool, event: Event)
      requires Stepping() && state.BlockNodeState?
      modifies this`head, this`state, this`states, this`error, this`streamEndProduced
      ensures old(states) != []
      ensures Did(ok, event, NodeAt(tokens, old(head), old(states), |marks|, directives, true, false))
    {
      hide NodeAt;
      ok, event := ParseNode(true, false);
    }

    /** Dispatches on the state; two states are never entered. */
    method RunStateMachine() returns (ok: bool, event: Event)
      requires Stepping() && !state.EndState?
      requires !state.BlockNodeOrIndentlessSequenceState? && !state.FlowNodeState?
      modifies this
      ensures trace == old(trace) && Poppable(old(Now()))
      ensures Did(ok, event, Production(tokens, Machine(old(Now()), old(directives))))
    {
      StartFacts(tokens, Now());
      hide Starts, Poppable, StreamStartStep, DocumentStartStep, DocumentContentStep, DocumentEndStep, NodeAt,
           BlockSequenceEntryStep, IndentlessSequenceEntryStep, BlockMappingKeyStep, BlockMappingValueStep,
           FlowSequenceEntryStep, PairKeyStep, PairValueStep, PairEndStep, FlowMappingKeyStep, FlowMappingValueStep;
      match state
      case StreamStartState => ok, event := ParseStreamStart();
      case DocumentStartState(implicit) => ok, event := ParseDocumentStart(implicit);
      case DocumentContentState => ok, event := ParseDocumentContent();
      case DocumentEndState => ok, event := ParseDocumentEnd();
      case BlockNodeState => ok, event := ParseRootNode();
      case BlockSequenceEntryState(first) => ok, event := ParseBlockSequenceEntry(first);
      case IndentlessSequenceEntryState => ok, event := ParseIndentlessSequenceEntry();
      case BlockMappingKeyState(first) => ok, event := ParseBlockMappingKey(first);
      case BlockMappingValueState => ok, event := ParseBlockMappingValue();
      case FlowSequenceEntryState(first) => ok, event := ParseFlowSequenceEntry(first);
      case FlowSequenceEntryMappingKeyState => ok, event := ParseFlowSequenceEntryMappingKey();
      case FlowSequenceEntryMappingValueState => ok, event := ParseFlowSequenceEntryMappingValue();
      case FlowSequenceEntryMappingEndState => ok, event := ParseFlowSequenceEntryMappingEnd();
      case FlowMappingKeyState(first) => ok, event := ParseFlowMappingKey(first);
      case FlowMappingValueState(empty) => ok, event := ParseFlowMappingValue(empty);
    }

    lemma Settle(c: Config, ds: seq<TagDirective>, p: Partial, e: Event)
      requires InStep(tokens, c, p) && FeedAll(trace) == Some(p) && Starts(tokens, c) && DistinctHandles(ds)
      requires Poppable(c) && Production(tokens, Machine(c, ds)) == Next(e, Machine(Now(), directives))
      requires |trace| + Credit(c.state) <= 3 * c.head && TokensContent(tokens, c.head) == EventsContent(trace)
      requires Emits(tokens, START, trace, Machine(c, ds))
      ensures head <= |tokens| && DistinctHandles(directives) && streamEndProduced == EndedAt(tokens, head)
      ensures FeedAll(trace + [e]).Some? && InStep(tokens, Now(), FeedAll(trace + [e]).value)
      ensures |trace + [e]| + Credit(state) <= 3 * head
      ensures TokensContent(tokens, head) == EventsContent(trace + [e])
      ensures Emits(tokens, START, trace + [e], Machine(Now(), directives))
    {
      hide Production, TokensContent, InStep, Starts, Emits, Poppable;
      ProductionFollows(tokens, Machine(c, ds));
      TransitionKeeps(tokens, c, p, e, Now());
      assert (trace + [e])[..|trace|] == trace;
      assert !c.state.EndState? by { NotAtEnd(tokens, c); }
      EmitsOne(tokens, Machine(c, ds), e, Machine(Now(), directives));
      EmitsOn(tokens, START, trace, Machine(c, ds), [e], Machine(Now(), directives));
    }

    /** Returns the next event, or none once the stream has ended or failed. */
    method Parse() returns (ok: bool, event: Option<Event>)
      requires Valid()
      modifies this
      ensures Valid()
      ensures event.None? ==> trace == old(trace)
      ensures event.Some? ==> trace == old(trace) + [event.value] && ok && error == NoError
      ensures !ok ==> error != NoError
      ensures ok && event.None? <==> old(error != NoError || state.EndState?)
      ensures error == NoError ==> (state.EndState? <==> FeedAll(trace).value.Complete?)
    {
      hide Transition, TokensContent, EventsContent, Production, Emits, Poppable, DistinctHandles, Credit, FeedFrom;
      if streamEndProduced || error != NoError || state.EndState? {
        return true, None;
      }
      ghost var c, ds := Now(), directives;
      ghost var p := FeedAll(trace).value;
      assert !p.Complete?;
      var e;
      ok, e := RunStateMachine();
      if !ok {
        last := Machine(c, ds);
        return false, None;
      }
      Settle(c, ds, p, e);
      trace := trace + [e];
      return true, Some(e);
    }
  }

  datatype Outcome = Finished(consumed: nat) | Failed(error: Error)

  /** Drains a parser.  For every token list the events are a prefix of the event language, at most
      three per token; they are a whole stream exactly when parsing finishes without an error; and
      then their content is the content of the tokens consumed, in order.  The events are those of
      the machine on values, up to where it stops, and so is the error. */
  method ParseAll(tokens: seq<Token>) returns (outcome: Outcome, events: seq<Event>)
    ensures exists docs :: WellFormedDocs(docs) && events <= StreamEvents(docs)
    ensures outcome.Finished? <==> exists docs :: WellFormedDocs(docs) && events == StreamEvents(docs)
    ensures outcome.Finished? ==>
              outcome.consumed <= |tokens| && EventsContent(events) == TokensContent(tokens, outcome.consumed)
    ensures |events| <= 3 * |tokens|
    ensures forall i | 0 <= i < |events| :: FlagsFit(events[i])
    ensures exists m :: Emits(tokens, START, events, m) && m.cfg.state.EndState? == outcome.Finished?
                        && (outcome.Failed? ==> StepOf(tokens, m) == Stuck(outcome.error))
  {
    hide FeedFrom, StreamEvents, TokensContent, EventsContent, Emits, StepOf, FlagsFit;
    var parser := new Parser(tokens);
    events := [];
    var ok, event := parser.Parse();
    while ok && event.Some?
      invariant fresh(parser) && parser.Valid() && parser.tokens == tokens
      invariant if event.Some? then ok && parser.trace == events + [event.value] else parser.trace == events
      invariant !ok ==> parser.error != NoError
      invariant ok && event.None? ==>
          parser.error == NoError && parser.state.EndState? && FeedAll(events).value.Complete?
      invariant event.Some? ==> parser.error == NoError
      invariant parser.error == NoError ==> (parser.state.EndState? <==> FeedAll(parser.trace).value.Complete?)
      decreases 3 * |tokens| - |parser.trace|, event.Some?
    {
      events := events + [event.value];
      ok, event := parser.Parse();
    }
    PrefixLanguage(events);
    RunFlags(tokens, START, events, if ok then Machine(parser.Now(), parser.directives) else parser.last);
    var p := FeedAll(events).value;
    if ok {
      CompleteLanguage(events, p.docs);
      outcome := Finished(parser.head);
    } else {
      forall docs | WellFormedDocs(docs) && events == StreamEvents(docs)
        ensures false
      {
        CompleteLanguage(events, docs);
      }
      outcome := Failed(parser.error);
      assert Emits(tokens, START, events, parser.last);
    }
  }

  lemma NotAtEnd(tokens: seq<Token>, c: Config)
    requires Starts(tokens, c)
    ensures !c.state.EndState?
  {}
}
