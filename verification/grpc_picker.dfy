/**
 The wrapper around a balancer's picker: RPCs pick, and block until there is something to pick from.

 Actions are what one goroutine does while it holds the mutex, or while it is away from it.  Channels
 and pickers are numbered by the update that brought them: update `n` installs picker `n` and makes
 channel `n`; channel 0 is there from the start, before any picker.
 */
module GrpcPicker {
  import opened Options

  datatype Phase = Looping | Blocked | Picking | Returned

  /** One call of `pick`.  `ch` is its local variable, `tried` lists the pickers it has called. */
  datatype Call = Call(phase: Phase, ch: Option<nat>, tried: seq<nat>)

  /** `closes` lists the channels in the order in which they were closed. */
  datatype State = State(done: bool, picker: Option<nat>, blocking: nat, closes: seq<nat>, calls: seq<Call>)

  datatype Action =
    | Update(isNil: bool)
    | Close
    | Begin
    | Loop(t: nat)
    | Wake(t: nat)
    | Cancel(t: nat)
    | Picked(t: nat, again: bool)

  const INITIAL := State(false, None, 0, [], [])

  predicate Enabled(s: State, a: Action) {
    match a
    case Update(_) => true
    case Close => true
    case Begin => true
    case Loop(t) => t < |s.calls| && s.calls[t].phase.Looping?
    case Wake(t) => t < |s.calls| && s.calls[t].phase.Blocked? && s.calls[t].ch.Some? && s.calls[t].ch.value in s.closes
    case Cancel(t) => t < |s.calls| && s.calls[t].phase.Blocked?
    case Picked(t, _) => t < |s.calls| && s.calls[t].phase.Picking?
  }

  /** One round of the loop in `pick`, up to where it gives the mutex back. */
  function Round(s: State, c: Call): Call {
    if s.done then c.(phase := Returned)
    else
      var ch := if s.picker.None? then Some(s.blocking) else c.ch;
      if ch == Some(s.blocking) then c.(phase := Blocked, ch := ch)
      else Call(Picking, Some(s.blocking), if s.picker.Some? then c.tried + [s.picker.value] else c.tried)
  }

  function With(s: State, t: nat, c: Call): State
    requires t < |s.calls|
  {
    s.(calls := s.calls[t := c])
  }

  function After(s: State, a: Action): State
    requires Enabled(s, a)
  {
    match a
    case Update(isNil) =>
      if s.done then s
      else
        s.(picker := if isNil then None else Some(s.blocking + 1), closes := s.closes + [s.blocking],
           blocking := s.blocking + 1)
    case Close => if s.done then s else s.(done := true, closes := s.closes + [s.blocking])
    case Begin => s.(calls := s.calls + [Call(Looping, None, [])])
    case Loop(t) => With(s, t, Round(s, s.calls[t]))
    case Wake(t) => With(s, t, s.calls[t].(phase := Looping))
    case Cancel(t) => With(s, t, s.calls[t].(phase := Returned))
    case Picked(t, again) => With(s, t, s.calls[t].(phase := if again then Looping else Returned))
  }

  // ---------------------------------------------------------------------------------------------
  // What every action keeps

  predicate Increasing(s: seq<nat>) {
    forall i, j | 0 <= i < j < |s| :: s[i] < s[j]
  }

  /** The channels up to the current one are closed, each once; the current one after `close`. */
  predicate ClosedOnce(s: State) {
    && |s.closes| == s.blocking + (if s.done then 1 else 0)
    && forall i | 0 <= i < |s.closes| :: s.closes[i] == i
  }

  predicate Newest(s: State) {
    s.picker.Some? ==> s.picker.value == s.blocking
  }

  /** A call has tried pickers in their order, none of them newer than its channel; it blocks on its
      channel after it has called the picker that came with it, or because there was none. */
  predicate Orderly(s: State, c: Call) {
    && Increasing(c.tried)
    && (c.ch.None? ==> c.tried == [])
    && (c.ch.Some? ==> c.ch.value <= s.blocking && forall i | 0 <= i < |c.tried| :: c.tried[i] <= c.ch.value)
    && (c.phase.Blocked? ==> c.ch.Some?)
    && (c.ch == Some(s.blocking) && s.picker.Some? ==> s.blocking in c.tried)
  }

  ghost predicate Inv(s: State) {
    && ClosedOnce(s) && Newest(s)
    && forall t | 0 <= t < |s.calls| :: Orderly(s, s.calls[t])
  }

  lemma RoundKeeps(s: State, c: Call)
    requires Newest(s) && Orderly(s, c)
    ensures Orderly(s, Round(s, c))
  {
    var r := Round(s, c);
    if r.phase.Picking? && r.tried != c.tried {
      forall i, j | 0 <= i < j < |r.tried| ensures r.tried[i] < r.tried[j] {
        if j == |c.tried| { assert c.tried[i] <= c.ch.value < s.blocking; }
      }
    }
  }

  lemma StepKeeps(s: State, a: Action)
    requires Inv(s) && Enabled(s, a)
    ensures Inv(After(s, a))
  {
    var s' := After(s, a);
    forall t | 0 <= t < |s'.calls| ensures Orderly(s', s'.calls[t]) {
      if t < |s.calls| { assert Orderly(s, s.calls[t]); }
      if a.Loop? && t == a.t { RoundKeeps(s, s.calls[t]); }
    }
  }

  ghost predicate IsRun(run: seq<State>, actions: seq<Action>) {
    && |run| == |actions| + 1 && run[0] == INITIAL
    && forall i | 0 <= i < |actions| :: Enabled(run[i], actions[i]) && run[i + 1] == After(run[i], actions[i])
  }

  lemma {:induction false} RunKeeps(run: seq<State>, actions: seq<Action>, i: nat)
    requires IsRun(run, actions) && i < |run|
    ensures Inv(run[i])
  {
    hide Inv, Enabled, After;
    if i == 0 {
      InitialHolds();
    } else {
      RunKeeps(run, actions, i - 1);
      assert run[i - 1 + 1] == After(run[i - 1], actions[i - 1]);
      StepKeeps(run[i - 1], actions[i - 1]);
    }
  }

  lemma InitialHolds()
    ensures Inv(INITIAL)
  {}

  // ---------------------------------------------------------------------------------------------
  // Whole runs

  /** No channel is closed twice. */
  lemma NoDoubleClose(run: seq<State>, actions: seq<Action>, i: nat)
    requires IsRun(run, actions) && i < |run|
    ensures forall j, k | 0 <= j < k < |run[i].closes| :: run[i].closes[j] != run[i].closes[k]
  {
    RunKeeps(run, actions, i);
  }

  /** A call never calls the same picker twice. */
  lemma TriedOnce(run: seq<State>, actions: seq<Action>, i: nat, t: nat)
    requires IsRun(run, actions) && i < |run| && t < |run[i].calls|
    ensures var tried := run[i].calls[t].tried;
            forall j, k | 0 <= j < k < |tried| :: tried[j] != tried[k]
  {
    RunKeeps(run, actions, i);
    assert Orderly(run[i], run[i].calls[t]);
  }

  /** No update and no close is missed: a blocked call can wake up, or the wrapper is open, the call
      waits on the current channel, and it has called the current picker if there is one. */
  lemma NothingMissed(run: seq<State>, actions: seq<Action>, i: nat, t: nat)
    requires IsRun(run, actions) && i < |run| && t < |run[i].calls| && run[i].calls[t].phase.Blocked?
    ensures var s, c := run[i], run[i].calls[t];
            || Enabled(s, Wake(t))
            || (!s.done && c.ch == Some(s.blocking) && s.blocking !in s.closes
                && (s.picker.Some? ==> s.picker.value in c.tried))
  {
    RunKeeps(run, actions, i);
    var s, c := run[i], run[i].calls[t];
    assert Orderly(s, c);
    if c.ch.value < |s.closes| { assert s.closes[c.ch.value] == c.ch.value; }
  }

  /** An update or a close lets every blocked call go on. */
  lemma EveryoneWakes(run: seq<State>, actions: seq<Action>, i: nat, t: nat)
    requires IsRun(run, actions) && i < |actions| && (actions[i].Update? || actions[i].Close?)
    requires t < |run[i + 1].calls| && run[i + 1].calls[t].phase.Blocked?
    ensures Enabled(run[i + 1], Wake(t))
  {
    RunKeeps(run, actions, i);
    RunKeeps(run, actions, i + 1);
    var s, s' := run[i], run[i + 1];
    assert s' == After(s, actions[i]) && s'.calls == s.calls;
    assert Orderly(s, s.calls[t]) && ClosedOnce(s');
    var ch := s.calls[t].ch.value;
    assert ch <= s.blocking < |s'.closes|;
    assert s'.closes[ch] == ch;
  }

  /** A closed wrapper lets nobody pick, and stays closed. */
  lemma {:induction false} StaysClosed(run: seq<State>, actions: seq<Action>, i: nat, j: nat, t: nat)
    requires IsRun(run, actions) && i <= j < |run| && run[i].done
    requires t < |run[i].calls| && !run[i].calls[t].phase.Picking?
    ensures run[j].done && run[j].closes == run[i].closes && run[j].blocking == run[i].blocking
    ensures t < |run[j].calls| && !run[j].calls[t].phase.Picking? && run[j].calls[t].tried == run[i].calls[t].tried
  {
    if i == j {
    } else {
      StaysClosed(run, actions, i, j - 1, t);
      assert run[j] == After(run[j - 1], actions[j - 1]);
    }
  }

  // ---------------------------------------------------------------------------------------------
  // What has happened, from where the wrapper is

  /** How many updates there were before the wrapper was closed. */
  function Updates(actions: seq<Action>): nat {
    if actions == [] then 0
    else
      var (k, rest) := (|actions| - 1, actions[..|actions| - 1]);
      Updates(rest) + if actions[k].Update? && forall a | a in rest :: !a.Close? then 1 else 0
  }

  /** The last of these updates, if there was one, brought a picker. */
  predicate LastBrought(actions: seq<Action>) {
    && actions != []
    && var (k, rest) := (|actions| - 1, actions[..|actions| - 1]);
       if actions[k].Update? && forall a | a in rest :: !a.Close? then !actions[k].isNil else LastBrought(rest)
  }

  predicate HasClose(actions: seq<Action>) {
    exists a | a in actions :: a.Close?
  }

  lemma HistorySnoc(was: seq<Action>, a: Action)
    ensures HasClose(was + [a]) <==> HasClose(was) || a.Close?
    ensures Updates(was + [a]) == Updates(was) + if a.Update? && !HasClose(was) then 1 else 0
    ensures LastBrought(was + [a]) <==> if a.Update? && !HasClose(was) then !a.isNil else LastBrought(was)
  {
    assert (was + [a])[..|was|] == was && (was + [a])[|was|] == a;
  }

  /** The wrapper is closed exactly if `close` was called; the picker in use is that of the last update
      before, if it brought one, and each update has made its channel. */
  lemma {:induction false} PickerExactly(run: seq<State>, actions: seq<Action>, n: nat)
    requires IsRun(run, actions) && n < |run|
    ensures run[n].done <==> HasClose(actions[..n])
    ensures run[n].blocking == Updates(actions[..n])
    ensures run[n].picker == if LastBrought(actions[..n]) then Some(Updates(actions[..n])) else None
  {
    if n == 0 {
      assert actions[..0] == [];
    } else {
      hide Inv, After, Enabled, HasClose, Updates, LastBrought;
      PickerExactly(run, actions, n - 1);
      var (s, a, was) := (run[n - 1], actions[n - 1], actions[..n - 1]);
      assert run[n - 1 + 1] == After(s, a);
      assert actions[..n] == was + [a];
      PickerStep(s, a);
      HistorySnoc(was, a);
    }
  }

  lemma PickerStep(s: State, a: Action)
    requires Enabled(s, a)
    ensures var s' := After(s, a);
            && s'.done == (s.done || a.Close?)
            && s'.blocking == s.blocking + (if a.Update? && !s.done then 1 else 0)
            && s'.picker == if a.Update? && !s.done then if a.isNil then None else Some(s.blocking + 1) else s.picker
  {}

  /** What a round comes to: it ends when the wrapper is closed, blocks when there is no picker or the
      current one has been tried, and otherwise tries the current one. */
  lemma RoundExactly(run: seq<State>, actions: seq<Action>, i: nat, t: nat)
    requires IsRun(run, actions) && i < |actions| && actions[i] == Loop(t)
    ensures t < |run[i].calls| == |run[i + 1].calls|
    ensures var s, c, c' := run[i], run[i].calls[t], run[i + 1].calls[t];
            && (c'.phase.Returned? <==> s.done)
            && (c'.phase.Blocked? <==> !s.done && (s.picker.None? || s.picker.value in c.tried))
            && (c'.phase.Picking? <==> !s.done && s.picker.Some? && s.picker.value !in c.tried)
            && c'.tried == if c'.phase.Picking? then c.tried + [s.picker.value] else c.tried
  {
    RunKeeps(run, actions, i);
    var s, c := run[i], run[i].calls[t];
    assert run[i + 1] == After(s, actions[i]);
    assert Orderly(s, c);
    hide IsRun;
  }

  /** Nobody else moves a call: it goes on when its channel is closed, ends when its context does, and
      behind the picker it ends or starts over. */
  lemma CallStep(s: State, a: Action, t: nat)
    requires Enabled(s, a) && t < |s.calls| && a != Loop(t)
    ensures t < |After(s, a).calls|
    ensures var c, c' := s.calls[t], After(s, a).calls[t];
            && c'.tried == c.tried && c'.ch == c.ch
            && c'.phase == if a == Wake(t) || a == Picked(t, true) then Looping
                           else if a == Cancel(t) || a == Picked(t, false) then Returned
                           else c.phase
  {}
}
