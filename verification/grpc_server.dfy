/**
 The server's table of connections, under `addConn`, `removeConn`, `Stop` and `GracefulStop` from any
 number of goroutines.

 Each method is one region under the server's mutex, or one step away from it, and does what its
 action on values says; the laws are about every run of actions.  Transports are numbers; what is
 done to them is recorded in the sets `drained` and `closed`.
 */
module GrpcServer {
  import opened Options

  type Address = string

  /** `conns` of the server; a Go map that is nil is `None`. */
  type Table = map<Address, set<nat>>

  predicate NoEmptySet(m: Table) {
    forall a | a in m :: m[a] != {}
  }

  /** The table holds just the transports in `live`, each under its own address. */
  predicate Tracks(m: Table, live: set<nat>, owner: map<nat, Address>) {
    && (forall a, t | a in m && t in m[a] :: t in live && t in owner && owner[t] == a)
    && (forall t | t in live :: t in owner && owner[t] in m && t in m[owner[t]])
  }

  /** Without empty sets, an empty table means that nothing is live: that is what `GracefulStop`
      waits for. */
  lemma EmptyTable(m: Table, live: set<nat>, owner: map<nat, Address>)
    requires NoEmptySet(m) && Tracks(m, live, owner)
    ensures |m| == 0 <==> live == {}
  {
    if live != {} {
      var t :| t in live;
      assert owner[t] in m;
    }
    if m.Keys != {} {
      var a :| a in m.Keys;
      var t :| t in m[a];
      assert t in live;
    }
  }

  /** Every transport of a table. */
  function AllOf(m: Table): set<nat> {
    set a, t | a in m && t in m[a] :: t
  }

  lemma AllTracked(m: Table, live: set<nat>, owner: map<nat, Address>)
    requires Tracks(m, live, owner)
    ensures AllOf(m) == live
  {
    forall t | t in live ensures t in AllOf(m) {
      assert owner[t] in m && t in m[owner[t]];
    }
  }

  lemma AddTracks(m: Table, live: set<nat>, owner: map<nat, Address>, addr: Address, st: nat)
    requires NoEmptySet(m) && Tracks(m, live, owner) && st !in owner
    ensures var was := if addr in m then m[addr] else {};
            var m' := m[addr := was + {st}];
            NoEmptySet(m') && Tracks(m', live + {st}, owner[st := addr])
  {
    var was := if addr in m then m[addr] else {};
    var m' := m[addr := was + {st}];
    forall a | a in m' ensures m'[a] != {} {
      if a == addr { assert st in m'[a]; } else { assert m[a] != {}; }
    }
  }

  lemma RemoveTracks(m: Table, live: set<nat>, owner: map<nat, Address>, addr: Address, st: nat)
    requires NoEmptySet(m) && Tracks(m, live, owner) && st in live && addr in m && owner[st] == addr
    ensures var rest := m[addr] - {st};
            var m' := if |rest| == 0 then m - {addr} else m[addr := rest];
            NoEmptySet(m') && Tracks(m', live - {st}, owner)
  {}

  // ---------------------------------------------------------------------------------------------
  // Actions on values

  /** Where a call of `GracefulStop` is: waiting for the serving goroutines, asleep on the condition
      variable, woken up but not yet holding the mutex again, or over. */
  datatype Call = Waiting | Asleep | Woken | Over

  /** `closing` was handed to `Stop` and is not closed yet, `accepted` are the transports for which
      `addConn` has returned true, `owner` has the address of every transport there was. */
  datatype State = State(
    conns: Option<Table>, drain: bool, closing: set<nat>, accepted: set<nat>, removed: set<nat>, drained: set<nat>,
    closed: set<nat>, owner: map<nat, Address>, calls: seq<Call>, stopped: bool)
  {
    ghost function Live(): set<nat> { accepted - removed }
  }

  datatype Action =
    | Add(addr: Address, st: nat)
    | Remove(st: nat)
    | Stop
    | CloseOne(st: nat)
    | BeginGracefulStop
    | Check(call: nat)

  const INITIAL := State(Some(map[]), false, {}, {}, {}, {}, {}, map[], [], false)

  predicate Enabled(s: State, a: Action) {
    match a
    case Add(_, st) => st !in s.owner
    case Remove(st) => st in s.accepted && st !in s.removed && st in s.owner
    case Stop => true
    case CloseOne(st) => st in s.closing
    case BeginGracefulStop => true
    case Check(call) => call < |s.calls| && (s.calls[call].Waiting? || s.calls[call].Woken?)
  }

  /** Everyone who is asleep wakes up. */
  function Broadcast(calls: seq<Call>): seq<Call> {
    seq(|calls|, i requires 0 <= i < |calls| => if calls[i].Asleep? then Woken else calls[i])
  }

  function With(m: Table, addr: Address, st: nat): Table {
    m[addr := (if addr in m then m[addr] else {}) + {st}]
  }

  function Without(m: Table, addr: Address, st: nat): Table
    requires addr in m
  {
    var rest := m[addr] - {st};
    if |rest| == 0 then m - {addr} else m[addr := rest]
  }

  function After(s: State, a: Action): State
    requires Enabled(s, a)
  {
    match a
    case Add(addr, st) =>
      var known := s.(owner := s.owner[st := addr]);
      if s.conns.None? then known.(closed := s.closed + {st})
      else
        known.(conns := Some(With(s.conns.value, addr, st)), accepted := s.accepted + {st},
               drained := if s.drain then s.drained + {st} else s.drained)
    case Remove(st) =>
      var gone := s.(removed := s.removed + {st});
      var addr := s.owner[st];
      if s.conns.None? || addr !in s.conns.value then gone
      else gone.(conns := Some(Without(s.conns.value, addr, st)), calls := Broadcast(s.calls))
    case Stop =>
      s.(conns := None, stopped := true, calls := Broadcast(s.calls),
         closing := if s.conns.None? then s.closing else s.closing + AllOf(s.conns.value))
    case CloseOne(st) => s.(closing := s.closing - {st}, closed := s.closed + {st})
    case BeginGracefulStop =>
      if s.conns.None? then s.(calls := s.calls + [Over])
      else
        s.(calls := s.calls + [Waiting], drain := true,
           drained := if s.drain then s.drained else s.drained + AllOf(s.conns.value))
    case Check(call) =>
      if s.conns.Some? && |s.conns.value| != 0 then s.(calls := s.calls[call := Asleep])
      else s.(conns := None, calls := s.calls[call := Over])
  }

  // ---------------------------------------------------------------------------------------------
  // What every action keeps

  /** The table holds what is live, drained if the server is draining; without a table what is live
      is for `Stop` to close. */
  ghost predicate Accounted(s: State) {
    && s.removed <= s.accepted <= s.owner.Keys
    && match s.conns
       case Some(m) =>
         && NoEmptySet(m) && Tracks(m, s.Live(), s.owner) && s.closing == {} && !s.stopped
         && (s.drain ==> s.Live() <= s.drained)
       case None => s.Live() <= s.closing + s.closed && (!s.stopped ==> s.accepted <= s.removed)
  }

  /** Nobody sleeps through what it is waiting for. */
  predicate Awake(s: State) {
    forall k | 0 <= k < |s.calls| && s.calls[k].Asleep? :: s.conns.Some? && |s.conns.value| != 0
  }

  /** A call that is over has seen the table go. */
  predicate Finished(s: State) {
    forall k | 0 <= k < |s.calls| && s.calls[k].Over? :: s.conns.None?
  }

  ghost predicate Inv(s: State) {
    Accounted(s) && Awake(s) && Finished(s)
  }

  lemma AddKept(s: State, addr: Address, st: nat)
    requires Accounted(s) && Enabled(s, Add(addr, st))
    ensures Accounted(After(s, Add(addr, st)))
  {
    if s.conns.Some? {
      AddTracks(s.conns.value, s.Live(), s.owner, addr, st);
      hide Tracks, NoEmptySet;
      assert s.accepted + {st} - s.removed == s.Live() + {st};
    }
  }

  lemma RemoveKept(s: State, st: nat)
    requires Accounted(s) && Enabled(s, Remove(st))
    ensures Accounted(After(s, Remove(st)))
  {
    assert s.accepted - (s.removed + {st}) == s.Live() - {st};
    if s.conns.Some? {
      assert s.owner[st] in s.conns.value;
      RemoveTracks(s.conns.value, s.Live(), s.owner, s.owner[st], st);
      hide Tracks, NoEmptySet;
    }
  }

  lemma StopKept(s: State)
    requires Accounted(s)
    ensures Accounted(After(s, Stop))
  {
    if s.conns.Some? { AllTracked(s.conns.value, s.Live(), s.owner); }
  }

  lemma BeginKept(s: State)
    requires Accounted(s)
    ensures Accounted(After(s, BeginGracefulStop))
  {
    if s.conns.Some? { AllTracked(s.conns.value, s.Live(), s.owner); }
    hide Tracks, NoEmptySet;
  }

  lemma CheckKept(s: State, call: nat)
    requires Accounted(s) && Enabled(s, Check(call))
    ensures Accounted(After(s, Check(call)))
  {
    if s.conns.Some? { EmptyTable(s.conns.value, s.Live(), s.owner); }
    hide Tracks, NoEmptySet;
    NoneLive(s);
  }

  lemma NoneLive(s: State)
    ensures s.Live() == {} ==> s.accepted <= s.removed
  {
    forall st | s.Live() == {} && st in s.accepted ensures st in s.removed {
      assert st !in s.Live();
    }
  }

  lemma CloseKept(s: State, st: nat)
    requires Accounted(s) && Enabled(s, CloseOne(st))
    ensures Accounted(After(s, CloseOne(st)))
  {
    hide Tracks, NoEmptySet;
  }

  lemma AccountedKept(s: State, a: Action)
    requires Accounted(s) && Enabled(s, a)
    ensures Accounted(After(s, a))
  {
    hide Accounted, After;
    match a
    case Add(addr, st) => AddKept(s, addr, st);
    case Remove(st) => RemoveKept(s, st);
    case Stop => StopKept(s);
    case CloseOne(st) => CloseKept(s, st);
    case BeginGracefulStop => BeginKept(s);
    case Check(call) => CheckKept(s, call);
  }

  lemma BroadcastWakes(calls: seq<Call>)
    ensures |Broadcast(calls)| == |calls|
    ensures forall k | 0 <= k < |calls| ::
              !Broadcast(calls)[k].Asleep? && (Broadcast(calls)[k].Over? <==> calls[k].Over?)
  {}

  lemma AddAwake(s: State, addr: Address, st: nat)
    requires Awake(s) && Finished(s) && Enabled(s, Add(addr, st))
    ensures Awake(After(s, Add(addr, st))) && Finished(After(s, Add(addr, st)))
  {
    if s.conns.Some? { assert addr in With(s.conns.value, addr, st); }
  }

  /** The table only grows, or everyone is woken. */
  lemma AwakeKept(s: State, a: Action)
    requires Awake(s) && Finished(s) && Enabled(s, a)
    ensures Awake(After(s, a)) && Finished(After(s, a))
  {
    if a.Add? {
      AddAwake(s, a.addr, a.st);
    } else if a.Remove? || a.Stop? {
      hide Broadcast, AllOf, Without, With;
      BroadcastWakes(s.calls);
    } else {
      hide Broadcast, AllOf, Without, With;
    }
  }

  lemma StepKeeps(s: State, a: Action)
    requires Inv(s) && Enabled(s, a)
    ensures Inv(After(s, a))
  {
    hide Accounted, Awake, Finished, After;
    AccountedKept(s, a);
    AwakeKept(s, a);
  }

  ghost predicate IsRun(run: seq<State>, actions: seq<Action>) {
    && |run| == |actions| + 1 && run[0] == INITIAL
    && forall i | 0 <= i < |actions| :: Enabled(run[i], actions[i]) && run[i + 1] == After(run[i], actions[i])
  }

  lemma {:induction false} RunKeeps(run: seq<State>, actions: seq<Action>, i: nat)
    requires IsRun(run, actions) && i < |run|
    ensures Inv(run[i])
  {
    if i == 0 {
    } else {
      hide Inv, Enabled, After;
      RunKeeps(run, actions, i - 1);
      assert run[i - 1 + 1] == After(run[i - 1], actions[i - 1]);
      StepKeeps(run[i - 1], actions[i - 1]);
    }
  }

  // ---------------------------------------------------------------------------------------------
  // Whole runs

  /** In every run no address has an empty set; while there is a table it holds just the transports
      that were accepted and not removed, all of them drained if the server is draining. */
  lemma TableIsLive(run: seq<State>, actions: seq<Action>, i: nat)
    requires IsRun(run, actions) && i < |run| && run[i].conns.Some?
    ensures NoEmptySet(run[i].conns.value) && AllOf(run[i].conns.value) == run[i].accepted - run[i].removed
    ensures run[i].drain ==> run[i].accepted - run[i].removed <= run[i].drained
  {
    RunKeeps(run, actions, i);
    hide IsRun, NoEmptySet;
    AllTracked(run[i].conns.value, run[i].Live(), run[i].owner);
  }

  /** Once there is no table, each accepted transport has been removed, or was handed to `Stop`;
      without a `Stop` they have all been removed. */
  lemma NothingForgotten(run: seq<State>, actions: seq<Action>, i: nat)
    requires IsRun(run, actions) && i < |run| && run[i].conns.None?
    ensures run[i].accepted - run[i].removed <= run[i].closing + run[i].closed
    ensures !run[i].stopped ==> run[i].accepted == run[i].removed
  {
    RunKeeps(run, actions, i);
  }

  /** No wake-up is missed: a call of `GracefulStop` sleeps only while a transport is tracked.  When
      none is, every call that is not over can go on, and is over with its next step. */
  lemma NothingMissed(run: seq<State>, actions: seq<Action>, i: nat, call: nat)
    requires IsRun(run, actions) && i < |run| && call < |run[i].calls|
    ensures run[i].calls[call].Asleep? ==> run[i].conns.Some? && run[i].accepted - run[i].removed != {}
    ensures run[i].conns.None? || run[i].accepted == run[i].removed ==>
              || run[i].calls[call].Over?
              || (Enabled(run[i], Check(call)) && After(run[i], Check(call)).calls[call].Over?)
  {
    RunKeeps(run, actions, i);
    hide IsRun;
    if run[i].conns.Some? { EmptyTable(run[i].conns.value, run[i].Live(), run[i].owner); }
  }

  /** A call of `GracefulStop` is over only when there is no table, so that everything accepted has
      been removed or is for `Stop`. */
  lemma OverMeansStopped(run: seq<State>, actions: seq<Action>, i: nat, call: nat)
    requires IsRun(run, actions) && i < |run| && call < |run[i].calls| && run[i].calls[call].Over?
    ensures run[i].conns.None? && run[i].accepted - run[i].removed <= run[i].closing + run[i].closed
    ensures !run[i].stopped ==> run[i].accepted == run[i].removed
  {
    RunKeeps(run, actions, i);
  }

  // ---------------------------------------------------------------------------------------------
  // What has happened, from where the server is

  /** Where a transport stands: it was offered under one address; it was accepted, or came too late and
      was closed; what was accepted is closed only by `Stop`, and drained only by `GracefulStop`. */
  predicate Offered(s: State) {
    && s.accepted <= s.owner.Keys && s.closed + s.closing <= s.owner.Keys && s.drained <= s.accepted
    && (forall t | t in s.owner :: t in s.accepted || t in s.closed)
    && (s.conns.Some? ==> s.accepted !! s.closed && s.accepted !! s.closing)
    && (!s.stopped ==> s.accepted !! s.closed && s.closing == {})
    && (!s.drain ==> s.drained == {})
  }

  lemma OfferedKept(s: State, a: Action)
    requires Inv(s) && Offered(s) && Enabled(s, a)
    ensures Offered(After(s, a))
  {
    if s.conns.Some? { AllTracked(s.conns.value, s.Live(), s.owner); }
    hide Tracks, NoEmptySet, AllOf, With, Without, Broadcast, Awake, Finished;
    if a.Add? { AddOffered(s, a.addr, a.st); hide After; }
  }

  lemma AddOffered(s: State, addr: Address, st: nat)
    requires Offered(s) && Enabled(s, Add(addr, st))
    ensures Offered(After(s, Add(addr, st)))
  {
    hide With;
    var s' := After(s, Add(addr, st));
    assert s'.owner.Keys == s.owner.Keys + {st};
    assert forall t | t in s.owner :: t in s'.owner;
  }

  lemma NothingOffered()
    ensures Offered(INITIAL)
  {}

  lemma {:induction false} EveryOfferAnswered(run: seq<State>, actions: seq<Action>, n: nat)
    requires IsRun(run, actions) && n < |run|
    ensures Offered(run[n])
  {
    hide Inv, Enabled, After, Offered;
    if n == 0 {
      assert Offered(run[0]) by { NothingOffered(); }
    } else {
      EveryOfferAnswered(run, actions, n - 1);
      RunKeeps(run, actions, n - 1);
      assert run[n - 1 + 1] == After(run[n - 1], actions[n - 1]);
      OfferedKept(run[n - 1], actions[n - 1]);
    }
  }

  lemma AcceptStep(s: State, a: Action)
    requires Enabled(s, a)
    ensures After(s, a).accepted == s.accepted + (if a.Add? && s.conns.Some? then {a.st} else {})
    ensures After(s, a).removed == s.removed + (if a.Remove? then {a.st} else {})
  {
    hide AllOf, With, Without, Broadcast;
  }

  lemma FlagsStep(s: State, a: Action)
    requires Enabled(s, a)
    ensures After(s, a).stopped == (s.stopped || a.Stop?)
    ensures After(s, a).drain == (s.drain || (a.BeginGracefulStop? && s.conns.Some?))
    ensures After(s, a).owner == if a.Add? then s.owner[a.st := a.addr] else s.owner
  {
    hide AllOf, With, Without, Broadcast;
  }

  lemma TableStep(s: State, a: Action)
    requires Inv(s) && Enabled(s, a)
    ensures After(s, a).conns.Some? <==> s.conns.Some? && !a.Stop? && !(a.Check? && s.accepted == s.removed)
  {
    if s.conns.Some? {
      EmptyTable(s.conns.value, s.Live(), s.owner);
      NoneLive(s);
    }
    hide Tracks, NoEmptySet, AllOf, With, Without, Broadcast, Awake, Finished;
  }

  /** In every run the server is stopped exactly if `Stop` was called. */
  lemma {:induction false} StoppedExactly(run: seq<State>, actions: seq<Action>, n: nat)
    requires IsRun(run, actions) && n < |run|
    ensures run[n].stopped <==> exists i | 0 <= i < n :: actions[i].Stop?
  {
    if n == 0 {
    } else {
      hide Inv, Enabled, After;
      StoppedExactly(run, actions, n - 1);
      RunKeeps(run, actions, n - 1);
      assert run[n - 1 + 1] == After(run[n - 1], actions[n - 1]);
      FlagsStep(run[n - 1], actions[n - 1]);
    }
  }

  /** It drains exactly if a call of `GracefulStop` has found a table. */
  lemma {:induction false} DrainExactly(run: seq<State>, actions: seq<Action>, n: nat)
    requires IsRun(run, actions) && n < |run|
    ensures run[n].drain <==> exists i | 0 <= i < n :: actions[i].BeginGracefulStop? && run[i].conns.Some?
  {
    if n == 0 {
    } else {
      hide Inv, Enabled, After;
      DrainExactly(run, actions, n - 1);
      RunKeeps(run, actions, n - 1);
      assert run[n - 1 + 1] == After(run[n - 1], actions[n - 1]);
      FlagsStep(run[n - 1], actions[n - 1]);
    }
  }

  /** A transport is accepted exactly if it was offered while there was a table. */
  lemma {:induction false} AcceptedExactly(run: seq<State>, actions: seq<Action>, n: nat, st: nat)
    requires IsRun(run, actions) && n < |run|
    ensures st in run[n].accepted <==>
              exists i | 0 <= i < n :: actions[i].Add? && actions[i].st == st && run[i].conns.Some?
  {
    if n == 0 {
    } else {
      hide Inv, Enabled, After;
      AcceptedExactly(run, actions, n - 1, st);
      RunKeeps(run, actions, n - 1);
      assert run[n - 1 + 1] == After(run[n - 1], actions[n - 1]);
      AcceptStep(run[n - 1], actions[n - 1]);
    }
  }

  /** It is removed exactly if that was asked for. */
  lemma {:induction false} RemovedExactly(run: seq<State>, actions: seq<Action>, n: nat, st: nat)
    requires IsRun(run, actions) && n < |run|
    ensures st in run[n].removed <==> exists i | 0 <= i < n :: actions[i] == Remove(st)
  {
    if n == 0 {
    } else {
      hide Inv, Enabled, After;
      RemovedExactly(run, actions, n - 1, st);
      RunKeeps(run, actions, n - 1);
      assert run[n - 1 + 1] == After(run[n - 1], actions[n - 1]);
      AcceptStep(run[n - 1], actions[n - 1]);
    }
  }

  /** The table is gone exactly if `Stop` was called or a call of `GracefulStop` found nothing left. */
  lemma {:induction false} TableGone(run: seq<State>, actions: seq<Action>, n: nat)
    requires IsRun(run, actions) && n < |run|
    ensures run[n].conns.None? <==>
              exists i | 0 <= i < n :: actions[i].Stop? || (actions[i].Check? && run[i].accepted == run[i].removed)
  {
    if n == 0 {
    } else {
      hide Inv, Enabled, After;
      TableGone(run, actions, n - 1);
      RunKeeps(run, actions, n - 1);
      assert run[n - 1 + 1] == After(run[n - 1], actions[n - 1]);
      TableStep(run[n - 1], actions[n - 1]);
    }
  }

  // ---------------------------------------------------------------------------------------------
  // The server

  class Server {
    var conns: Option<Table>
    var drain: bool
    var closing: set<nat>
    var accepted: set<nat>
    var removed: set<nat>
    var drained: set<nat>
    var closed: set<nat>
    var owner: map<nat, Address>
    var calls: seq<Call>
    var stopped: bool

    ghost function Now(): State
      reads this
    {
      State(conns, drain, closing, accepted, removed, drained, closed, owner, calls, stopped)
    }

    constructor ()
      ensures Now() == INITIAL
    {
      conns, drain, closing, accepted, removed, drained, closed := Some(map[]), false, {}, {}, {}, {}, {};
      owner, calls, stopped := map[], [], false;
    }

    /** Wakes up every call of `GracefulStop` that is asleep. */
    method WakeAll()
      modifies this`calls
      ensures calls == Broadcast(old(calls))
    {
      var i := 0;
      while i < |calls|
        invariant 0 <= i <= |calls| == |old(calls)|
        invariant forall k | 0 <= k < i :: calls[k] == if old(calls)[k].Asleep? then Woken else old(calls)[k]
        invariant forall k | i <= k < |calls| :: calls[k] == old(calls)[k]
      {
        if calls[i].Asleep? { calls := calls[i := Woken]; }
        i := i + 1;
      }
    }

    /** Tracks a new transport, drains it if the server is draining, or closes it if it is too late. */
    method AddConn(addr: Address, st: nat) returns (ok: bool)
      requires Enabled(Now(), Add(addr, st))
      modifies this`conns, this`accepted, this`drained, this`closed, this`owner
      ensures Now() == After(old(Now()), Add(addr, st)) && ok == old(conns).Some?
    {
      owner := owner[st := addr];
      if conns.None? {
        closed := closed + {st};
        return false;
      }
      if drain {
        drained := drained + {st};
      }
      var m := conns.value;
      if addr !in m {
        m := m[addr := {}];
      }
      m := m[addr := m[addr] + {st}];
      assert m == With(conns.value, addr, st);
      conns := Some(m);
      accepted := accepted + {st};
      return true;
    }

    /** Forgets a transport, and its address with the last one. */
    method RemoveConn(addr: Address, st: nat)
      requires Enabled(Now(), Remove(st)) && owner[st] == addr
      modifies this`conns, this`removed, this`calls
      ensures Now() == After(old(Now()), Remove(st))
    {
      if conns.Some? && addr in conns.value {
        var m := conns.value;
        m := m[addr := m[addr] - {st}];
        if |m[addr]| == 0 {
          m := m - {addr};
          assert m == Without(conns.value, addr, st);
        }
        conns := Some(m);
        WakeAll();
      }
      removed := removed + {st};
    }

    /** Takes the table away; what was in it is for this call to close. */
    method StopLocked()
      modifies this`conns, this`closing, this`calls, this`stopped
      ensures Now() == After(old(Now()), Stop)
    {
      if conns.Some? {
        closing := closing + AllOf(conns.value);
      }
      conns := None;
      stopped := true;
      WakeAll();
    }

    /** Closes one of the transports that `Stop` has taken. */
    method CloseNext(st: nat)
      requires Enabled(Now(), CloseOne(st))
      modifies this`closing, this`closed
      ensures Now() == After(old(Now()), CloseOne(st))
    {
      closing := closing - {st};
      closed := closed + {st};
    }

    /** Drains what there is, and whatever comes. */
    method GracefulStopBegins()
      modifies this`drain, this`drained, this`calls
      ensures Now() == After(old(Now()), BeginGracefulStop)
    {
      if conns.None? {
        calls := calls + [Over];
        return;
      }
      if !drain {
        drained := drained + AllOf(conns.value);
        drain := true;
      }
      calls := calls + [Waiting];
    }

    /** With the mutex again: goes to sleep while a transport is tracked, and otherwise ends. */
    method GracefulStopChecks(call: nat) returns (over: bool)
      requires Enabled(Now(), Check(call))
      modifies this`conns, this`calls
      ensures Now() == After(old(Now()), Check(call)) && over == calls[call].Over?
    {
      if conns.Some? && |conns.value| != 0 {
        calls := calls[call := Asleep];
        return false;
      }
      conns := None;
      calls := calls[call := Over];
      return true;
    }
  }

  /** What any list of actions comes to; an action that is not possible is left out. */
  function Played(s: State, actions: seq<Action>): State
    decreases |actions|
  {
    if actions == [] then s
    else
      var a := actions[0];
      Played(if Enabled(s, a) then After(s, a) else s, actions[1..])
  }

  lemma {:induction false} PlayedKeeps(s: State, actions: seq<Action>)
    requires Inv(s)
    ensures Inv(Played(s, actions))
    decreases |actions|
  {
    if actions == [] {
    } else {
      hide Inv, Enabled, After;
      if Enabled(s, actions[0]) {
        StepKeeps(s, actions[0]);
        PlayedKeeps(After(s, actions[0]), actions[1..]);
      } else {
        PlayedKeeps(s, actions[1..]);
      }
    }
  }

  /** The server under any interleaving of actions comes to what they come to on values, and keeps
      the accounts: the table holds just what is live, drained if the server is draining, and without
      a table everything accepted has been removed or handed to `Stop`. */
  method Run(actions: seq<Action>) returns (s: State)
    ensures s == Played(INITIAL, actions)
    ensures s.conns.Some? ==>
              && NoEmptySet(s.conns.value) && AllOf(s.conns.value) == s.accepted - s.removed
              && (s.drain ==> s.accepted - s.removed <= s.drained)
    ensures s.conns.None? ==> s.accepted - s.removed <= s.closing + s.closed && (!s.stopped ==> s.accepted == s.removed)
    ensures forall k | 0 <= k < |s.calls| && s.calls[k].Asleep? :: s.conns.Some? && s.accepted != s.removed
  {
    hide NoEmptySet, Tracks, AllOf, Played, After;
    var server := new Server();
    var i := 0;
    assert actions[0..] == actions;
    while i < |actions|
      invariant 0 <= i <= |actions| && fresh(server)
      invariant Played(server.Now(), actions[i..]) == Played(INITIAL, actions)
    {
      PlayedOne(server.Now(), actions[i..]);
      assert actions[i..][1..] == actions[i + 1..];
      Act(server, actions[i]);
      i := i + 1;
    }
    assert actions[i..] == [];
    PlayedNone(server.Now());
    s := State(server.conns, server.drain, server.closing, server.accepted, server.removed, server.drained,
               server.closed, server.owner, server.calls, server.stopped);
    InitialHolds();
    PlayedKeeps(INITIAL, actions);
    if s.conns.Some? {
      AllTracked(s.conns.value, s.Live(), s.owner);
      EmptyTable(s.conns.value, s.Live(), s.owner);
    }
  }

  lemma PlayedOne(s: State, actions: seq<Action>)
    requires actions != []
    ensures Played(s, actions)
         == Played(if Enabled(s, actions[0]) then After(s, actions[0]) else s, actions[1..])
  {}

  lemma PlayedNone(s: State)
    ensures Played(s, []) == s
  {}

  lemma InitialHolds()
    ensures Inv(INITIAL)
  {}

  /** Lets the server do what the action says, if it is possible. */
  method Act(server: Server, a: Action)
    modifies server
    ensures server.Now() == if old(Enabled(server.Now(), a)) then After(old(server.Now()), a) else old(server.Now())
  {
    hide After, AllOf;
    match a
    case Add(addr, st) =>
      if st !in server.owner {
        var ok := server.AddConn(addr, st);
      }
    case Remove(st) =>
      if st in server.accepted && st !in server.removed && st in server.owner {
        server.RemoveConn(server.owner[st], st);
      }
    case Stop => server.StopLocked();
    case CloseOne(st) =>
      if st in server.closing {
        server.CloseNext(st);
      }
    case BeginGracefulStop => server.GracefulStopBegins();
    case Check(call) =>
      if call < |server.calls| && (server.calls[call].Waiting? || server.calls[call].Woken?) {
        var over := server.GracefulStopChecks(call);
      }
  }
}
