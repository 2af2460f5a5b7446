/**
 One address connection: `connect`, the goroutine that makes and remakes the transport, the callbacks
 of transports, health updates, address updates and the tear-down, in any interleaving.

 Actions are what one goroutine does while it holds the mutex, or while it is away from it.  Dialing
 is left open.  Transports are numbered in the order in which their creation was tried.
 */
module GrpcConn {
  import opened Options

  datatype Connectivity = Idle | Connecting | Ready | TransientFailure | Shutdown

  /** Where the goroutine of `resetTransport` is.  `Dialing` has so many addresses left to try, and
      may have tried some.  Without any, `tryAllAddrs` returns neither an error nor an event to wait
      for, and waiting for that is a panic. */
  datatype Reset =
    | Top
    | Dialing(left: nat, tried: bool)
    | DialFailed
    | Dialed(transport: nat)
    | BackingOff
    | Serving(transport: nat)
    | Exited
    | Panicked

  /** `resets` are the goroutines started so far, `pending` those about to be.  `fired` are the
      transports that have called back, `watchers` the transports that health checks were started
      for. */
  datatype State = State(
    state: Connectivity, transport: Option<nat>, addrs: nat, resets: seq<Reset>, pending: nat,
    created: nat, fired: set<nat>, watchers: set<nat>)

  datatype Action =
    | Connect
    | Spawn
    | BeginLoop(i: nat)
    | Dial(i: nat, success: bool)
    | Settle(i: nat, healthCheck: bool)
    | BackoffOver(i: nat)
    | Cancelled(i: nat)
    | Reconnect(i: nat)
    | CallBack(t: nat)
    | Health(watched: nat, state: Connectivity)
    | UpdateAddrs(count: nat, found: bool)
    | TearDown

  function Initial(addrs: nat): State {
    State(Idle, None, addrs, [], 0, 0, {}, {})
  }

  predicate Enabled(s: State, a: Action) {
    match a
    case Connect => true
    case Spawn => s.pending > 0
    case BeginLoop(i) => i < |s.resets| && s.resets[i].Top?
    case Dial(i, _) => i < |s.resets| && s.resets[i].Dialing?
    case Settle(i, _) => i < |s.resets| && (s.resets[i].DialFailed? || s.resets[i].Dialed?)
    case BackoffOver(i) => i < |s.resets| && s.resets[i].BackingOff?
    case Cancelled(i) => i < |s.resets| && s.resets[i].BackingOff? && s.state.Shutdown?
    case Reconnect(i) =>
      i < |s.resets| && s.resets[i].Serving? && s.resets[i].transport in s.fired
    case CallBack(t) => t < s.created
    case Health(t, state) => t in s.watchers && (state.Connecting? || state.Ready? || state.TransientFailure?)
    case UpdateAddrs(_, _) => true
    case TearDown => true
  }

  function At(s: State, i: nat, r: Reset): State
    requires i < |s.resets|
  {
    s.(resets := s.resets[i := r])
  }

  function DoDial(s: State, i: nat, success: bool): State
    requires i < |s.resets| && s.resets[i].Dialing?
  {
    var r := s.resets[i];
    if r.left == 0 then At(s, i, if r.tried then DialFailed else Panicked)
    else if s.state.Shutdown? then At(s, i, DialFailed)
    else if success then At(s.(created := s.created + 1), i, Dialed(s.created))
    else At(s.(created := s.created + 1), i, Dialing(r.left - 1, true))
  }

  function DoSettle(s: State, i: nat, healthCheck: bool): State
    requires i < |s.resets| && (s.resets[i].DialFailed? || s.resets[i].Dialed?)
  {
    var r := s.resets[i];
    if s.state.Shutdown? then At(s, i, Exited)
    else if r.DialFailed? then At(s.(state := TransientFailure), i, BackingOff)
    else if healthCheck then
      At(s.(transport := Some(r.transport), watchers := s.watchers + {r.transport}), i, Serving(r.transport))
    else At(s.(transport := Some(r.transport), state := Ready), i, Serving(r.transport))
  }

  function DoTearDown(s: State): State {
    if s.state.Shutdown? then s else s.(state := Shutdown, transport := None)
  }

  /** An empty list tears the connection down instead. */
  function DoUpdateAddrs(s: State, count: nat, found: bool): State {
    if count == 0 then DoTearDown(s)
    else if s.state.Shutdown? || s.state.TransientFailure? || s.state.Idle? || (s.state.Ready? && found) then
      s.(addrs := count)
    else s
  }

  function After(s: State, a: Action): State
    requires Enabled(s, a)
  {
    match a
    case Connect => if s.state.Idle? then s.(state := Connecting, pending := s.pending + 1) else s
    case Spawn => s.(pending := s.pending - 1, resets := s.resets + [Top])
    case BeginLoop(i) =>
      if s.state.Shutdown? then At(s, i, Exited)
      else At(s.(state := Connecting, transport := None), i, Dialing(s.addrs, false))
    case Dial(i, success) => DoDial(s, i, success)
    case Settle(i, healthCheck) => DoSettle(s, i, healthCheck)
    case BackoffOver(i) => At(s, i, Top)
    case Cancelled(i) => At(s, i, Exited)
    case Reconnect(i) => At(s, i, Top)
    case CallBack(t) =>
      if t !in s.fired && s.state.Ready? then s.(fired := s.fired + {t}, state := Connecting)
      else s.(fired := s.fired + {t})
    case Health(t, state) => if s.transport == Some(t) then s.(state := state) else s
    case UpdateAddrs(count, found) => DoUpdateAddrs(s, count, found)
    case TearDown => DoTearDown(s)
  }

  /** What `getReadyTransport` hands out. */
  function ReadyTransport(s: State): Option<nat> {
    if s.state.Ready? then s.transport else None
  }

  // ---------------------------------------------------------------------------------------------
  // What every action keeps

  /** At most one goroutine makes transports, and none before the first `connect`. */
  predicate OneReset(s: State) {
    && s.pending + |s.resets| <= 1
    && (s.state.Idle? ==> s.pending + |s.resets| == 0)
  }

  /** There is always an address to dial. */
  predicate Dialable(s: State) {
    && s.addrs > 0
    && forall i | 0 <= i < |s.resets| ::
         !s.resets[i].Panicked? && (s.resets[i].Dialing? && s.resets[i].left == 0 ==> s.resets[i].tried)
  }

  /** The transport in use is the one that its goroutine waits for, until it has called back. */
  predicate InUse(s: State) {
    && (s.transport.Some? ==>
          && |s.resets| == 1
          && (s.resets[0] == Serving(s.transport.value) || (s.resets[0].Top? && s.transport.value in s.fired)))
    && (s.state.Shutdown? || s.state.Idle? ==> s.transport.None?)
    && (s.state.Ready? ==> s.transport.Some?)
  }

  ghost predicate Inv(s: State) {
    OneReset(s) && Dialable(s) && InUse(s)
  }

  lemma OneResetKept(s: State, a: Action)
    requires OneReset(s) && Enabled(s, a)
    ensures OneReset(After(s, a)) && (After(s, a).state.Idle? ==> s.state.Idle?)
  {}

  lemma DialableKept(s: State, a: Action)
    requires OneReset(s) && Dialable(s) && Enabled(s, a)
    ensures Dialable(After(s, a))
  {}

  lemma InUseKept(s: State, a: Action)
    requires OneReset(s) && Dialable(s) && InUse(s) && Enabled(s, a)
    ensures InUse(After(s, a))
  {}

  lemma StepKeeps(s: State, a: Action)
    requires Inv(s) && Enabled(s, a)
    ensures Inv(After(s, a))
  {
    hide OneReset, Dialable, InUse, After;
    OneResetKept(s, a);
    DialableKept(s, a);
    InUseKept(s, a);
  }

  /** An address connection is made only for some addresses. */
  ghost predicate IsRun(addrs: nat, run: seq<State>, actions: seq<Action>) {
    && addrs > 0 && |run| == |actions| + 1 && run[0] == Initial(addrs)
    && forall i | 0 <= i < |actions| :: Enabled(run[i], actions[i]) && run[i + 1] == After(run[i], actions[i])
  }

  lemma InitialHolds(addrs: nat)
    requires addrs > 0
    ensures Inv(Initial(addrs))
  {}

  lemma {:induction false} RunKeeps(addrs: nat, run: seq<State>, actions: seq<Action>, i: nat)
    requires IsRun(addrs, run, actions) && i < |run|
    ensures Inv(run[i])
  {
    hide Inv, Enabled, After, Initial;
    if i == 0 {
      InitialHolds(addrs);
    } else {
      RunKeeps(addrs, run, actions, i - 1);
      assert run[i - 1 + 1] == After(run[i - 1], actions[i - 1]);
      StepKeeps(run[i - 1], actions[i - 1]);
    }
  }

  // ---------------------------------------------------------------------------------------------
  // Whole runs

  /** At most one `resetTransport` is ever started. */
  lemma StartedOnce(addrs: nat, run: seq<State>, actions: seq<Action>, i: nat)
    requires IsRun(addrs, run, actions) && i < |run|
    ensures |run[i].resets| <= 1
  {
    RunKeeps(addrs, run, actions, i);
  }

  /** A connection that is ready has a transport to hand out, and its goroutine waits for just that
      transport to go down, or knows that it has. */
  lemma ReadyHasTransport(addrs: nat, run: seq<State>, actions: seq<Action>, i: nat)
    requires IsRun(addrs, run, actions) && i < |run|
    ensures run[i].state.Ready? <==> ReadyTransport(run[i]).Some?
    ensures run[i].transport.Some? ==>
              || run[i].resets == [Serving(run[i].transport.value)]
              || (run[i].resets == [Top] && run[i].transport.value in run[i].fired)
  {
    RunKeeps(addrs, run, actions, i);
  }

  /** `tryAllAddrs` always has an address to try, so its goroutine never waits for a nil event. */
  lemma NeverPanics(addrs: nat, run: seq<State>, actions: seq<Action>, i: nat, k: nat)
    requires IsRun(addrs, run, actions) && i < |run| && k < |run[i].resets|
    ensures !run[i].resets[k].Panicked? && run[i].addrs > 0
  {
    RunKeeps(addrs, run, actions, i);
  }

  lemma ShutdownKept(s: State, a: Action)
    requires Inv(s) && Enabled(s, a) && s.state.Shutdown?
    ensures After(s, a).state.Shutdown?
  {}

  /** Shut down is shut down for good, and without a transport. */
  lemma {:induction false} ShutdownAbsorbs(addrs: nat, run: seq<State>, actions: seq<Action>, i: nat, j: nat)
    requires IsRun(addrs, run, actions) && i <= j < |run| && run[i].state.Shutdown?
    ensures run[j].state.Shutdown? && run[j].transport.None?
    decreases j - i
  {
    RunKeeps(addrs, run, actions, j);
    hide Inv, Enabled, After, Initial;
    if i == j {
    } else {
      ShutdownAbsorbs(addrs, run, actions, i, j - 1);
      RunKeeps(addrs, run, actions, j - 1);
      assert run[j - 1 + 1] == After(run[j - 1], actions[j - 1]);
      ShutdownKept(run[j - 1], actions[j - 1]);
    }
  }

  /** An update to an empty list shuts the connection down for good. */
  lemma EmptyListEnds(addrs: nat, run: seq<State>, actions: seq<Action>, i: nat, j: nat, found: bool)
    requires IsRun(addrs, run, actions) && i < j < |run| && actions[i] == UpdateAddrs(0, found)
    ensures run[j].state.Shutdown? && run[j].transport.None?
  {
    hide Inv, Initial;
    ShutdownAbsorbs(addrs, run, actions, i + 1, j);
  }

  /** Nobody goes back to idle. */
  lemma {:induction false} NeverIdleAgain(addrs: nat, run: seq<State>, actions: seq<Action>, i: nat, j: nat)
    requires IsRun(addrs, run, actions) && i <= j < |run| && !run[i].state.Idle?
    ensures !run[j].state.Idle?
    decreases j - i
  {
    hide Inv, Enabled, After, Initial;
    if i == j {
    } else {
      NeverIdleAgain(addrs, run, actions, i, j - 1);
      RunKeeps(addrs, run, actions, j - 1);
      assert run[j - 1 + 1] == After(run[j - 1], actions[j - 1]);
      StillUnderWay(run[j - 1], actions[j - 1]);
    }
  }

  lemma StillUnderWay(s: State, a: Action)
    requires Inv(s) && Enabled(s, a) && !s.state.Idle?
    ensures !After(s, a).state.Idle?
  {
    OneResetKept(s, a);
  }

  // ---------------------------------------------------------------------------------------------
  // What has happened, from where the connection is

  /** The connection is torn down. */
  predicate Ends(a: Action) {
    a.TearDown? || (a.UpdateAddrs? && a.count == 0)
  }

  /** It is shut down exactly if it was torn down, or given an empty list. */
  lemma {:induction false} ShutdownExactly(addrs: nat, run: seq<State>, actions: seq<Action>, n: nat)
    requires IsRun(addrs, run, actions) && n < |run|
    ensures run[n].state.Shutdown? <==> exists i | 0 <= i < n :: Ends(actions[i])
  {
    if n == 0 {
    } else {
      ShutdownExactly(addrs, run, actions, n - 1);
      RunKeeps(addrs, run, actions, n - 1);
      assert run[n - 1 + 1] == After(run[n - 1], actions[n - 1]);
      ShutdownStep(run[n - 1], actions[n - 1]);
      hide Inv, After, Enabled;
    }
  }

  lemma ShutdownStep(s: State, a: Action)
    requires Inv(s) && Enabled(s, a)
    ensures After(s, a).state.Shutdown? <==> s.state.Shutdown? || Ends(a)
  {}

  /** It is idle exactly if it was neither connected nor torn down, and a goroutine was started exactly if
      it was connected before it was torn down. */
  lemma {:induction false} IdleExactly(addrs: nat, run: seq<State>, actions: seq<Action>, n: nat)
    requires IsRun(addrs, run, actions) && n < |run|
    ensures run[n].state.Idle? <==> forall i | 0 <= i < n :: !actions[i].Connect? && !Ends(actions[i])
    ensures run[n].pending + |run[n].resets| == 1 <==>
              exists i | 0 <= i < n :: actions[i].Connect? && forall j | 0 <= j < i :: !Ends(actions[j])
  {
    if n == 0 {
    } else {
      IdleExactly(addrs, run, actions, n - 1);
      RunKeeps(addrs, run, actions, n - 1);
      ShutdownExactly(addrs, run, actions, n - 1);
      var (s, a) := (run[n - 1], actions[n - 1]);
      assert run[n - 1 + 1] == After(s, a);
      OneResetKept(s, a);
      IdleStep(s, a);
      hide After, Inv, Enabled;
    }
  }

  lemma IdleStep(s: State, a: Action)
    requires Inv(s) && Enabled(s, a)
    ensures After(s, a).state.Idle? <==> s.state.Idle? && !a.Connect? && !Ends(a)
    ensures After(s, a).pending + |After(s, a).resets|
         == s.pending + |s.resets| + (if a.Connect? && s.state.Idle? then 1 else 0)
  {}

  /** The transport in use is the last one that was dialed and came back before the connection was shut
      down, until its goroutine starts over. */
  lemma TransportStep(s: State, a: Action)
    requires Inv(s) && Enabled(s, a)
    ensures After(s, a).transport
         == if Ends(a) || (a.BeginLoop? && !s.state.Shutdown?) then None
            else if a.Settle? && s.resets[a.i].Dialed? && !s.state.Shutdown? then Some(s.resets[a.i].transport)
            else s.transport
  {}

  /** It becomes ready with a transport that needs no health check, or by the word of the health check of
      the transport in use, and stays so until it is told otherwise, its goroutine starts over, or a
      transport calls back for the first time. */
  lemma ReadyStep(s: State, a: Action)
    requires Inv(s) && Enabled(s, a)
    ensures After(s, a).state.Ready? <==>
              || (a.Settle? && !a.healthCheck && s.resets[a.i].Dialed? && !s.state.Shutdown?)
              || (a.Health? && s.transport == Some(a.watched) && a.state.Ready?)
              || (&& s.state.Ready? && !Ends(a) && !a.BeginLoop? && !(a.CallBack? && a.t !in s.fired)
                  && !(a.Health? && s.transport == Some(a.watched)))
  {}

  /** It fails for a while when every address has failed, or by the word of the health check. */
  lemma FailureStep(s: State, a: Action)
    requires Inv(s) && Enabled(s, a)
    ensures After(s, a).state.TransientFailure? <==>
              || (a.Settle? && s.resets[a.i].DialFailed? && !s.state.Shutdown?)
              || (a.Health? && s.transport == Some(a.watched) && a.state.TransientFailure?)
              || (&& s.state.TransientFailure? && !Ends(a) && !a.BeginLoop?
                  && !(a.Settle? && s.resets[a.i].Dialed? && !a.healthCheck)
                  && !(a.Health? && s.transport == Some(a.watched)))
  {}

  /** Only the transport in use is health checked for, and only while it is in use does that count. */
  lemma WatchersStep(s: State, a: Action)
    requires Inv(s) && Enabled(s, a)
    ensures After(s, a).watchers
         == s.watchers + if a.Settle? && a.healthCheck && s.resets[a.i].Dialed? && !s.state.Shutdown? then
                           {s.resets[a.i].transport}
                         else {}
    ensures After(s, a).fired == s.fired + if a.CallBack? then {a.t} else {}
  {}

  /** The addresses are those of the last update that was taken: one for a connection that is in use was
      taken only if the address in use was among them. */
  lemma AddrsStep(s: State, a: Action)
    requires Inv(s) && Enabled(s, a)
    ensures After(s, a).addrs
         == if a.UpdateAddrs? && a.count > 0 && !s.state.Connecting? && (s.state.Ready? ==> a.found) then a.count
            else s.addrs
  {}

  // ---------------------------------------------------------------------------------------------
  // One turn of the goroutine

  /** Each address is tried once, until one works: so many have been tried since the turn began. */
  ghost predicate Trying(s: State, addrs: nat, tried: nat) {
    tried <= addrs && s.resets == [Dialing(addrs - tried, tried > 0)]
  }

  /** What a try comes to: with addresses left, that transport or the next try; with none left, a failure;
      and a failure at once when the connection is shut down. */
  lemma DialStep(s: State, addrs: nat, tried: nat, success: bool)
    requires Inv(s) && Trying(s, addrs, tried)
    ensures Enabled(s, Dial(0, success))
    ensures var s' := After(s, Dial(0, success));
            if tried == addrs || s.state.Shutdown? then s'.resets == [DialFailed] && s'.created == s.created
            else
              && s'.created == s.created + 1
              && if success then s'.resets == [Dialed(s.created)] else Trying(s', addrs, tried + 1)
  {}

  /** How a turn begins and how it ends: it starts with every address, serves a transport that works until
      that has called back, backs off when none does, and ends for good only when the connection is shut
      down. */
  lemma TurnStep(s: State, a: Action)
    requires Inv(s) && Enabled(s, a) && |s.resets| == 1
    ensures var r, r' := s.resets[0], After(s, a).resets;
            && |r'| == 1
            && (a.BeginLoop? && !s.state.Shutdown? ==> Trying(After(s, a), s.addrs, 0))
            && (a.Settle? && !s.state.Shutdown? ==>
                  r'[0] == if r.Dialed? then Serving(r.transport) else BackingOff)
            && (a.BackoffOver? || a.Reconnect? ==> r'[0] == Top)
            && (a.Reconnect? ==> r.Serving? && r.transport in s.fired)
            && (r'[0].Exited? <==> r.Exited? || (s.state.Shutdown? && (a.BeginLoop? || a.Settle? || a.Cancelled?)))
            && (!a.BeginLoop? && !a.Dial? && !a.Settle? && !a.BackoffOver? && !a.Cancelled? && !a.Reconnect? ==>
                  r'[0] == r)
  {}

  /** A transport that has called back is not kept: its goroutine can start over, and then it is no longer
      in use; and at the callback itself the connection ceases to be ready. */
  lemma DeadIsNoticed(addrs: nat, run: seq<State>, actions: seq<Action>, n: nat, t: nat)
    requires IsRun(addrs, run, actions) && n < |run|
    ensures run[n].transport == Some(t) && t in run[n].fired ==>
              && |run[n].resets| == 1
              && (Enabled(run[n], Reconnect(0)) || Enabled(run[n], BeginLoop(0)))
              && (Enabled(run[n], BeginLoop(0)) ==> After(run[n], BeginLoop(0)).transport.None?)
    ensures n < |actions| && actions[n] == CallBack(t) && t !in run[n].fired ==> !run[n + 1].state.Ready?
  {
    RunKeeps(addrs, run, actions, n);
    if n < |actions| { assert run[n + 1] == After(run[n], actions[n]); }
    hide IsRun;
  }
}
