/**
 Why the retries of a fail-fast RPC end, and those of an RPC that waits for a connection need not.
 */
module GrpcRetryProgress {
  import opened Options
  import opened GrpcRetry

  /** What threads do by themselves, once an operation has begun. */
  predicate Internal(a: Action) {
    !a.Begin? && !a.Die? && !a.CommitNow? && !a.FinishNow?
  }

  /** How far a thread is from the end of its operation, as long as no attempt is created. */
  function Distance(p: Phase, cur: int, buffered: nat): nat {
    match p
    case Idle => 0
    case Failed => 1
    case Creating(_) => 2
    case Retrying(_, _) => 3
    case Checking(_, on, _) => if on == cur then 4 else 7
    case Running(_, on) => if on == cur then 5 else 8
    case RunningCommitted(_) => 5
    case Start(_) => 6
    case Replaying(_, k) => if k <= buffered then 9 + buffered - k else 9
  }

  function Distances(ps: seq<Phase>, cur: int, buffered: nat): nat {
    if ps == [] then 0 else Distance(ps[0], cur, buffered) + Distances(ps[1..], cur, buffered)
  }

  lemma {:induction false} CloserBy(ps: seq<Phase>, t: nat, p: Phase, cur: int, buffered: nat, buffered': nat)
    requires t < |ps| && Distance(p, cur, buffered') < Distance(ps[t], cur, buffered)
    requires buffered == buffered' || forall u | 0 <= u < |ps| && u != t :: !ps[u].Replaying?
    ensures Distances(ps[t := p], cur, buffered') < Distances(ps, cur, buffered)
  {
    var qs := ps[t := p];
    if t == 0 {
      assert qs[1..] == ps[1..];
      SameDistances(ps[1..], cur, buffered, buffered');
    } else {
      assert qs[1..] == ps[1..][t - 1 := p];
      CloserBy(ps[1..], t - 1, p, cur, buffered, buffered');
    }
  }

  lemma {:induction false} SameDistances(ps: seq<Phase>, cur: int, buffered: nat, buffered': nat)
    requires buffered == buffered' || forall u | 0 <= u < |ps| :: !ps[u].Replaying?
    ensures Distances(ps, cur, buffered) == Distances(ps, cur, buffered')
  {
    if ps == [] {
    } else {
      SameDistances(ps[1..], cur, buffered, buffered');
    }
  }

  function CreationsLeft(cfg: Config, s: State): int {
    MaxRetries(cfg) + 2 - s.created
  }

  function Remaining(s: State): nat {
    Distances(s.threads, Cur(s), |s.buffer|)
  }

  /** The thread has come closer to its end and the others are where they were. */
  predicate Closer(s: State, t: nat, s': State) {
    && t < |s.threads| == |s'.threads| && s'.threads == s.threads[t := s'.threads[t]]
    && |s'.attempts| == |s.attempts| && s'.created == s.created
    && Distance(s'.threads[t], Cur(s), |s'.buffer|) < Distance(s.threads[t], Cur(s), |s.buffer|)
    && (|s.buffer| == |s'.buffer| || s.lockedBy == -1 || s.lockedBy == t)
  }

  lemma EnterCloser(cfg: Config, s: State, t: nat)
    requires Inv(cfg, s) && Enabled(cfg, s, Enter(t))
    ensures Closer(s, t, After(cfg, s, Enter(t)))
  {
    hide Delivery, Budget, InOrder, Opening, Books, CanResult, ShouldRetry, Roles, Logged, Locking, WellFormed;
  }

  lemma ExecuteCloser(cfg: Config, s: State, t: nat, outcome: Outcome)
    requires Inv(cfg, s) && Enabled(cfg, s, Execute(t, outcome))
    ensures Closer(s, t, After(cfg, s, Execute(t, outcome)))
  {
    hide Roles, Locking, Opening, Logged, Delivery, Books, Budget, InOrder, Executed, Closer, DoExecute;
    ExecuteStep(cfg, s, t, outcome);
    ExecutedCloser(s, t, outcome, After(cfg, s, Execute(t, outcome)));
  }

  lemma ExecutedCloser(s: State, t: nat, outcome: Outcome, s': State)
    requires Executed(s, t, outcome, s')
    ensures Closer(s, t, s')
  {}

  lemma ToRest(s: State, t: nat, s': State)
    requires t < |s.threads| && s.threads[t].Checking? && s.lockedBy == -1
    requires s'.threads == s.threads[t := Idle] && s'.attempts == s.attempts && s'.created == s.created
    ensures Closer(s, t, s')
  {}

  lemma ToRetry(s: State, t: nat, s': State, p: Phase)
    requires t < |s.threads| && s.threads[t].Checking? && s.lockedBy == -1
    requires if s.threads[t].on == Cur(s) then p.Retrying? else p.Start?
    requires s'.threads == s.threads[t := p] && s'.attempts == s.attempts && s'.created == s.created
    requires s'.buffer == s.buffer
    ensures Closer(s, t, s')
  {}

  lemma SettleCloser(cfg: Config, s: State, t: nat, ok: bool)
    requires Inv(cfg, s) && Enabled(cfg, s, Settle(t, ok))
    ensures Closer(s, t, After(cfg, s, Settle(t, ok)))
  {
    hide Delivery, Budget, InOrder, Opening, Books, CanResult, ShouldRetry, Roles, Logged, Locking, WellFormed,
         Closer, Distance, BufferLocked, CommitLocked;
    var p, s' := s.threads[t], After(cfg, s, Settle(t, ok));
    if p.on != Cur(s) || !Succeeds(p.outcome, ok) {
      hide Completed;
      ToRetry(s, t, s', s'.threads[t]);
    } else {
      OnlyLogged(cfg, s, p.op);
      ToRest(s, t, s');
    }
  }

  lemma ToCreate(s: State, t: nat, s': State, p: Phase)
    requires t < |s.threads| && s.threads[t].Retrying? && s.lockedBy == t && (p.Idle? || p.Failed? || p.Creating?)
    requires s'.threads == s.threads[t := p] && |s'.attempts| == |s.attempts| && s'.created == s.created
    ensures Closer(s, t, s')
  {}

  lemma JudgeCloser(cfg: Config, s: State, t: nat, e: Evidence)
    requires Inv(cfg, s) && Enabled(cfg, s, Judge(t, e))
    ensures Closer(s, t, After(cfg, s, Judge(t, e)))
  {
    InPlace(s, t);
    HolderHas(s, t);
    hide Delivery, Budget, InOrder, Opening, Books, CanResult, ShouldRetry, Roles, Logged, Locking, WellFormed,
         Closer, Distance, CommitLocked, Closed, Resolved, Refused;
    var f, p, s' := Closed(s), s.threads[t], After(cfg, s, Judge(t, e));
    ClosedSame(s);
    OnlyLogged(cfg, f, NewStream);
    var v := ShouldRetry(cfg, f, p.outcome, e);
    if v.GiveUp? {
      var c := CommitLocked(f).(lockedBy := -1);
      assert s' == Refused(c, t, p.op, p.outcome);
      RefusedSame(c, t, p.op, p.outcome);
      ToCreate(s, t, s', s'.threads[t]);
    } else {
      assert s' == Resolved(f, t, v);
      ResolvedSame(f, t, v);
      ToCreate(s, t, s', s'.threads[t]);
    }
  }

  lemma ReplayCloser(cfg: Config, s: State, t: nat, outcome: Outcome)
    requires Inv(cfg, s) && Enabled(cfg, s, Replay(t, outcome))
    ensures Closer(s, t, After(cfg, s, Replay(t, outcome)))
  {
    InPlace(s, t);
    hide Delivery, Budget, InOrder, Opening, Books, CanResult, ShouldRetry, Roles, Logged, Locking, WellFormed,
         Closer;
    var s' := After(cfg, s, Replay(t, outcome));
    FromReplay(s, t, s', s'.threads[t]);
  }

  lemma FromReplay(s: State, t: nat, s': State, p: Phase)
    requires t < |s.threads| && s.threads[t].Replaying? && s.threads[t].k <= |s.buffer|
    requires p.Start? || p.Retrying? || (p.Replaying? && p.k == s.threads[t].k + 1 <= |s.buffer|)
    requires s'.threads == s.threads[t := p] && |s'.attempts| == |s.attempts| && s'.created == s.created
    requires s'.buffer == s.buffer
    ensures Closer(s, t, s')
  {}

  lemma QuitCloser(cfg: Config, s: State, t: nat)
    requires Inv(cfg, s) && Enabled(cfg, s, Quit(t))
    ensures Closer(s, t, After(cfg, s, Quit(t)))
  {
    hide Delivery, Budget, InOrder, Opening, Books, CanResult, ShouldRetry, Roles, Logged, Locking, WellFormed;
  }

  lemma ThreadCloser(cfg: Config, s: State, a: Action)
    requires Inv(cfg, s) && Enabled(cfg, s, a) && Internal(a) && !a.Create?
    ensures Closer(s, a.t, After(cfg, s, a))
  {
    hide Inv, After, Closer;
    match a
    case Enter(t) => EnterCloser(cfg, s, t);
    case Execute(t, outcome) => ExecuteCloser(cfg, s, t, outcome);
    case Settle(t, ok) => SettleCloser(cfg, s, t, ok);
    case Judge(t, e) => JudgeCloser(cfg, s, t, e);
    case Replay(t, outcome) => ReplayCloser(cfg, s, t, outcome);
    case Quit(t) => QuitCloser(cfg, s, t);
  }

  lemma CloserCounts(s: State, t: nat, s': State)
    requires WellFormed(s) && Locking(s) && Closer(s, t, s')
    ensures Remaining(s') < Remaining(s) && s'.created == s.created
  {
    assert |s.buffer| == |s'.buffer| || forall u | 0 <= u < |s.threads| && u != t :: !s.threads[u].Replaying?;
    CloserBy(s.threads, t, s'.threads[t], Cur(s), |s.buffer|, |s'.buffer|);
  }

  lemma CreationsBounded(cfg: Config, s: State)
    requires Budget(cfg, s) && cfg.failFast
    ensures 0 <= CreationsLeft(cfg, s)
  {}

  /** Each step of a fail-fast RPC uses up an attempt or brings a thread closer to its end. */
  lemma StepProgress(cfg: Config, s: State, a: Action)
    requires Inv(cfg, s) && Enabled(cfg, s, a) && Internal(a) && cfg.failFast
    ensures var s' := After(cfg, s, a);
            && 0 <= CreationsLeft(cfg, s') <= CreationsLeft(cfg, s)
            && (CreationsLeft(cfg, s') == CreationsLeft(cfg, s) ==> Remaining(s') < Remaining(s))
  {
    hide WellFormed, Locking, Roles, Opening, Logged, Delivery, Books, Budget, InOrder, Remaining;
    var s' := After(cfg, s, a);
    StepKeeps(cfg, s, a);
    CreationsBounded(cfg, s');
    if a.Create? {
      assert s'.created == s.created + 1;
    } else {
      hide After, Closer, Enabled;
      ThreadCloser(cfg, s, a);
      CloserCounts(s, a.t, s');
    }
  }

  /** So the nested retry loops end: no infinite run of a fail-fast RPC consists of such steps alone. */
  lemma {:induction false} RetriesEnd(cfg: Config, run: nat -> State, actions: nat -> Action, i: nat) returns (j: nat)
    requires cfg.failFast && Inv(cfg, run(i))
    requires forall k: nat :: Step(cfg, run(k), actions(k), run(k + 1))
    ensures i <= j && !Internal(actions(j))
    decreases CreationsLeft(cfg, run(i)), Remaining(run(i))
  {
    hide Inv, Enabled, After, Internal;
    if !Internal(actions(i)) { return i; }
    assert Step(cfg, run(i), actions(i), run(i + 1));
    StepKeeps(cfg, run(i), actions(i));
    StepProgress(cfg, run(i), actions(i));
    j := RetriesEnd(cfg, run, actions, i + 1);
  }

  // ---------------------------------------------------------------------------------------------
  // RPCs that wait for a connection

  /** A wait-for-ready RPC for which `n` streams could not be created, about to try once more. */
  function Waited(n: nat): State {
    Initial(0).(attempts := seq(n, i => Attempt(false, false, true, 1, [])), created := n, waits := n,
                firstAttempt := n == 0)
  }

  /** The states between two such failures. */
  function WaitState(n: nat, k: nat): State {
    var s := Waited(n);
    var tried := s.(created := n + 1, attempts := s.attempts + [Attempt(false, true, false, 0, [])]);
    var failed := s.(created := n + 1, attempts := s.attempts + [Attempt(false, false, false, 0, [])]);
    if k == 0 then s
    else if k == 1 then tried.(threads := [Replaying(NewStream, 0)])
    else if k == 2 then tried.(threads := [Start(NewStream)], lockedBy := -1)
    else if k == 3 then tried.(threads := [Running(NewStream, n)], lockedBy := -1)
    else if k == 4 then failed.(threads := [Checking(NewStream, n, Broken(false))], lockedBy := -1)
    else failed.(threads := [Retrying(NewStream, Broken(false))])
  }

  function WaitAction(k: nat): Action {
    if k == 0 then Create(0, true)
    else if k == 1 then Replay(0, Fine)
    else if k == 2 then Enter(0)
    else if k == 3 then Execute(0, Broken(false))
    else if k == 4 then Settle(0, false)
    else Judge(0, Evidence(false, false, NoPushback, false, false, false))
  }

  lemma WaitAdvances(cfg: Config, n: nat, k: nat)
    requires !cfg.failFast && k < 5
    ensures Step(cfg, WaitState(n, k), WaitAction(k), WaitState(n, k + 1))
  {
    if k <= 2 { WaitOpens(cfg, n, k); } else { WaitFails(cfg, n, k); }
  }

  lemma WaitOpens(cfg: Config, n: nat, k: nat)
    requires !cfg.failFast && k <= 2
    ensures Step(cfg, WaitState(n, k), WaitAction(k), WaitState(n, k + 1))
  {
    hide DoExecute, DoSettle, DoJudge;
    var s, s' := WaitState(n, k), WaitState(n, k + 1);
    assert s.threads[0 := s'.threads[0]] == s'.threads;
  }

  lemma WaitFails(cfg: Config, n: nat, k: nat)
    requires !cfg.failFast && 3 <= k <= 4
    ensures Step(cfg, WaitState(n, k), WaitAction(k), WaitState(n, k + 1))
  {
    hide DoCreate, DoReplay, DoJudge;
    var s, s' := WaitState(n, k), WaitState(n, k + 1);
    if k == 3 { assert s.attempts[n := Attempt(false, false, false, 0, [])] == s'.attempts; }
    assert s.threads[0 := s'.threads[0]] == s'.threads;
  }

  lemma WaitRepeats(cfg: Config, n: nat)
    requires !cfg.failFast
    ensures Step(cfg, WaitState(n, 5), WaitAction(5), WaitState(n + 1, 0))
  {
    var s, s' := WaitState(n, 5), WaitState(n + 1, 0);
    assert s.attempts[n := Attempt(false, false, true, 1, [])] == s'.attempts;
    assert s.threads[0 := s'.threads[0]] == s'.threads;
  }

  /** Without fail-fast there is no bound on the attempts: any number of streams may fail to open
      before anything is written, whatever the retry policy says. */
  lemma WaitsWithoutBound(cfg: Config, n: nat) returns (run: seq<State>, actions: seq<Action>)
    requires !cfg.failFast
    ensures IsRun(cfg, 0, run, actions) && run[|actions|].created == n
  {
    hide Step, WaitState, WaitAction;
    run := seq(6 * n + 1, i requires 0 <= i => WaitState(i / 6, i % 6));
    actions := seq(6 * n, i requires 0 <= i => WaitAction(i % 6));
    forall i | 0 <= i < |actions| ensures Step(cfg, run[i], actions[i], run[i + 1]) {
      if i % 6 < 5 { WaitAdvances(cfg, i / 6, i % 6); } else { WaitRepeats(cfg, i / 6); }
    }
    NothingWaited(n);
  }

  lemma NothingWaited(n: nat)
    ensures WaitState(0, 0) == Initial(0) && WaitState(n, 0).created == n
  {}
}
