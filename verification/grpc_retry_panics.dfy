/**
 When an operation of a client stream runs on an attempt that has no stream, and so dereferences nil:
 the exact condition over all runs, and runs in which it happens.
 */
module GrpcRetryPanics {
  import opened Options
  import opened GrpcRetry

  /** The stream has been opened, but the current attempt has none, and nobody is working on that. */
  predicate Stranded(s: State) {
    s.ready && s.lockedBy == -1 && s.attempts != [] && !s.attempts[Cur(s)].hasStream
  }

  /** An operation other than the opening of the stream returns an error that is not io.EOF, and
      leaves an attempt without a stream behind: its opening was refused in a retry, or no further
      transport was found. */
  predicate Strands(s: State, a: Action, s': State) {
    && (a.Judge? || a.Create?) && a.t < |s.threads| == |s'.threads|
    && Active(s.threads[a.t]) && !s.threads[a.t].op.NewStream? && s'.threads[a.t].Failed?
    && s'.attempts != [] && !s'.attempts[Cur(s')].hasStream
  }

  /** The thread has entered an operation on the current attempt. */
  predicate OnCurrent(s: State, t: nat) {
    && t < |s.threads| && s.attempts != []
    && ((s.threads[t].Running? && s.threads[t].on == Cur(s)) || s.threads[t].RunningCommitted?)
    && !s.threads[t].op.NewStream?
  }

  /** No operation has come back from an attempt without a stream. */
  lemma NobodyBack(cfg: Config, s: State, t: nat)
    requires Inv(cfg, s) && Streamed(s) && Stranded(s) && t < |s.threads|
    ensures !HoldsLock(s.threads[t])
    ensures s.threads[t].Checking? ==> s.threads[t].on < Cur(s)
    ensures Active(s.threads[t]) ==> !s.threads[t].op.NewStream?
  {
    Places(cfg, s, t);
    if s.threads[t].Checking? { SettledOn(cfg, s, t); }
    hide Opening, Logged, Delivery, Books, Budget, InOrder, Roles, WellFormed, Locking;
  }

  lemma ExecuteStrands(cfg: Config, s: State, t: nat, outcome: Outcome)
    requires Inv(cfg, s) && Streamed(s) && Stranded(s) && Enabled(cfg, s, Execute(t, outcome))
    ensures Stranded(After(cfg, s, Execute(t, outcome)))
    ensures |After(cfg, s, Execute(t, outcome)).attempts| == |s.attempts|
  {
    ExecuteStep(cfg, s, t, outcome);
    hide After, Enabled, Inv, Streamed;
  }

  lemma SettleStrands(cfg: Config, s: State, t: nat, ok: bool)
    requires Inv(cfg, s) && Streamed(s) && Stranded(s) && Enabled(cfg, s, Settle(t, ok))
    ensures Stranded(After(cfg, s, Settle(t, ok)))
    ensures |After(cfg, s, Settle(t, ok)).attempts| == |s.attempts|
  {
    NobodyBack(cfg, s, t);
    hide Inv, Streamed, Completed, BufferLocked, CommitLocked;
  }

  lemma OthersStrand(cfg: Config, s: State, a: Action)
    requires Inv(cfg, s) && Stranded(s) && Enabled(cfg, s, a)
    requires !a.Execute? && !a.Settle? && !a.Judge? && !a.Create? && !a.Replay?
    ensures Stranded(After(cfg, s, a)) && |After(cfg, s, a).attempts| == |s.attempts|
  {
    hide Inv, CanResult, DoExecute, DoSettle, DoJudge, DoCreate, DoReplay;
  }

  /** A stranded stream stays so. */
  lemma StrandedStays(cfg: Config, s: State, a: Action)
    requires Inv(cfg, s) && Streamed(s) && Stranded(s) && Enabled(cfg, s, a)
    ensures Stranded(After(cfg, s, a)) && |After(cfg, s, a).attempts| == |s.attempts|
  {
    hide Inv, Streamed, Stranded, After;
    if a.Execute? {
      ExecuteStrands(cfg, s, a.t, a.outcome);
    } else if a.Settle? {
      SettleStrands(cfg, s, a.t, a.statusOk);
    } else if a.Judge? || a.Create? || a.Replay? {
      NobodyBack(cfg, s, a.t);
      assert false;
    } else {
      OthersStrand(cfg, s, a);
    }
  }

  lemma SettleNotStrands(cfg: Config, s: State, t: nat, ok: bool)
    requires Inv(cfg, s) && Streamed(s) && Enabled(cfg, s, Settle(t, ok))
    ensures Stranded(After(cfg, s, Settle(t, ok))) ==> Stranded(s)
  {
    var p, s' := s.threads[t], After(cfg, s, Settle(t, ok));
    Places(cfg, s, t);
    SettledOn(cfg, s, t);
    hide Inv, CommitLocked, BufferLocked;
    if p.on != Cur(s) || !Succeeds(p.outcome, ok) {
      hide Completed, Streamed;
    } else {
      OnlyLogged(cfg, s, p.op);
      LoggedFlags(cfg, s, p.op);
      assert s'.attempts == s.attempts && s.attempts[Cur(s)].hasStream;
    }
  }

  lemma JudgeStrands(cfg: Config, s: State, t: nat, e: Evidence)
    requires Inv(cfg, s) && Streamed(s) && Enabled(cfg, s, Judge(t, e)) && Stranded(After(cfg, s, Judge(t, e)))
    ensures Strands(s, Judge(t, e), After(cfg, s, Judge(t, e)))
  {
    Places(cfg, s, t);
    InPlace(s, t);
    HolderHas(s, t);
    var s', f, p := After(cfg, s, Judge(t, e)), Closed(s), s.threads[t];
    hide Inv, ShouldRetry, CommitLocked, Resolved;
    OnlyLogged(cfg, f, NewStream);
    var v := ShouldRetry(cfg, f, p.outcome, e);
    if !v.GiveUp? {
      LockStays(f, t, v);
      assert false;
    }
  }

  lemma LockStays(f: State, t: nat, v: Verdict)
    requires t < |f.threads| && f.threads[t].Retrying?
    ensures Resolved(f, t, v).lockedBy == f.lockedBy
  {}

  lemma CreateStrands(cfg: Config, s: State, t: nat, found: bool)
    requires Inv(cfg, s) && Enabled(cfg, s, Create(t, found)) && Stranded(After(cfg, s, Create(t, found)))
    ensures Strands(s, Create(t, found), After(cfg, s, Create(t, found)))
  {
    Places(cfg, s, t);
    HolderHas(s, t);
    hide Inv;
  }

  lemma ReplayNotStrands(cfg: Config, s: State, t: nat, outcome: Outcome)
    requires Inv(cfg, s) && Streamed(s) && Enabled(cfg, s, Replay(t, outcome))
    ensures !Stranded(After(cfg, s, Replay(t, outcome)))
  {
    ReplaysOpening(cfg, s, t);
    hide Inv, CanResult;
  }

  lemma ExecuteNotStrands(cfg: Config, s: State, t: nat, outcome: Outcome)
    requires Inv(cfg, s) && Enabled(cfg, s, Execute(t, outcome)) && Stranded(After(cfg, s, Execute(t, outcome)))
    ensures Stranded(s)
  {
    ExecuteStep(cfg, s, t, outcome);
    hide After, Enabled, Inv;
  }

  /** What strands a stream. */
  lemma BecomesStranded(cfg: Config, s: State, a: Action)
    requires Inv(cfg, s) && Streamed(s) && Enabled(cfg, s, a)
    ensures Stranded(After(cfg, s, a)) ==> Stranded(s) || Strands(s, a, After(cfg, s, a))
    ensures Strands(s, a, After(cfg, s, a)) ==> Stranded(After(cfg, s, a))
  {
    var s' := After(cfg, s, a);
    if Stranded(s') {
      if a.Execute? { ExecuteNotStrands(cfg, s, a.t, a.outcome); }
      else if a.Settle? { SettleNotStrands(cfg, s, a.t, a.statusOk); }
      else if a.Judge? { JudgeStrands(cfg, s, a.t, a.evidence); }
      else if a.Create? { CreateStrands(cfg, s, a.t, a.found); }
      else if a.Replay? { ReplayNotStrands(cfg, s, a.t, a.outcome); }
      else { OthersNotStrand(cfg, s, a); }
    }
    if a.Judge? || a.Create? { StrandingFrees(cfg, s, a); }
  }

  lemma OthersNotStrand(cfg: Config, s: State, a: Action)
    requires Inv(cfg, s) && Enabled(cfg, s, a) && Stranded(After(cfg, s, a))
    requires !a.Execute? && !a.Settle? && !a.Judge? && !a.Create? && !a.Replay?
    ensures Stranded(s)
  {
    hide Inv, CanResult;
  }

  lemma StrandingFrees(cfg: Config, s: State, a: Action)
    requires Inv(cfg, s) && Enabled(cfg, s, a) && (a.Judge? || a.Create?)
    ensures Strands(s, a, After(cfg, s, a)) ==> Stranded(After(cfg, s, a))
  {
    Places(cfg, s, a.t);
    if a.Judge? {
      JudgeStep(cfg, s, a.t, a.evidence);
      hide Inv, After, Enabled;
    } else {
      hide Inv, DoJudge, DoSettle, DoExecute, DoReplay;
    }
  }

  lemma {:induction false} StrandedExactly(cfg: Config, receivers: nat, run: seq<State>, actions: seq<Action>, i: nat)
    requires IsRun(cfg, receivers, run, actions) && i < |run|
    ensures Stranded(run[i]) <==> exists j | 0 <= j < i :: Strands(run[j], actions[j], run[j + 1])
  {
    hide Inv, Enabled, After, Streamed, Strands, Stranded;
    if i == 0 {
      assert !Stranded(Initial(receivers)) by { NotYetStranded(receivers); }
    } else {
      var s, a := run[i - 1], actions[i - 1];
      StrandedExactly(cfg, receivers, run, actions, i - 1);
      RunKeeps(cfg, receivers, run, actions, i - 1);
      assert Step(cfg, s, a, run[i]);
      BecomesStranded(cfg, s, a);
      if Stranded(s) { StrandedStays(cfg, s, a); }
      assert i - 1 + 1 == i;
    }
  }

  lemma NotYetStranded(receivers: nat)
    ensures !Stranded(Initial(receivers))
  {}

  lemma EnterPanics(cfg: Config, s: State, t: nat)
    requires Inv(cfg, s) && Enabled(cfg, s, Enter(t)) && Panics(After(cfg, s, Enter(t)), t)
    ensures Stranded(s) && OnCurrent(After(cfg, s, Enter(t)), t)
  {
    Places(cfg, s, t);
    hide Inv;
  }

  /** A thread that runs an operation ran it before, on an attempt that has not lost its stream. */
  predicate RanBefore(s: State, t: nat, s': State) {
    && |s'.threads| == |s.threads| && |s.attempts| <= |s'.attempts|
    && (t < |s.threads| && (s'.threads[t].Running? || s'.threads[t].RunningCommitted?) ==>
          s'.threads[t] == s.threads[t])
    && (t < |s.threads| && s.threads[t].RunningCommitted? ==> |s.attempts| == |s'.attempts|)
    && forall i | 0 <= i < |s.attempts| :: s.attempts[i].hasStream ==> s'.attempts[i].hasStream
  }

  lemma OneMoved(s: State, u: nat, t: nat, s': State)
    requires u < |s.threads| == |s'.threads| && s'.threads == s.threads[u := s'.threads[u]]
    requires u == t ==> !s'.threads[u].Running? && !s'.threads[u].RunningCommitted?
    requires |s'.attempts| == |s.attempts|
    requires forall i | 0 <= i < |s.attempts| :: s.attempts[i].hasStream ==> s'.attempts[i].hasStream
    ensures RanBefore(s, t, s')
  {}

  lemma OthersRan(cfg: Config, s: State, a: Action, t: nat)
    requires Inv(cfg, s) && Enabled(cfg, s, a) && (a.Die? || a.CommitNow? || a.FinishNow?)
    ensures RanBefore(s, t, After(cfg, s, a))
  {
    hide Inv;
  }

  lemma JudgeRan(cfg: Config, s: State, a: Action, t: nat)
    requires Inv(cfg, s) && Enabled(cfg, s, a) && a.Judge?
    ensures RanBefore(s, t, After(cfg, s, a))
  {
    var s' := After(cfg, s, a);
    JudgeStep(cfg, s, a.t, a.evidence);
    hide Inv, After, Enabled, RanBefore;
    OneMoved(s, a.t, t, s');
  }

  lemma ReplayRan(cfg: Config, s: State, a: Action, t: nat)
    requires Inv(cfg, s) && Enabled(cfg, s, a) && a.Replay?
    ensures RanBefore(s, t, After(cfg, s, a))
  {
    InPlace(s, a.t);
    var s' := After(cfg, s, a);
    hide Inv, CanResult, RanBefore;
    OneMoved(s, a.t, t, s');
  }

  lemma QuitRan(cfg: Config, s: State, a: Action, t: nat)
    requires Inv(cfg, s) && Enabled(cfg, s, a) && a.Quit?
    ensures RanBefore(s, t, After(cfg, s, a))
  {
    var s' := After(cfg, s, a);
    hide Inv, RanBefore;
    OneMoved(s, a.t, t, s');
  }

  lemma CreateRan(cfg: Config, s: State, a: Action, t: nat)
    requires Inv(cfg, s) && Streamed(s) && Enabled(cfg, s, a) && a.Create?
    ensures RanBefore(s, t, After(cfg, s, a))
  {
    if t < |s.threads| { NotWhileCreating(cfg, s, a.t, t); }
    hide Inv, Streamed;
  }

  lemma SettleRan(cfg: Config, s: State, a: Action, t: nat)
    requires Inv(cfg, s) && Enabled(cfg, s, a) && a.Settle?
    ensures RanBefore(s, t, After(cfg, s, a))
  {
    hide RanBefore, Opening, Logged, Delivery, Books, Budget, InOrder, Roles, Locking, WellFormed, BufferLocked,
         CommitLocked;
    var s', p := After(cfg, s, a), s.threads[a.t];
    if p.on != Cur(s) || !Succeeds(p.outcome, a.statusOk) {
      hide Completed;
      OneMoved(s, a.t, t, s');
    } else {
      OnlyLogged(cfg, s, p.op);
      OneMoved(s, a.t, t, s');
    }
  }

  lemma ExecuteRan(cfg: Config, s: State, a: Action, t: nat)
    requires Inv(cfg, s) && Enabled(cfg, s, a) && a.Execute?
    ensures RanBefore(s, t, After(cfg, s, a))
  {
    var s' := After(cfg, s, a);
    ExecuteStep(cfg, s, a.t, a.outcome);
    hide Inv, After, Enabled, RanBefore;
    OneMoved(s, a.t, t, s');
  }

  lemma EnterRan(cfg: Config, s: State, a: Action, t: nat)
    requires Inv(cfg, s) && Enabled(cfg, s, a) && ((a.Enter? && a.t != t) || a.Begin?)
    ensures RanBefore(s, t, After(cfg, s, a))
  {
    var s' := After(cfg, s, a);
    hide Inv, RanBefore;
    OneMoved(s, a.t, t, s');
  }

  /** Only entering an operation makes a thread run it. */
  lemma StillRuns(cfg: Config, s: State, a: Action, t: nat)
    requires Inv(cfg, s) && Streamed(s) && Enabled(cfg, s, a) && a != Enter(t)
    ensures RanBefore(s, t, After(cfg, s, a))
  {
    hide Inv, Streamed, After, RanBefore;
    if a.Begin? || a.Enter? { EnterRan(cfg, s, a, t); }
    else if a.Execute? { ExecuteRan(cfg, s, a, t); }
    else if a.Settle? { SettleRan(cfg, s, a, t); }
    else if a.Create? { CreateRan(cfg, s, a, t); }
    else if a.Judge? { JudgeRan(cfg, s, a, t); }
    else if a.Replay? { ReplayRan(cfg, s, a, t); }
    else if a.Quit? { QuitRan(cfg, s, a, t); }
    else { OthersRan(cfg, s, a, t); }
  }

  lemma NotWhileCreating(cfg: Config, s: State, u: nat, t: nat)
    requires Inv(cfg, s) && Streamed(s) && t < |s.threads| && u < |s.threads| && s.threads[u].Creating?
    ensures !s.threads[t].RunningCommitted?
  {
    Places(cfg, s, t);
    HolderHas(s, u);
    hide Inv;
  }

  lemma PanicsStay(cfg: Config, s: State, a: Action, t: nat)
    requires Inv(cfg, s) && Streamed(s) && Enabled(cfg, s, a) && Panics(After(cfg, s, a), t)
    ensures var s' := After(cfg, s, a);
            || (Stranded(s) && OnCurrent(s', t))
            || (Panics(s, t) && s'.threads[t] == s.threads[t])
  {
    hide Inv, Streamed, After, Enabled;
    if a == Enter(t) {
      EnterPanics(cfg, s, t);
    } else {
      StillRuns(cfg, s, a, t);
      InRange(cfg, s, t);
    }
  }

  lemma InRange(cfg: Config, s: State, t: nat)
    requires Inv(cfg, s) && t < |s.threads|
    ensures s.threads[t].Running? ==> s.threads[t].on < |s.attempts|
  {}

  lemma {:induction false} PanicsStranded(cfg: Config, receivers: nat, run: seq<State>, actions: seq<Action>, i: nat,
                                          t: nat)
    requires IsRun(cfg, receivers, run, actions) && i < |run| && Panics(run[i], t)
    ensures Stranded(run[i]) && OnCurrent(run[i], t)
  {
    hide Inv, Enabled, After, Streamed, Stranded;
    assert i > 0;
    var s, a := run[i - 1], actions[i - 1];
    RunKeeps(cfg, receivers, run, actions, i - 1);
    assert Step(cfg, s, a, run[i]);
    PanicsStay(cfg, s, a, t);
    if Panics(s, t) { PanicsStranded(cfg, receivers, run, actions, i - 1, t); }
    StrandedStays(cfg, s, a);
  }

  /** In every run, an operation other than the opening of the stream dereferences a nil stream
      exactly if it entered the current attempt and an earlier operation has returned an error that
      is not io.EOF and left that attempt without a stream. */
  lemma PanicsExactly(cfg: Config, receivers: nat, run: seq<State>, actions: seq<Action>, i: nat, t: nat)
    requires IsRun(cfg, receivers, run, actions) && i < |run|
    ensures Panics(run[i], t) <==>
              OnCurrent(run[i], t) && exists j | 0 <= j < i :: Strands(run[j], actions[j], run[j + 1])
  {
    hide IsRun, Strands;
    StrandedExactly(cfg, receivers, run, actions, i);
    if Panics(run[i], t) { PanicsStranded(cfg, receivers, run, actions, i, t); }
  }

  /** Without room to buffer anything the stream is committed as soon as it is open. */
  lemma {:induction false} UnbufferedEngages(cfg: Config, receivers: nat, run: seq<State>, actions: seq<Action>, i: nat)
    requires IsRun(cfg, receivers, run, actions) && i < |run| && cfg.bufferLimit < 0 && run[i].ready
    ensures Engaged(run[i])
  {
    hide Inv, Enabled, After, Streamed, Engaged;
    assert i > 0;
    var s, a := run[i - 1], actions[i - 1];
    RunKeeps(cfg, receivers, run, actions, i - 1);
    assert Step(cfg, s, a, run[i]);
    if s.ready {
      UnbufferedEngages(cfg, receivers, run, actions, i - 1);
      StepStays(cfg, s, a);
      StillEngaged(s, run[i]);
    } else {
      ReadyBySettling(cfg, s, a);
    }
  }

  lemma StillEngaged(s: State, s': State)
    requires Stays(s, s')
    ensures Engaged(s')
  {}

  lemma ReadyBySettling(cfg: Config, s: State, a: Action)
    requires Inv(cfg, s) && Streamed(s) && Enabled(cfg, s, a) && !s.ready && After(cfg, s, a).ready
    requires cfg.bufferLimit < 0
    ensures Engaged(After(cfg, s, a))
  {
    var s' := After(cfg, s, a);
    if a.Execute? {
      ExecuteStep(cfg, s, a.t, a.outcome);
      assert false;
    } else if a.Settle? {
      Places(cfg, s, a.t);
      SettledOn(cfg, s, a.t);
      hide Inv;
    } else {
      OnlySettling(cfg, s, a);
      assert false;
    }
  }

  lemma OnlySettling(cfg: Config, s: State, a: Action)
    requires Inv(cfg, s) && Enabled(cfg, s, a) && !a.Execute? && !a.Settle?
    ensures After(cfg, s, a).ready == s.ready
  {
    hide Inv, CanResult, ShouldRetry, DoExecute, DoSettle;
    if a.Judge? {
      JudgeReady(cfg, s, a.t, a.evidence);
    } else if a.Create? || a.Replay? {
      hide DoJudge, FinishLocked, CommitLocked;
    } else {
      hide DoJudge, DoCreate, DoReplay;
    }
  }

  lemma JudgeReady(cfg: Config, s: State, t: nat, e: Evidence)
    requires Inv(cfg, s) && Enabled(cfg, s, Judge(t, e))
    ensures After(cfg, s, Judge(t, e)).ready == s.ready
  {
    InPlace(s, t);
    hide Inv, ShouldRetry;
  }

  function Opened(k: nat): State
    requires k <= 5
  {
    var s := Initial(1).(threads := [Creating(NewStream), Idle]);
    var tried := s.(created := 1, attempts := [Attempt(false, true, false, 0, [])]);
    var up := tried.(lockedBy := -1, attempts := [Attempt(true, true, false, 0, [NewStream])]);
    if k == 0 then s
    else if k == 1 then tried.(threads := [Replaying(NewStream, 0), Idle])
    else if k == 2 then tried.(threads := [Start(NewStream), Idle], lockedBy := -1)
    else if k == 3 then tried.(threads := [Running(NewStream, 0), Idle], lockedBy := -1)
    else if k == 4 then up.(threads := [Checking(NewStream, 0, Fine), Idle])
    else up.(threads := [Idle, Idle], acked := [NewStream], buffer := [NewStream], ready := true)
  }

  /** The receiver is refused by the server, which has not processed the stream, and tries again. */
  function Receiving(k: nat): State
    requires k <= 6
  {
    var s := Opened(5);
    var again := s.(lockedBy := 1, firstAttempt := false, attempts := [Attempt(true, true, true, 1, [NewStream])]);
    if k == 0 then s
    else if k == 1 then s.(threads := [Idle, Start(Receive)])
    else if k == 2 then s.(threads := [Idle, Running(Receive, 0)])
    else if k == 3 then s.(threads := [Idle, Checking(Receive, 0, Broken(true))])
    else if k == 4 then s.(threads := [Idle, Retrying(Receive, Broken(true))], lockedBy := 1)
    else if k == 5 then again.(threads := [Idle, Creating(Receive)])
    else again.(threads := [Idle, Replaying(Receive, 0)], created := 2,
                attempts := again.attempts + [Attempt(false, true, false, 0, [])])
  }

  /** The new stream is refused after something was written; the sender goes on all the same. */
  function Refusing(k: nat): State
    requires k <= 4
  {
    var s := Receiving(6);
    var failed := s.(attempts := [s.attempts[0], Attempt(false, false, false, 0, [])]);
    var over := s.(attempts := [s.attempts[0], Attempt(false, false, true, 1, [])], lockedBy := -1,
                   committed := true, buffer := [], commits := 1);
    if k == 0 then s
    else if k == 1 then failed.(threads := [Idle, Retrying(Receive, Broken(true))])
    else if k == 2 then over.(threads := [Idle, Failed])
    else if k == 3 then over.(threads := [Start(CloseSend), Failed], begun := [NewStream, CloseSend])
    else over.(threads := [RunningCommitted(CloseSend), Failed], begun := [NewStream, CloseSend])
  }

  const ANSWERS: seq<Action> :=
    [Create(0, true), Replay(0, Fine), Enter(0), Execute(0, Fine), Settle(0, true),
     Begin(1, Receive), Enter(1), Execute(1, Broken(true)), Settle(1, false),
     Judge(1, Evidence(true, false, NoPushback, false, false, false)), Create(1, true),
     Replay(1, Broken(true)), Judge(1, Evidence(false, false, NoPushback, false, false, false)),
     Begin(0, CloseSend), Enter(0)]

  function Stage(k: nat): State
    requires k <= 15
  {
    if k < 5 then Opened(k) else if k < 11 then Receiving(k - 5) else Refusing(k - 11)
  }

  lemma Opens(cfg: Config, k: nat)
    requires cfg.bufferLimit >= 0 && k < 5
    ensures Step(cfg, Opened(k), ANSWERS[k], Opened(k + 1))
  {
    if k < 3 { OpensFirst(cfg, k); } else { OpensThen(cfg, k); }
  }

  lemma OpensFirst(cfg: Config, k: nat)
    requires k < 3
    ensures Step(cfg, Opened(k), ANSWERS[k], Opened(k + 1))
  {
    hide DoSettle, DoJudge, DoExecute;
    var s, s' := Opened(k), Opened(k + 1);
    assert s.threads[0 := s'.threads[0]] == s'.threads;
  }

  lemma OpensThen(cfg: Config, k: nat)
    requires cfg.bufferLimit >= 0 && 3 <= k < 5
    ensures Step(cfg, Opened(k), ANSWERS[k], Opened(k + 1))
  {
    hide DoJudge, DoCreate, DoReplay;
    var s, s', none := Opened(k), Opened(k + 1), [];
    assert s.threads[0 := s'.threads[0]] == s'.threads;
    assert none + [NewStream] == [NewStream];
    if k == 3 { assert s.attempts[0 := s'.attempts[0]] == s'.attempts; }
  }

  lemma Receives(cfg: Config, k: nat)
    requires k < 6
    ensures Step(cfg, Receiving(k), ANSWERS[k + 5], Receiving(k + 1))
  {
    if k < 3 { ReceivesFirst(cfg, k); } else { ReceivesThen(cfg, k); }
  }

  lemma ReceivesFirst(cfg: Config, k: nat)
    requires k < 3
    ensures Step(cfg, Receiving(k), ANSWERS[k + 5], Receiving(k + 1))
  {
    hide DoSettle, DoJudge, DoCreate, DoReplay, FinishLocked;
    var s, s' := Receiving(k), Receiving(k + 1);
    assert s.threads[1 := s'.threads[1]] == s'.threads;
  }

  lemma ReceivesThen(cfg: Config, k: nat)
    requires 3 <= k < 6
    ensures Step(cfg, Receiving(k), ANSWERS[k + 5], Receiving(k + 1))
  {
    hide DoExecute, DoReplay, FinishLocked;
    var s, s' := Receiving(k), Receiving(k + 1);
    assert s.threads[1 := s'.threads[1]] == s'.threads;
  }

  lemma Refuses(cfg: Config, k: nat)
    requires k < 4
    ensures Step(cfg, Refusing(k), ANSWERS[k + 11], Refusing(k + 1))
  {
    if k == 0 { ReplayBreaks(cfg); } else if k == 1 { GivesUp(cfg); } else { RefusesThen(cfg, k); }
  }

  lemma ReplayBreaks(cfg: Config)
    ensures Step(cfg, Refusing(0), ANSWERS[11], Refusing(1))
  {
    hide DoExecute, DoSettle, DoCreate, DoJudge, FinishLocked;
    var s, s' := Refusing(0), Refusing(1);
    assert s.threads[1 := s'.threads[1]] == s'.threads;
  }

  lemma GivesUp(cfg: Config)
    ensures Step(cfg, Refusing(1), ANSWERS[12], Refusing(2))
  {
    hide DoExecute, DoSettle, DoCreate, DoReplay, FinishLocked;
    var s, s' := Refusing(1), Refusing(2);
    assert s.threads[1 := s'.threads[1]] == s'.threads;
  }

  lemma RefusesThen(cfg: Config, k: nat)
    requires 2 <= k < 4
    ensures Step(cfg, Refusing(k), ANSWERS[k + 11], Refusing(k + 1))
  {
    hide DoExecute, DoSettle, DoCreate, DoJudge, DoReplay, FinishLocked;
    var s, s' := Refusing(k), Refusing(k + 1);
    assert s.threads[0 := s'.threads[0]] == s'.threads;
  }

  /** Without fail-fast, a retry that waits for a connection may find none after all: then the
      attempt without a stream is not even committed. */
  function Waiting(k: nat): State
    requires k <= 5
  {
    var s := Receiving(6);
    var failed := s.(attempts := [s.attempts[0], Attempt(false, false, false, 0, [])]);
    var over := s.(attempts := [s.attempts[0], Attempt(false, false, true, 1, [])], waits := 1);
    var none := over.(created := 3, lockedBy := -1);
    if k == 0 then s
    else if k == 1 then failed.(threads := [Idle, Retrying(Receive, Broken(false))])
    else if k == 2 then over.(threads := [Idle, Creating(Receive)])
    else if k == 3 then none.(threads := [Idle, Failed])
    else if k == 4 then none.(threads := [Start(CloseSend), Failed], begun := [NewStream, CloseSend])
    else none.(threads := [Running(CloseSend, 1), Failed], begun := [NewStream, CloseSend])
  }

  const WAITS: seq<Action> :=
    ANSWERS[..11] +
    [Replay(1, Broken(false)), Judge(1, Evidence(false, false, NoPushback, false, false, false)), Create(1, false),
     Begin(0, CloseSend), Enter(0)]

  lemma Waits(cfg: Config, k: nat)
    requires !cfg.failFast && k < 5
    ensures Step(cfg, Waiting(k), WAITS[k + 11], Waiting(k + 1))
  {
    if k < 2 { WaitsFirst(cfg, k); } else { WaitsThen(cfg, k); }
  }

  lemma WaitsFirst(cfg: Config, k: nat)
    requires !cfg.failFast && k < 2
    ensures Step(cfg, Waiting(k), WAITS[k + 11], Waiting(k + 1))
  {
    hide DoExecute, DoSettle, DoCreate, FinishLocked;
    var s, s' := Waiting(k), Waiting(k + 1);
    assert s.threads[1 := s'.threads[1]] == s'.threads;
  }

  lemma WaitsThen(cfg: Config, k: nat)
    requires 2 <= k < 5
    ensures Step(cfg, Waiting(k), WAITS[k + 11], Waiting(k + 1))
  {
    hide DoExecute, DoSettle, DoJudge, DoReplay, FinishLocked;
    var s, s' := Waiting(k), Waiting(k + 1);
    assert s.threads[if k == 2 then 1 else 0 := s'.threads[if k == 2 then 1 else 0]] == s'.threads;
  }

  lemma UncommittedPanic(cfg: Config) returns (run: seq<State>, actions: seq<Action>)
    requires cfg.bufferLimit >= 0 && !cfg.failFast
    ensures IsRun(cfg, 1, run, actions) && Panics(run[|actions|], 0) && !run[|actions|].committed
  {
    hide Step, Opened, Receiving, Waiting;
    run := seq(17, k requires 0 <= k < 17 => if k < 11 then Stage(k) else Waiting(k - 11));
    actions := WAITS;
    forall k | 0 <= k < |actions| ensures Step(cfg, run[k], actions[k], run[k + 1]) {
      if k < 5 { Opens(cfg, k); } else if k < 11 { Receives(cfg, k - 5); } else { Waits(cfg, k - 11); }
      StagesMeet();
    }
    StagesEnd();
  }

  /** Wherever operations are buffered at all, a sender may meet a nil stream. */
  lemma PanicRun(cfg: Config) returns (run: seq<State>, actions: seq<Action>)
    requires cfg.bufferLimit >= 0
    ensures IsRun(cfg, 1, run, actions) && Panics(run[|actions|], 0)
  {
    hide Step, Opened, Receiving, Refusing;
    run := seq(16, k requires 0 <= k < 16 => Stage(k));
    actions := ANSWERS;
    forall k | 0 <= k < |actions| ensures Step(cfg, run[k], actions[k], run[k + 1]) {
      if k < 5 { Opens(cfg, k); } else if k < 11 { Receives(cfg, k - 5); } else { Refuses(cfg, k - 11); }
      StagesMeet();
    }
    StagesEnd();
  }

  lemma StagesMeet()
    ensures Opened(5) == Receiving(0) && Receiving(6) == Refusing(0) == Waiting(0)
  {}

  lemma StagesEnd()
    ensures Opened(0) == Initial(1) && Panics(Refusing(4), 0) && Panics(Waiting(5), 0) && !Waiting(5).committed
  {}

  /** A run that ends in a panic exists exactly if operations are buffered at all. */
  lemma PanicReachable(cfg: Config)
    ensures cfg.bufferLimit >= 0 <==>
              exists receivers: nat, run, actions, t: nat ::
                IsRun(cfg, receivers, run, actions) && Panics(run[|actions|], t)
  {
    hide Step, Panics;
    if cfg.bufferLimit >= 0 {
      var run, actions := PanicRun(cfg);
      assert IsRun(cfg, 1, run, actions) && Panics(run[|actions|], 0);
    } else {
      forall receivers: nat, run, actions, t: nat | IsRun(cfg, receivers, run, actions)
        ensures !Panics(run[|actions|], t)
      {
        NeverPanics(cfg, receivers, run, actions, |actions|, t);
      }
    }
  }

  lemma NeverPanics(cfg: Config, receivers: nat, run: seq<State>, actions: seq<Action>, i: nat, t: nat)
    requires IsRun(cfg, receivers, run, actions) && i < |run| && cfg.bufferLimit < 0
    ensures !Panics(run[i], t)
  {
    hide IsRun;
    if Panics(run[i], t) {
      PanicsStranded(cfg, receivers, run, actions, i, t);
      UnbufferedEngages(cfg, receivers, run, actions, i);
      assert false;
    }
  }
}
