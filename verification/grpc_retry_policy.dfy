/**
 The retry protocol: what has to be found out about an attempt for another one to follow, what makes a
 stream committed, and what its buffer holds.

 The conditions are stated on what the server, the transport and the application have answered; they
 hold of every step of every run, and each new attempt of a run is accounted for by one of them.
 */
module GrpcRetryPolicy {
  import opened Options
  import opened GrpcRetry

  // ---------------------------------------------------------------------------------------------
  // When an attempt is followed by another one

  predicate AtVerdict(s: State, t: nat) {
    t < |s.threads| && s.threads[t].Retrying? && s.attempts != []
  }

  /** The attempt never got a stream, and nothing was written for it. */
  predicate NothingSent(s: State, t: nat)
    requires AtVerdict(s, t)
  {
    !s.attempts[Cur(s)].hasStream && s.threads[t].outcome != Broken(true)
  }

  /** RPCs that wait for a connection go on as long as nothing was sent. */
  predicate FreeRetry(cfg: Config, s: State, t: nat)
    requires AtVerdict(s, t)
  {
    NothingSent(s, t) && !cfg.failFast
  }

  /** The first attempt may be repeated once if the server has not seen it. */
  predicate TransparentRetry(cfg: Config, s: State, t: nat, e: Evidence)
    requires AtVerdict(s, t)
  {
    && !FreeRetry(cfg, s, t) && s.firstAttempt && !s.committed && !s.finished
    && (NothingSent(s, t) || (s.attempts[Cur(s)].hasStream && e.unprocessed))
  }

  /** Otherwise the policy decides: a status that it lists, attempts left, no throttling, no
      cancellation; and if the server has answered, nothing but trailers, and no word against it. */
  predicate CountedRetry(cfg: Config, s: State, t: nat, e: Evidence)
    requires AtVerdict(s, t)
  {
    && !FreeRetry(cfg, s, t) && !TransparentRetry(cfg, s, t, e) && !s.committed && !s.finished
    && !cfg.disableRetry && cfg.maxAttempts.Some? && s.numRetries + 2 <= cfg.maxAttempts.value
    && e.retryable && !e.throttled && !e.cancelled
    && (s.attempts[Cur(s)].hasStream ==> e.trailersOnly && (e.pushback.NoPushback? || e.pushback.Delay?))
  }

  predicate Retried(cfg: Config, s: State, t: nat, e: Evidence)
    requires AtVerdict(s, t)
  {
    FreeRetry(cfg, s, t) || TransparentRetry(cfg, s, t, e) || CountedRetry(cfg, s, t, e)
  }

  /** Exactly then the thread goes on to make an attempt, and the counters say which kind it was.
      Otherwise the attempt is committed and the operation ends; only a send that met the end of the
      stream leaves it to the receiver to find out why. */
  lemma JudgeExactly(cfg: Config, s: State, t: nat, e: Evidence)
    requires WellFormed(s) && Enabled(cfg, s, Judge(t, e))
    ensures AtVerdict(s, t)
    ensures var (s', p) := (After(cfg, s, Judge(t, e)), s.threads[t]);
            && |s'.threads| == |s.threads|
            && s'.threads[t] == (if Retried(cfg, s, t, e) then Creating(p.op)
                                 else if p.op.Send? && p.outcome.Ended? then Idle else Failed)
            && s'.numRetries == s.numRetries + (if CountedRetry(cfg, s, t, e) then 1 else 0)
            && s'.waits == s.waits + (if FreeRetry(cfg, s, t) then 1 else 0)
            && s'.firstAttempt == (s.firstAttempt && !Retried(cfg, s, t, e))
            && s'.committed == (s.committed || !Retried(cfg, s, t, e))
            && s'.lockedBy == (if Retried(cfg, s, t, e) then s.lockedBy else -1)
            && |s'.attempts| == |s.attempts| && s'.attempts[Cur(s)].finished && s'.created == s.created
            && s'.acked == s.acked && s'.bufferSize == s.bufferSize
  {
    VerdictExactly(cfg, s, t, e);
    hide ShouldRetry, FreeRetry, TransparentRetry, CountedRetry, Enabled;
    assert Cur(Closed(s)) == Cur(s);
  }

  lemma VerdictExactly(cfg: Config, s: State, t: nat, e: Evidence)
    requires WellFormed(s) && Enabled(cfg, s, Judge(t, e))
    ensures AtVerdict(s, t)
    ensures var v := ShouldRetry(cfg, Closed(s), s.threads[t].outcome, e);
            && (v.Wait? <==> FreeRetry(cfg, s, t)) && (v.Transparent? <==> TransparentRetry(cfg, s, t, e))
            && (v.Counted? <==> CountedRetry(cfg, s, t, e))
  {
    assert Cur(Closed(s)) == Cur(s);
    var (a, b) := (s.attempts[Cur(s)], Closed(s).attempts[Cur(s)]);
    assert a.hasStream == b.hasStream;
    hide Closed, WellFormed, Enabled;
    assert Closed(s) == s.(attempts := Closed(s).attempts) by { ClosedSame(s); }
  }

  lemma ClosedSame(s: State)
    requires s.attempts != []
    ensures Closed(s) == s.(attempts := Closed(s).attempts)
  {}

  // ---------------------------------------------------------------------------------------------
  // What becomes of an operation that has run

  /** An operation succeeds with no error, and with the end of the stream if its status is OK. */
  predicate Settled(s: State, t: nat, statusOk: bool)
    requires t < |s.threads| && s.threads[t].Checking?
  {
    s.threads[t].outcome.Fine? || (s.threads[t].outcome.Ended? && statusOk)
  }

  function BytesOf(op: Op): nat {
    match op
    case Send(_, size) => size
    case NewStream => 0
    case CloseSend => 0
    case Receive => 0
  }

  /** The attempt must not be replaced any more: the application has seen an answer, or what would have
      to be replayed is more than the buffer may hold. */
  predicate Binds(cfg: Config, s: State, op: Op) {
    op.Receive? || s.bufferSize + BytesOf(op) > cfg.bufferLimit
  }

  /** An operation on an attempt that was replaced meanwhile starts again; one that has succeeded is
      over; any other one is for the verdict, under the lock. */
  lemma SettleExactly(cfg: Config, s: State, t: nat, statusOk: bool)
    requires WellFormed(s) && Enabled(cfg, s, Settle(t, statusOk))
    ensures var (s', p) := (After(cfg, s, Settle(t, statusOk)), s.threads[t]);
            var stale := p.on != |s.attempts| - 1;
            var over := !stale && Settled(s, t, statusOk);
            && |s'.threads| == |s.threads| && s'.attempts == s.attempts
            && s'.threads[t] == (if stale then Start(p.op) else if over then Idle else Retrying(p.op, p.outcome))
            && s'.lockedBy == (if stale || over then s.lockedBy else t)
            && s'.committed == (s.committed || (over && Binds(cfg, s, p.op)))
            && s'.acked == s.acked + (if over && !p.op.Receive? then [p.op] else [])
            && s'.buffer == (if !over || (s.committed && !p.op.Receive?) then s.buffer
                             else if Binds(cfg, s, p.op) then [] else s.buffer + [p.op])
  {
    var p := s.threads[t];
    hide Enabled, WellFormed;
    if p.on == Cur(s) && Settled(s, t, statusOk) {
      hide Settled;
      if p.op.Receive? { hide BufferLocked; } else { BufferExactly(cfg, s, p.op); }
      hide CommitLocked, BufferLocked;
    }
  }

  /** What the buffer holds of an operation that has succeeded. */
  lemma BufferExactly(cfg: Config, s: State, op: Op)
    requires !op.Receive?
    ensures var b := BufferLocked(cfg, s, op);
            && b.threads == s.threads && b.attempts == s.attempts && b.lockedBy == s.lockedBy && b.acked == s.acked
            && b.committed == (s.committed || Binds(cfg, s, op))
            && b.buffer == (if s.committed then s.buffer else if Binds(cfg, s, op) then [] else s.buffer + [op])
            && (!s.committed ==> b.bufferSize == s.bufferSize + BytesOf(op))
  {}

  // ---------------------------------------------------------------------------------------------
  // Whole runs

  /** Another attempt was decided on in step `i`. */
  predicate Again(run: seq<State>, actions: seq<Action>, i: nat) {
    && i < |actions| && i + 1 < |run| && actions[i].Judge? && actions[i].t < |run[i + 1].threads|
    && run[i + 1].threads[actions[i].t].Creating?
  }

  /** In every run, whoever comes to make an attempt has been through the verdict on the last one, and
      one of the three reasons held. */
  lemma RetriesJustified(cfg: Config, receivers: nat, run: seq<State>, actions: seq<Action>, i: nat, t: nat)
    requires IsRun(cfg, receivers, run, actions) && i < |actions| && t < |run[i].threads|
    requires !run[i].threads[t].Creating?
    ensures |run[i + 1].threads| == |run[i].threads|
    ensures run[i + 1].threads[t].Creating? <==>
              && actions[i].Judge? && actions[i].t == t && AtVerdict(run[i], t)
              && Retried(cfg, run[i], t, actions[i].evidence)
  {
    hide Retried, Enabled, WellFormed;
    var s, a := run[i], actions[i];
    assert Step(cfg, s, a, run[i + 1]);
    if a.Judge? {
      JudgeExactly(cfg, s, a.t, a.evidence);
      JudgeMoves(cfg, s, a.t, a.evidence);
      assert t != a.t ==> run[i + 1].threads[t] == s.threads[t];
    } else {
      OthersCreateNone(cfg, s, a, t);
    }
  }

  lemma JudgeMoves(cfg: Config, s: State, t: nat, e: Evidence)
    requires WellFormed(s) && Enabled(cfg, s, Judge(t, e))
    ensures var s' := After(cfg, s, Judge(t, e));
            |s'.threads| == |s.threads| && forall u | 0 <= u < |s.threads| && u != t :: s'.threads[u] == s.threads[u]
  {
    hide ShouldRetry;
  }

  /** Nothing but where one thread is, and the counters stay. */
  predicate Unretried(s: State, s': State, u: nat, created: nat) {
    && s'.numRetries == s.numRetries && s'.waits == s.waits && s'.firstAttempt == s.firstAttempt
    && s'.created == s.created + created && |s'.threads| == |s.threads|
    && forall t | 0 <= t < |s.threads| :: if t == u then !s'.threads[t].Creating? else s'.threads[t] == s.threads[t]
  }

  lemma ExecuteUnretried(cfg: Config, s: State, t: nat, outcome: Outcome)
    requires WellFormed(s) && Enabled(cfg, s, Execute(t, outcome))
    ensures Unretried(s, After(cfg, s, Execute(t, outcome)), t, 0)
  {
    var p := s.threads[t];
    hide CanResult, Panics, Ran, Unretried, Completed, Refused;
    if p.Running? {
      MovedUnretried(s, s.(attempts := s.attempts[p.on := Ran(s.attempts[p.on], p.op, outcome)]), t,
                     Checking(p.op, p.on, outcome));
    } else {
      var r := s.(attempts := s.attempts[Cur(s) := Ran(s.attempts[Cur(s)], p.op, outcome)]);
      CompletedUnretried(s, r, t, p.op);
      RefusedUnretried(s, r, t, p.op, outcome);
    }
  }

  lemma SettleUnretried(cfg: Config, s: State, t: nat, statusOk: bool)
    requires WellFormed(s) && Enabled(cfg, s, Settle(t, statusOk))
    ensures Unretried(s, After(cfg, s, Settle(t, statusOk)), t, 0)
  {
    var p := s.threads[t];
    hide WellFormed, Enabled;
    CountersStay(cfg, s, p.op);
    hide BufferLocked, CommitLocked, Unretried, Completed;
    var after := if p.op.Receive? then CommitLocked(s) else BufferLocked(cfg, s, p.op);
    CompletedUnretried(s, after, t, p.op);
    MovedUnretried(s, s, t, Start(p.op));
    MovedUnretried(s, s.(lockedBy := t), t, Retrying(p.op, p.outcome));
  }

  predicate SameCounters(s: State, r: State) {
    && r.threads == s.threads && r.numRetries == s.numRetries && r.waits == s.waits
    && r.firstAttempt == s.firstAttempt && r.created == s.created
  }

  lemma CountersStay(cfg: Config, s: State, op: Op)
    ensures SameCounters(s, CommitLocked(s)) && SameCounters(s, BufferLocked(cfg, s, op))
  {}

  lemma MovedUnretried(s: State, r: State, t: nat, p: Phase)
    requires SameCounters(s, r) && t < |s.threads| && !p.Creating?
    ensures Unretried(s, At(r, t, p), t, 0)
  {}

  lemma CompletedUnretried(s: State, r: State, t: nat, op: Op)
    requires SameCounters(s, r) && t < |s.threads|
    ensures Unretried(s, Completed(r, t, op), t, 0)
  {}

  lemma RefusedUnretried(s: State, r: State, t: nat, op: Op, outcome: Outcome)
    requires SameCounters(s, r) && t < |s.threads|
    ensures Unretried(s, Refused(r, t, op, outcome), t, 0)
  {}

  lemma ReplayUnretried(cfg: Config, s: State, t: nat, outcome: Outcome)
    requires WellFormed(s) && Enabled(cfg, s, Replay(t, outcome))
    ensures Unretried(s, After(cfg, s, Replay(t, outcome)), t, 0)
  {
    hide CanResult, Ran;
  }

  lemma CreateUnretried(cfg: Config, s: State, t: nat, found: bool)
    requires WellFormed(s) && Enabled(cfg, s, Create(t, found))
    ensures Unretried(s, After(cfg, s, Create(t, found)), t, 1)
  {
    hide WellFormed;
  }

  lemma QuitUnretried(cfg: Config, s: State, t: nat)
    requires WellFormed(s) && Enabled(cfg, s, Quit(t))
    ensures Unretried(s, After(cfg, s, Quit(t)), t, 0)
  {
    hide WellFormed;
  }

  lemma SimpleUnretried(cfg: Config, s: State, a: Action)
    requires WellFormed(s) && Enabled(cfg, s, a) && (a.Begin? || a.Enter?)
    ensures Unretried(s, After(cfg, s, a), a.t, 0)
  {
    hide WellFormed;
  }

  lemma ElsewhereUnretried(cfg: Config, s: State, a: Action)
    requires WellFormed(s) && Enabled(cfg, s, a) && (a.Die? || a.CommitNow? || a.FinishNow?)
    ensures Unretried(s, After(cfg, s, a), |s.threads|, 0)
  {
    hide WellFormed;
  }

  /** The thread that an action moves. */
  function Mover(s: State, a: Action): nat {
    if a.Die? || a.CommitNow? || a.FinishNow? then |s.threads| else a.t
  }

  lemma OthersUnretried(cfg: Config, s: State, a: Action)
    requires WellFormed(s) && Enabled(cfg, s, a) && !a.Judge?
    ensures Unretried(s, After(cfg, s, a), Mover(s, a), if a.Create? then 1 else 0)
    ensures a.Create? ==> a.t < |s.threads| && s.threads[a.t].Creating?
    ensures !a.Create? && Mover(s, a) < |s.threads| ==> !s.threads[Mover(s, a)].Creating?
  {
    hide Unretried, After, WellFormed, CanResult;
    if a.Execute? { ExecuteUnretried(cfg, s, a.t, a.outcome); }
    else if a.Settle? { SettleUnretried(cfg, s, a.t, a.statusOk); }
    else if a.Replay? { ReplayUnretried(cfg, s, a.t, a.outcome); }
    else if a.Create? { CreateUnretried(cfg, s, a.t, a.found); }
    else if a.Quit? { QuitUnretried(cfg, s, a.t); }
    else if a.Begin? || a.Enter? { SimpleUnretried(cfg, s, a); }
    else { ElsewhereUnretried(cfg, s, a); }
  }

  lemma OthersCreateNone(cfg: Config, s: State, a: Action, t: nat)
    requires WellFormed(s) && Enabled(cfg, s, a) && !a.Judge? && t < |s.threads| && !s.threads[t].Creating?
    ensures |After(cfg, s, a).threads| == |s.threads| && !After(cfg, s, a).threads[t].Creating?
  {
    hide After, WellFormed, Enabled;
    OthersUnretried(cfg, s, a);
  }

  /** How many of the first `n` steps decided on another attempt, and for which reason. */
  function Retries(cfg: Config, run: seq<State>, actions: seq<Action>, n: nat): (nat, nat, nat)
    requires n <= |actions| < |run|
  {
    if n == 0 then (0, 0, 0)
    else
      var (free, transparent, counted) := Retries(cfg, run, actions, n - 1);
      var (s, a) := (run[n - 1], actions[n - 1]);
      if !a.Judge? || !AtVerdict(s, a.t) then (free, transparent, counted)
      else
        (free + (if FreeRetry(cfg, s, a.t) then 1 else 0),
         transparent + (if TransparentRetry(cfg, s, a.t, a.evidence) then 1 else 0),
         counted + (if CountedRetry(cfg, s, a.t, a.evidence) then 1 else 0))
  }

  /** In every run each attempt that was asked for, but the first, comes from one such decision; at most
      one of them was transparent, and the counters count the others. */
  lemma {:induction false} Accounted(cfg: Config, receivers: nat, run: seq<State>, actions: seq<Action>, n: nat)
    requires IsRun(cfg, receivers, run, actions) && n <= |actions|
    ensures var (free, transparent, counted) := Retries(cfg, run, actions, n);
            && run[n].numRetries == counted && run[n].waits == free && transparent <= 1
            && (run[n].firstAttempt <==> free + transparent + counted == 0)
            && run[n].created + (if Holder(run[n]).Creating? then 1 else 0) == 1 + free + transparent + counted
  {
    hide FreeRetry, TransparentRetry, CountedRetry, After, Enabled, Inv, Streamed, Retried, AtVerdict;
    if n == 0 {
      FirstAccounted(receivers);
    } else {
      Accounted(cfg, receivers, run, actions, n - 1);
      RunKeeps(cfg, receivers, run, actions, n - 1);
      RunKeeps(cfg, receivers, run, actions, n);
      var (s, a) := (run[n - 1], actions[n - 1]);
      assert Step(cfg, s, a, run[n]);
      if a.Judge? {
        JudgeAccounted(cfg, s, a.t, a.evidence);
      } else {
        OthersAccounted(cfg, s, a);
      }
    }
  }

  lemma FirstAccounted(receivers: nat)
    ensures var s := Initial(receivers);
            && s.numRetries == s.waits == s.created == 0 && s.firstAttempt && Holder(s).Creating?
  {}

  lemma JudgeAccounted(cfg: Config, s: State, t: nat, e: Evidence)
    requires Inv(cfg, s) && Enabled(cfg, s, Judge(t, e))
    ensures AtVerdict(s, t)
    ensures var s' := After(cfg, s, Judge(t, e));
            var free := if FreeRetry(cfg, s, t) then 1 else 0;
            var transparent := if TransparentRetry(cfg, s, t, e) then 1 else 0;
            var counted := if CountedRetry(cfg, s, t, e) then 1 else 0;
            && s'.numRetries == s.numRetries + counted && s'.waits == s.waits + free && s'.created == s.created
            && s'.firstAttempt == (s.firstAttempt && free + transparent + counted == 0)
            && (transparent == 1 ==> s.firstAttempt) && free + transparent + counted <= 1
            && !Holder(s).Creating? && (Holder(s').Creating? <==> free + transparent + counted == 1)
  {
    JudgeExactly(cfg, s, t, e);
    JudgeMoves(cfg, s, t, e);
    var s' := After(cfg, s, Judge(t, e));
    hide After, ShouldRetry, Opening, Logged, Delivery, Books, Budget, InOrder, Roles, WellFormed;
    assert s.lockedBy == t;
  }

  lemma OthersAccounted(cfg: Config, s: State, a: Action)
    requires Inv(cfg, s) && Enabled(cfg, s, a) && !a.Judge? && Inv(cfg, After(cfg, s, a))
    ensures var s' := After(cfg, s, a);
            && s'.numRetries == s.numRetries && s'.waits == s.waits && s'.firstAttempt == s.firstAttempt
            && s'.created + (if Holder(s').Creating? then 1 else 0)
               == s.created + (if Holder(s).Creating? then 1 else 0)
  {
    OthersUnretried(cfg, s, a);
    hide Opening, Logged, Delivery, Books, Budget, InOrder, Roles, WellFormed, After, Enabled, Active;
  }

  // ---------------------------------------------------------------------------------------------
  // Commitment and the buffer

  /** What makes a stream committed: the application asks for it or is done with it, an operation has
      failed for good, an answer has been seen, or the buffer would hold too much. */
  predicate Commits(cfg: Config, s: State, a: Action) {
    || a.CommitNow? || a.FinishNow? || a.Quit?
    || (a.Judge? && AtVerdict(s, a.t) && !Retried(cfg, s, a.t, a.evidence))
    || (&& a.Settle? && a.t < |s.threads| && s.threads[a.t].Checking? && s.threads[a.t].on == |s.attempts| - 1
        && Settled(s, a.t, a.statusOk) && Binds(cfg, s, s.threads[a.t].op))
  }

  lemma StepCommits(cfg: Config, s: State, a: Action)
    requires Inv(cfg, s) && Enabled(cfg, s, a)
    ensures After(cfg, s, a).committed <==> s.committed || Commits(cfg, s, a)
  {
    hide Retried, Settled, Binds, Opening, Delivery, Books, Budget, InOrder, Roles, Locking;
    if a.Judge? {
      JudgeExactly(cfg, s, a.t, a.evidence);
      hide After;
    } else if a.Settle? {
      SettleExactly(cfg, s, a.t, a.statusOk);
      hide After;
    } else {
      OthersBind(cfg, s, a);
      hide After, Enabled, WellFormed;
    }
  }

  /** The other actions leave the buffer alone, unless they commit. */
  lemma OthersBind(cfg: Config, s: State, a: Action)
    requires WellFormed(s) && Roles(s) && Logged(s) && Enabled(cfg, s, a) && !a.Judge? && !a.Settle?
    ensures var s' := After(cfg, s, a);
            && s'.committed == (s.committed || a.CommitNow? || a.FinishNow? || a.Quit?)
            && (!s'.committed ==> s'.acked == s.acked && s'.bufferSize == s.bufferSize)
  {
    hide Ran, CanResult, WellFormed, Panics;
    if a.Execute? {
      ExecuteBinds(cfg, s, a.t, a.outcome);
      hide After;
    } else if a.Create? || a.Replay? {
      hide FinishLocked, CommitLocked;
    } else {
      hide Refused;
    }
  }

  lemma ExecuteBinds(cfg: Config, s: State, t: nat, outcome: Outcome)
    requires WellFormed(s) && Roles(s) && Enabled(cfg, s, Execute(t, outcome))
    ensures var s' := After(cfg, s, Execute(t, outcome));
            s'.committed == s.committed && (!s.committed ==> s'.acked == s.acked && s'.bufferSize == s.bufferSize)
  {
    hide Ran, CanResult, Panics;
    assert s.threads[t].RunningCommitted? ==> Active(s.threads[t]);
  }

  /** In every run the stream is committed exactly if one of these has happened. */
  lemma {:induction false} CommittedExactly(cfg: Config, receivers: nat, run: seq<State>, actions: seq<Action>, n: nat)
    requires IsRun(cfg, receivers, run, actions) && n <= |actions|
    ensures run[n].committed <==> exists i | 0 <= i < n :: Commits(cfg, run[i], actions[i])
  {
    hide Commits, After, Enabled, Inv, Streamed;
    if n == 0 {
    } else {
      CommittedExactly(cfg, receivers, run, actions, n - 1);
      RunKeeps(cfg, receivers, run, actions, n - 1);
      assert Step(cfg, run[n - 1], actions[n - 1], run[n]);
      StepCommits(cfg, run[n - 1], actions[n - 1]);
    }
  }

  function TotalBytes(ops: seq<Op>): nat {
    if ops == [] then 0 else TotalBytes(ops[..|ops| - 1]) + BytesOf(ops[|ops| - 1])
  }

  /** What would have to be replayed is counted, and fits. */
  predicate Fits(cfg: Config, s: State) {
    !s.committed ==> s.bufferSize == TotalBytes(s.acked) && (s.acked != [] ==> s.bufferSize <= cfg.bufferLimit)
  }

  lemma SettleFits(cfg: Config, s: State, t: nat, statusOk: bool)
    requires WellFormed(s) && Enabled(cfg, s, Settle(t, statusOk)) && Fits(cfg, s)
    ensures Fits(cfg, After(cfg, s, Settle(t, statusOk)))
  {
    var p := s.threads[t];
    SettleExactly(cfg, s, t, statusOk);
    SettleSize(cfg, s, t, statusOk);
    hide After, Enabled, WellFormed, Settled;
    assert (s.acked + [p.op])[..|s.acked|] == s.acked;
  }

  lemma SettleSize(cfg: Config, s: State, t: nat, statusOk: bool)
    requires WellFormed(s) && Enabled(cfg, s, Settle(t, statusOk))
    ensures var (s', p) := (After(cfg, s, Settle(t, statusOk)), s.threads[t]);
            !s.committed && !s'.committed ==>
              s'.bufferSize
              == s.bufferSize + if p.on == |s.attempts| - 1 && Settled(s, t, statusOk) then BytesOf(p.op) else 0
  {
    var p := s.threads[t];
    hide Enabled, WellFormed;
    if p.on == Cur(s) && Settled(s, t, statusOk) {
      if !p.op.Receive? { BufferExactly(cfg, s, p.op); }
      hide Settled, BufferLocked;
    }
  }

  lemma StepFits(cfg: Config, s: State, a: Action)
    requires Inv(cfg, s) && Enabled(cfg, s, a) && Fits(cfg, s)
    ensures Fits(cfg, After(cfg, s, a))
  {
    hide Opening, Delivery, Books, Budget, InOrder, Locking, TotalBytes;
    if a.Judge? {
      JudgeExactly(cfg, s, a.t, a.evidence);
      hide After, Retried;
    } else if a.Settle? {
      SettleFits(cfg, s, a.t, a.statusOk);
      hide After;
    } else {
      OthersBind(cfg, s, a);
      hide After, Enabled, WellFormed;
    }
  }

  /** In every run, as long as the stream is not committed, what has completed fits into the buffer. */
  lemma {:induction false} BufferFits(cfg: Config, receivers: nat, run: seq<State>, actions: seq<Action>, n: nat)
    requires IsRun(cfg, receivers, run, actions) && n <= |actions|
    ensures Fits(cfg, run[n])
  {
    hide Fits, After, Enabled, Inv, Streamed;
    if n == 0 {
      FirstFits(cfg, receivers);
    } else {
      BufferFits(cfg, receivers, run, actions, n - 1);
      RunKeeps(cfg, receivers, run, actions, n - 1);
      assert Step(cfg, run[n - 1], actions[n - 1], run[n]);
      StepFits(cfg, run[n - 1], actions[n - 1]);
    }
  }

  lemma FirstFits(cfg: Config, receivers: nat)
    ensures Fits(cfg, Initial(receivers))
  {}
}
