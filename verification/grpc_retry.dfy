/**
 The retry protocol of a client stream: one sender, any number of receivers, and a current attempt
 that any of them may replace.

 Threads run operations on an attempt without the lock, so the attempt may be replaced meanwhile.
 Every action below is what one thread does between two points at which others may interfere; the
 loop of `retryLocked` is split into its steps because operations on older attempts go on while the
 lock is held.  What the transport, the server and the clock answer is part of the action.
 */
module GrpcRetry {
  import opened Options

  /** What threads hand to `withRetry`. */
  datatype Op = NewStream | Send(id: int, size: nat) | CloseSend | Receive

  /** A result of an operation: nil, io.EOF, or another error. */
  datatype Outcome = Fine | Ended | Broken(performedIo: bool)

  datatype Config = Config(
    failFast: bool, disableRetry: bool, maxAttempts: Option<nat>, bufferLimit: int, clientStreams: bool)

  /** One attempt.  `alive` says that no write on it has been refused, `delivered` lists the writes
      that its transport has taken, `doneCalls` counts the runs of the balancer's callback. */
  datatype Attempt = Attempt(hasStream: bool, alive: bool, finished: bool, doneCalls: nat, delivered: seq<Op>)

  datatype Phase =
    | Idle
    | Start(op: Op)
    | Running(op: Op, on: nat)
    | RunningCommitted(op: Op)
    | Checking(op: Op, on: nat, outcome: Outcome)
    | Retrying(op: Op, outcome: Outcome)
    | Creating(op: Op)
    | Replaying(op: Op, k: nat)
    | Failed

  /** Thread 0 is the sender, the others receive.  `acked` lists the operations that have completed,
      `begun` those that the application has asked for, `waits` counts the retries that are free. */
  datatype State = State(
    threads: seq<Phase>, lockedBy: int, attempts: seq<Attempt>, buffer: seq<Op>, bufferSize: nat,
    committed: bool, finished: bool, firstAttempt: bool, numRetries: nat,
    ready: bool, commits: nat, created: nat, waits: nat, acked: seq<Op>, begun: seq<Op>, sendFailed: bool)

  datatype Pushback = NoPushback | Delay | Abort | Several

  /** What `shouldRetry` finds out about the finished attempt. */
  datatype Evidence = Evidence(
    unprocessed: bool, trailersOnly: bool, pushback: Pushback, retryable: bool, throttled: bool, cancelled: bool)

  datatype Verdict = GiveUp | Transparent | Counted | Wait

  datatype Action =
    | Begin(t: nat, op: Op)
    | Enter(t: nat)
    | Execute(t: nat, outcome: Outcome)
    | Settle(t: nat, statusOk: bool)
    | Judge(t: nat, evidence: Evidence)
    | Create(t: nat, found: bool)
    | Replay(t: nat, outcome: Outcome)
    | Quit(t: nat)
    | Die(i: nat)
    | CommitNow
    | FinishNow

  function Initial(receivers: nat): State {
    State([Creating(NewStream)] + seq(receivers, i => Idle), 0, [], [], 0, false, false, true, 0,
          false, 0, 0, 0, [], [NewStream], false)
  }

  function Cur(s: State): int {
    |s.attempts| - 1
  }

  predicate Active(p: Phase) {
    !p.Idle? && !p.Failed?
  }

  predicate HoldsLock(p: Phase) {
    p.Retrying? || p.Creating? || p.Replaying?
  }

  // ---------------------------------------------------------------------------------------------
  // Single operations

  /** A write error is reported as success by a half-close and by unary requests. */
  predicate Silent(cfg: Config, op: Op) {
    op.CloseSend? || (op.Send? && !cfg.clientStreams)
  }

  predicate Takes(a: Attempt, op: Op) {
    a.alive && (a.hasStream || op.NewStream?)
  }

  predicate CanResult(cfg: Config, a: Attempt, op: Op, outcome: Outcome) {
    match op
    case Receive => true
    case NewStream => !outcome.Ended?
    case Send(_, _) =>
      !outcome.Broken? && (outcome.Fine? ==> Takes(a, op) || Silent(cfg, op)) && (!cfg.clientStreams ==> outcome.Fine?)
    case CloseSend => outcome.Fine?
  }

  /** The attempt after an operation has run on it. */
  function Ran(a: Attempt, op: Op, outcome: Outcome): Attempt {
    if op.Receive? then a
    else if outcome.Fine? && Takes(a, op) then a.(hasStream := true, delivered := a.delivered + [op])
    else a.(alive := false)
  }

  /** `csAttempt.finish`. */
  function FinishedOnce(a: Attempt): Attempt {
    if a.finished then a else a.(finished := true, doneCalls := a.doneCalls + 1)
  }

  function CommitLocked(s: State): State {
    s.(committed := true, buffer := [], commits := if s.committed then s.commits else s.commits + 1)
  }

  function SizeOf(op: Op): nat {
    if op.Send? then op.size else 0
  }

  function BufferLocked(cfg: Config, s: State, op: Op): State {
    if s.committed then s
    else
      var size := s.bufferSize + SizeOf(op);
      var larger := s.(bufferSize := size);
      if size > cfg.bufferLimit then CommitLocked(larger) else larger.(buffer := s.buffer + [op])
  }

  function ShouldRetry(cfg: Config, s: State, outcome: Outcome, e: Evidence): Verdict
    requires s.attempts != []
  {
    var a := s.attempts[Cur(s)];
    var performedIo := outcome.Broken? && outcome.performedIo;
    if !a.hasStream && !performedIo && !cfg.failFast then Wait
    else if s.finished || s.committed then GiveUp
    else if s.firstAttempt && (if a.hasStream then e.unprocessed else !performedIo) then Transparent
    else if cfg.disableRetry then GiveUp
    else if a.hasStream && (!e.trailersOnly || e.pushback.Abort? || e.pushback.Several?) then GiveUp
    else if cfg.maxAttempts.None? || !e.retryable then GiveUp
    else if e.throttled then GiveUp
    else if s.numRetries + 1 >= cfg.maxAttempts.value then GiveUp
    else if e.cancelled then GiveUp
    else Counted
  }

  function FinishLocked(s: State): State {
    if s.finished then s
    else
      var c := CommitLocked(s.(finished := true));
      if c.attempts == [] then c else Closed(c)
  }

  function At(s: State, t: nat, p: Phase): State
    requires t < |s.threads|
  {
    s.(threads := s.threads[t := p])
  }

  /** The operation is over, for better; the sender's operations are counted as completed. */
  function Completed(s: State, t: nat, op: Op): State
    requires t < |s.threads|
  {
    At(s.(acked := if op.Receive? then s.acked else s.acked + [op], ready := s.ready || op.NewStream?), t, Idle)
  }

  /** The operation is over, for worse.  Only io.EOF from a send leaves the stream to the receiver. */
  function Refused(s: State, t: nat, op: Op, outcome: Outcome): State
    requires t < |s.threads|
  {
    At(s.(sendFailed := s.sendFailed || !op.Receive?), t, if op.Send? && outcome.Ended? then Idle else Failed)
  }

  // ---------------------------------------------------------------------------------------------
  // Actions

  predicate WellFormed(s: State) {
    && s.threads != []
    && forall t | 0 <= t < |s.threads| ::
         var p := s.threads[t];
         && ((p.Running? || p.Checking?) ==> p.on < |s.attempts|)
         && ((p.Start? || p.RunningCommitted? || p.Retrying? || p.Replaying?) ==> s.attempts != [])
         && (p.Replaying? ==> p.k <= |s.buffer|)
  }

  /** The thread is inside an operation that dereferences the nil stream of its attempt; it takes
      no further step. */
  predicate Panics(s: State, t: nat) {
    && t < |s.threads| && (s.threads[t].Running? || s.threads[t].RunningCommitted?) && !s.threads[t].op.NewStream?
    && var on := if s.threads[t].Running? then s.threads[t].on else Cur(s);
       0 <= on < |s.attempts| && !s.attempts[on].hasStream
  }

  predicate Enabled(cfg: Config, s: State, a: Action)
    requires WellFormed(s)
  {
    match a
    case Begin(t, op) =>
      && t < |s.threads| && s.threads[t].Idle? && s.ready
      && (if t == 0 then op.Send? || op.CloseSend? else op.Receive?)
    case Enter(t) => t < |s.threads| && s.threads[t].Start? && s.lockedBy == -1
    case Execute(t, outcome) =>
      && t < |s.threads| && !Panics(s, t)
      && (|| (s.threads[t].Running? && CanResult(cfg, s.attempts[s.threads[t].on], s.threads[t].op, outcome))
          || (s.threads[t].RunningCommitted? && CanResult(cfg, s.attempts[Cur(s)], s.threads[t].op, outcome)))
    case Settle(t, _) => t < |s.threads| && s.threads[t].Checking? && s.lockedBy == -1
    case Judge(t, _) => t < |s.threads| && s.threads[t].Retrying?
    case Create(t, _) => t < |s.threads| && s.threads[t].Creating?
    case Replay(t, outcome) =>
      && t < |s.threads| && s.threads[t].Replaying?
      && (s.threads[t].k < |s.buffer| ==> CanResult(cfg, s.attempts[Cur(s)], s.buffer[s.threads[t].k], outcome))
    case Quit(t) => t < |s.threads| && s.threads[t].Failed? && s.lockedBy == -1
    case Die(i) => i < |s.attempts| && s.attempts[i].hasStream
    case CommitNow => s.ready && s.lockedBy == -1
    case FinishNow => s.ready && s.lockedBy == -1
  }

  function DoExecute(s: State, t: nat, outcome: Outcome): State
    requires WellFormed(s) && t < |s.threads| && (s.threads[t].Running? || s.threads[t].RunningCommitted?)
  {
    var p := s.threads[t];
    if p.Running? then
      At(s.(attempts := s.attempts[p.on := Ran(s.attempts[p.on], p.op, outcome)]), t, Checking(p.op, p.on, outcome))
    else
      var r := s.(attempts := s.attempts[Cur(s) := Ran(s.attempts[Cur(s)], p.op, outcome)]);
      if outcome.Fine? then Completed(r, t, p.op) else Refused(r, t, p.op, outcome)
  }

  predicate Succeeds(outcome: Outcome, statusOk: bool) {
    outcome.Fine? || (outcome.Ended? && statusOk)
  }

  function DoSettle(cfg: Config, s: State, t: nat, statusOk: bool): State
    requires WellFormed(s) && t < |s.threads| && s.threads[t].Checking?
  {
    var p := s.threads[t];
    if p.on != Cur(s) then At(s, t, Start(p.op))
    else if Succeeds(p.outcome, statusOk) then
      Completed(if p.op.Receive? then CommitLocked(s) else BufferLocked(cfg, s, p.op), t, p.op)
    else At(s.(lockedBy := t), t, Retrying(p.op, p.outcome))
  }

  /** The current attempt is finished before anything is decided about it. */
  function Closed(s: State): State
    requires s.attempts != []
  {
    s.(attempts := s.attempts[Cur(s) := FinishedOnce(s.attempts[Cur(s)])])
  }

  /** The thread goes on to create an attempt. */
  function Resolved(f: State, t: nat, v: Verdict): State
    requires t < |f.threads| && f.threads[t].Retrying?
  {
    At(f.(firstAttempt := false,
          numRetries := if v.Counted? then f.numRetries + 1 else f.numRetries,
          waits := if v.Wait? then f.waits + 1 else f.waits), t, Creating(f.threads[t].op))
  }

  function DoJudge(cfg: Config, s: State, t: nat, e: Evidence): State
    requires WellFormed(s) && t < |s.threads| && s.threads[t].Retrying?
  {
    var p := s.threads[t];
    var f := Closed(s);
    var v := ShouldRetry(cfg, f, p.outcome, e);
    if v.GiveUp? then Refused(CommitLocked(f).(lockedBy := -1), t, p.op, p.outcome)
    else Resolved(f, t, v)
  }

  function DoCreate(s: State, t: nat, found: bool): State
    requires WellFormed(s) && t < |s.threads| && s.threads[t].Creating?
  {
    var op := s.threads[t].op;
    var c := s.(created := s.created + 1);
    if found then At(c.(attempts := s.attempts + [Attempt(false, true, false, 0, [])]), t, Replaying(op, 0))
    else Refused(c.(lockedBy := -1), t, op, Broken(false))
  }

  function DoReplay(s: State, t: nat, outcome: Outcome): State
    requires WellFormed(s) && t < |s.threads| && s.threads[t].Replaying?
  {
    var p := s.threads[t];
    if p.k == |s.buffer| then At(s.(lockedBy := -1), t, Start(p.op))
    else
      var r := s.(attempts := s.attempts[Cur(s) := Ran(s.attempts[Cur(s)], s.buffer[p.k], outcome)]);
      At(r, t, if outcome.Fine? then Replaying(p.op, p.k + 1) else Retrying(p.op, outcome))
  }

  function After(cfg: Config, s: State, a: Action): State
    requires WellFormed(s) && Enabled(cfg, s, a)
  {
    match a
    case Begin(t, op) => At(s.(begun := if op.Receive? then s.begun else s.begun + [op]), t, Start(op))
    case Enter(t) =>
      var op := s.threads[t].op;
      At(s, t, if s.committed then RunningCommitted(op) else Running(op, Cur(s)))
    case Execute(t, outcome) => DoExecute(s, t, outcome)
    case Settle(t, statusOk) => DoSettle(cfg, s, t, statusOk)
    case Judge(t, e) => DoJudge(cfg, s, t, e)
    case Create(t, found) => DoCreate(s, t, found)
    case Replay(t, outcome) => DoReplay(s, t, outcome)
    case Quit(t) => At(FinishLocked(s), t, Idle)
    case Die(i) => s.(attempts := s.attempts[i := s.attempts[i].(alive := false)])
    case CommitNow => CommitLocked(s)
    case FinishNow => FinishLocked(s)
  }

  predicate Step(cfg: Config, s: State, a: Action, s': State) {
    WellFormed(s) && Enabled(cfg, s, a) && s' == After(cfg, s, a)
  }

  // ---------------------------------------------------------------------------------------------
  // What every action keeps

  /** The phase of the thread that has the lock. */
  function Holder(s: State): Phase {
    if 0 <= s.lockedBy < |s.threads| then s.threads[s.lockedBy] else Idle
  }

  /** Each thread keeps to its own operations, and skips the check only on a committed attempt. */
  predicate Roles(s: State) {
    forall t | 0 <= t < |s.threads| && Active(s.threads[t]) ::
      (s.threads[t].op.Receive? <==> t != 0) && (s.threads[t].RunningCommitted? ==> s.committed)
  }

  predicate Locking(s: State) {
    && -1 <= s.lockedBy < |s.threads|
    && forall t | 0 <= t < |s.threads| :: HoldsLock(s.threads[t]) <==> s.lockedBy == t
  }

  /** Until the stream is ready the sender is alone. */
  predicate Opening(s: State)
    requires s.threads != []
  {
    var p := s.threads[0];
    if s.ready then
      s.attempts != [] && s.acked != [] && s.acked[0].NewStream? && (Active(p) ==> !p.op.NewStream?)
    else
      && s.acked == [] && s.buffer == []
      && (forall t | 0 < t < |s.threads| :: s.threads[t].Idle?)
      && (Active(p) ==> p.op.NewStream? && !s.committed)
      && (p.Running? || p.Checking? ==> p.on == Cur(s))
      && forall i | 0 <= i < |s.attempts| && s.attempts[i].hasStream :: p.Checking? && p.outcome.Fine? && i == Cur(s)
  }

  /** The buffer holds what has completed, for as long as it may be needed; `onCommit` runs once. */
  predicate Logged(s: State) {
    && s.buffer == (if s.committed then [] else s.acked)
    && s.commits == (if s.committed then 1 else 0)
    && (s.finished ==> s.committed)
    && Writes(s.acked)
  }

  predicate Writes(ops: seq<Op>) {
    forall i | 0 <= i < |ops| :: !ops[i].Receive?
  }

  /** What the sender has done on the current attempt but not yet reported. */
  function Pending(s: State): seq<Op> {
    if s.threads == [] then []
    else
      var p := s.threads[0];
      if p.Checking? && p.outcome.Fine? && p.on == Cur(s) then [p.op] else []
  }

  predicate Delivered(s: State, c: Attempt) {
    if Holder(s).Replaying? && Holder(s).k <= |s.buffer| then
      && c.delivered <= s.buffer[..Holder(s).k]
      && (c.alive ==> c.delivered == s.buffer[..Holder(s).k])
    else
      && c.delivered <= s.acked + Pending(s)
      && (c.alive && c.hasStream ==> c.delivered == s.acked + Pending(s))
  }

  predicate Delivery(s: State)
    requires s.threads != []
  {
    && (forall i | 0 <= i < |s.attempts| :: s.attempts[i].hasStream <==> s.attempts[i].delivered != [])
    && (s.attempts != [] ==> Delivered(s, s.attempts[Cur(s)]))
    && (Holder(s).Replaying? && (s.threads[0].Running? || s.threads[0].Checking?) ==> s.threads[0].on < Cur(s))
    && (s.threads[0].Checking? && s.threads[0].on < |s.attempts| && !s.threads[0].outcome.Fine? ==>
          !s.attempts[s.threads[0].on].alive)
  }

  /** `done` has run for each attempt that is finished; all but the current one are. */
  predicate Books(s: State) {
    && (forall i | 0 <= i < |s.attempts| :: s.attempts[i].doneCalls == if s.attempts[i].finished then 1 else 0)
    && (forall i | 0 <= i < Cur(s) :: s.attempts[i].finished)
    && (s.attempts != [] && Holder(s).Creating? ==> s.attempts[Cur(s)].finished)
  }

  /** Where the current attempt has its stream, for the thread that has the lock. */
  predicate HolderStreamed(s: State, c: Attempt) {
    var h := Holder(s);
    && (h.Retrying? && !c.hasStream ==> h.outcome.Broken? && !s.committed)
    && (h.Replaying? ==> if h.k == 0 then c.alive && !c.hasStream else c.hasStream)
  }

  /** An operation that has come back had a stream to run on, unless it was to open one; a new
      attempt is made only before commitment, so the last attempt of a finished RPC is finished. */
  predicate Streamed(s: State) {
    && (forall t | 0 <= t < |s.threads| && s.threads[t].Checking? && s.threads[t].on < |s.attempts| ::
          !s.threads[t].op.NewStream? || !s.threads[t].outcome.Broken? ==> s.attempts[s.threads[t].on].hasStream)
    && (Holder(s).Creating? || Holder(s).Replaying? ==> !s.committed)
    && (s.attempts != [] ==>
          var c := s.attempts[Cur(s)];
          && HolderStreamed(s, c) && (s.finished ==> c.finished)
          && (!s.ready && s.threads != [] && (s.threads[0].Start? || s.threads[0].Running?) ==>
                c.alive && !c.hasStream))
  }

  function MaxRetries(cfg: Config): nat {
    if cfg.maxAttempts.Some? && cfg.maxAttempts.value > 0 then cfg.maxAttempts.value - 1 else 0
  }

  predicate Budget(cfg: Config, s: State) {
    && s.numRetries <= MaxRetries(cfg)
    && (cfg.failFast ==> s.waits == 0)
    && |s.attempts| <= s.created
    && s.created + (if Holder(s).Creating? then 1 else 0)
       <= 1 + s.numRetries + s.waits + (if s.firstAttempt then 0 else 1)
  }

  function InFlight(p: Phase): seq<Op> {
    if Active(p) then [p.op] else []
  }

  /** While the application has seen no error, what it asked for is done or being done, in order. */
  predicate InOrder(s: State)
    requires s.threads != []
  {
    !s.sendFailed ==> s.begun == s.acked + InFlight(s.threads[0])
  }

  ghost predicate Inv(cfg: Config, s: State) {
    && WellFormed(s) && Roles(s) && Locking(s) && Opening(s) && Logged(s)
    && Delivery(s) && Books(s) && Budget(cfg, s) && InOrder(s)
  }

  lemma InitialHolds(cfg: Config, receivers: nat)
    ensures Inv(cfg, Initial(receivers)) && Streamed(Initial(receivers))
  {}

  /** What a thread may be doing in a state, apart from the lock. */
  predicate Sound(s: State, t: nat, p: Phase) {
    && ((p.Running? || p.Checking?) ==> p.on < |s.attempts|)
    && ((p.Start? || p.RunningCommitted? || p.Retrying? || p.Replaying?) ==> s.attempts != [])
    && (p.Replaying? ==> p.k <= |s.buffer|)
    && (Active(p) ==> (p.op.Receive? <==> t != 0))
    && (p.RunningCommitted? ==> s.committed)
  }

  /** One thread moves on. */
  lemma Moves(s: State, s': State, t: nat, p: Phase)
    requires WellFormed(s) && Roles(s) && Locking(s)
    requires t < |s.threads| && s'.threads == s.threads[t := p] && Sound(s', t, p)
    requires |s.attempts| <= |s'.attempts| && (s.committed ==> s'.committed)
    requires |s.buffer| <= |s'.buffer| || s.lockedBy == -1 || s.lockedBy == t
    requires LockMoves(s, s', t, p)
    ensures WellFormed(s') && Roles(s') && Locking(s')
    ensures Holder(s') == if s.lockedBy == -1 || s.lockedBy == t then if HoldsLock(p) then p else Idle else Holder(s)
  {
    forall u | 0 <= u < |s'.threads| ensures Sound(s', u, s'.threads[u]) {
      if u != t { assert s'.threads[u] == s.threads[u]; }
    }
  }

  /** Nothing but the place of a thread, the lock and the counters changes. */
  predicate Quietly(s: State, s': State, t: nat, p: Phase) {
    && t < |s.threads|
    && s' == s.(threads := s.threads[t := p], lockedBy := s'.lockedBy, firstAttempt := s'.firstAttempt,
                numRetries := s'.numRetries, created := s'.created, waits := s'.waits, begun := s'.begun,
                sendFailed := s'.sendFailed)
  }

  /** Where a thread may go quietly. */
  predicate MayGo(s: State, t: nat, p: Phase) {
    && t < |s.threads| && !s.threads[t].Replaying? && !p.Replaying?
    && (p.Creating? ==> s.attempts != [] && s.attempts[Cur(s)].finished)
    && (if t > 0 then s.ready
        else
          && Pending(s) == [] && !p.Checking? && (p.Running? ==> p.on == Cur(s) && s.lockedBy == -1)
          && (Active(p) ==> if s.ready then !p.op.NewStream? else p.op.NewStream? && !s.committed))
  }

  /** How the lock goes with a thread's move. */
  predicate LockMoves(s: State, s': State, t: nat, p: Phase) {
    if s.lockedBy == -1 || s.lockedBy == t then s'.lockedBy == if HoldsLock(p) then t else -1
    else s'.lockedBy == s.lockedBy && !HoldsLock(p)
  }

  lemma QuietOpening(s: State, s': State, t: nat, p: Phase)
    requires s.threads != [] && Opening(s) && Quietly(s, s', t, p) && MayGo(s, t, p)
    requires !s.ready && s.threads[0].Checking? && s.threads[0].on == Cur(s) ==> !s.threads[0].outcome.Fine?
    ensures Opening(s')
  {
    assert t == 0 && !s.ready ==> forall i | 0 <= i < |s.attempts| :: !s.attempts[i].hasStream;
  }

  lemma QuietBooks(s: State, s': State, t: nat, p: Phase)
    requires Books(s) && Quietly(s, s', t, p) && MayGo(s, t, p)
    requires Holder(s').Creating? ==> Holder(s).Creating? || p.Creating?
    ensures Books(s')
  {}

  lemma QuietDelivery(s: State, s': State, t: nat, p: Phase)
    requires s.threads != [] && Delivery(s) && Quietly(s, s', t, p) && MayGo(s, t, p)
    requires Holder(s').Replaying? || Holder(s).Replaying? ==> Holder(s') == Holder(s)
    ensures Delivery(s')
  {
    assert Pending(s') == Pending(s);
  }

  lemma QuietKept(cfg: Config, s: State, s': State, t: nat, p: Phase)
    requires Inv(cfg, s) && Quietly(s, s', t, p) && MayGo(s, t, p) && Sound(s', t, p) && LockMoves(s, s', t, p)
    requires Budget(cfg, s') && InOrder(s')
    ensures Inv(cfg, s')
  {
    Moves(s, s', t, p);
    assert s.lockedBy == t ==> Holder(s) == s.threads[t];
    assert s.lockedBy == -1 ==> Holder(s) == Idle;
    hide WellFormed, Roles, Locking, Delivery, Books, Budget, InOrder;
    QuietBooks(s, s', t, p);
    QuietDelivery(s, s', t, p);
    QuietOpening(s, s', t, p);
    hide Opening;
  }

  lemma BeginStep(cfg: Config, s: State, t: nat, op: Op)
    requires Inv(cfg, s) && Enabled(cfg, s, Begin(t, op))
    ensures After(cfg, s, Begin(t, op))
         == s.(threads := s.threads[t := Start(op)], begun := if t == 0 then s.begun + [op] else s.begun)
  {
    hide Opening, Logged, Delivery, Books, Budget, InOrder, Locking, Roles;
  }

  lemma BeginKept(cfg: Config, s: State, t: nat, op: Op)
    requires Inv(cfg, s) && Enabled(cfg, s, Begin(t, op))
    ensures Inv(cfg, After(cfg, s, Begin(t, op)))
  {
    BeginStep(cfg, s, t, op);
    Places(cfg, s, t);
    hide After, Opening, Logged, Delivery, Books, Locking;
    QuietKept(cfg, s, After(cfg, s, Begin(t, op)), t, Start(op));
  }

  /** What is known about where a thread is. */
  lemma Places(cfg: Config, s: State, t: nat)
    requires Inv(cfg, s) && t < |s.threads|
    ensures var p := s.threads[t];
            && (s.ready ==> s.attempts != [])
            && (t > 0 && !p.Idle? ==> s.ready)
            && (Active(p) ==> (p.op.Receive? <==> t != 0) && (p.RunningCommitted? ==> s.committed))
            && (t == 0 && Active(p) ==> if s.ready then !p.op.NewStream? else p.op.NewStream? && !s.committed)
            && (HoldsLock(p) <==> s.lockedBy == t)
  {
    hide Delivery, Books, Budget, InOrder, Logged;
  }

  lemma InPlace(s: State, t: nat)
    requires WellFormed(s) && t < |s.threads|
    ensures var p := s.threads[t];
            && (p.Running? ==> p.on < |s.attempts|)
            && (p.RunningCommitted? || p.Retrying? || p.Replaying? ==> s.attempts != [])
            && (p.Replaying? ==> p.k <= |s.buffer|)
  {}

  lemma HolderHas(s: State, t: nat)
    requires Locking(s) && t < |s.threads| && HoldsLock(s.threads[t])
    ensures s.lockedBy == t
  {}

  /** Committing and buffering leave threads and attempts alone. */
  lemma OnlyLogged(cfg: Config, s: State, op: Op)
    ensures var c, b := CommitLocked(s), BufferLocked(cfg, s, op);
            && c.threads == b.threads == s.threads && c.attempts == b.attempts == s.attempts
            && c.created == b.created == s.created
  {}

  lemma RefusedSame(c: State, t: nat, op: Op, outcome: Outcome)
    requires t < |c.threads|
    ensures var r := Refused(c, t, op, outcome);
            && r.threads == c.threads[t := r.threads[t]] && !Active(r.threads[t])
            && r.attempts == c.attempts && r.created == c.created
  {}

  lemma ResolvedSame(f: State, t: nat, v: Verdict)
    requires t < |f.threads| && f.threads[t].Retrying?
    ensures var r := Resolved(f, t, v);
            && r.threads == f.threads[t := r.threads[t]] && r.threads[t].Creating?
            && r.attempts == f.attempts && r.created == f.created
  {}

  lemma ClosedSame(s: State)
    requires s.attempts != []
    ensures Closed(s).threads == s.threads && |Closed(s).attempts| == |s.attempts| && Closed(s).created == s.created
  {}

  /** Giving up: the error goes to the caller, and the attempt is committed. */
  lemma SurrenderedKept(cfg: Config, f: State, t: nat, p: Phase)
    requires Inv(cfg, f) && t < |f.threads| && f.threads[t].Retrying? && !Active(p)
    ensures Inv(cfg, CommitLocked(At(f.(lockedBy := -1, sendFailed := f.sendFailed || t == 0), t, p)))
  {
    Places(cfg, f, t);
    var g := At(f.(lockedBy := -1, sendFailed := f.sendFailed || t == 0), t, p);
    assert g.ready || !Active(g.threads[0]);
    hide Opening, Logged, Delivery, Books, Locking, Roles, WellFormed;
    QuietKept(cfg, f, g, t, p);
    CommitKept(cfg, g);
  }

  lemma SurrenderKept(cfg: Config, s: State, t: nat, e: Evidence)
    requires Inv(cfg, s) && Enabled(cfg, s, Judge(t, e))
      && ShouldRetry(cfg, Closed(s), s.threads[t].outcome, e).GiveUp?
    ensures Inv(cfg, After(cfg, s, Judge(t, e)))
  {
    Places(cfg, s, t);
    CloseKept(cfg, s);
    var f, p, s' := Closed(s), s.threads[t], After(cfg, s, Judge(t, e));
    hide Opening, Logged, Delivery, Books, Budget, InOrder, Locking, Roles, WellFormed, ShouldRetry;
    SurrenderedKept(cfg, f, t, s'.threads[t]);
    assert s' == CommitLocked(At(f.(lockedBy := -1, sendFailed := f.sendFailed || t == 0), t, s'.threads[t]));
  }

  lemma ResolvedKept(cfg: Config, f: State, t: nat, e: Evidence)
    requires Inv(cfg, f) && t < |f.threads| && f.threads[t].Retrying? && f.attempts != [] && f.attempts[Cur(f)].finished
    requires !ShouldRetry(cfg, f, f.threads[t].outcome, e).GiveUp?
    ensures Inv(cfg, Resolved(f, t, ShouldRetry(cfg, f, f.threads[t].outcome, e)))
  {
    var v := ShouldRetry(cfg, f, f.threads[t].outcome, e);
    VerdictMeans(cfg, f, f.threads[t].outcome, e);
    Places(cfg, f, t);
    hide ShouldRetry, Opening, Logged, Delivery, Books, Locking, WellFormed, Roles;
    QuietKept(cfg, f, Resolved(f, t, v), t, Creating(f.threads[t].op));
  }

  /** A retry is free only without a stream, and otherwise uses up the first attempt or a retry. */
  lemma VerdictMeans(cfg: Config, f: State, outcome: Outcome, e: Evidence)
    requires f.attempts != []
    ensures var v := ShouldRetry(cfg, f, outcome, e);
            && (v.Wait? ==> !f.attempts[Cur(f)].hasStream && !cfg.failFast)
            && (v.Transparent? ==> f.firstAttempt && !f.committed)
            && (v.Counted? ==> f.numRetries < MaxRetries(cfg) && !f.committed)
  {}

  lemma JudgeKept(cfg: Config, s: State, t: nat, e: Evidence)
    requires Inv(cfg, s) && Enabled(cfg, s, Judge(t, e))
      && !ShouldRetry(cfg, Closed(s), s.threads[t].outcome, e).GiveUp?
    ensures Inv(cfg, After(cfg, s, Judge(t, e)))
  {
    CloseKept(cfg, s);
    var f := Closed(s);
    assert f.attempts[Cur(f)].finished;
    hide Opening, Logged, Delivery, Books, Budget, InOrder, Locking, Roles, WellFormed, ShouldRetry;
    ResolvedKept(cfg, f, t, e);
  }

  lemma ReplayedDelivers(s: State, t: nat, s': State)
    requires s.threads != [] && Delivery(s) && Holder(s).Replaying? && Holder(s).k == |s.buffer| && s.buffer <= s.acked
    requires s.attempts != [] && (s.attempts[Cur(s)].alive && s.attempts[Cur(s)].hasStream ==> s.buffer == s.acked)
    requires t < |s.threads| && s.threads[t].Replaying? && Holder(s) == s.threads[t]
    requires s' == s.(lockedBy := -1, threads := s.threads[t := Start(s.threads[t].op)])
    ensures Delivery(s')
  {
    assert s.buffer[..|s.buffer|] == s.buffer;
    assert Pending(s') == [] && s.acked + [] == s.acked && Holder(s') == Idle;
  }

  lemma ReplayedKept(cfg: Config, s: State, t: nat, outcome: Outcome)
    requires Inv(cfg, s) && Enabled(cfg, s, Replay(t, outcome)) && s.threads[t].k == |s.buffer|
    ensures Inv(cfg, After(cfg, s, Replay(t, outcome)))
  {
    var s' := After(cfg, s, Replay(t, outcome));
    Moves(s, s', t, s'.threads[t]);
    HolderHas(s, t);
    hide WellFormed, Roles, Locking;
    assert Opening(s') by { hide Delivery, Books, Budget, InOrder, Logged; }
    assert Logged(s') by { hide Delivery, Books, Budget, InOrder, Opening; }
    assert Books(s') by { hide Delivery, Budget, InOrder, Opening, Logged; }
    assert Budget(cfg, s') by { hide Delivery, Books, InOrder, Opening, Logged; }
    assert InOrder(s') by { hide Delivery, Books, Budget, Opening, Logged; }
    BufferedAll(s);
    hide Books, Budget, InOrder, Opening, Delivery, Logged;
    ReplayedDelivers(s, t, s');
  }

  lemma BufferedAll(s: State)
    requires s.threads != [] && s.attempts != [] && Delivery(s) && Logged(s) && Holder(s).Replaying?
    requires Holder(s).k <= |s.buffer|
    ensures s.buffer <= s.acked && (s.attempts[Cur(s)].hasStream ==> s.buffer == s.acked)
  {}

  lemma RestartKept(cfg: Config, s: State, t: nat, ok: bool)
    requires Inv(cfg, s) && Enabled(cfg, s, Settle(t, ok)) && s.threads[t].on != Cur(s)
    ensures Inv(cfg, After(cfg, s, Settle(t, ok)))
  {
    var s' := After(cfg, s, Settle(t, ok));
    Places(cfg, s, t);
    hide Opening, Logged, Delivery, Books, Locking, Roles;
    QuietKept(cfg, s, s', t, Start(s.threads[t].op));
  }

  lemma HeaderKept(cfg: Config, s: State, t: nat, ok: bool)
    requires Inv(cfg, s) && Enabled(cfg, s, Settle(t, ok)) && s.threads[t].on == Cur(s) && s.threads[t].op.Receive?
      && Succeeds(s.threads[t].outcome, ok)
    ensures Inv(cfg, After(cfg, s, Settle(t, ok)))
  {
    var s' := After(cfg, s, Settle(t, ok));
    Moves(s, s', t, s'.threads[t]);
    hide WellFormed, Roles, Locking;
    assert Opening(s') by { hide Delivery, Books, Budget, InOrder; }
    assert Logged(s') by { hide Delivery, Books, Budget, InOrder; }
    assert Books(s') by { hide Delivery, Budget, InOrder; }
    assert Budget(cfg, s') by { hide Delivery, Books, InOrder; }
    assert InOrder(s') by { hide Delivery, Books, Budget; }
    hide Books, Budget, InOrder;
  }

  lemma BufferLogs(cfg: Config, s: State, op: Op)
    requires Logged(s) && !op.Receive?
    ensures var b := BufferLocked(cfg, s, op);
            && b == s.(buffer := b.buffer, bufferSize := b.bufferSize, committed := b.committed, commits := b.commits)
            && (s.committed ==> b.committed)
            && b.buffer == (if b.committed then [] else s.acked + [op]) && Writes(s.acked + [op])
            && b.commits == (if b.committed then 1 else 0) && (s.finished ==> b.committed)
  {}

  /** What a successful operation of the sender changes. */
  lemma SentStep(cfg: Config, s: State, ok: bool)
    requires Inv(cfg, s) && Enabled(cfg, s, Settle(0, ok)) && s.threads[0].on == Cur(s)
    requires Succeeds(s.threads[0].outcome, ok)
    ensures var p := s.threads[0];
            var s' := After(cfg, s, Settle(0, ok));
            && s' == s.(threads := s.threads[0 := Idle], acked := s.acked + [p.op], ready := s.ready || p.op.NewStream?,
                        buffer := s'.buffer, bufferSize := s'.bufferSize, committed := s'.committed,
                        commits := s'.commits)
            && Logged(s') && (s.committed ==> s'.committed) && Sound(s', 0, Idle)
  {
    hide Delivery, Books, Budget, InOrder, Opening, WellFormed, Locking, BufferLocked, Writes;
    BufferLogs(cfg, s, s.threads[0].op);
  }

  lemma SentDelivers(s: State, s': State)
    requires s.threads != [] && Delivery(s) && !Holder(s).Replaying? && !Holder(s').Replaying?
    requires s.threads[0].Checking? && s'.threads != [] && s'.threads[0] == Idle && s'.attempts == s.attempts
    requires s'.acked == s.acked + [s.threads[0].op]
    requires s.threads[0].on == Cur(s) && s.attempts != []
    ensures Delivery(s')
  {
    assert Pending(s') == [] && s'.acked + [] == s'.acked;
    assert s.acked + Pending(s) <= s'.acked;
    assert s.acked + [] == s.acked;
  }

  lemma SentOpening(s: State, s': State)
    requires s.threads != [] && Opening(s) && s.threads[0].Checking?
    requires s'.threads != [] && s'.threads[0] == Idle && s'.attempts == s.attempts != []
    requires s'.acked == s.acked + [s.threads[0].op] && s'.ready == (s.ready || s.threads[0].op.NewStream?)
    ensures Opening(s')
  {}

  lemma SameBooks(s: State, s': State)
    requires Books(s) && s'.attempts == s.attempts && !Holder(s').Creating?
    ensures Books(s')
  {}

  lemma SentKept(cfg: Config, s: State, ok: bool)
    requires Inv(cfg, s) && Enabled(cfg, s, Settle(0, ok)) && s.threads[0].on == Cur(s)
    requires Succeeds(s.threads[0].outcome, ok)
    ensures Inv(cfg, After(cfg, s, Settle(0, ok)))
  {
    var s' := After(cfg, s, Settle(0, ok));
    SentStep(cfg, s, ok);
    hide After, Delivery, Logged;
    Moves(s, s', 0, Idle);
    assert Holder(s) == Idle == Holder(s');
    hide WellFormed, Roles, Locking;
    SentDelivers(s, s');
    SentOpening(s, s');
    SameBooks(s, s');
    hide Opening, Books;
    assert Budget(cfg, s') by { hide InOrder; }
    assert InOrder(s') by { hide Budget; }
  }

  lemma RetryKept(cfg: Config, s: State, t: nat, ok: bool)
    requires Inv(cfg, s) && Enabled(cfg, s, Settle(t, ok)) && s.threads[t].on == Cur(s)
    requires !Succeeds(s.threads[t].outcome, ok)
    ensures Inv(cfg, After(cfg, s, Settle(t, ok)))
  {
    var s' := After(cfg, s, Settle(t, ok));
    Places(cfg, s, t);
    hide Opening, Logged, Delivery, Books, Locking, Roles, Completed, BufferLocked, CommitLocked;
    QuietKept(cfg, s, s', t, s'.threads[t]);
  }

  lemma EnterKept(cfg: Config, s: State, t: nat)
    requires Inv(cfg, s) && Enabled(cfg, s, Enter(t))
    ensures Inv(cfg, After(cfg, s, Enter(t)))
  {
    var s' := After(cfg, s, Enter(t));
    Places(cfg, s, t);
    hide Opening, Logged, Delivery, Books, Locking, Roles;
    QuietKept(cfg, s, s', t, s'.threads[t]);
  }

  lemma CreateKept(cfg: Config, s: State, t: nat)
    requires Inv(cfg, s) && Enabled(cfg, s, Create(t, true))
    ensures Inv(cfg, After(cfg, s, Create(t, true)))
  {
    var s' := After(cfg, s, Create(t, true));
    assert s' == s.(threads := s.threads[t := Replaying(s.threads[t].op, 0)], created := s.created + 1,
                    attempts := s.attempts + [Attempt(false, true, false, 0, [])]);
    hide After, DoCreate, Refused;
    Moves(s, s', t, s'.threads[t]);
    hide WellFormed, Roles, Locking;
    assert Opening(s') by { hide Delivery, Books, Budget, InOrder, Logged; }
    assert Logged(s') by { hide Delivery, Books, Budget, InOrder; }
    assert Books(s') by { hide Delivery, Budget, InOrder; }
    assert Budget(cfg, s') by { hide Delivery, Books, InOrder, Opening, Logged; }
    assert InOrder(s') by { hide Delivery, Books, Budget, Opening, Logged; }
    hide Books, Budget, InOrder;
    assert Pending(s') == [];
  }

  lemma NoTransportKept(cfg: Config, s: State, t: nat)
    requires Inv(cfg, s) && Enabled(cfg, s, Create(t, false))
    ensures Inv(cfg, After(cfg, s, Create(t, false)))
  {
    var s' := After(cfg, s, Create(t, false));
    Places(cfg, s, t);
    hide Opening, Logged, Delivery, Books, Locking, Roles;
    QuietKept(cfg, s, s', t, Failed);
  }

  lemma ReplayKept(cfg: Config, s: State, t: nat, outcome: Outcome)
    requires Inv(cfg, s) && Enabled(cfg, s, Replay(t, outcome)) && s.threads[t].k < |s.buffer|
    ensures Inv(cfg, After(cfg, s, Replay(t, outcome)))
  {
    var s' := After(cfg, s, Replay(t, outcome));
    var k, c := s.threads[t].k, Cur(s);
    var ran := Ran(s.attempts[c], s.buffer[k], outcome);
    assert s' == s.(threads := s'.threads, attempts := s.attempts[c := ran]);
    ReplayedOne(s.buffer, k, s.attempts[c], outcome);
    hide After;
    Moves(s, s', t, s'.threads[t]);
    hide WellFormed, Roles, Locking;
    assert Opening(s') by { hide Delivery, Books, Budget, InOrder, Logged; }
    assert Logged(s') by { hide Delivery, Books, Budget, InOrder; }
    assert Books(s') by { hide Delivery, Budget, InOrder; }
    assert Budget(cfg, s') by { hide Delivery, Books, InOrder, Opening, Logged; }
    assert InOrder(s') by { hide Delivery, Books, Budget, Opening, Logged; }
    hide Books, Budget, InOrder, Opening;
    assert outcome.Fine? || Pending(s') == [];
    assert s.acked + [] == s.acked;
  }

  lemma ExecuteReceiveKept(cfg: Config, s: State, t: nat, outcome: Outcome)
    requires Inv(cfg, s) && Enabled(cfg, s, Execute(t, outcome)) && t > 0 && s.threads[t].Running?
    ensures Inv(cfg, After(cfg, s, Execute(t, outcome)))
  {
    var s' := After(cfg, s, Execute(t, outcome));
    Places(cfg, s, t);
    hide Opening, Logged, Delivery, Books, Locking, Roles;
    QuietKept(cfg, s, s', t, s'.threads[t]);
  }

  /** What an operation of the sender changes before it is checked. */
  lemma ExecuteSendStep(cfg: Config, s: State, outcome: Outcome)
    requires Inv(cfg, s) && Enabled(cfg, s, Execute(0, outcome)) && s.threads[0].Running?
    ensures var p := s.threads[0];
            && p.on < |s.attempts| && !p.op.Receive?
            && After(cfg, s, Execute(0, outcome))
               == s.(threads := s.threads[0 := Checking(p.op, p.on, outcome)],
                     attempts := s.attempts[p.on := Ran(s.attempts[p.on], p.op, outcome)])
  {
    hide Opening, Logged, Delivery, Books, Budget, InOrder, Locking, CanResult;
  }

  lemma ExecuteSendOpening(s: State, s': State, outcome: Outcome)
    requires s.threads != [] && Opening(s) && s.threads[0].Running? && s.threads[0].on < |s.attempts|
    requires var p := s.threads[0];
             s' == s.(threads := s.threads[0 := Checking(p.op, p.on, outcome)],
                      attempts := s.attempts[p.on := Ran(s.attempts[p.on], p.op, outcome)])
    ensures Opening(s')
  {}

  lemma ExecuteSendKept(cfg: Config, s: State, outcome: Outcome)
    requires Inv(cfg, s) && Enabled(cfg, s, Execute(0, outcome)) && s.threads[0].Running?
    ensures Inv(cfg, After(cfg, s, Execute(0, outcome)))
  {
    var s' := After(cfg, s, Execute(0, outcome));
    ExecuteSendStep(cfg, s, outcome);
    SendDelivers(cfg, s, outcome);
    ExecuteSendOpening(s, s', outcome);
    hide After, Delivery, Opening;
    Moves(s, s', 0, s'.threads[0]);
    hide WellFormed, Roles, Locking;
    ExecuteSendBooks(s, s', outcome);
    hide Books;
    assert Logged(s') by { hide Budget, InOrder; }
    assert Budget(cfg, s') by { hide InOrder, Logged; }
    assert InOrder(s') by { hide Budget, Logged; }
  }

  lemma ExecuteSendBooks(s: State, s': State, outcome: Outcome)
    requires Books(s) && s.threads != [] && s.threads[0].Running? && s.threads[0].on < |s.attempts|
    requires var p := s.threads[0];
             s' == s.(threads := s'.threads, attempts := s.attempts[p.on := Ran(s.attempts[p.on], p.op, outcome)])
    requires Holder(s').Creating? == Holder(s).Creating?
    ensures Books(s')
  {}

  lemma ReceiveCommittedKept(cfg: Config, s: State, t: nat, outcome: Outcome)
    requires Inv(cfg, s) && Enabled(cfg, s, Execute(t, outcome)) && t > 0 && s.threads[t].RunningCommitted?
    ensures Inv(cfg, After(cfg, s, Execute(t, outcome)))
  {
    var s' := After(cfg, s, Execute(t, outcome));
    Places(cfg, s, t);
    hide Opening, Logged, Delivery, Books, Locking, Roles;
    QuietKept(cfg, s, s', t, s'.threads[t]);
  }

  /** What an operation of the sender on a committed attempt changes. */
  lemma SendCommittedStep(cfg: Config, s: State, outcome: Outcome)
    requires Inv(cfg, s) && Enabled(cfg, s, Execute(0, outcome)) && s.threads[0].RunningCommitted?
    ensures var s', p, c := After(cfg, s, Execute(0, outcome)), s.threads[0], Cur(s);
            && 0 <= c < |s.attempts|
            && s' == s.(threads := s'.threads,
                        attempts := s.attempts[c := Ran(s.attempts[c], p.op, outcome)],
                        sendFailed := s.sendFailed || !outcome.Fine?,
                        acked := if outcome.Fine? then s.acked + [p.op] else s.acked)
            && s'.threads == s.threads[0 := s'.threads[0]] && !Active(s'.threads[0])
            && !p.op.Receive? && !p.op.NewStream? && s.ready && s.committed
  {
    hide Logged, Delivery, Books, Budget, InOrder, Locking, CanResult;
  }

  lemma SendCommittedKept(cfg: Config, s: State, outcome: Outcome)
    requires Inv(cfg, s) && Enabled(cfg, s, Execute(0, outcome)) && s.threads[0].RunningCommitted?
    ensures Inv(cfg, After(cfg, s, Execute(0, outcome)))
  {
    var s' := After(cfg, s, Execute(0, outcome));
    SendCommittedStep(cfg, s, outcome);
    CommittedDelivers(cfg, s, outcome);
    hide After, Delivery;
    Moves(s, s', 0, s'.threads[0]);
    hide WellFormed, Roles, Locking;
    assert Opening(s') by { hide Books, Budget, InOrder, Logged; }
    assert Logged(s') by { hide Books, Budget, InOrder, Opening; }
    assert Books(s') by { hide Budget, InOrder, Opening, Logged; }
    assert Budget(cfg, s') by { hide Books, InOrder, Opening, Logged; }
    assert InOrder(s') by { hide Books, Budget, Opening, Logged; }
  }

  lemma ReplayedOne(buffer: seq<Op>, k: nat, a: Attempt, outcome: Outcome)
    requires k < |buffer| && !buffer[k].Receive?
    requires a.delivered <= buffer[..k] && (a.alive ==> a.delivered == buffer[..k])
    ensures var ran := Ran(a, buffer[k], outcome);
            ran.delivered <= buffer[..k + 1] && (ran.alive ==> ran.delivered == buffer[..k + 1])
  {
    assert buffer[..k] + [buffer[k]] == buffer[..k + 1];
  }

  lemma SendDelivers(cfg: Config, s: State, outcome: Outcome)
    requires Inv(cfg, s) && Enabled(cfg, s, Execute(0, outcome)) && s.threads[0].Running?
    ensures var p := s.threads[0];
            Delivery(s.(threads := s.threads[0 := Checking(p.op, p.on, outcome)],
                        attempts := s.attempts[p.on := Ran(s.attempts[p.on], p.op, outcome)]))
  {
    hide Books, Budget, InOrder;
    var p := s.threads[0];
    var s' := s.(threads := s.threads[0 := Checking(p.op, p.on, outcome)],
                 attempts := s.attempts[p.on := Ran(s.attempts[p.on], p.op, outcome)]);
    assert Holder(s') == Holder(s);
    hide WellFormed, Roles, Locking;
    assert s.acked + [] == s.acked;
    if p.on == Cur(s) {
      assert Pending(s) == [];
      assert Delivered(s', s'.attempts[Cur(s)]);
    } else {
      assert Pending(s) == Pending(s') == [];
      assert Delivered(s', s'.attempts[Cur(s)]);
    }
  }

  lemma CommittedDelivers(cfg: Config, s: State, outcome: Outcome)
    requires Inv(cfg, s) && Enabled(cfg, s, Execute(0, outcome)) && s.threads[0].RunningCommitted?
    ensures Delivery(After(cfg, s, Execute(0, outcome)))
  {
    var s' := After(cfg, s, Execute(0, outcome));
    var p, c := s.threads[0], Cur(s);
    var ran := Ran(s.attempts[c], p.op, outcome);
    assert s'.attempts == s.attempts[c := ran] && s'.buffer == s.buffer && s'.lockedBy == s.lockedBy;
    assert s'.acked == if outcome.Fine? then s.acked + [p.op] else s.acked;
    assert Holder(s') == Holder(s) && !Active(s'.threads[0]);
    hide After, WellFormed, Roles, Locking, Books, Budget, InOrder;
    assert Pending(s) == Pending(s') == [];
    assert s'.acked + [] == s'.acked && s.acked + [] == s.acked;
    assert Delivered(s', ran);
  }

  lemma CommitKept(cfg: Config, s: State)
    requires Inv(cfg, s) && s.lockedBy == -1 && (s.ready || !Active(s.threads[0]))
    ensures Inv(cfg, CommitLocked(s))
  {
    var s' := CommitLocked(s);
    assert s'.threads == s'.threads[0 := s'.threads[0]];
    Moves(s, s', 0, s.threads[0]);
    hide WellFormed, Roles, Locking;
    assert Books(s') by { hide Delivery, Budget, InOrder; }
    hide Books, Budget;
    assert Pending(s') == Pending(s);
  }

  lemma CloseKept(cfg: Config, s: State)
    requires Inv(cfg, s) && s.attempts != []
    ensures Inv(cfg, Closed(s))
  {
    hide Opening, Logged, Delivery, Books, Budget, InOrder, Locking, Roles, WellFormed;
    TouchedKept(cfg, s, Closed(s), Cur(s), FinishedOnce(s.attempts[Cur(s)]));
  }

  lemma FlagDelivers(s: State)
    requires s.threads != [] && Delivery(s)
    ensures Delivery(s.(finished := true))
  {
    assert Pending(s.(finished := true)) == Pending(s) && Holder(s.(finished := true)) == Holder(s);
  }

  lemma FlagOpening(s: State)
    requires s.threads != [] && Opening(s)
    ensures Opening(s.(finished := true))
  {}

  lemma FlagRest(cfg: Config, s: State)
    requires s.threads != [] && Logged(s) && Books(s) && Budget(cfg, s) && InOrder(s) && s.committed
    ensures var s' := s.(finished := true); Logged(s') && Books(s') && Budget(cfg, s') && InOrder(s')
  {
    assert Holder(s.(finished := true)) == Holder(s);
  }

  lemma FlagKept(cfg: Config, s: State)
    requires Inv(cfg, s) && s.committed
    ensures Inv(cfg, s.(finished := true))
  {
    var s' := s.(finished := true);
    hide Delivery, Opening, Logged, Books, Budget, InOrder;
    FlagDelivers(s);
    FlagOpening(s);
    FlagRest(cfg, s);
    assert s'.threads == s'.threads[0 := s'.threads[0]];
    Moves(s, s', 0, s.threads[0]);
  }

  lemma FinishKept(cfg: Config, s: State)
    requires Inv(cfg, s) && s.lockedBy == -1 && (s.ready || !Active(s.threads[0]))
    ensures Inv(cfg, FinishLocked(s)) && FinishLocked(s).threads == s.threads
  {
    hide Inv;
    if s.finished { return; }
    CommitKept(cfg, s);
    var c := CommitLocked(s);
    if c.attempts != [] {
      CloseKept(cfg, c);
      FlagKept(cfg, Closed(c));
      assert FinishLocked(s) == Closed(c).(finished := true);
    } else {
      FlagKept(cfg, c);
      assert FinishLocked(s) == c.(finished := true);
    }
  }

  lemma RestKept(cfg: Config, s: State, t: nat)
    requires Inv(cfg, s) && t < |s.threads| && s.threads[t].Failed?
    ensures Inv(cfg, At(s, t, Idle))
  {
    Places(cfg, s, t);
    hide Opening, Logged, Delivery, Books, Locking, Roles;
    QuietKept(cfg, s, At(s, t, Idle), t, Idle);
  }

  lemma QuitKept(cfg: Config, s: State, t: nat)
    requires Inv(cfg, s) && Enabled(cfg, s, Quit(t))
    ensures Inv(cfg, After(cfg, s, Quit(t)))
  {
    FinishKept(cfg, s);
    RestKept(cfg, FinishLocked(s), t);
  }

  /** An attempt changes in its liveness or is finished, and keeps what it has taken. */
  predicate Touched(a: Attempt, b: Attempt) {
    && b.hasStream == a.hasStream && b.delivered == a.delivered && (b.alive ==> a.alive)
    && (a.finished ==> b.finished)
    && (a.doneCalls == (if a.finished then 1 else 0) ==> b.doneCalls == if b.finished then 1 else 0)
  }

  lemma TouchedDelivers(s: State, s': State, i: nat, b: Attempt)
    requires s.threads != [] && Delivery(s) && i < |s.attempts| && Touched(s.attempts[i], b)
    requires s' == s.(attempts := s.attempts[i := b])
    ensures Delivery(s')
  {
    assert Pending(s') == Pending(s) && Holder(s') == Holder(s);
  }

  lemma TouchedBooks(s: State, s': State, i: nat, b: Attempt)
    requires Books(s) && i < |s.attempts| && Touched(s.attempts[i], b) && s' == s.(attempts := s.attempts[i := b])
    ensures Books(s')
  {
    assert Holder(s') == Holder(s);
  }

  lemma TouchedOpening(s: State, s': State, i: nat, b: Attempt)
    requires s.threads != [] && Opening(s) && i < |s.attempts| && Touched(s.attempts[i], b)
    requires s' == s.(attempts := s.attempts[i := b])
    ensures Opening(s')
  {}

  lemma TouchedKept(cfg: Config, s: State, s': State, i: nat, b: Attempt)
    requires Inv(cfg, s) && i < |s.attempts| && Touched(s.attempts[i], b) && s' == s.(attempts := s.attempts[i := b])
    ensures Inv(cfg, s')
  {
    TouchedDelivers(s, s', i, b);
    TouchedBooks(s, s', i, b);
    TouchedOpening(s, s', i, b);
    hide Delivery, Books, Opening, Touched;
    assert s'.threads == s'.threads[0 := s'.threads[0]];
    Moves(s, s', 0, s.threads[0]);
    hide WellFormed, Roles, Locking;
  }

  lemma DieKept(cfg: Config, s: State, i: nat)
    requires Inv(cfg, s) && Enabled(cfg, s, Die(i))
    ensures Inv(cfg, After(cfg, s, Die(i)))
  {
    hide Opening, Logged, Delivery, Books, Budget, InOrder, Locking, Roles, WellFormed;
    TouchedKept(cfg, s, After(cfg, s, Die(i)), i, s.attempts[i].(alive := false));
  }

  /** Every action keeps the invariant. */
  lemma StepKeeps(cfg: Config, s: State, a: Action)
    requires Inv(cfg, s) && Enabled(cfg, s, a)
    ensures Inv(cfg, After(cfg, s, a))
  {
    match a
    case Begin(t, op) => BeginKept(cfg, s, t, op);
    case Enter(t) => EnterKept(cfg, s, t);
    case Execute(t, outcome) =>
      if s.threads[t].Running? {
        if t == 0 { ExecuteSendKept(cfg, s, outcome); } else { ExecuteReceiveKept(cfg, s, t, outcome); }
      } else {
        if t == 0 { SendCommittedKept(cfg, s, outcome); } else { ReceiveCommittedKept(cfg, s, t, outcome); }
      }
    case Settle(t, ok) => SettleKept(cfg, s, t, ok);
    case Judge(t, e) =>
      if ShouldRetry(cfg, Closed(s), s.threads[t].outcome, e).GiveUp? { SurrenderKept(cfg, s, t, e); }
      else { JudgeKept(cfg, s, t, e); }
    case Create(t, found) => if found { CreateKept(cfg, s, t); } else { NoTransportKept(cfg, s, t); }
    case Replay(t, outcome) =>
      if s.threads[t].k == |s.buffer| { ReplayedKept(cfg, s, t, outcome); } else { ReplayKept(cfg, s, t, outcome); }
    case Quit(t) => QuitKept(cfg, s, t);
    case Die(i) => DieKept(cfg, s, i);
    case CommitNow => CommitKept(cfg, s);
    case FinishNow => FinishKept(cfg, s);
  }

  lemma SettleKept(cfg: Config, s: State, t: nat, ok: bool)
    requires Inv(cfg, s) && Enabled(cfg, s, Settle(t, ok))
    ensures Inv(cfg, After(cfg, s, Settle(t, ok)))
  {
    hide Inv, After;
    var p := s.threads[t];
    if p.on != Cur(s) { RestartKept(cfg, s, t, ok); }
    else if !Succeeds(p.outcome, ok) { RetryKept(cfg, s, t, ok); }
    else if p.op.Receive? { HeaderKept(cfg, s, t, ok); }
    else {
      SenderOnly(cfg, s, t);
      SentKept(cfg, s, ok);
    }
  }

  lemma SenderOnly(cfg: Config, s: State, t: nat)
    requires Inv(cfg, s) && t < |s.threads| && Active(s.threads[t]) && !s.threads[t].op.Receive?
    ensures t == 0
  {}

  // ---------------------------------------------------------------------------------------------
  // Which attempts have their streams

  /** Streams are kept, and threads other than `t` are where they were. */
  predicate Onward(s: State, t: nat, s': State) {
    && t < |s.threads| == |s'.threads| && s'.threads == s.threads[t := s'.threads[t]]
    && |s.attempts| <= |s'.attempts|
    && forall i | 0 <= i < |s.attempts| :: s.attempts[i].hasStream ==> s'.attempts[i].hasStream
  }

  /** A thread moves on without the lock, which nobody has. */
  lemma FreelyStreamed(s: State, t: nat, s': State)
    requires Streamed(s) && Onward(s, t, s') && |s'.attempts| == |s.attempts| && s'.lockedBy == -1
    requires !s'.threads[t].Checking?
    requires s.attempts != [] ==>
               var c, c' := s.attempts[Cur(s)], s'.attempts[Cur(s)];
               && (s'.finished ==> c'.finished)
               && (!s'.ready && (s'.threads[0].Start? || s'.threads[0].Running?) ==> c'.alive && !c'.hasStream)
    ensures Streamed(s')
  {
    assert Holder(s') == Idle;
    forall u | 0 <= u < |s'.threads| && s'.threads[u].Checking? && s'.threads[u].on < |s'.attempts|
      ensures !s'.threads[u].op.NewStream? || !s'.threads[u].outcome.Broken? ==>
                s'.attempts[s'.threads[u].on].hasStream
    {
      assert u != t && s'.threads[u] == s.threads[u];
    }
  }

  lemma BeginStreams(cfg: Config, s: State, t: nat, op: Op)
    requires Inv(cfg, s) && Streamed(s) && Enabled(cfg, s, Begin(t, op))
    ensures Streamed(After(cfg, s, Begin(t, op)))
  {
    BeginStep(cfg, s, t, op);
    hide After, Opening, Logged, Delivery, Books, Budget, InOrder, Roles;
    assert Holder(After(cfg, s, Begin(t, op))) == Holder(s);
  }

  lemma EnterStreams(cfg: Config, s: State, t: nat)
    requires Inv(cfg, s) && Streamed(s) && Enabled(cfg, s, Enter(t))
    ensures Streamed(After(cfg, s, Enter(t)))
  {
    Places(cfg, s, t);
    hide Opening, Logged, Delivery, Books, Budget, InOrder, Roles, WellFormed, Locking;
    FreelyStreamed(s, t, After(cfg, s, Enter(t)));
  }

  /** What running an operation changes. */
  predicate Executed(s: State, t: nat, outcome: Outcome, s': State) {
    && t < |s.threads| == |s'.threads| && (s.threads[t].Running? || s.threads[t].RunningCommitted?)
    && s'.threads == s.threads[t := s'.threads[t]] && s'.lockedBy == s.lockedBy
    && s'.committed == s.committed && s'.finished == s.finished && s'.buffer == s.buffer && s'.ready == s.ready
    && s'.created == s.created
    && var p := s.threads[t];
       var on := if p.Running? then p.on else Cur(s);
       && 0 <= on < |s.attempts| && (s.attempts[on].hasStream || p.op.NewStream?)
       && s'.attempts == s.attempts[on := Ran(s.attempts[on], p.op, outcome)]
       && (if p.Running? then s'.threads[t] == Checking(p.op, on, outcome)
           else !Active(s'.threads[t]) && s.committed && s.ready)
       && (p.op.NewStream? ==> t == 0 && p.Running? && !outcome.Ended? && !s.ready && on == Cur(s))
       && (p.op.Receive? <==> t != 0)
  }

  lemma ExecuteStep(cfg: Config, s: State, t: nat, outcome: Outcome)
    requires Inv(cfg, s) && Enabled(cfg, s, Execute(t, outcome))
    ensures Executed(s, t, outcome, After(cfg, s, Execute(t, outcome)))
  {
    Places(cfg, s, t);
    InPlace(s, t);
    hide Logged, Delivery, Books, Budget, InOrder, Locking, WellFormed, Roles;
  }

  /** Nobody but the thread with the lock changes the attempt that it is working on. */
  lemma NotWhileReplaying(cfg: Config, s: State, t: nat)
    requires Inv(cfg, s) && Streamed(s) && t < |s.threads| && Holder(s).Replaying?
    ensures !s.threads[t].RunningCommitted?
    ensures s.threads[t].Running? && t == 0 ==> s.threads[t].on < Cur(s)
  {
    hide Logged, Books, Budget, InOrder, Opening, WellFormed, Locking;
  }

  lemma ExecuteStreams(cfg: Config, s: State, t: nat, outcome: Outcome)
    requires Inv(cfg, s) && Streamed(s) && Enabled(cfg, s, Execute(t, outcome))
    ensures Streamed(After(cfg, s, Execute(t, outcome)))
  {
    var s' := After(cfg, s, Execute(t, outcome));
    ExecuteStep(cfg, s, t, outcome);
    if Holder(s).Replaying? { NotWhileReplaying(cfg, s, t); }
    if HoldsLock(s.threads[t]) { HolderHas(s, t); }
    hide After, Enabled, Inv, Streamed;
    NotHolder(cfg, s, t);
    assert Holder(s') == Holder(s);
    ExecutedStreams(s, t, outcome, s');
  }

  lemma NotHolder(cfg: Config, s: State, t: nat)
    requires Inv(cfg, s) && t < |s.threads| && !HoldsLock(s.threads[t])
    ensures s.lockedBy != t
  {}

  lemma ExecutedStreams(s: State, t: nat, outcome: Outcome, s': State)
    requires Streamed(s) && Executed(s, t, outcome, s') && Holder(s') == Holder(s)
    requires Holder(s).Replaying? ==> !s.threads[t].RunningCommitted? && (t == 0 ==> s.threads[t].on < Cur(s))
    ensures Streamed(s')
  {
    hide Holder;
    var p := s.threads[t];
    var on := if p.Running? then p.on else Cur(s);
    assert s'.attempts[on].hasStream || (p.op.NewStream? && outcome.Broken?);
  }

  lemma SettleStreams(cfg: Config, s: State, t: nat, ok: bool)
    requires Inv(cfg, s) && Streamed(s) && Enabled(cfg, s, Settle(t, ok))
    ensures Streamed(After(cfg, s, Settle(t, ok)))
  {
    var p, s' := s.threads[t], After(cfg, s, Settle(t, ok));
    Places(cfg, s, t);
    SettledOn(cfg, s, t);
    OnlyLogged(cfg, s, p.op);
    hide Opening, Logged, Delivery, Books, Budget, InOrder, Roles, WellFormed, Locking;
    if p.on == Cur(s) && !Succeeds(p.outcome, ok) {
      hide Completed;
      RetriesStreamed(s, t, s');
    } else {
      LoggedFlags(cfg, s, p.op);
      hide BufferLocked, CommitLocked;
      FreelyStreamed(s, t, s');
    }
  }

  lemma RetriesStreamed(s: State, t: nat, s': State)
    requires Streamed(s) && t < |s.threads| && s.threads[t].Checking? && s.threads[t].on == Cur(s) < |s.attempts|
    requires s.lockedBy == -1 && !s.threads[t].outcome.Fine? && (s.threads[t].op.NewStream? ==> !s.committed)
    requires s' == s.(lockedBy := t, threads := s.threads[t := Retrying(s.threads[t].op, s.threads[t].outcome)])
    ensures Streamed(s')
  {
    assert Holder(s') == s'.threads[t];
  }

  lemma SettledOn(cfg: Config, s: State, t: nat)
    requires Inv(cfg, s) && t < |s.threads| && s.threads[t].Checking?
    ensures s.threads[t].on < |s.attempts| && (!s.ready ==> t == 0 && s.threads[t].on == Cur(s))
  {}

  lemma LoggedFlags(cfg: Config, s: State, op: Op)
    ensures var c, b := CommitLocked(s), BufferLocked(cfg, s, op);
            && c.finished == b.finished == s.finished && c.ready == b.ready == s.ready
            && c.lockedBy == b.lockedBy == s.lockedBy
  {}

  /** What the verdict on an attempt changes. */
  predicate Judged(s: State, t: nat, s': State) {
    && t < |s.threads| == |s'.threads| && s'.threads == s.threads[t := s'.threads[t]] && s.threads[t].Retrying?
    && s.attempts != [] && s'.attempts == s.attempts[Cur(s) := FinishedOnce(s.attempts[Cur(s)])]
    && s'.ready == s.ready && s'.finished == s.finished
    && (if s'.threads[t].Creating? then
          && s'.threads[t].op == s.threads[t].op && s'.lockedBy == s.lockedBy && s'.committed == s.committed
          && (s.committed ==> !s.attempts[Cur(s)].hasStream)
        else !Active(s'.threads[t]) && s'.lockedBy == -1 && s'.committed)
  }

  lemma JudgeStep(cfg: Config, s: State, t: nat, e: Evidence)
    requires Inv(cfg, s) && Enabled(cfg, s, Judge(t, e))
    ensures Judged(s, t, After(cfg, s, Judge(t, e)))
  {
    InPlace(s, t);
    hide Opening, Logged, Delivery, Books, Budget, InOrder, Roles, WellFormed, Locking, ShouldRetry, Judged, Refused,
         Resolved;
    var f, p := Closed(s), s.threads[t];
    VerdictMeans(cfg, f, p.outcome, e);
    var v := ShouldRetry(cfg, f, p.outcome, e);
    if v.GiveUp? { JudgedOver(s, t, p); } else { JudgedAgain(s, t, v); }
  }

  lemma JudgedOver(s: State, t: nat, p: Phase)
    requires t < |s.threads| && s.threads[t] == p && p.Retrying? && s.attempts != []
    ensures Judged(s, t, Refused(CommitLocked(Closed(s)).(lockedBy := -1), t, p.op, p.outcome))
  {}

  lemma JudgedAgain(s: State, t: nat, v: Verdict)
    requires t < |s.threads| && s.threads[t].Retrying? && s.attempts != []
    requires s.committed ==> !s.attempts[Cur(s)].hasStream
    ensures Judged(s, t, Resolved(Closed(s), t, v))
  {}

  lemma JudgeStreams(cfg: Config, s: State, t: nat, e: Evidence)
    requires Inv(cfg, s) && Streamed(s) && Enabled(cfg, s, Judge(t, e))
    ensures Streamed(After(cfg, s, Judge(t, e)))
  {
    var s' := After(cfg, s, Judge(t, e));
    HolderHas(s, t);
    JudgeStep(cfg, s, t, e);
    assert s.finished ==> s.committed;
    hide Inv, After, Enabled;
    if s'.threads[t].Creating? {
      CreatesStreamed(s, t, s');
    } else {
      GivenUp(cfg, s, t, s');
      FreelyStreamed(s, t, s');
    }
  }

  lemma CreatesStreamed(s: State, t: nat, s': State)
    requires Streamed(s) && t < |s.threads| == |s'.threads| && s.lockedBy == t == s'.lockedBy && s.threads[t].Retrying?
    requires !s.committed && !s.finished && !s'.committed && !s'.finished && s'.ready == s.ready
    requires s'.threads == s.threads[t := Creating(s.threads[t].op)]
    requires s.attempts != [] && s'.attempts == s.attempts[Cur(s) := FinishedOnce(s.attempts[Cur(s)])]
    ensures Streamed(s')
  {
    assert Holder(s') == s'.threads[t];
  }

  /** Before the stream is ready only the sender is doing anything. */
  lemma GivenUp(cfg: Config, s: State, t: nat, s': State)
    requires Inv(cfg, s) && t < |s.threads| == |s'.threads| && Active(s.threads[t])
    requires s'.threads == s.threads[t := s'.threads[t]] && !Active(s'.threads[t]) && s'.ready == s.ready
    ensures !s'.ready ==> !Active(s'.threads[0])
  {
    Places(cfg, s, t);
  }

  lemma CreateStreams(cfg: Config, s: State, t: nat, found: bool)
    requires Inv(cfg, s) && Streamed(s) && Enabled(cfg, s, Create(t, found))
    ensures Streamed(After(cfg, s, Create(t, found)))
  {
    var s' := After(cfg, s, Create(t, found));
    HolderHas(s, t);
    assert s.finished ==> s.committed;
    Places(cfg, s, t);
    hide Opening, Logged, Delivery, Books, Budget, InOrder, Roles, Locking, Streamed;
    if found {
      CheckedInRange(s);
      hide WellFormed, Refused;
      CreatedStreams(s, t, s');
    } else {
      GivenUp(cfg, s, t, s');
      hide WellFormed;
      NoneStreams(s, t, s');
    }
  }

  lemma CheckedInRange(s: State)
    requires WellFormed(s)
    ensures forall u | 0 <= u < |s.threads| && s.threads[u].Checking? :: s.threads[u].on < |s.attempts|
  {}

  lemma NoneStreams(s: State, t: nat, s': State)
    requires Streamed(s) && t < |s.threads| == |s'.threads| && s'.threads == s.threads[t := Failed]
    requires s'.attempts == s.attempts && s'.lockedBy == -1 && s'.finished == s.finished
    requires !s'.ready ==> !Active(s'.threads[0])
    ensures Streamed(s')
  {
    FreelyStreamed(s, t, s');
  }

  lemma CreatedStreams(s: State, t: nat, s': State)
    requires Streamed(s) && t < |s.threads| && s.threads[t].Creating? && s.lockedBy == t && !s.finished
    requires (s.ready || t == 0) && Holder(s) == s.threads[t]
    requires forall u | 0 <= u < |s.threads| && s.threads[u].Checking? :: s.threads[u].on < |s.attempts|
    requires s' == s.(created := s.created + 1, attempts := s.attempts + [Attempt(false, true, false, 0, [])],
                      threads := s.threads[t := Replaying(s.threads[t].op, 0)])
    ensures Streamed(s')
  {
    assert Holder(s') == Replaying(s.threads[t].op, 0);
  }

  /** What is being replayed starts with the opening of the stream. */
  lemma ReplaysOpening(cfg: Config, s: State, t: nat)
    requires Inv(cfg, s) && Streamed(s) && t < |s.threads| && s.threads[t].Replaying?
    ensures !s.committed && s.lockedBy == t && s.attempts != [] && s.threads[t].k <= |s.buffer|
    ensures if s.ready then s.buffer != [] && s.buffer[0].NewStream? else s.buffer == [] && t == 0
  {
    HolderHas(s, t);
    hide Delivery, Books, Budget, InOrder, Roles;
  }

  lemma ReplayStreams(cfg: Config, s: State, t: nat, outcome: Outcome)
    requires Inv(cfg, s) && Streamed(s) && Enabled(cfg, s, Replay(t, outcome))
    ensures Streamed(After(cfg, s, Replay(t, outcome)))
  {
    var p, s' := s.threads[t], After(cfg, s, Replay(t, outcome));
    ReplaysOpening(cfg, s, t);
    hide Opening, Logged, Delivery, Books, Budget, InOrder, Roles, WellFormed, Locking;
    if p.k == |s.buffer| {
      FreelyStreamed(s, t, s');
    } else {
      hide Enabled;
      assert p.k == 0 ==> s.buffer[p.k].NewStream?;
      ReplayedStreams(s, t, outcome, s');
    }
  }

  lemma ReplayedStreams(s: State, t: nat, outcome: Outcome, s': State)
    requires Streamed(s) && t < |s.threads| && s.threads[t].Replaying? && s.lockedBy == t && Holder(s) == s.threads[t]
    requires s.attempts != [] && s.threads[t].k < |s.buffer| && (s.ready || t == 0)
    requires s.threads[t].k == 0 ==> s.buffer[0].NewStream? && !outcome.Ended?
    requires var p, c := s.threads[t], Cur(s);
             s' == s.(attempts := s.attempts[c := Ran(s.attempts[c], s.buffer[p.k], outcome)],
                      threads := s.threads[t := if outcome.Fine? then Replaying(p.op, p.k + 1)
                                                else Retrying(p.op, outcome)])
    ensures Streamed(s')
  {
    assert Holder(s') == s'.threads[t];
  }

  lemma FinishStreams(s: State)
    requires Streamed(s) && s.lockedBy == -1
    ensures Streamed(FinishLocked(s)) && Streamed(CommitLocked(s))
  {
    var c, f := CommitLocked(s), FinishLocked(s);
    assert Holder(c) == Holder(f) == Idle;
  }

  lemma QuitStreams(cfg: Config, s: State, t: nat)
    requires Inv(cfg, s) && Streamed(s) && Enabled(cfg, s, Quit(t))
    ensures Streamed(After(cfg, s, Quit(t)))
  {
    FinishStreams(s);
    var f := FinishLocked(s);
    assert f.threads == s.threads && f.lockedBy == -1;
    var f' := At(f, t, Idle);
    assert After(cfg, s, Quit(t)) == f';
    hide FinishLocked, Inv, After, Enabled;
    RestStreams(f, t, f');
  }

  lemma RestStreams(f: State, t: nat, f': State)
    requires Streamed(f) && t < |f.threads| && f.lockedBy == -1 && f' == At(f, t, Idle)
    ensures Streamed(f')
  {
    FreelyStreamed(f, t, f');
  }

  lemma DieStreams(cfg: Config, s: State, i: nat)
    requires Inv(cfg, s) && Streamed(s) && Enabled(cfg, s, Die(i))
    ensures Streamed(After(cfg, s, Die(i)))
  {
    var s' := After(cfg, s, Die(i));
    assert s' == s.(attempts := s.attempts[i := s.attempts[i].(alive := false)]);
    assert Holder(s') == Holder(s);
    hide Inv, After, Enabled, Holder;
  }

  lemma StepStreams(cfg: Config, s: State, a: Action)
    requires Inv(cfg, s) && Streamed(s) && Enabled(cfg, s, a)
    ensures Streamed(After(cfg, s, a))
  {
    hide Inv, Streamed;
    match a
    case Begin(t, op) => BeginStreams(cfg, s, t, op);
    case Enter(t) => EnterStreams(cfg, s, t);
    case Execute(t, outcome) => ExecuteStreams(cfg, s, t, outcome);
    case Settle(t, ok) => SettleStreams(cfg, s, t, ok);
    case Judge(t, e) => JudgeStreams(cfg, s, t, e);
    case Create(t, found) => CreateStreams(cfg, s, t, found);
    case Replay(t, outcome) => ReplayStreams(cfg, s, t, outcome);
    case Quit(t) => QuitStreams(cfg, s, t);
    case Die(i) => DieStreams(cfg, s, i);
    case CommitNow => FinishStreams(s);
    case FinishNow => FinishStreams(s);
  }

  // ---------------------------------------------------------------------------------------------
  // Whole runs

  ghost predicate IsRun(cfg: Config, receivers: nat, run: seq<State>, actions: seq<Action>) {
    && |run| == |actions| + 1 && run[0] == Initial(receivers)
    && forall i | 0 <= i < |actions| :: Step(cfg, run[i], actions[i], run[i + 1])
  }

  lemma {:induction false} RunKeeps(cfg: Config, receivers: nat, run: seq<State>, actions: seq<Action>, i: nat)
    requires IsRun(cfg, receivers, run, actions) && i < |run|
    ensures Inv(cfg, run[i]) && Streamed(run[i])
  {
    hide Inv, Enabled, After, Streamed;
    if i == 0 {
      InitialHolds(cfg, receivers);
    } else {
      RunKeeps(cfg, receivers, run, actions, i - 1);
      assert Step(cfg, run[i - 1], actions[i - 1], run[i]);
      StepKeeps(cfg, run[i - 1], actions[i - 1]);
      StepStreams(cfg, run[i - 1], actions[i - 1]);
    }
  }

  /** At every point of every run, the current attempt has taken what has completed, once and in
      order; while the stream is not committed the buffer holds just that, and what the application
      has asked for has been done in the order in which it was asked for. */
  lemma ExactDelivery(cfg: Config, receivers: nat, run: seq<State>, actions: seq<Action>, i: nat)
    requires IsRun(cfg, receivers, run, actions) && i < |run|
    ensures var s := run[i];
            && s.threads != [] && (!s.committed ==> s.buffer == s.acked)
            && (s.attempts != [] ==>
                  var c := s.attempts[|s.attempts| - 1];
                  && c.delivered <= s.acked + Pending(s)
                  && (c.alive && c.hasStream && !Holder(s).Replaying? ==> c.delivered == s.acked + Pending(s))
                  && (c.alive && c.hasStream && s.committed && !s.sendFailed && s.threads[0].Idle? ==>
                        c.delivered == s.begun))
  {
    RunKeeps(cfg, receivers, run, actions, i);
    hide IsRun, Books, Budget, Opening, Roles, Locking;
    var s := run[i];
    if s.attempts != [] { CurrentDelivery(s, s.attempts[|s.attempts| - 1]); }
  }

  lemma CurrentDelivery(s: State, c: Attempt)
    requires s.threads != [] && Delivery(s) && Logged(s) && InOrder(s) && s.attempts != [] && c == s.attempts[Cur(s)]
    requires Holder(s).Replaying? ==> Holder(s).k <= |s.buffer|
    ensures c.delivered <= s.acked + Pending(s)
    ensures c.alive && c.hasStream && !Holder(s).Replaying? ==> c.delivered == s.acked + Pending(s)
    ensures c.alive && c.hasStream && s.committed && !s.sendFailed && s.threads[0].Idle? ==> c.delivered == s.begun
  {
    assert s.acked + [] == s.acked;
    if Holder(s).Replaying? {
      assert s.buffer[..Holder(s).k] <= s.buffer;
      assert Pending(s) == [];
    }
    if s.threads[0].Idle? { assert Pending(s) == []; }
  }

  /** The current attempt is the same, with its stream and everything it had taken. */
  predicate Stays(s: State, s': State) {
    && s'.committed && |s'.attempts| == |s.attempts| > 0
    && var (c, c') := (s.attempts[Cur(s)], s'.attempts[Cur(s)]);
       c.hasStream && c'.hasStream && c.delivered <= c'.delivered
  }

  lemma AttemptStays(s: State, s': State, i: nat, a: Attempt)
    requires s.committed && s'.committed && s.attempts != [] && s.attempts[Cur(s)].hasStream
    requires i < |s.attempts| && s'.attempts == s.attempts[i := a]
    requires (s.attempts[i].hasStream ==> a.hasStream) && s.attempts[i].delivered <= a.delivered
    ensures Stays(s, s')
  {}

  predicate Engaged(s: State) {
    s.committed && s.attempts != [] && s.attempts[Cur(s)].hasStream
  }

  lemma ExecuteStays(cfg: Config, s: State, t: nat, outcome: Outcome)
    requires Inv(cfg, s) && Enabled(cfg, s, Execute(t, outcome)) && Engaged(s)
    ensures Stays(s, After(cfg, s, Execute(t, outcome)))
  {
    hide Delivery, Budget, InOrder, Opening, Roles, CanResult, Logged, Locking, Books, Stays;
    var p := s.threads[t];
    var i := if p.Running? then p.on else Cur(s);
    AttemptStays(s, After(cfg, s, Execute(t, outcome)), i, Ran(s.attempts[i], p.op, outcome));
  }

  lemma NobodyCreates(cfg: Config, s: State, t: nat)
    requires Inv(cfg, s) && Streamed(s) && Engaged(s) && t < |s.threads|
    ensures !s.threads[t].Creating?
  {
    hide Delivery, Budget, InOrder, Opening, Roles, Logged, WellFormed, Books;
    assert HoldsLock(s.threads[t]) ==> Holder(s) == s.threads[t];
  }

  lemma RetryStays(cfg: Config, s: State, a: Action)
    requires Inv(cfg, s) && Enabled(cfg, s, a) && Engaged(s) && (a.Judge? || a.Replay?)
    ensures Stays(s, After(cfg, s, a))
  {
    hide Delivery, Budget, InOrder, Opening, Roles, CanResult, ShouldRetry, Logged, Stays, Locking, Books;
    if a.Replay? && s.threads[a.t].k < |s.buffer| {
      AttemptStays(s, After(cfg, s, a), Cur(s), Ran(s.attempts[Cur(s)], s.buffer[s.threads[a.t].k], a.outcome));
    } else {
      var same := if a.Judge? then FinishedOnce(s.attempts[Cur(s)]) else s.attempts[Cur(s)];
      AttemptStays(s, After(cfg, s, a), Cur(s), same);
    }
  }

  /** Whatever leaves the attempts alone, or finishes the current one, keeps it in place. */
  lemma OthersStay(cfg: Config, s: State, a: Action)
    requires Inv(cfg, s) && Enabled(cfg, s, a) && Engaged(s)
    requires !a.Execute? && !a.Judge? && !a.Create? && !a.Replay?
    ensures Stays(s, After(cfg, s, a))
  {
    hide Delivery, Budget, InOrder, Opening, Roles, CanResult, ShouldRetry, Logged, Locking, Books, Stays;
    var s', c := After(cfg, s, a), s.attempts[Cur(s)];
    assert s'.committed;
    if a.Die? {
      AttemptStays(s, s', a.i, s.attempts[a.i].(alive := false));
    } else if (a.Quit? || a.FinishNow?) && !s.finished {
      AttemptStays(s, s', Cur(s), FinishedOnce(c));
    } else {
      assert s'.attempts == s.attempts == s.attempts[Cur(s) := c];
      AttemptStays(s, s', Cur(s), c);
    }
  }

  /** One action cannot take a stream away from a committed RPC. */
  lemma StepStays(cfg: Config, s: State, a: Action)
    requires Inv(cfg, s) && Streamed(s) && Enabled(cfg, s, a) && Engaged(s)
    ensures Stays(s, After(cfg, s, a))
  {
    if a.Execute? {
      ExecuteStays(cfg, s, a.t, a.outcome);
    } else if a.Judge? || a.Replay? {
      RetryStays(cfg, s, a);
    } else if a.Create? {
      NobodyCreates(cfg, s, a.t);
      assert false;
    } else {
      OthersStay(cfg, s, a);
    }
  }

  /** Once committed with a stream, an attempt is never replaced, and never loses what it took. */
  lemma {:induction false} NeverReplaced(cfg: Config, receivers: nat, run: seq<State>, actions: seq<Action>, i: nat,
                                         j: nat)
    requires IsRun(cfg, receivers, run, actions) && i <= j < |run|
    requires Engaged(run[i])
    ensures run[j].committed && |run[j].attempts| == |run[i].attempts|
    ensures run[j].attempts[Cur(run[j])].hasStream
    ensures run[i].attempts[Cur(run[i])].delivered <= run[j].attempts[Cur(run[j])].delivered
  {
    hide Inv, Enabled, After, Streamed;
    if i == j {
    } else {
      NeverReplaced(cfg, receivers, run, actions, i, j - 1);
      RunKeeps(cfg, receivers, run, actions, j - 1);
      assert Step(cfg, run[j - 1], actions[j - 1], run[j]);
      StepStays(cfg, run[j - 1], actions[j - 1]);
    }
  }

  /** The cap that the service config puts on a policy's number of attempts. */
  function Capped(maxAttempts: nat): nat {
    if maxAttempts > 5 then 5 else maxAttempts
  }

  /** A fail-fast RPC makes at most one attempt more than its policy allows, the transparent retry. */
  lemma AttemptBound(cfg: Config, receivers: nat, run: seq<State>, actions: seq<Action>, i: nat, configured: nat)
    requires IsRun(cfg, receivers, run, actions) && i < |run| && cfg.failFast
    requires configured >= 2 && cfg.maxAttempts == Some(Capped(configured))
    ensures run[i].numRetries <= Capped(configured) - 1
    ensures |run[i].attempts| <= run[i].created <= Capped(configured) + 1 <= 6
  {
    RunKeeps(cfg, receivers, run, actions, i);
    hide IsRun, WellFormed, Roles, Locking, Opening, Logged, Delivery, Books, InOrder;
  }

  /** The callbacks: `onCommit` at most once, `done` at most once for each attempt, and exactly once
      for every attempt when the stream has finished. */
  lemma CallbacksOnce(cfg: Config, receivers: nat, run: seq<State>, actions: seq<Action>, i: nat)
    requires IsRun(cfg, receivers, run, actions) && i < |run|
    ensures run[i].commits <= 1 && (run[i].commits == 1 <==> run[i].committed)
    ensures forall k | 0 <= k < |run[i].attempts| :: run[i].attempts[k].doneCalls <= 1
    ensures forall k | 0 <= k < |run[i].attempts| - 1 :: run[i].attempts[k].doneCalls == 1
    ensures run[i].finished ==> forall k | 0 <= k < |run[i].attempts| :: run[i].attempts[k].doneCalls == 1
  {
    RunKeeps(cfg, receivers, run, actions, i);
    hide IsRun, WellFormed, Roles, Locking, Opening, Delivery, Budget, InOrder;
  }
}
