/**
 Shutdown of `AsyncProducerLoop`: threads call `run` and `close` on one
 background event loop.  One step is one region under the lock, or one thing a
 future, a coroutine or the loop thread does.  Close attempts may overlap and
 be repeated.
 */
module ProducerLoop {
  import opened Common
  import Runs

  type OpId = nat
  type CallId = nat

  datatype Startup = NotStarted | Starting | Started | StartFailed

  /** The fields behind the lock. */
  datatype Fields = Fields(closed: bool, startup: Startup, active: set<OpId>)

  datatype Runner = Unstarted | AwaitingStartup | Accepted(op: OpId) | RunRaised

  datatype Attempt =
    | CloseCalled
    | AwaitingLoop(snapshot: set<OpId>)
    | Gathering(snapshot: set<OpId>)
    | ClosingClient
    | StoppingLoop
    | AttemptDone
    | AttemptFailed

  /** An accepted operation: its future, and the coroutine that runs on the loop. */
  datatype Op = Op(resolved: bool, ended: bool)

  datatype State = State(
    f: Fields,
    ops: map<OpId, Op>,
    runners: map<CallId, Runner>,
    attempts: map<CallId, Attempt>,
    loopStopped: bool,
    clientCloses: nat,               // client closes that succeeded
    closeStarts: nat)                // client closes that were started

  datatype Action =
    | CallRun(c: CallId)
    | TakeStart(c: CallId)
    | TakeAccept(c: CallId, op: OpId)
    | ThreadStarts(ok: bool)
    | OperationEnds(op: OpId)
    | CallerCancels(op: OpId)
    | CallbackRuns(op: OpId)
    | CallClose(c: CallId)
    | AttemptMoves(c: CallId, ok: bool)

  // ------------------------------------------------ the lock regions

  /** `_start`: none when the loop is closed. */
  function StartRegion(f: Fields): Option<Fields> {
    if f.closed then None
    else if f.startup.NotStarted? then Some(f.(startup := Starting))
    else Some(f)
  }

  /** The acceptance of an operation in `run`. */
  function AcceptRegion(f: Fields, op: OpId): Option<Fields> {
    if f.closed then None else Some(f.(active := f.active + {op}))
  }

  function FinishedRegion(f: Fields, op: OpId): Fields { f.(active := f.active - {op}) }

  function CloseRegion(f: Fields): Fields { f.(closed := true) }

  // ------------------------------------------------ the machine

  function Initial(): State {
    State(Fields(false, NotStarted, {}), map[], map[], map[], false, 0, 0)
  }

  function RunnerStart(s: State, c: CallId): State {
    if c !in s.runners || !s.runners[c].Unstarted? then s
    else
      var r := StartRegion(s.f);
      if r.None? then s.(runners := s.runners[c := RunRaised])
      else s.(f := r.value, runners := s.runners[c := AwaitingStartup])
  }

  function RunnerAccept(s: State, c: CallId, op: OpId): State {
    if c !in s.runners || !s.runners[c].AwaitingStartup? || op in s.ops then s
    else if s.f.startup.StartFailed? then s.(runners := s.runners[c := RunRaised])
    else if !s.f.startup.Started? then s
    else
      var r := AcceptRegion(s.f, op);
      if r.None? then s.(runners := s.runners[c := RunRaised])
      else s.(f := r.value, ops := s.ops[op := Op(false, false)], runners := s.runners[c := Accepted(op)])
  }

  predicate AllResolved(ops: map<OpId, Op>, these: set<OpId>) {
    forall op | op in these && op in ops :: ops[op].resolved
  }

  function WithAttempt(s: State, c: CallId, a: Attempt): State { s.(attempts := s.attempts[c := a]) }

  function AttemptStep(s: State, c: CallId, ok: bool): State
    requires c in s.attempts
  {
    match s.attempts[c]
    case CloseCalled =>
      WithAttempt(s.(f := CloseRegion(s.f)), c, if s.f.startup.NotStarted? then AttemptDone else AwaitingLoop(s.f.active))
    case AwaitingLoop(snapshot) =>
      if !ok || s.f.startup.StartFailed? then WithAttempt(s, c, AttemptFailed)
      else if s.f.startup.Started? then WithAttempt(s, c, Gathering(snapshot))
      else s
    case Gathering(snapshot) =>
      if !ok then WithAttempt(s, c, AttemptFailed)
      else if !AllResolved(s.ops, snapshot) then s
      else if s.loopStopped then WithAttempt(s, c, AttemptFailed)
      else WithAttempt(s.(closeStarts := s.closeStarts + 1), c, ClosingClient)
    case ClosingClient =>
      if ok then WithAttempt(s.(clientCloses := s.clientCloses + 1), c, StoppingLoop) else WithAttempt(s, c, AttemptFailed)
    case StoppingLoop => WithAttempt(s.(loopStopped := true), c, AttemptDone)
    case _ => s
  }

  function Step(s: State, a: Action): State {
    match a
    case CallRun(c) => if c in s.runners then s else s.(runners := s.runners[c := Unstarted])
    case TakeStart(c) => RunnerStart(s, c)
    case TakeAccept(c, op) => RunnerAccept(s, c, op)
    case ThreadStarts(ok) =>
      if s.f.startup.Starting? then s.(f := s.f.(startup := if ok then Started else StartFailed)) else s
    case OperationEnds(op) => if op in s.ops then s.(ops := s.ops[op := Op(true, true)]) else s
    case CallerCancels(op) => if op in s.ops then s.(ops := s.ops[op := s.ops[op].(resolved := true)]) else s
    case CallbackRuns(op) => if op in s.ops && s.ops[op].resolved then s.(f := FinishedRegion(s.f, op)) else s
    case CallClose(c) => if c in s.attempts then s else WithAttempt(s, c, CloseCalled)
    case AttemptMoves(c, ok) => if c in s.attempts then AttemptStep(s, c, ok) else s
  }

  function Stepper(): (State, Action) -> State { (s: State, a: Action) => Step(s, a) }

  // ------------------------------------------------ invariants

  /** An accepted operation is in the active set until its future is resolved. */
  predicate ActiveOk(ops: map<OpId, Op>, active: set<OpId>) {
    forall op | op in ops && !ops[op].resolved :: op in active
  }

  predicate NoneUnresolved(ops: map<OpId, Op>) {
    forall op | op in ops :: ops[op].resolved
  }

  predicate AttemptOk(a: Attempt, f: Fields, ops: map<OpId, Op>, closeStarts: nat, clientCloses: nat) {
    match a
    case CloseCalled => true
    case AwaitingLoop(snapshot) => f.closed && ActiveOk(ops, snapshot)
    case Gathering(snapshot) => f.closed && ActiveOk(ops, snapshot)
    case ClosingClient => closeStarts > 0
    case StoppingLoop => closeStarts > 0 && clientCloses > 0
    case AttemptDone => f.closed && (f.startup.NotStarted? || (closeStarts > 0 && clientCloses > 0))
    case AttemptFailed => f.closed
  }

  predicate AttemptsOk(attempts: map<CallId, Attempt>, f: Fields, ops: map<OpId, Op>, closeStarts: nat, clientCloses: nat) {
    forall c | c in attempts :: AttemptOk(attempts[c], f, ops, closeStarts, clientCloses)
  }

  predicate Inv(s: State) {
    && ActiveOk(s.ops, s.f.active)
    && AttemptsOk(s.attempts, s.f, s.ops, s.closeStarts, s.clientCloses)
    && (s.closeStarts > 0 ==> s.f.closed && NoneUnresolved(s.ops))
    && (s.clientCloses > 0 ==> s.closeStarts > 0)
    && (s.loopStopped ==> s.clientCloses > 0)
    && (s.ops != map[] ==> s.f.startup.Started?)
  }

  lemma AttemptKeeps(s: State, c: CallId, ok: bool)
    requires Inv(s) && c in s.attempts
    ensures Inv(AttemptStep(s, c, ok))
  {
    assert AttemptOk(s.attempts[c], s.f, s.ops, s.closeStarts, s.clientCloses);
    var t := AttemptStep(s, c, ok);
    forall d | d in t.attempts ensures AttemptOk(t.attempts[d], t.f, t.ops, t.closeStarts, t.clientCloses) {
      if d != c {
        assert AttemptOk(s.attempts[d], s.f, s.ops, s.closeStarts, s.clientCloses);
      }
    }
    match s.attempts[c]
    case Gathering(snapshot) =>
      if AllResolved(s.ops, snapshot) {
        forall op | op in s.ops ensures s.ops[op].resolved {
        }
      }
    case _ =>
  }

  lemma AcceptKeeps(s: State, c: CallId, op: OpId)
    requires Inv(s)
    ensures Inv(RunnerAccept(s, c, op))
  {
    var t := RunnerAccept(s, c, op);
    if t.ops != s.ops {
      forall d | d in t.attempts ensures AttemptOk(t.attempts[d], t.f, t.ops, t.closeStarts, t.clientCloses) {
        assert AttemptOk(s.attempts[d], s.f, s.ops, s.closeStarts, s.clientCloses);
      }
    }
  }

  lemma ResolvingKeeps(s: State, op: OpId, ended: bool)
    requires Inv(s) && op in s.ops
    ensures Inv(s.(ops := s.ops[op := Op(true, ended)]))
  {
    var ops := s.ops[op := Op(true, ended)];
    forall d | d in s.attempts ensures AttemptOk(s.attempts[d], s.f, ops, s.closeStarts, s.clientCloses) {
      assert AttemptOk(s.attempts[d], s.f, s.ops, s.closeStarts, s.clientCloses);
    }
  }

  lemma FieldsKeep(s: State, f: Fields)
    requires Inv(s) && f.closed == s.f.closed && ActiveOk(s.ops, f.active)
    requires f.startup == s.f.startup || s.f.startup.Starting? || (s.f.startup.NotStarted? && !s.f.closed)
    requires s.f.startup.Started? ==> f.startup.Started?
    ensures Inv(s.(f := f))
  {
    forall d | d in s.attempts ensures AttemptOk(s.attempts[d], f, s.ops, s.closeStarts, s.clientCloses) {
      assert AttemptOk(s.attempts[d], s.f, s.ops, s.closeStarts, s.clientCloses);
    }
  }

  lemma StepKeepsInv(s: State, a: Action)
    requires Inv(s)
    ensures Inv(Step(s, a))
  {
    match a
    case TakeStart(c) => if !s.f.closed { FieldsKeep(s, StartRegion(s.f).value); }
    case TakeAccept(c, op) => AcceptKeeps(s, c, op);
    case ThreadStarts(ok) => if s.f.startup.Starting? { FieldsKeep(s, s.f.(startup := if ok then Started else StartFailed)); }
    case OperationEnds(op) => if op in s.ops { ResolvingKeeps(s, op, true); }
    case CallerCancels(op) => if op in s.ops { ResolvingKeeps(s, op, s.ops[op].ended); }
    case CallbackRuns(op) => if op in s.ops && s.ops[op].resolved { FieldsKeep(s, FinishedRegion(s.f, op)); }
    case AttemptMoves(c, ok) => if c in s.attempts { AttemptKeeps(s, c, ok); }
    case CallRun(c) =>
    case CallClose(c) =>
  }

  lemma InitialOk()
    ensures Inv(Initial())
  {
  }

  lemma {:induction false} RunKeepsInv(s: State, actions: seq<Action>)
    requires Inv(s)
    ensures Inv(Runs.Run(Stepper(), s, actions))
    decreases |actions|
  {
    if actions != [] {
      var front := actions[..|actions| - 1];
      RunKeepsInv(s, front);
      StepKeepsInv(Runs.Run(Stepper(), s, front), actions[|actions| - 1]);
    }
  }

  /**
   In every interleaving: a client close is started only when closing has begun and every accepted operation's future is resolved; and
   the loop is stopped only after a client close succeeded.  A close attempt that
   is done has stopped a started loop, or there was none.
   */
  lemma ShutdownIsSafe(actions: seq<Action>)
    ensures var s := Runs.Run(Stepper(), Initial(), actions);
            && (s.closeStarts > 0 ==> s.f.closed && forall op | op in s.ops :: s.ops[op].resolved)
            && (s.loopStopped ==> s.clientCloses > 0)
            && (forall c | c in s.attempts && s.attempts[c].AttemptDone? :: s.f.startup.NotStarted? || s.clientCloses > 0)
  {
    InitialOk();
    RunKeepsInv(Initial(), actions);
    var s := Runs.Run(Stepper(), Initial(), actions);
    forall c | c in s.attempts && s.attempts[c].AttemptDone? ensures s.f.startup.NotStarted? || s.clientCloses > 0 {
      assert AttemptOk(s.attempts[c], s.f, s.ops, s.closeStarts, s.clientCloses);
    }
  }

  lemma ClosedStep(s: State, a: Action)
    requires s.f.closed
    ensures var t := Step(s, a); t.f.closed && t.ops.Keys == s.ops.Keys
  {
  }

  /** No operation is accepted after closing began, whatever the threads do. */
  lemma {:induction false} NoNewOperations(s: State, actions: seq<Action>)
    requires s.f.closed
    ensures var t := Runs.Run(Stepper(), s, actions); t.f.closed && t.ops.Keys == s.ops.Keys
    decreases |actions|
  {
    if actions != [] {
      var front := actions[..|actions| - 1];
      NoNewOperations(s, front);
      ClosedStep(Runs.Run(Stepper(), s, front), actions[|actions| - 1]);
    }
  }

  /** A close attempt, as long as nothing fails, from the call to the end. */
  function WholeAttempt(c: CallId): seq<Action> {
    [CallClose(c), AttemptMoves(c, true), AttemptMoves(c, true), AttemptMoves(c, true), AttemptMoves(c, true), AttemptMoves(c, true)]
  }

  /**
   After any number of failed attempts a new one can still succeed: once the
   futures are resolved it closes the client and stops the loop.
   */
  lemma CloseCanBeRetried(s: State, c: CallId)
    requires Inv(s) && s.f.startup.Started? && !s.loopStopped && c !in s.attempts && NoneUnresolved(s.ops)
    ensures var t := Runs.Run(Stepper(), s, WholeAttempt(c));
            t.attempts == s.attempts[c := AttemptDone] && t.loopStopped && t.clientCloses == s.clientCloses + 1
  {
    var middle := s.(f := CloseRegion(s.f), attempts := s.attempts[c := Gathering(s.f.active)]);
    AttemptGathers(s, c);
    AttemptCloses(middle, c, s.attempts, s.f.active);
    var move := AttemptMoves(c, true);
    Runs.RunComposes(Stepper(), s, [CallClose(c), move, move], [move, move, move]);
    assert WholeAttempt(c) == [CallClose(c), move, move] + [move, move, move];
  }

  lemma AttemptGathers(s: State, c: CallId)
    requires s.f.startup.Started? && c !in s.attempts
    ensures Runs.Run(Stepper(), s, [CallClose(c), AttemptMoves(c, true), AttemptMoves(c, true)])
         == s.(f := CloseRegion(s.f), attempts := s.attempts[c := Gathering(s.f.active)])
  {
    var f, m := CloseRegion(s.f), s.attempts;
    var s1 := s.(attempts := m[c := CloseCalled]);
    var s2 := s.(f := f, attempts := m[c := AwaitingLoop(s.f.active)]);
    var s3 := s.(f := f, attempts := m[c := Gathering(s.f.active)]);
    AttemptAdvances(s1, c, s2);
    AttemptAdvances(s2, c, s3);
    Runs.RunAlong(Stepper(), [s, s1, s2, s3], [CallClose(c), AttemptMoves(c, true), AttemptMoves(c, true)]);
  }

  lemma AttemptCloses(s: State, c: CallId, m: map<CallId, Attempt>, snapshot: set<OpId>)
    requires s.attempts == m[c := Gathering(snapshot)] && !s.loopStopped && NoneUnresolved(s.ops)
    ensures Runs.Run(Stepper(), s, [AttemptMoves(c, true), AttemptMoves(c, true), AttemptMoves(c, true)])
         == s.(attempts := m[c := AttemptDone], loopStopped := true, closeStarts := s.closeStarts + 1,
               clientCloses := s.clientCloses + 1)
  {
    var s4 := s.(attempts := m[c := ClosingClient], closeStarts := s.closeStarts + 1);
    var s5 := s4.(attempts := m[c := StoppingLoop], clientCloses := s.clientCloses + 1);
    var s6 := s5.(attempts := m[c := AttemptDone], loopStopped := true);
    AttemptAdvances(s, c, s4);
    AttemptAdvances(s4, c, s5);
    AttemptAdvances(s5, c, s6);
    Runs.RunAlong(Stepper(), [s, s4, s5, s6], [AttemptMoves(c, true), AttemptMoves(c, true), AttemptMoves(c, true)]);
  }

  lemma AttemptAdvances(s: State, c: CallId, t: State)
    requires c in s.attempts && c in t.attempts && s.attempts[c := t.attempts[c]] == t.attempts
    requires AttemptStep(s, c, true) == WithAttempt(t.(attempts := s.attempts), c, t.attempts[c])
    ensures Step(s, AttemptMoves(c, true)) == t
  {
  }

  /** When a close attempt fails: on a loop that did not start or is gone, and where an await fails.  It changes nothing else. */
  lemma AttemptFails(s: State, c: CallId, ok: bool)
    requires c in s.attempts
    requires || (s.attempts[c].AwaitingLoop? && (!ok || s.f.startup.StartFailed?))
             || (s.attempts[c].Gathering? && (!ok || (s.loopStopped && forall op | op in s.ops :: s.ops[op].resolved)))
             || (s.attempts[c].ClosingClient? && !ok)
    ensures Step(s, AttemptMoves(c, ok)) == s.(attempts := s.attempts[c := AttemptFailed])
  {
  }

  /** What `run` comes to behind the startup: on an open loop the operation is accepted, on a closed or failed one it raises. */
  lemma RunAnswers(s: State, c: CallId, op: OpId)
    requires c in s.runners && s.runners[c].AwaitingStartup? && op !in s.ops
    ensures var t := Step(s, TakeAccept(c, op));
            && (s.f.startup.Started? && !s.f.closed ==>
                  && t.runners == s.runners[c := Accepted(op)] && t.ops == s.ops[op := Op(false, false)]
                  && t.f == s.f.(active := s.f.active + {op}))
            && (s.f.startup.StartFailed? || (s.f.startup.Started? && s.f.closed) ==> t == s.(runners := s.runners[c := RunRaised]))
            && (s.f.startup.Starting? || s.f.startup.NotStarted? ==> t == s)
  {
  }

  // ------------------------------------------------ coroutines and the close

  /** The state after a run. */
  function Reached(actions: seq<Action>): State { Runs.Run(Stepper(), Initial(), actions) }

  lemma ReachedNext(actions: seq<Action>, k: nat)
    requires k < |actions|
    ensures Reached(actions[..k + 1]) == Step(Reached(actions[..k]), actions[k])
  {
    assert actions[..k + 1][..k] == actions[..k];
  }

  predicate Unfinished(s: State, op: OpId) { op in s.ops && !s.ops[op].ended }

  /** Action `k` cancelled the future of the accepted, unfinished operation, whose coroutine has not ended since. */
  predicate CancelledAndStillRunning(actions: seq<Action>, op: OpId, k: nat)
    requires k < |actions|
  {
    && actions[k] == CallerCancels(op)
    && Unfinished(Reached(actions[..k]), op)
    && forall j | k < j < |actions| :: actions[j] != OperationEnds(op)
  }

  ghost predicate WasCancelled(actions: seq<Action>, op: OpId) {
    exists k: nat | k < |actions| :: CancelledAndStillRunning(actions, op, k)
  }

  /** A resolved future with a running coroutine comes from nothing but a cancellation. */
  lemma UnfinishedStep(s: State, a: Action, op: OpId)
    ensures Unfinished(s, op) ==> (Unfinished(Step(s, a), op) <==> a != OperationEnds(op))
    ensures op in s.ops && s.ops[op].ended ==> op in Step(s, a).ops && Step(s, a).ops[op].ended
    ensures Unfinished(Step(s, a), op) && Step(s, a).ops[op].resolved ==>
              Unfinished(s, op) && (s.ops[op].resolved || a == CallerCancels(op))
  {
  }

  lemma {:induction false} UnfinishedWasCancelled(actions: seq<Action>, op: OpId)
    requires Unfinished(Reached(actions), op) && Reached(actions).ops[op].resolved
    ensures WasCancelled(actions, op)
    decreases |actions|
  {
    if actions != [] {
      var n := |actions| - 1;
      var front, last := actions[..n], actions[n];
      assert actions[..n + 1] == actions;
      ReachedNext(actions, n);
      UnfinishedStep(Reached(front), last, op);
      if last == CallerCancels(op) {
        assert CancelledAndStillRunning(actions, op, n);
      } else {
        UnfinishedWasCancelled(front, op);
        var k: nat :| k < |front| && CancelledAndStillRunning(front, op, k);
        assert front[..k] == actions[..k];
        assert CancelledAndStillRunning(actions, op, k);
      }
    }
  }

  lemma StaysUnfinished(actions: seq<Action>, op: OpId, n: nat)
    requires n < |actions| && Unfinished(Reached(actions[..n]), op) && actions[n] != OperationEnds(op)
    ensures Unfinished(Reached(actions[..n + 1]), op)
  {
    ReachedNext(actions, n);
    UnfinishedStep(Reached(actions[..n]), actions[n], op);
  }

  lemma {:induction false} CancelledIsUnfinished(actions: seq<Action>, op: OpId, k: nat, n: nat)
    requires k < n <= |actions| && CancelledAndStillRunning(actions, op, k)
    ensures Unfinished(Reached(actions[..n]), op)
    decreases n
  {
    if n - 1 > k { CancelledIsUnfinished(actions, op, k, n - 1); }
    StaysUnfinished(actions, op, n - 1);
  }

  /**
   What can outlive the close.  Once a client close was started, an accepted
   operation is unfinished if and only if its future was cancelled while its
   coroutine was running and the coroutine has not ended since.
   */
  lemma UnfinishedAtCloseIffCancelled(actions: seq<Action>, op: OpId)
    requires Reached(actions).closeStarts > 0 && op in Reached(actions).ops
    ensures Unfinished(Reached(actions), op) <==> WasCancelled(actions, op)
  {
    if Unfinished(Reached(actions), op) {
      ShutdownIsSafe(actions);
      UnfinishedWasCancelled(actions, op);
    }
    if WasCancelled(actions, op) {
      var k: nat :| k < |actions| && CancelledAndStillRunning(actions, op, k);
      CancelledIsUnfinished(actions, op, k, |actions|);
      assert actions[..|actions|] == actions;
    }
  }

  /** So where no caller is cancelled, every accepted operation has ended before the client is closed. */
  lemma UncancelledOperationsEndFirst(actions: seq<Action>)
    requires Reached(actions).closeStarts > 0 && forall k | 0 <= k < |actions| :: !actions[k].CallerCancels?
    ensures forall op | op in Reached(actions).ops :: Reached(actions).ops[op].ended
  {
    forall op | op in Reached(actions).ops ensures Reached(actions).ops[op].ended {
      UnfinishedAtCloseIffCancelled(actions, op);
    }
  }

  /**
   The future is what is waited for, not the coroutine: a caller that is
   cancelled resolves the future at once, so the client can be closed while the
   coroutine is still on the loop.
   */
  lemma CancelledOperationCanOutliveClose()
    ensures exists actions :: var s := Runs.Run(Stepper(), Initial(), actions);
              s.closeStarts > 0 && exists op :: op in s.ops && !s.ops[op].ended
  {
    var s5 := CancelledRun();
    var c: CallId := 1;
    var s8 := s5.(f := CloseRegion(s5.f), attempts := s5.attempts[c := Gathering({7})]);
    AttemptGathers(s5, c);
    var s9 := s8.(attempts := s5.attempts[c := ClosingClient], closeStarts := 1);
    AttemptAdvances(s8, c, s9);
    var tail := [CallClose(c), AttemptMoves(c, true), AttemptMoves(c, true)] + [AttemptMoves(c, true)];
    Runs.RunComposes(Stepper(), s5, tail[..3], tail[3..]);
    assert tail[..3] == [CallClose(c), AttemptMoves(c, true), AttemptMoves(c, true)] && tail[3..] == [AttemptMoves(c, true)];
    Runs.RunOfOne(Stepper(), s8, AttemptMoves(c, true));
    assert tail == tail[..3] + tail[3..];
    Runs.RunComposes(Stepper(), Initial(), CancelledActions(), tail);
    assert Runs.Run(Stepper(), Initial(), CancelledActions() + tail) == s9;
    assert 7 in s9.ops && !s9.ops[7].ended && s9.closeStarts > 0;
  }

  function CancelledActions(): seq<Action> {
    [CallRun(0), TakeStart(0), ThreadStarts(true), TakeAccept(0, 7), CallerCancels(7)]
  }

  lemma CancelledRun() returns (s: State)
    ensures s == Runs.Run(Stepper(), Initial(), CancelledActions())
    ensures s == State(Fields(false, Started, {7}), map[7 := Op(true, false)], map[0 := Accepted(7)], map[], false, 0, 0)
  {
    var s0 := Initial();
    var s1 := s0.(runners := map[0 := Unstarted]);
    var s2 := s1.(f := Fields(false, Starting, {}), runners := map[0 := AwaitingStartup]);
    var s3 := s2.(f := Fields(false, Started, {}));
    var s4 := s3.(f := Fields(false, Started, {7}), ops := map[7 := Op(false, false)], runners := map[0 := Accepted(7)]);
    s := s4.(ops := map[7 := Op(true, false)]);
    assert s1 == Step(s0, CallRun(0));
    assert s2 == Step(s1, TakeStart(0));
    assert s3 == Step(s2, ThreadStarts(true));
    assert s4 == Step(s3, TakeAccept(0, 7));
    assert s == Step(s4, CallerCancels(7));
    Runs.RunAlong(Stepper(), [s0, s1, s2, s3, s4, s], CancelledActions());
  }

  // ------------------------------------------------ the loop object

  class AsyncProducerLoop {
    var startup: Startup
    var active: set<OpId>
    var closed: bool

    ghost function View(): Fields
      reads this
    {
      Fields(closed, startup, active)
    }

    constructor ()
      ensures View() == Initial().f
    {
      startup, active, closed := NotStarted, {}, false;
    }

    /** `_start`; starting the thread can fail, which leaves no trace. */
    method Start(threadStarts: bool) returns (ok: bool)
      modifies this
      ensures ok <==> !old(closed) && (!old(startup).NotStarted? || threadStarts)
      ensures ok ==> StartRegion(old(View())) == Some(View())
      ensures !ok ==> View() == old(View())
    {
      if closed { return false; }
      if !startup.NotStarted? { return true; }
      startup := Starting;
      if !threadStarts {
        startup := NotStarted;
        return false;
      }
      return true;
    }

    method Accept(op: OpId) returns (ok: bool)
      modifies `active
      ensures AcceptRegion(old(View()), op) == if ok then Some(View()) else None
      ensures !ok ==> View() == old(View())
    {
      if closed { return false; }
      active := active + {op};
      return true;
    }

    method OperationFinished(op: OpId)
      modifies `active
      ensures View() == FinishedRegion(old(View()), op)
    {
      active := active - {op};
    }

    /** The locked region of `_close_once`. */
    method BeginClose() returns (started: bool, snapshot: set<OpId>)
      modifies `closed
      ensures View() == CloseRegion(old(View())) && snapshot == active && started == !startup.NotStarted?
    {
      closed := true;
      return !startup.NotStarted?, active;
    }

    /**
     `run` with nobody else about: an operation that was accepted has left the
     active set when `run` returns, and none is accepted on a closed or failed loop.
     */
    method RunAlone(op: OpId, threadStarts: bool, clientMade: bool) returns (ran: bool)
      requires op !in active && !startup.Starting?
      modifies this
      ensures active == old(active) && closed == old(closed) && !startup.Starting?
      ensures ran ==> !closed && startup.Started?
      ensures ran <==> !old(closed) && (old(startup).Started? || (old(startup).NotStarted? && threadStarts && clientMade))
    {
      var ok := Start(threadStarts);
      if !ok { return false; }
      if startup.Starting? { startup := if clientMade then Started else StartFailed; }
      if startup.StartFailed? { return false; }
      ran := Accept(op);
      if ran { OperationFinished(op); }
    }

    /**
     `_close_once` with nobody else about: it closes the client only after every
     operation of its snapshot has left the active set, and stops the loop only
     after the client is closed.
     */
    method CloseAlone(closes: bool) returns (clientClosed: bool, loopStopped: bool)
      requires !startup.Starting?
      modifies this
      ensures closed && startup == old(startup)
      ensures startup.Started? ==> active == {} && clientClosed == closes
      ensures loopStopped == clientClosed && (clientClosed ==> startup.Started? && active == {})
      ensures !startup.Started? ==> active == old(active)
    {
      var started, pending := BeginClose();
      if !started || startup.StartFailed? { return false, false; }
      while pending != {}
        invariant closed && startup == old(startup) && active == pending
        decreases |pending|
      {
        var op :| op in pending;
        OperationFinished(op);
        pending := pending - {op};
      }
      return closes, closes;
    }
  }
}
